/**
 * What the bot receives and sends: inbound messages, the button labels and callback
 * strings, the keyboards, the confirmation summary and the operator notification.
 */
module Messages {
  import opened Wrappers

  /** Label of the reply button that starts a registration; pressing it sends this text. */
  const TriggerLabel: string := "🌊 Записаться на тур"
  /** Label of the reply button that aborts a registration. */
  const CancelLabel: string := "❌ Отмена"
  /** Callback data of the inline buttons under the confirmation summary. */
  const ConfirmCallback: string := "confirm"
  const RestartCallback: string := "restart"
  const OfferLink: string := "https://disk.yandex.ru/i/ваша_оферта"

  /** The sender of a message; `username` is absent for users without a public handle. */
  datatype User = User(id: nat, username: Option<string>)

  /**
   * An inbound chat message: its text, its caption (set on media messages instead of the text),
   * the file ids of the sizes of an attached photo (smallest first), an attached document's file id.
   */
  datatype Message = Message(text: Option<string>, caption: Option<string>,
                             photo: seq<string>, document: Option<string>, sender: User)

  /** A message typed (or sent by a reply button) with the given text and nothing attached. */
  function TextMessage(text: string, sender: User): Message {
    Message(Some(text), None, [], None, sender)
  }

  /** The truth value of `message.photo or message.document`. */
  predicate HasAttachment(m: Message) {
    |m.photo| > 0 || m.document.Some?
  }

  datatype Button =
    | TextButton(text: string)
    | CallbackButton(text: string, data: string)
    | UrlButton(text: string, url: string)

  datatype Keyboard =
    | ReplyKeyboard(rows: seq<seq<Button>>, resize: bool)
    | InlineKeyboard(rows: seq<seq<Button>>)
    | NoKeyboard

  /** The persistent keyboard offering the registration trigger. */
  function MainKb(): Keyboard {
    ReplyKeyboard([[TextButton(TriggerLabel)]], true)
  }

  /** The keyboard shown while a field is being entered, offering cancel. */
  function CancelKb(): Keyboard {
    ReplyKeyboard([[TextButton(CancelLabel)]], true)
  }

  /** The inline keyboard under the confirmation summary. */
  function ConfirmKb(): Keyboard {
    InlineKeyboard([[CallbackButton("✅ Да, продолжить", ConfirmCallback)],
                    [CallbackButton("✏️ Исправить", RestartCallback)],
                    [UrlButton("📄 Оферта", OfferLink)]])
  }

  /**
   * The user-facing replies. Fixed texts (the tour description, the prompts, the payment
   * instructions) are presentation and are named, not spelled out; the summary carries
   * the text built from the session data.
   */
  datatype Reply =
    | Greeting
    | AskName
    | AskPhone
    | Cancelled
    | Summary(text: string)
    | PaymentInstructions
    | AskReceipt
    | Accepted

  /** One outbound call to the chat service. */
  datatype Send =
    | Answer(reply: Reply, keyboard: Keyboard)       // message.answer
    | AnswerCallback                                 // callback.answer()
    | EditText(reply: Reply)                         // callback.message.edit_text
    | SendMessage(chat: string, text: string)        // bot.send_message to the operator
    | SendPhoto(chat: string, fileId: string)        // bot.send_photo to the operator
    | SendDocument(chat: string, fileId: string)     // bot.send_document to the operator

  const SummaryHead: string := "✅ *Шаг 3/3*\nПроверьте данные:\n👤 *ФИО:* "
  const SummaryMid: string := "\n📞 *Телефон:* "
  const SummaryTail: string := "\n💵 *Депозит:* 20 000 ₽\n\nВсё верно?"

  /** The summary the user is asked to confirm. */
  function ConfirmationText(name: string, phone: string): string {
    SummaryHead + name + SummaryMid + phone + SummaryTail
  }

  const AdminHead: string := "🔥 *НОВАЯ ЗАЯВКА НА БАЙКАЛ!*\n\n👤 *ФИО:* "
  const AdminPhoneLabel: string := "\n📞 *Телефон:* "
  const AdminIdLabel: string := "\n🆔 *ID:* "
  const AdminUserLabel: string := "\n👤 *Username:* "
  const AdminTimeLabel: string := "\n📅 *Время:* "
  const AdminTail: string := "\n💵 *Сумма:* 79 000 ₽\n💰 *Депозит:* 20 000 ₽"

  /** The user's handle as shown to the operator: `@handle`, or `@нет` when there is none. */
  function UsernameTag(username: Option<string>): (tag: string)
    ensures |tag| > 1 && tag[0] == '@'
    ensures username.Some? && username.value != "" ==> tag[1..] == username.value
    ensures username.None? || username.value == "" ==> tag == "@нет"
  {
    "@" + if username.Some? && username.value != "" then username.value else "нет"
  }

  /** The decimal digit for `d`. */
  function Digit(d: nat): char
    requires d < 10
  {
    ('0' as int + d) as char
  }

  predicate IsDigit(c: char) {
    '0' <= c <= '9'
  }

  /** `str(n)`: the decimal numeral of `n`, without leading zeros. */
  function Decimal(n: nat): (s: string)
    ensures |s| > 0
    ensures forall i :: 0 <= i < |s| ==> IsDigit(s[i])
    ensures |s| > 1 ==> s[0] != '0'
    ensures (n == 0) == (s == "0")
  {
    if n < 10 then [Digit(n)] else Decimal(n / 10) + [Digit(n % 10)]
  }

  /** The number a string of decimal digits denotes. */
  function DigitsValue(s: string): nat
    requires forall i :: 0 <= i < |s| ==> IsDigit(s[i])
  {
    if s == [] then 0
    else
      assert IsDigit(s[|s| - 1]);
      10 * DigitsValue(s[..|s| - 1]) + (s[|s| - 1] as int - '0' as int)
  }

  /** The text sent to the operator for a completed registration; `now` is the formatted clock reading. */
  function AdminText(name: string, phone: string, user: User, now: string): string {
    AdminHead + name + AdminPhoneLabel + phone + AdminDetails(user, now)
  }

  /** The part of the operator text after the phone: who sent it, when, and the fixed amounts. */
  function AdminDetails(user: User, now: string): string {
    AdminIdLabel + Decimal(user.id) + AdminUserLabel + UsernameTag(user.username)
      + AdminTimeLabel + now + AdminTail
  }

  /** The truth value of the `ADMIN_ID` setting: present and not empty. */
  predicate IsSet(adminId: Option<string>) {
    adminId.Some? && adminId.value != ""
  }

  /**
   * The calls the payment handler intends to make to the operator: none when no operator is
   * configured; otherwise the notification text, then the largest photo size if a photo is
   * attached, else the document if one is attached.
   */
  function AdminSends(adminId: Option<string>, text: string, m: Message): seq<Send> {
    if !IsSet(adminId) then []
    else
      var chat := adminId.value;
      [SendMessage(chat, text)]
        + if |m.photo| > 0 then [SendPhoto(chat, m.photo[|m.photo| - 1])]
          else if m.document.Some? then [SendDocument(chat, m.document.value)]
          else []
  }

  /**
   * The calls actually made when call number `failAt` (counting from 0) raises: the calls run in
   * order inside one `try` block, so the failing call is the last one made and the error is
   * logged and swallowed.
   */
  function Attempted(calls: seq<Send>, failAt: Option<nat>): (made: seq<Send>)
    ensures made <= calls
    ensures failAt.Some? && failAt.value < |calls| ==> |made| == failAt.value + 1
    ensures failAt.None? || failAt.value >= |calls| ==> made == calls
  {
    if failAt.Some? && failAt.value < |calls| then calls[..failAt.value + 1] else calls
  }
}
