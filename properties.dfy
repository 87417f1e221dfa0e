/**
 * What the registration flow guarantees: how each kind of event moves a session, the
 * invariant every transition keeps, the rules of the operator notification, and that the
 * buttons the bot shows lead where their labels say.
 */
module Properties {
  import opened Wrappers
  import opened Commands
  import opened Messages
  import opened Registration
  import opened Transitions

  /** The cancel and trigger labels are not the start command. */
  lemma LabelsAreNotCommands()
    ensures !IsStartCommand(CancelLabel) && !IsStartCommand(TriggerLabel)
  {
    NotStartCommand(CancelLabel);
    NotStartCommand(TriggerLabel);
  }

  /** The cancel text reaches `cancel_all` in every step: only `/start` and the trigger come first. */
  lemma CancelRoute(step: Step, m: Message)
    requires m.text == Some(CancelLabel)
    ensures Route(step, Msg(m)) == Some(CancelAll)
  {
    LabelsAreNotCommands();
    assert TextOrCaption(m) == CancelLabel;
    RouteByOrder(step, Msg(m), CancelAll);
  }

  /** The cancel text, in every step, clears the record (even when the reply to the user fails). */
  lemma CancelFromAnyStep(s: Session, m: Message, env: Env)
    requires m.text == Some(CancelLabel)
    ensures Route(s.step, Msg(m)) == Some(CancelAll)
    ensures Next(s, Msg(m), env).session == Initial
  {
    CancelRoute(s.step, m);
  }

  /** The trigger text reaches `start_registration` in every step: only `/start` comes first. */
  lemma TriggerRoute(step: Step, m: Message)
    requires m.text == Some(TriggerLabel)
    ensures Route(step, Msg(m)) == Some(StartRegistration)
  {
    LabelsAreNotCommands();
    assert TextOrCaption(m) == TriggerLabel;
    RouteByOrder(step, Msg(m), StartRegistration);
  }

  /** The trigger text, in every step, moves to the `name` step and keeps the stored data. */
  lemma TriggerFromAnyStep(s: Session, m: Message, env: Env)
    requires m.text == Some(TriggerLabel)
    ensures Route(s.step, Msg(m)) == Some(StartRegistration)
    ensures Next(s, Msg(m), env).session == if env.replyOk then Session(Name, s.data) else s
  {
    TriggerRoute(s.step, m);
  }

  /** The `restart` button, in every step, moves to the `name` step and keeps name and phone. */
  lemma RestartFromAnyStep(s: Session, env: Env)
    ensures Route(s.step, Callback(Some(RestartCallback))) == Some(Restart)
    ensures Next(s, Callback(Some(RestartCallback)), env).session
            == if env.replyOk then Session(Name, s.data) else s
  {
    RouteByOrder(s.step, Callback(Some(RestartCallback)), Restart);
  }

  /** `/start` greets and changes nothing, in every step; it does not interrupt a registration. */
  lemma StartCommandKeepsSession(s: Session, m: Message, env: Env)
    requires IsStartCommand(TextOrCaption(m))
    ensures Route(s.step, Msg(m)) == Some(StartCmd)
    ensures Next(s, Msg(m), env).session == s
    ensures Next(s, Msg(m), env).sent == [Answer(Greeting, MainKb())]
  {
    RouteByOrder(s.step, Msg(m), StartCmd);
  }

  /** In the `name` step, free text is stored verbatim as the name and the step becomes `phone`. */
  lemma NameStepStoresText(s: Session, m: Message, env: Env)
    requires s.step == Name && HasText(m) && FreeText(m.text.value)
    ensures Route(s.step, Msg(m)) == Some(GetName)
    ensures Next(s, Msg(m), env).session.data == s.data.(name := m.text)
    ensures Next(s, Msg(m), env).session.step == if env.replyOk then Phone else Name
  {
    assert TextOrCaption(m) == m.text.value;
    RouteByOrder(s.step, Msg(m), GetName);
  }

  /**
   * In the `phone` step, free text is stored verbatim as the phone (there is no validation),
   * the step becomes `confirm`, and the summary shown is built from the stored name and phone.
   */
  lemma PhoneStepStoresText(s: Session, m: Message, env: Env)
    requires s.step == Phone && s.data.name.Some? && HasText(m) && FreeText(m.text.value)
    ensures Route(s.step, Msg(m)) == Some(GetPhone)
    ensures Next(s, Msg(m), env).session.data == s.data.(phone := m.text)
    ensures Next(s, Msg(m), env).session.step == if env.replyOk then Confirm else Phone
    ensures Next(s, Msg(m), env).sent
            == [Answer(Summary(ConfirmationText(s.data.name.value, m.text.value)), ConfirmKb())]
  {
    assert TextOrCaption(m) == m.text.value;
    RouteByOrder(s.step, Msg(m), GetPhone);
  }

  /** The summary shows the name and the phone exactly, each in its place between the fixed labels. */
  lemma SummaryShowsNameAndPhone(name: string, phone: string)
    ensures var t, i := ConfirmationText(name, phone), |SummaryHead| + |name| + |SummaryMid|;
      t[..|SummaryHead|] == SummaryHead && t[|SummaryHead|..|SummaryHead| + |name|] == name
      && t[|SummaryHead| + |name|..i] == SummaryMid && t[i..i + |phone|] == phone
      && t[i + |phone|..] == SummaryTail
  {
    ConcatSlices(SummaryHead, name, SummaryMid, phone, SummaryTail);
  }

  /** The five pieces of `a + x + b + y + c` can be cut back out at their offsets. */
  lemma ConcatSlices(a: string, x: string, b: string, y: string, c: string)
    ensures var t, i := a + x + b + y + c, |a| + |x| + |b|;
      t[..|a|] == a && t[|a|..|a| + |x|] == x && t[|a| + |x|..i] == b
      && t[i..i + |y|] == y && t[i + |y|..] == c
  {
  }

  /** The `confirm` button moves `confirm` to `payment`; in every other step no handler takes it. */
  lemma ConfirmOnlyInConfirmStep(s: Session, env: Env)
    ensures s.step == Confirm ==>
      (Route(s.step, Callback(Some(ConfirmCallback))) == Some(ConfirmData)
       && Next(s, Callback(Some(ConfirmCallback)), env).session
          == if env.replyOk then Session(Payment, s.data) else s)
    ensures s.step != Confirm ==>
      (Route(s.step, Callback(Some(ConfirmCallback))) == None
       && Next(s, Callback(Some(ConfirmCallback)), env) == Outcome(s, [], None))
  {
    if s.step == Confirm {
      RouteByOrder(s.step, Callback(Some(ConfirmCallback)), ConfirmData);
    } else {
      RouteNone(s.step, Callback(Some(ConfirmCallback)));
    }
  }

  /** A message that neither the command, trigger nor cancel handler claims. */
  predicate Unclaimed(m: Message) {
    m.text != Some(CancelLabel) && m.text != Some(TriggerLabel) && !IsStartCommand(TextOrCaption(m))
  }

  /** In the `payment` step, a message without a photo or document only brings the reprompt. */
  lemma PaymentWithoutReceipt(s: Session, m: Message, env: Env)
    requires s.step == Payment && Unclaimed(m) && !HasAttachment(m)
    ensures Route(s.step, Msg(m)) == Some(GetPayment)
    ensures Next(s, Msg(m), env).session == s
    ensures Next(s, Msg(m), env).sent == [Answer(AskReceipt, NoKeyboard)]
  {
    RouteByOrder(s.step, Msg(m), GetPayment);
  }

  /**
   * In the `payment` step, a message with a photo or document ends in `Idle` with no data,
   * raises nothing, and makes the operator calls and then the acknowledgement, whatever the
   * operator setting and whichever operator call fails.
   */
  lemma PaymentWithReceipt(s: Session, m: Message, env: Env)
    requires Inv(s) && s.step == Payment && Unclaimed(m) && HasAttachment(m) && env.replyOk
    ensures Route(s.step, Msg(m)) == Some(GetPayment)
    ensures Next(s, Msg(m), env).session == Initial
    ensures Next(s, Msg(m), env).raised == None
    ensures Next(s, Msg(m), env).sent
            == Attempted(AdminSends(env.adminId,
                                    AdminText(s.data.name.value, s.data.phone.value, m.sender, env.now), m),
                         env.adminFailAt)
               + [Answer(Accepted, MainKb())]
  {
    RouteByOrder(s.step, Msg(m), GetPayment);
  }

  /**
   * The operator setting, the clock and the fate of the operator calls never change the
   * resulting session, nor whether the handler raises.
   */
  lemma OperatorDeliveryIrrelevant(s: Session, ev: Event, e1: Env, e2: Env)
    requires e1.replyOk == e2.replyOk
    ensures Next(s, ev, e1).session == Next(s, ev, e2).session
    ensures Next(s, ev, e1).raised == Next(s, ev, e2).raised
  {
    match Route(s.step, ev)
    case None =>
    case Some(h) => ApplyIrrelevant(h, s, ev, e1, e2);
  }

  /** `OperatorDeliveryIrrelevant` for one handler. */
  lemma ApplyIrrelevant(h: Handler, s: Session, ev: Event, e1: Env, e2: Env)
    requires Matches(h, s.step, ev) && e1.replyOk == e2.replyOk
    ensures Apply(h, s, ev, e1).session == Apply(h, s, ev, e2).session
    ensures Apply(h, s, ev, e1).raised == Apply(h, s, ev, e2).raised
  {
    match h
    case StartCmd =>
    case StartRegistration =>
    case CancelAll =>
    case GetName =>
    case GetPhone =>
    case Restart =>
    case ConfirmData =>
    case GetPayment =>
  }

  /** In `Idle` and `confirm`, a message the leading handlers do not claim matches no handler. */
  lemma UnclaimedMessageIgnored(s: Session, m: Message, env: Env)
    requires (s.step == Idle || s.step == Confirm) && Unclaimed(m)
    ensures Route(s.step, Msg(m)) == None
    ensures Next(s, Msg(m), env) == Outcome(s, [], None)
  {
    RouteNone(s.step, Msg(m));
  }

  /** In `name` and `phone`, a message without text (and not a captioned `/start`) matches no handler. */
  lemma NonTextIgnored(s: Session, m: Message, env: Env)
    requires (s.step == Name || s.step == Phone) && !HasText(m) && !IsStartCommand(TextOrCaption(m))
    ensures Route(s.step, Msg(m)) == None
    ensures Next(s, Msg(m), env) == Outcome(s, [], None)
  {
    RouteNone(s.step, Msg(m));
  }

  /** A callback other than `restart` and `confirm` matches no handler in any step. */
  lemma OtherCallbackIgnored(s: Session, data: Option<string>, env: Env)
    requires data != Some(RestartCallback) && data != Some(ConfirmCallback)
    ensures Route(s.step, Callback(data)) == None
    ensures Next(s, Callback(data), env) == Outcome(s, [], None)
  {
    RouteNone(s.step, Callback(data));
  }

  /**
   * A field changes to a new value only when its step's handler stores the message text, and
   * that text is free: the cancel text, the trigger text and `/start` never become a name or phone.
   */
  lemma FieldsOnlyFromFreeText(s: Session, ev: Event, env: Env)
    ensures var n := Next(s, ev, env).session.data.name;
      n.Some? && n != s.data.name ==> s.step == Name && ev.Msg? && n == ev.m.text && FreeText(n.value)
    ensures var p := Next(s, ev, env).session.data.phone;
      p.Some? && p != s.data.phone ==> s.step == Phone && ev.Msg? && p == ev.m.text && FreeText(p.value)
  {
    match Route(s.step, ev)
    case None =>
    case Some(h) =>
      HandlerWrites(h, s, ev, env);
      if h == GetName || h == GetPhone {
        RoutedTextIsFree(s, ev, h);
      }
  }

  /** What a handler can do to the data: keep it, clear it, or store the message text in its own field. */
  lemma HandlerWrites(h: Handler, s: Session, ev: Event, env: Env)
    requires Matches(h, s.step, ev)
    ensures var d := Apply(h, s, ev, env).session.data;
      d == s.data || d == NoData
      || (h == GetName && d == s.data.(name := ev.m.text))
      || (h == GetPhone && d == s.data.(phone := ev.m.text))
  {
  }

  /** The text the name or phone handler receives is free: the handlers ahead of them claim the rest. */
  lemma RoutedTextIsFree(s: Session, ev: Event, h: Handler)
    requires Route(s.step, ev) == Some(h) && (h == GetName || h == GetPhone)
    ensures ev.Msg? && HasText(ev.m) && FreeText(ev.m.text.value)
  {
    assert Position(StartCmd) < Position(h) && Position(StartRegistration) < Position(h);
    assert Position(CancelAll) < Position(h);
    UnclaimedTextIsFree(s.step, ev);
  }

  /** Text with no command, trigger or cancel handler claiming it is free text. */
  lemma UnclaimedTextIsFree(step: Step, ev: Event)
    requires ev.Msg? && HasText(ev.m)
    requires !Matches(StartCmd, step, ev) && !Matches(StartRegistration, step, ev)
    requires !Matches(CancelAll, step, ev)
    ensures FreeText(ev.m.text.value)
  {
    LabelsAreNotCommands();
    assert TextOrCaption(ev.m) == ev.m.text.value;
  }

  /** Every transition keeps the invariant. */
  lemma NextPreservesInv(s: Session, ev: Event, env: Env)
    requires Inv(s)
    ensures Inv(Next(s, ev, env).session)
  {
    match Route(s.step, ev)
    case None =>
    case Some(h) =>
      if h == GetName || h == GetPhone {
        RoutedTextIsFree(s, ev, h);
      }
      ApplyPreservesInv(h, s, ev, env);
  }

  /** A handler run on an event it matches keeps the invariant, given free text for the field handlers. */
  lemma ApplyPreservesInv(h: Handler, s: Session, ev: Event, env: Env)
    requires Inv(s) && Matches(h, s.step, ev)
    requires h == GetName || h == GetPhone ==> FreeText(ev.m.text.value)
    ensures Inv(Apply(h, s, ev, env).session)
  {
    match h
    case StartCmd =>
    case StartRegistration =>
    case CancelAll =>
    case GetName =>
    case GetPhone =>
    case Restart =>
    case ConfirmData =>
    case GetPayment =>
  }

  /** From a session that satisfies the invariant, no handler fails on a missing data key. */
  lemma NoMissingKey(s: Session, ev: Event, env: Env)
    requires Inv(s)
    ensures Next(s, ev, env).raised == None || Next(s, ev, env).raised == Some(TransportError)
  {
    match Route(s.step, ev)
    case None =>
    case Some(h) => ApplyNoMissingKey(h, s, ev, env);
  }

  /** `NoMissingKey` for one handler. */
  lemma ApplyNoMissingKey(h: Handler, s: Session, ev: Event, env: Env)
    requires Inv(s) && Matches(h, s.step, ev)
    ensures var r := Apply(h, s, ev, env).raised; r == None || r == Some(TransportError)
  {
    match h
    case GetPhone => assert s.data.name.Some?;
    case GetPayment => assert s.data.name.Some? && s.data.phone.Some?;
    case _ =>
  }

  /** Any sequence of events keeps the invariant. */
  lemma {:induction false} RunPreservesInv(s: Session, evs: seq<(Event, Env)>)
    requires Inv(s)
    ensures Inv(Run(s, evs))
    decreases |evs|
  {
    if evs != [] {
      NextPreservesInv(s, evs[0].0, evs[0].1);
      RunPreservesInv(Next(s, evs[0].0, evs[0].1).session, evs[1..]);
    }
  }

  /**
   * Every session a conversation can reach satisfies the invariant, so the next event cannot
   * fail on `data['name']` or `data['phone']`.
   */
  lemma ReachableIsSafe(evs: seq<(Event, Env)>, ev: Event, env: Env)
    ensures Inv(Run(Initial, evs))
    ensures var r := Next(Run(Initial, evs), ev, env).raised; r == None || r == Some(TransportError)
  {
    RunPreservesInv(Initial, evs);
    NoMissingKey(Run(Initial, evs), ev, env);
  }

  /**
   * The record when a cancel is handled while `get_name` waits on its phone prompt: the name
   * is stored, then `cancel_all` clears the record, then `get_name` resumes and sets `phone`.
   * That record breaks the invariant, and the next phone fails on `data['name']`. Handling a
   * conversation's events one at a time (`Run`, `ReachableIsSafe`) rules this out.
   */
  lemma CancelDuringNamePrompt(u: User, name: string, phone: string, env: Env)
    requires env.replyOk && FreeText(name) && FreeText(phone)
    ensures var stored := Session(Name, Data(Some(name), None));
      var cancelled := Next(stored, Msg(TextMessage(CancelLabel, u)), env).session;
      var resumed := cancelled.(step := Phone);
      cancelled == Initial && !Inv(resumed)
      && Next(resumed, Msg(TextMessage(phone, u)), env).raised == Some(MissingKey("name"))
  {
    var stored := Session(Name, Data(Some(name), None));
    CancelFromAnyStep(stored, TextMessage(CancelLabel, u), env);
    var m := TextMessage(phone, u);
    assert TextOrCaption(m) == phone;
    RouteByOrder(Phone, Msg(m), GetPhone);
  }

  /**
   * The same interleaving at `get_phone`: a cancel handled while the summary is being sent is
   * undone by `set_state(confirm)`. The record is `confirm` with no data; `confirm` then moves it
   * to `payment`, and the receipt raises on `data['name']` before any operator call or
   * acknowledgement.
   */
  lemma CancelDuringSummary(u: User, name: string, phone: string, photoId: string, env: Env)
    requires env.replyOk && FreeText(name) && FreeText(phone)
    ensures var stored := Session(Phone, Data(Some(name), Some(phone)));
      var cancelled := Next(stored, Msg(TextMessage(CancelLabel, u)), env).session;
      var resumed := cancelled.(step := Confirm);
      var paying := Next(resumed, Callback(Some(ConfirmCallback)), env).session;
      var last := Next(paying, Msg(Message(None, None, [photoId], None, u)), env);
      cancelled == Initial && !Inv(resumed) && paying == Session(Payment, NoData)
      && last.raised == Some(MissingKey("name")) && last.sent == []
  {
    var stored := Session(Phone, Data(Some(name), Some(phone)));
    CancelFromAnyStep(stored, TextMessage(CancelLabel, u), env);
    ConfirmOnlyInConfirmStep(Session(Confirm, NoData), env);
    var receipt := Message(None, None, [photoId], None, u);
    assert TextOrCaption(receipt) == "";
    RouteByOrder(Payment, Msg(receipt), GetPayment);
  }

  /** With no operator configured, nothing is sent to the operator. */
  lemma NoOperatorNoSends(adminId: Option<string>, text: string, m: Message)
    ensures AdminSends(adminId, text, m) == [] <==> !IsSet(adminId)
  {
  }

  /** A photo is forwarded in preference to a document, as its largest (last) size. */
  lemma PhotoPreferred(adminId: Option<string>, text: string, m: Message)
    requires IsSet(adminId) && |m.photo| > 0
    ensures AdminSends(adminId, text, m)
            == [SendMessage(adminId.value, text), SendPhoto(adminId.value, m.photo[|m.photo| - 1])]
  {
  }

  /** Without a photo, the document is forwarded, after the notification text. */
  lemma DocumentWithoutPhoto(adminId: Option<string>, text: string, m: Message)
    requires IsSet(adminId) && |m.photo| == 0 && m.document.Some?
    ensures AdminSends(adminId, text, m)
            == [SendMessage(adminId.value, text), SendDocument(adminId.value, m.document.value)]
  {
  }

  /** The operator notification shows the registrant's name, then the phone, exactly. */
  lemma AdminTextShowsNameAndPhone(name: string, phone: string, user: User, now: string)
    ensures var t, i := AdminText(name, phone, user, now), |AdminHead| + |name| + |AdminPhoneLabel|;
      t[..|AdminHead|] == AdminHead && t[|AdminHead|..|AdminHead| + |name|] == name
      && t[|AdminHead| + |name|..i] == AdminPhoneLabel && t[i..i + |phone|] == phone
  {
    ConcatSlices(AdminHead, name, AdminPhoneLabel, phone, AdminDetails(user, now));
  }

  /** `str(n)` reads back as `n`. */
  lemma {:induction false} DecimalRoundTrip(n: nat)
    ensures DigitsValue(Decimal(n)) == n
  {
    var s := Decimal(n);
    if n >= 10 {
      DecimalRoundTrip(n / 10);
      assert s[..|s| - 1] == Decimal(n / 10);
    }
  }

  /** Pressing the main keyboard's button starts a registration, in every step. */
  lemma MainKeyboardStartsRegistration(s: Session, u: User, env: Env)
    ensures var ev := Press(MainKb().rows[0][0], u);
      ev.Some? && Route(s.step, ev.value) == Some(StartRegistration)
      && Next(s, ev.value, env).session == if env.replyOk then Session(Name, s.data) else s
  {
    TriggerFromAnyStep(s, TextMessage(TriggerLabel, u), env);
  }

  /** Pressing the cancel keyboard's button cancels, in every step. */
  lemma CancelKeyboardCancels(s: Session, u: User, env: Env)
    ensures var ev := Press(CancelKb().rows[0][0], u);
      ev.Some? && Route(s.step, ev.value) == Some(CancelAll) && Next(s, ev.value, env).session == Initial
  {
    CancelFromAnyStep(s, TextMessage(CancelLabel, u), env);
  }

  /**
   * Under the summary, the first button confirms (moving to `payment`), the second restarts
   * (back to `name`, data kept) and the third only opens the offer.
   */
  lemma ConfirmKeyboardButtons(s: Session, u: User, env: Env)
    requires s.step == Confirm && env.replyOk
    ensures var ev := Press(ConfirmKb().rows[0][0], u);
      ev.Some? && Next(s, ev.value, env).session == Session(Payment, s.data)
    ensures var ev := Press(ConfirmKb().rows[1][0], u);
      ev.Some? && Next(s, ev.value, env).session == Session(Name, s.data)
    ensures Press(ConfirmKb().rows[2][0], u).None?
  {
    ConfirmKeyboardEvents(u);
    ConfirmOnlyInConfirmStep(s, env);
    RestartFromAnyStep(s, env);
  }

  /** The events the three buttons under the summary produce. */
  lemma ConfirmKeyboardEvents(u: User)
    ensures Press(ConfirmKb().rows[0][0], u) == Some(Callback(Some(ConfirmCallback)))
    ensures Press(ConfirmKb().rows[1][0], u) == Some(Callback(Some(RestartCallback)))
    ensures Press(ConfirmKb().rows[2][0], u).None?
  {
  }

  /**
   * The first half of a registration: the trigger, a name, a phone. Whatever free text is typed
   * is kept exactly as typed; a phone such as `89123456789` is free text (`PhoneAsTyped`), so no
   * `+7` normalisation takes place.
   */
  lemma ScenarioCollects(u: User, name: string, phone: string, env: Env)
    requires env.replyOk && FreeText(name) && FreeText(phone)
    ensures var s1 := Next(Initial, Msg(TextMessage(TriggerLabel, u)), env).session;
      var s2 := Next(s1, Msg(TextMessage(name, u)), env).session;
      var s3 := Next(s2, Msg(TextMessage(phone, u)), env).session;
      s1 == Session(Name, NoData)
      && s2 == Session(Phone, Data(Some(name), None))
      && s3 == Session(Confirm, Data(Some(name), Some(phone)))
  {
    TriggerFromAnyStep(Initial, TextMessage(TriggerLabel, u), env);
    var s1 := Next(Initial, Msg(TextMessage(TriggerLabel, u)), env).session;
    NameStepStoresText(s1, TextMessage(name, u), env);
    var s2 := Next(s1, Msg(TextMessage(name, u)), env).session;
    PhoneStepStoresText(s2, TextMessage(phone, u), env);
  }

  /** A Russian mobile number typed with a leading 8, and a full name, are free text. */
  lemma PhoneAsTyped()
    ensures FreeText("89123456789") && FreeText("Ivan Petrov")
  {
    NotStartCommand("89123456789");
    NotStartCommand("Ivan Petrov");
  }

  /** Then: confirm, and a text instead of a receipt, which only brings the reprompt. */
  lemma ScenarioConfirms(u: User, d: Data, env: Env)
    requires env.replyOk
    ensures var s4 := Next(Session(Confirm, d), Callback(Some(ConfirmCallback)), env).session;
      s4 == Session(Payment, d) && Next(s4, Msg(TextMessage("paid", u)), env).session == s4
  {
    ConfirmOnlyInConfirmStep(Session(Confirm, d), env);
    NotStartCommand("paid");
    PaymentWithoutReceipt(Session(Payment, d), TextMessage("paid", u), env);
  }

  /**
   * Finally a photo: the operator gets the operator text, with the stored name and phone, and
   * the photo; the user gets the acknowledgement; and the conversation is back to `Idle` with no
   * data.
   */
  lemma ScenarioReceipt(u: User, name: string, phone: string, photoId: string, env: Env)
    requires env.replyOk && IsSet(env.adminId) && env.adminFailAt.None?
    requires FreeText(name) && FreeText(phone)
    ensures var last := Next(Session(Payment, Data(Some(name), Some(phone))),
                             Msg(Message(None, None, [photoId], None, u)), env);
      last.session == Initial
      && last.sent == [SendMessage(env.adminId.value, AdminText(name, phone, u, env.now)),
                       SendPhoto(env.adminId.value, photoId),
                       Answer(Accepted, MainKb())]
  {
    var receipt := Message(None, None, [photoId], None, u);
    assert TextOrCaption(receipt) == "";
    PaymentWithReceipt(Session(Payment, Data(Some(name), Some(phone))), receipt, env);
    PhotoPreferred(env.adminId, AdminText(name, phone, u, env.now), receipt);
  }
}
