/**
 * The effect of each handler on a session, as pure functions: the new FSM record, the
 * outbound calls made, and the exception (if any) that ends the handler. The handler
 * methods in module Handlers are proved to do exactly this.
 */
module Transitions {
  import opened Wrappers
  import opened Messages
  import opened Registration

  /**
   * What the surroundings decide for one event: the `ADMIN_ID` setting, the formatted clock
   * reading, whether the handler's calls to the user go through (if not, the first of them
   * raises), and which call to the operator raises first, if any.
   */
  datatype Env = Env(adminId: Option<string>, now: string, replyOk: bool, adminFailAt: Option<nat>)

  /** An exception that escapes a handler: a failed call to the user, or a missing data key. */
  datatype Fault = TransportError | MissingKey(key: string)

  datatype Outcome = Outcome(session: Session, sent: seq<Send>, raised: Option<Fault>)

  /**
   * A handler whose calls to the user come after its changes to the session up to `kept`
   * and before the rest, which bring it to `done`: either all calls succeed, or the
   * first one raises and `kept` is the final record.
   */
  function Replying(kept: Session, done: Session, calls: seq<Send>, ok: bool): Outcome
    requires |calls| > 0
  {
    if ok then Outcome(done, calls, None) else Outcome(kept, calls[..1], Some(TransportError))
  }

  /** `start_cmd`: greets with the tour description; the session is not touched. */
  function OnStartCmd(s: Session, env: Env): Outcome {
    Replying(s, s, [Answer(Greeting, MainKb())], env.replyOk)
  }

  /** `start_registration`: prompts for the full name, then sets the step to `name`. */
  function OnStartRegistration(s: Session, env: Env): Outcome {
    Replying(s, s.(step := Name), [Answer(AskName, CancelKb())], env.replyOk)
  }

  /** `cancel_all`: clears the record, then confirms the cancellation. */
  function OnCancelAll(s: Session, env: Env): Outcome {
    Replying(Initial, Initial, [Answer(Cancelled, MainKb())], env.replyOk)
  }

  /** `get_name`: stores the text as the name, prompts for the phone, sets the step to `phone`. */
  function OnGetName(s: Session, text: string, env: Env): Outcome {
    if text == CancelLabel then OnCancelAll(s, env)
    else
      var named := s.(data := s.data.(name := Some(text)));
      Replying(named, named.(step := Phone), [Answer(AskPhone, CancelKb())], env.replyOk)
  }

  /**
   * `get_phone`: stores the text as the phone, verbatim; reads back the name (a missing name
   * raises); shows the summary with the confirm/restart keyboard; sets the step to `confirm`.
   */
  function OnGetPhone(s: Session, text: string, env: Env): Outcome {
    if text == CancelLabel then OnCancelAll(s, env)
    else
      var stored := s.(data := s.data.(phone := Some(text)));
      if stored.data.name.None? then Outcome(stored, [], Some(MissingKey("name")))
      else
        var summary := ConfirmationText(stored.data.name.value, text);
        Replying(stored, stored.(step := Confirm), [Answer(Summary(summary), ConfirmKb())], env.replyOk)
  }

  /** `restart`: acknowledges the button press, then does what `start_registration` does. */
  function OnRestart(s: Session, env: Env): Outcome {
    Replying(s, s.(step := Name), [AnswerCallback, Answer(AskName, CancelKb())], env.replyOk)
  }

  /** `confirm_data`: acknowledges the press, replaces the summary by the payment instructions, sets the step to `payment`. */
  function OnConfirmData(s: Session, env: Env): Outcome {
    Replying(s, s.(step := Payment), [AnswerCallback, EditText(PaymentInstructions)], env.replyOk)
  }

  /**
   * `get_payment`: without an attachment, asks for the receipt. With one, reads the name and
   * the phone (a missing key raises), makes the operator calls (their failure is swallowed),
   * acknowledges to the user and clears the record.
   */
  function OnGetPayment(s: Session, m: Message, env: Env): Outcome {
    if !HasAttachment(m) then Replying(s, s, [Answer(AskReceipt, NoKeyboard)], env.replyOk)
    else if s.data.name.None? then Outcome(s, [], Some(MissingKey("name")))
    else if s.data.phone.None? then Outcome(s, [], Some(MissingKey("phone")))
    else
      var text := AdminText(s.data.name.value, s.data.phone.value, m.sender, env.now);
      var made := Attempted(AdminSends(env.adminId, text, m), env.adminFailAt);
      var calls := made + [Answer(Accepted, MainKb())];
      if env.replyOk then Outcome(Initial, calls, None)
      else Outcome(s, calls, Some(TransportError))
  }

  /** Runs handler `h` on an event it matches. */
  function Apply(h: Handler, s: Session, ev: Event, env: Env): Outcome
    requires Matches(h, s.step, ev)
  {
    match h
    case StartCmd => OnStartCmd(s, env)
    case StartRegistration => OnStartRegistration(s, env)
    case CancelAll => OnCancelAll(s, env)
    case GetName => OnGetName(s, ev.m.text.value, env)
    case GetPhone => OnGetPhone(s, ev.m.text.value, env)
    case Restart => OnRestart(s, env)
    case ConfirmData => OnConfirmData(s, env)
    case GetPayment => OnGetPayment(s, ev.m, env)
  }

  /** One event: the routed handler runs; an event no handler matches changes nothing and sends nothing. */
  function Next(s: Session, ev: Event, env: Env): Outcome {
    match Route(s.step, ev)
    case None => Outcome(s, [], None)
    case Some(h) => Apply(h, s, ev, env)
  }

  /** The record after a sequence of events, each with its own surroundings, handled one at a time. */
  function Run(s: Session, evs: seq<(Event, Env)>): Session
    decreases |evs|
  {
    if evs == [] then s else Run(Next(s, evs[0].0, evs[0].1).session, evs[1..])
  }

  /** A stored value is text that no handler ahead of the field handlers would have claimed. */
  predicate FreeText(t: string) {
    t != "" && t != CancelLabel && t != TriggerLabel && !Commands.IsStartCommand(t)
  }

  predicate StoredOk(v: Option<string>) {
    v.None? || FreeText(v.value)
  }

  /**
   * The session invariant: the phone step has a name, the confirm and payment steps have a
   * name and a phone (so `data['name']` and `data['phone']` never fail), and stored values
   * are free text.
   */
  predicate Inv(s: Session) {
    (s.step == Phone ==> s.data.name.Some?)
    && (s.step == Confirm || s.step == Payment ==> s.data.name.Some? && s.data.phone.Some?)
    && StoredOk(s.data.name) && StoredOk(s.data.phone)
  }
}
