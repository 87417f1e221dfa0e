/**
 * The bot's handlers as methods that change one conversation's FSM record in place, the way
 * the source does through `state.set_state`, `state.update_data` and `state.clear`, and the
 * dispatcher step that runs the routed handler. Each method is proved to have the effect the
 * matching function of module Transitions describes.
 */
module Handlers {
  import opened Wrappers
  import opened Messages
  import opened Registration
  import opened Transitions
  import Properties

  /** One conversation's FSM storage entry: the current step and the data dictionary. */
  class FsmContext {
    var step: Step
    var data: Data

    /** A conversation the storage has not seen yet: no state, no data. */
    constructor ()
      ensures step == Idle && data == NoData
    {
      step := Idle;
      data := NoData;
    }

    function Value(): Session
      reads this
    {
      Session(step, data)
    }

    /** `state.set_state`: the step changes, the data stays. */
    method SetState(st: Step)
      modifies this
      ensures step == st && data == old(data)
    {
      step := st;
    }

    /** `state.update_data(name=...)`: merges the name into the data. */
    method UpdateName(name: string)
      modifies this
      ensures step == old(step) && data == old(data).(name := Some(name))
    {
      data := data.(name := Some(name));
    }

    /** `state.update_data(phone=...)`: merges the phone into the data. */
    method UpdatePhone(phone: string)
      modifies this
      ensures step == old(step) && data == old(data).(phone := Some(phone))
    {
      data := data.(phone := Some(phone));
    }

    /** `state.clear()`: no state and no data. */
    method Clear()
      modifies this
      ensures step == Idle && data == NoData
    {
      step := Idle;
      data := NoData;
    }
  }

  /** `start_cmd`: greets the user; it takes no FSM context and changes no record. */
  method StartCmd(ctx: FsmContext, env: Env) returns (sent: seq<Send>, raised: Option<Fault>)
    ensures Outcome(ctx.Value(), sent, raised) == OnStartCmd(ctx.Value(), env)
  {
    sent := [Answer(Greeting, MainKb())];
    raised := if env.replyOk then None else Some(TransportError);
  }

  /** `start_registration`: asks for the name, then moves to the `name` step. */
  method StartRegistration(ctx: FsmContext, env: Env) returns (sent: seq<Send>, raised: Option<Fault>)
    modifies ctx
    ensures Outcome(ctx.Value(), sent, raised) == OnStartRegistration(old(ctx.Value()), env)
  {
    sent := [Answer(AskName, CancelKb())];
    if !env.replyOk {
      raised := Some(TransportError);
      return;
    }
    ctx.SetState(Name);
    raised := None;
  }

  /** `cancel_all`: clears the record, then tells the user. */
  method CancelAll(ctx: FsmContext, env: Env) returns (sent: seq<Send>, raised: Option<Fault>)
    modifies ctx
    ensures Outcome(ctx.Value(), sent, raised) == OnCancelAll(old(ctx.Value()), env)
  {
    ctx.Clear();
    sent := [Answer(Cancelled, MainKb())];
    raised := if env.replyOk then None else Some(TransportError);
  }

  /** `get_name`: stores the message text as the name and moves to the `phone` step. */
  method GetName(text: string, ctx: FsmContext, env: Env) returns (sent: seq<Send>, raised: Option<Fault>)
    modifies ctx
    ensures Outcome(ctx.Value(), sent, raised) == OnGetName(old(ctx.Value()), text, env)
  {
    if text == CancelLabel {
      sent, raised := CancelAll(ctx, env);
      return;
    }
    ctx.UpdateName(text);
    sent := [Answer(AskPhone, CancelKb())];
    if !env.replyOk {
      raised := Some(TransportError);
      return;
    }
    ctx.SetState(Phone);
    raised := None;
  }

  /**
   * `get_phone`: stores the message text as the phone, exactly as typed, shows the summary
   * of the stored name and phone, and moves to the `confirm` step.
   */
  method GetPhone(text: string, ctx: FsmContext, env: Env) returns (sent: seq<Send>, raised: Option<Fault>)
    modifies ctx
    ensures Outcome(ctx.Value(), sent, raised) == OnGetPhone(old(ctx.Value()), text, env)
  {
    if text == CancelLabel {
      sent, raised := CancelAll(ctx, env);
      return;
    }
    ctx.UpdatePhone(text);
    var data := ctx.data;
    if data.name.None? {
      sent, raised := [], Some(MissingKey("name"));
      return;
    }
    var summary := ConfirmationText(data.name.value, data.phone.value);
    sent := [Answer(Summary(summary), ConfirmKb())];
    if !env.replyOk {
      raised := Some(TransportError);
      return;
    }
    ctx.SetState(Confirm);
    raised := None;
  }

  /** `restart`: acknowledges the button press and hands over to `start_registration`. */
  method Restart(ctx: FsmContext, env: Env) returns (sent: seq<Send>, raised: Option<Fault>)
    modifies ctx
    ensures Outcome(ctx.Value(), sent, raised) == OnRestart(old(ctx.Value()), env)
  {
    sent := [AnswerCallback];
    if !env.replyOk {
      raised := Some(TransportError);
      return;
    }
    var more;
    more, raised := StartRegistration(ctx, env);
    sent := sent + more;
  }

  /** `confirm_data`: acknowledges the press, shows the payment instructions, moves to `payment`. */
  method ConfirmData(ctx: FsmContext, env: Env) returns (sent: seq<Send>, raised: Option<Fault>)
    modifies ctx
    ensures Outcome(ctx.Value(), sent, raised) == OnConfirmData(old(ctx.Value()), env)
  {
    sent := [AnswerCallback];
    if !env.replyOk {
      raised := Some(TransportError);
      return;
    }
    sent := sent + [EditText(PaymentInstructions)];
    ctx.SetState(Payment);
    raised := None;
  }

  /**
   * The operator calls of `get_payment`, made one after another inside one `try` block:
   * the notification, then the photo's largest size or else the document. The call
   * numbered `failAt` raises; the error is logged and the remaining calls are skipped.
   */
  method NotifyAdmin(adminId: Option<string>, text: string, m: Message, failAt: Option<nat>)
    returns (made: seq<Send>)
    ensures made == Attempted(AdminSends(adminId, text, m), failAt)
    ensures IsSet(adminId) ==> made[0] == SendMessage(adminId.value, text)
    ensures !IsSet(adminId) ==> made == []
  {
    made := [];
    if !IsSet(adminId) {
      return;
    }
    var chat := adminId.value;
    made := [SendMessage(chat, text)];
    if failAt == Some(0) {
      return;
    }
    if |m.photo| > 0 {
      made := made + [SendPhoto(chat, m.photo[|m.photo| - 1])];
    } else if m.document.Some? {
      made := made + [SendDocument(chat, m.document.value)];
    }
  }

  /**
   * `get_payment`: without a photo or document, asks for the receipt and changes nothing.
   * With one, notifies the operator, confirms to the user and clears the record.
   */
  method GetPayment(m: Message, ctx: FsmContext, env: Env) returns (sent: seq<Send>, raised: Option<Fault>)
    modifies ctx
    ensures Outcome(ctx.Value(), sent, raised) == OnGetPayment(old(ctx.Value()), m, env)
  {
    if !HasAttachment(m) {
      sent := [Answer(AskReceipt, NoKeyboard)];
      raised := if env.replyOk then None else Some(TransportError);
      return;
    }
    var data := ctx.data;
    if data.name.None? {
      sent, raised := [], Some(MissingKey("name"));
      return;
    }
    if data.phone.None? {
      sent, raised := [], Some(MissingKey("phone"));
      return;
    }
    var text := AdminText(data.name.value, data.phone.value, m.sender, env.now);
    sent := NotifyAdmin(env.adminId, text, m, env.adminFailAt);
    sent := sent + [Answer(Accepted, MainKb())];
    if !env.replyOk {
      raised := Some(TransportError);
      return;
    }
    ctx.Clear();
    raised := None;
  }

  /**
   * The dispatcher's handling of one event for this conversation: the first registered
   * handler whose filters match runs; an event no handler matches is dropped.
   */
  method Dispatch(ev: Event, ctx: FsmContext, env: Env)
    returns (handled: Option<Handler>, sent: seq<Send>, raised: Option<Fault>)
    modifies ctx
    ensures handled == Route(old(ctx.step), ev)
    ensures Outcome(ctx.Value(), sent, raised) == Next(old(ctx.Value()), ev, env)
    ensures Inv(old(ctx.Value())) ==> Inv(ctx.Value()) && (raised == None || raised == Some(TransportError))
  {
    if Inv(ctx.Value()) {
      Properties.NextPreservesInv(ctx.Value(), ev, env);
      Properties.NoMissingKey(ctx.Value(), ev, env);
    }
    handled := Route(ctx.step, ev);
    match handled
    case None =>
      sent, raised := [], None;
    case Some(h) =>
      match h
      case StartCmd => sent, raised := StartCmd(ctx, env);
      case StartRegistration => sent, raised := StartRegistration(ctx, env);
      case CancelAll => sent, raised := CancelAll(ctx, env);
      case GetName => sent, raised := GetName(ev.m.text.value, ctx, env);
      case GetPhone => sent, raised := GetPhone(ev.m.text.value, ctx, env);
      case Restart => sent, raised := Restart(ctx, env);
      case ConfirmData => sent, raised := ConfirmData(ctx, env);
      case GetPayment => sent, raised := GetPayment(ev.m, ctx, env);
  }
}
