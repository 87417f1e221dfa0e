/**
 * The per-conversation registration record and the routing of inbound events to handlers.
 * The chat library offers each event to the registered handlers in registration order and
 * the first one whose filters all match handles it; an event no handler matches is dropped.
 */
module Registration {
  import opened Wrappers
  import opened Commands
  import opened Messages

  /** The FSM step: `Idle` is "no state set"; the others are the four `Registration` states. */
  datatype Step = Idle | Name | Phone | Confirm | Payment

  /** The session data dictionary; only the keys `name` and `phone` are ever written. */
  datatype Data = Data(name: Option<string>, phone: Option<string>)

  const NoData: Data := Data(None, None)

  /** One conversation's FSM record. */
  datatype Session = Session(step: Step, data: Data)

  /** A new conversation, and the record after `state.clear()`. */
  const Initial: Session := Session(Idle, NoData)

  /** An inbound update: a chat message, or an inline-button press carrying its callback data. */
  datatype Event = Msg(m: Message) | Callback(data: Option<string>)

  /** The handlers, named after the source's functions. */
  datatype Handler =
    | StartCmd | StartRegistration | CancelAll | GetName | GetPhone | Restart | ConfirmData | GetPayment

  /** The handlers in the order they are registered with the dispatcher. */
  const Registered: seq<Handler> :=
    [StartCmd, StartRegistration, CancelAll, GetName, GetPhone, Restart, ConfirmData, GetPayment]

  /** Where a handler stands in the registration order; every handler is registered. */
  function Position(h: Handler): (i: nat)
    ensures i < |Registered| && Registered[i] == h
  {
    match h
    case StartCmd => 0
    case StartRegistration => 1
    case CancelAll => 2
    case GetName => 3
    case GetPhone => 4
    case Restart => 5
    case ConfirmData => 6
    case GetPayment => 7
  }

  /** The truth value of the `F.text` filter. */
  predicate HasText(m: Message) {
    m.text.Some? && m.text.value != ""
  }

  /** `message.text or message.caption`, the text the command filter looks at ("" when neither is set). */
  function TextOrCaption(m: Message): string {
    if HasText(m) then m.text.value
    else if m.caption.Some? then m.caption.value
    else ""
  }

  /** Whether all the filters a handler is registered with match the event in the given step. */
  predicate Matches(h: Handler, step: Step, ev: Event) {
    match h
    case StartCmd => ev.Msg? && IsStartCommand(TextOrCaption(ev.m))
    case StartRegistration => ev.Msg? && ev.m.text == Some(TriggerLabel)
    case CancelAll => ev.Msg? && ev.m.text == Some(CancelLabel)
    case GetName => ev.Msg? && step == Name && HasText(ev.m)
    case GetPhone => ev.Msg? && step == Phone && HasText(ev.m)
    case Restart => ev.Callback? && ev.data == Some(RestartCallback)
    case ConfirmData => ev.Callback? && ev.data == Some(ConfirmCallback) && step == Confirm
    case GetPayment => ev.Msg? && step == Payment
  }

  /** The position in `hs` of the first handler that matches, if any. */
  function FirstMatch(hs: seq<Handler>, step: Step, ev: Event): (r: Option<nat>)
    ensures r.Some? ==> r.value < |hs| && Matches(hs[r.value], step, ev)
    ensures r.Some? ==> forall j :: 0 <= j < r.value ==> !Matches(hs[j], step, ev)
    ensures r.None? ==> forall j :: 0 <= j < |hs| ==> !Matches(hs[j], step, ev)
  {
    if hs == [] then None
    else if Matches(hs[0], step, ev) then Some(0)
    else
      match FirstMatch(hs[1..], step, ev)
      case None => None
      case Some(k) => Some(k + 1)
  }

  /** The handler the dispatcher runs for `ev` when the session is in `step`. */
  function Route(step: Step, ev: Event): (r: Option<Handler>)
    ensures r.Some? ==> Matches(r.value, step, ev)
    ensures r.Some? ==> forall g :: Position(g) < Position(r.value) ==> !Matches(g, step, ev)
    ensures r.None? <==> forall h :: !Matches(h, step, ev)
  {
    match FirstMatch(Registered, step, ev)
    case None =>
      assert forall h :: !Matches(h, step, ev) by {
        forall h ensures !Matches(h, step, ev) {
          assert !Matches(Registered[Position(h)], step, ev);
        }
      }
      None
    case Some(i) =>
      assert Position(Registered[i]) == i;
      assert forall g :: Position(g) < i ==> !Matches(g, step, ev) by {
        forall g | Position(g) < i ensures !Matches(g, step, ev) {
          assert Registered[Position(g)] == g;
        }
      }
      Some(Registered[i])
  }

  /** A handler that matches, when no handler registered before it does, is the one that runs. */
  lemma RouteTo(step: Step, ev: Event, h: Handler)
    requires Matches(h, step, ev)
    requires forall g :: Position(g) < Position(h) ==> !Matches(g, step, ev)
    ensures Route(step, ev) == Some(h)
  {
    assert Matches(Registered[Position(h)], step, ev);
  }

  /** `RouteTo` with the handlers registered before `h` ruled out one by one. */
  lemma RouteByOrder(step: Step, ev: Event, h: Handler)
    requires Matches(h, step, ev)
    requires Position(h) > 0 ==> !Matches(StartCmd, step, ev)
    requires Position(h) > 1 ==> !Matches(StartRegistration, step, ev)
    requires Position(h) > 2 ==> !Matches(CancelAll, step, ev)
    requires Position(h) > 3 ==> !Matches(GetName, step, ev)
    requires Position(h) > 4 ==> !Matches(GetPhone, step, ev)
    requires Position(h) > 5 ==> !Matches(Restart, step, ev)
    requires Position(h) > 6 ==> !Matches(ConfirmData, step, ev)
    ensures Route(step, ev) == Some(h)
  {
    forall g | Position(g) < Position(h) ensures !Matches(g, step, ev) {
      match g
      case StartCmd =>
      case StartRegistration =>
      case CancelAll =>
      case GetName =>
      case GetPhone =>
      case Restart =>
      case ConfirmData =>
      case GetPayment =>
    }
    RouteTo(step, ev, h);
  }

  /** An event that no handler's filters match is routed nowhere. */
  lemma RouteNone(step: Step, ev: Event)
    requires !Matches(StartCmd, step, ev) && !Matches(StartRegistration, step, ev)
    requires !Matches(CancelAll, step, ev) && !Matches(GetName, step, ev)
    requires !Matches(GetPhone, step, ev) && !Matches(Restart, step, ev)
    requires !Matches(ConfirmData, step, ev) && !Matches(GetPayment, step, ev)
    ensures Route(step, ev) == None
  {
    var r := Route(step, ev);
    if r.Some? {
      match r.value
      case StartCmd =>
      case StartRegistration =>
      case CancelAll =>
      case GetName =>
      case GetPhone =>
      case Restart =>
      case ConfirmData =>
      case GetPayment =>
    }
  }

  /**
   * The update a button press produces: a reply-keyboard button sends its text as a message,
   * an inline button sends its callback data, a link button only opens the link.
   */
  function Press(b: Button, sender: User): Option<Event> {
    match b
    case TextButton(t) => Some(Msg(TextMessage(t, sender)))
    case CallbackButton(_, d) => Some(Callback(Some(d)))
    case UrlButton(_, _) => None
  }
}
