/**
 * Events (src/event/Event.ts) and the next-event factory
 * (src/event/index.ts). An event renders as the route
 * `type#context#state` that handler routes are matched against.
 */
module Events {
  import opened Wrappers
  import opened Strings
  import opened Values
  import opened States
  import opened Types
  import opened Actions

  /** The event classes; a call event remembers its caller's correlation id. */
  datatype EventKind =
    | CallKind(from: string)
    | CastKind
    | InternalKind
    | EnterKind
    | StateTimeoutKind
    | EventTimeoutKind
    | GenericTimeoutKind

  datatype Event = Event(kind: EventKind, context: Option<EventContext>, extra: Value, priority: Priority)

  /** The event's `type` string. */
  function Type(e: Event): string
  {
    match e.kind
    case CallKind(_) => "call"
    case CastKind => "cast"
    case InternalKind => "internal"
    case EnterKind => "enter"
    case StateTimeoutKind => "stateTimeout"
    case EventTimeoutKind => "eventTimeout"
    case GenericTimeoutKind => "genericTimeout"
  }

  /** `new XEvent(context, extra)`: every new event starts at Normal priority. */
  function NewEvent(kind: EventKind, context: Option<EventContext>, extra: Value): (e: Event)
    ensures e.priority == Normal
    ensures e.kind == kind && e.context == context && e.extra == extra
  {
    Event(kind, context, extra, Normal)
  }

  function CastEvent(context: Option<EventContext>, extra: Value): Event
  {
    NewEvent(CastKind, context, extra)
  }

  function CallEvent(from: string, context: Option<EventContext>): Event
  {
    NewEvent(CallKind(from), context, Undefined)
  }

  function InternalEvent(context: Option<EventContext>): Event
  {
    NewEvent(InternalKind, context, Undefined)
  }

  /** `new EnterEvent({old})`: entered from the state named `oldName`. */
  function EnterEvent(oldName: Prim): Event
  {
    NewEvent(EnterKind, Some(RecordContext([("old", oldName)])), Undefined)
  }

  function StateTimeoutEvent(time: Timeout): Event
  {
    NewEvent(StateTimeoutKind, Some(RecordContext([("time", time)])), Undefined)
  }

  function EventTimeoutEvent(time: Timeout): Event
  {
    NewEvent(EventTimeoutKind, Some(RecordContext([("time", time)])), Undefined)
  }

  function GenericTimeoutEvent(name: string, time: Timeout): Event
  {
    NewEvent(GenericTimeoutKind, Some(RecordContext([("name", Str(name)), ("time", time)])), Undefined)
  }

  /**
   * `typeRoute`: the event's type. A call event also carries its caller's
   * id (`call/<from>`), the form the built-in `call/:from#...` routes match.
   */
  function TypeRoute(e: Event): (r: string)
    ensures |r| >= |Type(e)| && r[..|Type(e)|] == Type(e)
    ensures !e.kind.CallKind? ==> r == Type(e)
    ensures e.kind.CallKind? ==> r[|Type(e)|..] == "/" + e.kind.from
  {
    match e.kind
    case CallKind(from) => "call/" + from
    case _ => Type(e)
  }

  /** `route`: type and rendered context, joined by `#`; `dataToRoute` renders the context. */
  function Route(e: Event, dataToRoute: Option<EventContext> -> string): (r: string)
    ensures '#' !in TypeRoute(e) ==> Split(r, '#') == [TypeRoute(e)] + Split(dataToRoute(e.context), '#')
  {
    var t, d := TypeRoute(e), dataToRoute(e.context);
    assert '#' !in t ==> Split(t + "#" + d, '#') == [t] + Split(d, '#') by {
      if '#' !in t { SplitAtFirst(t, '#', d); }
    }
    t + "#" + d
  }

  /** `toRoute(state)`: the event's route followed by `#` and the state's route. */
  function ToRoute(e: Event, dataToRoute: Option<EventContext> -> string, s: Option<State>): (r: string)
    ensures |r| > |Route(e, dataToRoute)| + |StateRoute(s)|
    ensures r[..|Route(e, dataToRoute)|] == Route(e, dataToRoute)
    ensures r[|r| - |StateRoute(s)|..] == StateRoute(s)
  {
    Route(e, dataToRoute) + "#" + StateRoute(s)
  }

  /** `Event.comparator`: negative when `a` goes first. */
  function Comparator(a: Event, b: Event): (r: int)
    ensures r < 0 <==> Rank(a.priority) < Rank(b.priority)
    ensures r == 0 <==> a.priority == b.priority
    ensures r > 0 <==> Rank(b.priority) < Rank(a.priority)
  {
    PriorityValue(a.priority) - PriorityValue(b.priority)
  }

  /** `makeNextEvent`: an internal event keeps only the context; a cast keeps context and extra; other types give none. */
  function MakeNextEvent(eventType: string, context: Option<EventContext>, extra: Value): (r: Option<Event>)
    ensures eventType == "internal" ==> r == Some(InternalEvent(context))
    ensures eventType == "cast" ==> r == Some(CastEvent(context, extra))
    ensures r.None? <==> eventType != "internal" && eventType != "cast"
  {
    match eventType
    case "internal" => Some(InternalEvent(context))
    case "cast" => Some(CastEvent(context, extra))
    case _ => None
  }

  // ---------------------------------------------------------------------
  // Properties

  /** The comparator is negative exactly when `a`'s band is more urgent, and is antisymmetric. */
  lemma ComparatorOrdersByUrgency(a: Event, b: Event)
    ensures Comparator(a, b) < 0 <==> Rank(a.priority) < Rank(b.priority)
    ensures Comparator(a, b) == 0 <==> a.priority == b.priority
    ensures Comparator(a, b) == -Comparator(b, a)
  {
  }

  /**
   * When no part contains `#`, the full route splits back into exactly
   * its three parts: type, context and state.
   */
  lemma ToRouteHasThreeParts(e: Event, dataToRoute: Option<EventContext> -> string, s: Option<State>)
    requires '#' !in TypeRoute(e) && '#' !in dataToRoute(e.context) && '#' !in StateRoute(s)
    ensures Split(ToRoute(e, dataToRoute, s), '#') == [TypeRoute(e), dataToRoute(e.context), StateRoute(s)]
  {
    var parts := [TypeRoute(e), dataToRoute(e.context), StateRoute(s)];
    assert Join(parts, "#") == ToRoute(e, dataToRoute, s) by {
      assert parts[1..][1..] == [StateRoute(s)];
      assert Join(parts[1..], "#") == dataToRoute(e.context) + "#" + StateRoute(s);
      assert Join(parts, "#") == TypeRoute(e) + "#" + Join(parts[1..], "#");
    }
    SplitJoin(parts, '#');
  }
}
