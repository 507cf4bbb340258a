/**
 * Handler shapes (src/types.ts) and how the engine turns a handler into
 * a result (`invokeHandler`, `defaultEventHandler`, the built-in
 * `getState`/`getData` routes of src/StateMachine.ts).
 */
module Handlers {
  import opened Wrappers
  import opened Values
  import opened States
  import opened Types
  import opened Actions
  import opened Events
  import opened Results
  import opened Builders
  import BuilderFactories

  /** What a handler is given: route arguments, current state and data, the event and the matched route. */
  datatype HandlerOpts = HandlerOpts(args: map<string, string>, current: State, data: Value, event: Event, route: string)

  /** What a handler returns: nothing, a result, or a builder to be materialised. */
  datatype HandlerResult = NoResult | ResultOf(result: ResultValue) | BuilderOf(builder: BuilderValue)

  type HandlerFn = HandlerOpts -> HandlerResult

  /** A handler: a function, a bare target state, or a `[state, timeout]` pair. */
  datatype Handler =
    | FnHandler(f: HandlerFn)
    | TargetHandler(target: string)
    | TargetWithTimeout(target: string, timeout: Timeout)

  /** A route or a list of routes. */
  datatype Routes = OneRoute(route: string) | RouteList(routes: seq<string>)

  /** One entry of the handler list: a `[routes, handler]` pair, or an object of route -> handler entries. */
  datatype HandlersEntry = Pair(routes: Routes, handler: Handler) | Table(entries: seq<(string, Handler)>)

  /** A compiled route pattern: the named parameters when it matches, nothing otherwise. */
  type Matcher = string -> Option<map<string, string>>

  datatype RouteHandler = RouteHandler(routes: seq<(string, Matcher)>, handler: Handler)

  datatype MatchedHandler = MatchedHandler(result: map<string, string>, route: string, handler: Handler)

  /** A single route is wrapped into a one-element list. */
  function RouteStrings(routes: Routes): (rs: seq<string>)
    ensures routes.OneRoute? ==> rs == [routes.route]
    ensures routes.RouteList? ==> rs == routes.routes
  {
    match routes
    case OneRoute(r) => [r]
    case RouteList(rs) => rs
  }

  /**
   * `invokeHandler`: a function is called; a bare state gives
   * `nextState(s)`; a pair gives `nextState(s).eventTimeout(t)`; without a
   * handler `defaultEventHandler` returns undefined.
   */
  function Invoke(handler: Option<Handler>, opts: HandlerOpts): (r: HandlerResult)
    ensures handler.None? ==> r == NoResult
    ensures handler.Some? && handler.value.FnHandler? ==> r == handler.value.f(opts)
    ensures handler.Some? && !handler.value.FnHandler? ==>
      r.BuilderOf? && r.builder.kind == NextStateBuilder(StrState(handler.value.target)) && r.builder.updates == []
  {
    match handler
    case None => NoResult
    case Some(FnHandler(f)) => f(opts)
    case Some(TargetHandler(s)) => BuilderOf(BuilderFactories.NextState(StrState(s)))
    case Some(TargetWithTimeout(s, t)) =>
      BuilderOf(AppendActions(BuilderFactories.NextState(StrState(s)), [EventTimeoutAction(t)]))
  }

  /** `args.from`, which reads as the key "undefined" when the route bound no `from`. */
  function FromArg(args: map<string, string>): string
  {
    if "from" in args then args["from"] else "undefined"
  }

  const GetStateRoute := "call/:from#getState#*_"
  const GetDataRoute := "call/:from#getData#*_"

  /** The built-in handlers: reply to the caller with the current state, or with the current data. */
  const DefaultHandlers: seq<HandlersEntry> := [
    Pair(OneRoute(GetStateRoute),
      FnHandler((opts: HandlerOpts) => BuilderOf(BuilderFactories.Reply(FromArg(opts.args), OfState(opts.current))))),
    Pair(OneRoute(GetDataRoute),
      FnHandler((opts: HandlerOpts) => BuilderOf(BuilderFactories.Reply(FromArg(opts.args), OfValue(opts.data)))))
  ]

  /**
   * `getEventHandler`'s search: the first route, over handlers in
   * registration order and each handler's routes in order, whose matcher
   * accepts `eventRoute`.
   */
  function FindHandler(handlers: seq<RouteHandler>, eventRoute: string): (r: Option<MatchedHandler>)
    ensures r.Some? ==>
      exists i, j :: (Matches(handlers, i, j, eventRoute) &&
        handlers[i].handler == r.value.handler && handlers[i].routes[j].0 == r.value.route &&
        handlers[i].routes[j].1(eventRoute) == Some(r.value.result))
    decreases |handlers|
  {
    if |handlers| == 0 then None
    else match FindRoute(handlers[0].routes, eventRoute)
      case Some((route, result)) => Some(MatchedHandler(result, route, handlers[0].handler))
      case None => FindHandler(handlers[1..], eventRoute)
  }

  /** The first route of one handler that matches, with its parameters. */
  function FindRoute(routes: seq<(string, Matcher)>, eventRoute: string): (r: Option<(string, map<string, string>)>)
    ensures r.None? <==> forall j :: 0 <= j < |routes| ==> routes[j].1(eventRoute).None?
    ensures r.Some? ==> exists j :: 0 <= j < |routes| && routes[j].0 == r.value.0 && routes[j].1(eventRoute) == Some(r.value.1)
    decreases |routes|
  {
    if |routes| == 0 then None
    else match routes[0].1(eventRoute)
      case Some(result) => Some((routes[0].0, result))
      case None => FindRoute(routes[1..], eventRoute)
  }

  /** Whether route `j` of handler `i` matches. */
  predicate Matches(handlers: seq<RouteHandler>, i: int, j: int, eventRoute: string)
  {
    0 <= i < |handlers| && 0 <= j < |handlers[i].routes| && handlers[i].routes[j].1(eventRoute).Some?
  }

  /** (i, j) comes before (i', j') in search order. */
  predicate Before(i: int, j: int, i': int, j': int)
  {
    i < i' || (i == i' && j < j')
  }

  // ---------------------------------------------------------------------
  // Properties

  lemma {:induction false} FindRouteFirst(routes: seq<(string, Matcher)>, eventRoute: string)
    ensures FindRoute(routes, eventRoute).None? <==> forall j :: 0 <= j < |routes| ==> routes[j].1(eventRoute).None?
    ensures FindRoute(routes, eventRoute).Some? ==>
      exists j :: 0 <= j < |routes| && routes[j].1(eventRoute) == Some(FindRoute(routes, eventRoute).value.1) &&
        routes[j].0 == FindRoute(routes, eventRoute).value.0 &&
        forall j' :: 0 <= j' < j ==> routes[j'].1(eventRoute).None?
    decreases |routes|
  {
    if |routes| > 0 {
      FindRouteFirst(routes[1..], eventRoute);
      if routes[0].1(eventRoute).None? && FindRoute(routes[1..], eventRoute).Some? {
        var j :| 0 <= j < |routes[1..]| && routes[1..][j].1(eventRoute) == Some(FindRoute(routes[1..], eventRoute).value.1) &&
          routes[1..][j].0 == FindRoute(routes[1..], eventRoute).value.0 &&
          forall j' :: 0 <= j' < j ==> routes[1..][j'].1(eventRoute).None?;
        assert routes[j + 1].1(eventRoute) == Some(FindRoute(routes, eventRoute).value.1);
        forall j' | 0 <= j' < j + 1
          ensures routes[j'].1(eventRoute).None?
        {
          if j' > 0 {
            assert routes[j'] == routes[1..][j' - 1];
          }
        }
      }
    }
  }

  /**
   * Handler lookup is first-match: it finds nothing exactly when no route
   * of any handler matches; otherwise it returns handler `i`, route `j`
   * with that route's parameters, and no route earlier in registration
   * order matches.
   */
  lemma {:induction false} FindHandlerFirst(handlers: seq<RouteHandler>, eventRoute: string)
    ensures FindHandler(handlers, eventRoute).None? <==>
      forall i, j :: 0 <= i < |handlers| && 0 <= j < |handlers[i].routes| ==> !Matches(handlers, i, j, eventRoute)
    ensures FindHandler(handlers, eventRoute).Some? ==>
      exists i, j :: Matches(handlers, i, j, eventRoute) &&
        var mh := FindHandler(handlers, eventRoute).value;
        mh.handler == handlers[i].handler && mh.route == handlers[i].routes[j].0 &&
        handlers[i].routes[j].1(eventRoute) == Some(mh.result) &&
        forall i', j' :: Before(i', j', i, j) && Matches(handlers, i', j', eventRoute) ==> false
    decreases |handlers|
  {
    if |handlers| > 0 {
      FindRouteFirst(handlers[0].routes, eventRoute);
      FindHandlerFirst(handlers[1..], eventRoute);
      var tail := handlers[1..];
      forall i, j | 0 < i < |handlers| && 0 <= j < |handlers[i].routes|
        ensures Matches(handlers, i, j, eventRoute) == Matches(tail, i - 1, j, eventRoute)
      {
        assert handlers[i] == tail[i - 1];
      }
      var r0 := FindRoute(handlers[0].routes, eventRoute);
      if r0.Some? {
        var j :| 0 <= j < |handlers[0].routes| && handlers[0].routes[j].1(eventRoute) == Some(r0.value.1) &&
          handlers[0].routes[j].0 == r0.value.0 &&
          forall j' :: 0 <= j' < j ==> handlers[0].routes[j'].1(eventRoute).None?;
        assert Matches(handlers, 0, j, eventRoute);
      } else if FindHandler(tail, eventRoute).Some? {
        var i, j :| Matches(tail, i, j, eventRoute) &&
          var mh := FindHandler(tail, eventRoute).value;
          mh.handler == tail[i].handler && mh.route == tail[i].routes[j].0 &&
          tail[i].routes[j].1(eventRoute) == Some(mh.result) &&
          forall i', j' :: Before(i', j', i, j) && Matches(tail, i', j', eventRoute) ==> false;
        assert Matches(handlers, i + 1, j, eventRoute);
        forall i', j' | Before(i', j', i + 1, j)
          ensures !Matches(handlers, i', j', eventRoute)
        {
          if i' > 0 && i' < |handlers| && 0 <= j' < |handlers[i'].routes| {
            assert !Matches(tail, i' - 1, j', eventRoute);
          }
        }
      }
    }
  }

  /** The four shapes `invokeHandler` distinguishes. */
  lemma InvokeShapes(handler: Option<Handler>, opts: HandlerOpts)
    ensures handler.None? ==> Invoke(handler, opts) == NoResult
    ensures handler.Some? && handler.value.FnHandler? ==> Invoke(handler, opts) == handler.value.f(opts)
    ensures handler.Some? && handler.value.TargetHandler? ==>
      Invoke(handler, opts) == BuilderOf(BuilderValue(NextStateBuilder(StrState(handler.value.target)), [], []))
    ensures handler.Some? && handler.value.TargetWithTimeout? ==>
      Invoke(handler, opts) == BuilderOf(BuilderValue(NextStateBuilder(StrState(handler.value.target)),
        [EventTimeoutAction(handler.value.timeout)], []))
  {
  }

  /** The built-in `getState` handler replies to the caller bound by the route with the current state. */
  lemma GetStateReplies(opts: HandlerOpts, from: string)
    requires "from" in opts.args && opts.args["from"] == from
    ensures DefaultHandlers[0].handler.f(opts) ==
      BuilderOf(BuilderValue(KeepStateBuilder, [ReplyAction(from, OfState(opts.current))], []))
    ensures DefaultHandlers[1].handler.f(opts) ==
      BuilderOf(BuilderValue(KeepStateBuilder, [ReplyAction(from, OfValue(opts.data))], []))
  {
  }
}
