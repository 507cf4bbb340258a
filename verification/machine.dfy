/**
 * The state machine's behaviour (src/StateMachine.ts) as functions over a
 * snapshot of its fields. Each private method of the class becomes a
 * function from a machine to an `Outcome`: the machine as it stands when
 * the method returns or throws, and the error it throws, if any. The
 * synchronous re-entry of the source is kept: adding an event dispatches
 * it at once unless an event is already being handled, and setting the
 * state adds an Enter event.
 */
module Semantics {
  import opened Wrappers
  import opened Strings
  import opened Values
  import opened States
  import opened Types
  import opened Actions
  import opened Events
  import opened EventQueue
  import opened NamedTimers
  import opened Pendings
  import opened Results
  import opened Builders
  import opened Handlers

  /** What the machine emits to its listeners, in emission order. */
  datatype Note =
    | InitNote
    | TerminateNote(reason: Option<string>)
    | StateNote(state: State, previous: Option<State>)
    | ComplexStateChangedNote(state: State, previous: Option<State>)
    | StateChangedNote(state: State, previous: Option<State>)
    | DataNote(value: Value, oldValue: Value)
    | EventNote(event: Event)

  /**
   * What the machine relies on but does not define: the rendering of an
   * event context into a route segment, and the compiler of route
   * patterns, which may throw.
   */
  datatype Env = Env(dataToRoute: Option<EventContext> -> string, compile: string -> Attempt<Matcher>)

  /** `initialData`: absent, a value, or a function called once at start. */
  datatype InitialData = NoInitialData | DataValue(v: Value) | DataThunk(f: () -> Value)

  /** The options a machine is constructed with. */
  datatype Options = Options(initialState: Option<State>, handlers: seq<HandlersEntry>, initialData: InitialData)

  /** The fields of a state machine. */
  datatype Machine = Machine(
    started: bool,
    stopped: bool,
    processing: bool,
    initial: bool,
    state: Option<State>,
    data: Value,
    events: seq<Event>,
    timers: TimerTable<Event>,
    pending: PendingTable<Payload>,
    routes: seq<RouteHandler>,
    emitted: seq<Note>)

  /** A machine after a step, and the error the step threw, if any. */
  datatype Outcome = Outcome(m: Machine, thrown: Option<string>)

  /** A newly constructed machine. */
  const NewMachine := Machine(false, false, false, true, None, Undefined, [],
    TimerTable(map[], 0), PendingTable(map[], 0), [], [])

  /** The machine accepts events: started and not stopped. */
  predicate Running(m: Machine)
  {
    m.started && !m.stopped
  }

  /**
   * What every internal step keeps: whether the machine runs and its
   * handlers are fixed, notes are only appended, no pending call is
   * forgotten, a dispatch in progress
   * stays in progress, and the queue stays sorted.
   */
  ghost predicate Preserves(m: Machine, m': Machine)
  {
    m'.started == m.started && m'.stopped == m.stopped && m'.routes == m.routes &&
    m.emitted <= m'.emitted &&
    m.pending.cells.Keys <= m'.pending.cells.Keys &&
    (m.processing ==> m'.processing) &&
    (Sorted(m.events) ==> Sorted(m'.events))
  }

  lemma PreservesTransitive(m1: Machine, m2: Machine, m3: Machine)
    requires Preserves(m1, m2) && Preserves(m2, m3)
    ensures Preserves(m1, m3)
  {
  }

  /**
   * A string state containing '/' after its first character becomes the
   * list of its segments, which join back into the string; every other
   * state is kept.
   */
  function Normalize(s: State): (r: State)
    ensures r == s || (s.StrState? && r.ArrState? && Join(r.segs, "/") == s.str && |r.segs| >= 2)
    ensures !s.StrState? ==> r == s
  {
    if s.StrState? && IndexOf(s.str, '/') > 0 then
      JoinSplit(s.str, '/');
      SplitHead(s.str, '/');
      ArrState(Split(s.str, '/'))
    else s
  }

  /** The `data` setter. */
  function SetDataF(m: Machine, v: Value): (m': Machine)
    ensures Preserves(m, m')
  {
    m.(data := v, emitted := m.emitted + [DataNote(v, m.data)])
  }

  /** `setStateTimeout`: (re)arm the timer named "stateTimeout". */
  function SetStateTimeoutF(m: Machine, time: Timeout): (m': Machine)
    ensures Preserves(m, m')
  {
    m.(timers := NamedTimers.TableCreate(m.timers, time, Some("stateTimeout"), StateTimeoutEvent(time)).1)
  }

  /** `setEventTimeout`: (re)arm the timer named "eventTimeout". */
  function SetEventTimeoutF(m: Machine, time: Timeout): (m': Machine)
    ensures Preserves(m, m')
  {
    m.(timers := NamedTimers.TableCreate(m.timers, time, Some("eventTimeout"), EventTimeoutEvent(time)).1)
  }

  /** `setGenericTimeout`: (re)arm the named timer; an empty name gets a generated one. */
  function SetGenericTimeoutF(m: Machine, time: Timeout, name: string): (m': Machine)
    ensures Preserves(m, m')
  {
    m.(timers := NamedTimers.TableCreate(m.timers, time, Some(name), GenericTimeoutEvent(name, time)).1)
  }

  lemma AddKeepsSorted(q: seq<Event>, e: Event)
    ensures Sorted(q) ==> Sorted(Add(q, e))
  {
    if Sorted(q) {
      AddSorted(q, e);
    }
  }

  lemma SortedTail(q: seq<Event>)
    requires |q| > 0
    ensures Sorted(q) ==> Sorted(q[1..])
  {
  }

  // ---------------------------------------------------------------------
  // The dispatch cycle. A call made while no event is being handled may
  // dispatch one (rank 1 below); everything a dispatch does runs with
  // `processing` set, which stops any nested dispatch.

  /** The notes the `state` setter emits before any Enter event: always "state", and "complexStateChanged" when a complex state keeps its name. */
  function AnnounceStateF(m: Machine, s: State, prev: Option<State>): (m': Machine)
    ensures Preserves(m, m') && m'.processing == m.processing && m'.events == m.events
    ensures m'.state == Some(s) && m'.timers == m.timers && m'.pending == m.pending
  {
    var m1 := m.(state := Some(s), emitted := m.emitted + [StateNote(s, prev)]);
    if (IsComplexState(Some(s)) || IsComplexState(prev)) && StateName(prev) == StateName(Some(s))
    then m1.(emitted := m1.emitted + [ComplexStateChangedNote(s, prev)]) else m1
  }

  /** After the Enter event: the state timeout is cancelled and "stateChanged" emitted. */
  function StateChangedF(m: Machine, s: State, prev: Option<State>): (m': Machine)
    ensures Preserves(m, m')
  {
    m.(timers := TableCancel(m.timers, "stateTimeout").1, emitted := m.emitted + [StateChangedNote(s, prev)])
  }

  /**
   * The `state` setter: normalise the state, record it, and on the first
   * call or on a real change add an Enter event carrying the old state's
   * name, then cancel the state timeout.
   */
  function SetStateF(env: Env, m: Machine, s: State): (o: Outcome)
    ensures Preserves(m, o.m)
    decreases if m.processing then 0 else 1, 5
  {
    var s' := Normalize(s);
    var prev := if m.initial then Some(s') else m.state;
    var m2 := AnnounceStateF(m, s', prev);
    if m.initial || !StateEquals(Some(s'), prev) then
      var o := AddEventF(env, m2, EnterEvent(StateName(prev)), true);
      if o.thrown.Some? then o
      else Outcome(StateChangedF(o.m, s', prev).(initial := false), None)
    else Outcome(m2.(initial := false), None)
  }

  /** `addEvent`: refused unless running; an external event cancels the event timeout; then try to dispatch. */
  function AddEventF(env: Env, m: Machine, e: Event, internal: bool): (o: Outcome)
    ensures Preserves(m, o.m)
    decreases if m.processing then 0 else 1, 3
  {
    if !Running(m) then Outcome(m, Some("Can't add event. Not running."))
    else
      var timers := if internal then m.timers else TableCancel(m.timers, "eventTimeout").1;
      AddKeepsSorted(m.events, e);
      DoProcessEventsF(env, m.(timers := timers, emitted := m.emitted + [EventNote(e)], events := Add(m.events, e)))
  }

  /** `doProcessEvents`: take the head of the queue and handle it, unless idle, stopped, empty or busy. */
  function DoProcessEventsF(env: Env, m: Machine): (o: Outcome)
    ensures Preserves(m, o.m)
    ensures !Running(m) || |m.events| == 0 || m.processing ==> o == Outcome(m, None)
    decreases if m.processing then 0 else 1, 2
  {
    if !Running(m) || |m.events| == 0 || m.processing then Outcome(m, None)
    else
      SortedTail(m.events);
      HandleEventF(env, m.(events := m.events[1..]), m.events[0])
  }

  /**
   * `handleEvent`: mark the machine busy, find the handler for the
   * event's route in the current state, invoke it and apply its result.
   * There is no catch: a throw leaves the machine marked busy.
   */
  function HandleEventF(env: Env, m: Machine, e: Event): (o: Outcome)
    ensures Preserves(m, o.m)
    ensures o.thrown.Some? ==> o.m.processing
    requires !m.processing
    ensures o.thrown.None? ==> !o.m.processing
    decreases 1, 1
  {
    var m1 := m.(processing := true);
    if !StateTruthy(m1.state) then Outcome(m1, Some("No state?"))
    else
      var h := FindHandler(m1.routes, ToRoute(e, env.dataToRoute, m1.state));
      var opts := HandlerOpts(
        if h.Some? then h.value.result else map[], m1.state.value, m1.data, e,
        if h.Some? then h.value.route else "");
      var o := HandleResultF(env, m1, Invoke(if h.Some? then Some(h.value.handler) else None, opts));
      if o.thrown.Some? then o else Outcome(o.m.(processing := false), None)
  }

  /**
   * `handleResult`: materialise a builder against the current data;
   * change state for a next-state result; store data a result carries;
   * then apply the actions in order, stopping at the first throw.
   */
  function HandleResultF(env: Env, m: Machine, r: HandlerResult): (o: Outcome)
    ensures Preserves(m, o.m)
    decreases if m.processing then 0 else 1, 7
  {
    if r.NoResult? then Outcome(m, None)
    else
      var res := if r.BuilderOf? then BuildResult(r.builder, m.data) else r.result;
      var o1 := if res.kind.NextStateResult? then SetStateF(env, m, res.kind.target) else Outcome(m, None);
      if o1.thrown.Some? then o1
      else if res.withData && res.hasData then
        match ReadData(res)
        case Thrown(err) => Outcome(o1.m, Some(err))
        case Ok(v) => HandleActionsF(env, SetDataF(o1.m, v), res.actions)
      else HandleActionsF(env, o1.m, res.actions)
  }

  /** The loop over a result's actions. */
  function HandleActionsF(env: Env, m: Machine, acts: seq<Act>): (o: Outcome)
    ensures Preserves(m, o.m)
    decreases if m.processing then 0 else 1, 6, |acts|
  {
    if |acts| == 0 then Outcome(m, None)
    else
      var o := HandleActionF(env, m, acts[0]);
      if o.thrown.Some? then o else HandleActionsF(env, o.m, acts[1..])
  }

  /**
   * `handleAction`: a reply settles the caller's pending entry; the three
   * timeouts arm their timers; a next event is added; every other action
   * throws.
   */
  function HandleActionF(env: Env, m: Machine, a: Act): (o: Outcome)
    ensures Preserves(m, o.m)
    decreases if m.processing then 0 else 1, 5
  {
    TagPredicatesIdentifyClass(a);
    if IsReplyAction(a) then
      match TableResolve(m.pending, a.from, a.reply)
      case Ok(p) => Outcome(m.(pending := p), None)
      case Thrown(err) => Outcome(m, Some(err))
    else if IsStateTimeoutAction(a) then Outcome(SetStateTimeoutF(m, a.time), None)
    else if IsEventTimeoutAction(a) then Outcome(SetEventTimeoutF(m, a.time), None)
    else if IsGenericTimeoutAction(a) then Outcome(SetGenericTimeoutF(m, a.time, a.name.GetOr("DEFAULT")), None)
    else if IsNextEventAction(a) then AddNextEventF(env, m, a)
    else Outcome(m, Some("No handler for action: " + Tag(a)))
  }

  /** `addNextEvent`: the event the action describes, if any, is added at the most urgent band. */
  function AddNextEventF(env: Env, m: Machine, a: Action): (o: Outcome)
    requires a.NextEventAction?
    ensures Preserves(m, o.m)
    decreases if m.processing then 0 else 1, 4
  {
    match MakeNextEvent(a.eventType, a.context, a.extra)
    case None => Outcome(m, None)
    case Some(e) => AddEventF(env, m, e.(priority := Highest), true)
  }

  // ---------------------------------------------------------------------
  // Public operations

  /** The compiled routes of one handler, in order; the first route that fails to compile throws. */
  function CompileAll(env: Env, rs: seq<string>): (r: Attempt<seq<(string, Matcher)>>)
    ensures r.Ok? ==> |r.value| == |rs| && forall i :: 0 <= i < |rs| ==> r.value[i].0 == rs[i]
    decreases |rs|
  {
    if |rs| == 0 then Ok([])
    else match env.compile(rs[0])
      case Thrown(err) => Thrown(err)
      case Ok(matcher) =>
        match CompileAll(env, rs[1..])
        case Thrown(err) => Thrown(err)
        case Ok(rest) => Ok([(rs[0], matcher)] + rest)
  }

  /** `addHandler`: refused once started; otherwise compile the routes and append the handler. */
  function AddHandlerF(env: Env, m: Machine, routes: Routes, handler: Handler): (o: Outcome)
    ensures m.started ==> o == Outcome(m, Some("Can't add handler. Already running."))
    ensures o.thrown.Some? ==> o.m == m
    ensures o.thrown.None? ==>
      (o.m == m.(routes := o.m.routes) && |o.m.routes| == |m.routes| + 1 &&
       o.m.routes[..|m.routes|] == m.routes && o.m.routes[|m.routes|].handler == handler &&
       |o.m.routes[|m.routes|].routes| == |RouteStrings(routes)|)
  {
    if m.started then Outcome(m, Some("Can't add handler. Already running."))
    else match CompileAll(env, RouteStrings(routes))
      case Thrown(err) => Outcome(m, Some(err))
      case Ok(mapped) => Outcome(m.(routes := m.routes + [RouteHandler(mapped, handler)]), None)
  }

  /** The entries of one handler object, in key order. */
  function AddEntriesF(env: Env, m: Machine, entries: seq<(string, Handler)>): (o: Outcome)
    ensures o.m == m.(routes := o.m.routes) && m.routes <= o.m.routes
    ensures o.thrown.None? ==> |o.m.routes| == |m.routes| + |entries|
    decreases |entries|
  {
    if |entries| == 0 then Outcome(m, None)
    else
      var o := AddHandlerF(env, m, OneRoute(entries[0].0), entries[0].1);
      if o.thrown.Some? then o else AddEntriesF(env, o.m, entries[1..])
  }

  /** `initHandlers`: every entry of the list in order. */
  function InitHandlersF(env: Env, m: Machine, hs: seq<HandlersEntry>): (o: Outcome)
    ensures o.m == m.(routes := o.m.routes) && m.routes <= o.m.routes
    ensures m.started ==> o.m == m
    decreases |hs|
  {
    if |hs| == 0 then Outcome(m, None)
    else
      var o := match hs[0]
        case Pair(routes, handler) => AddHandlerF(env, m, routes, handler)
        case Table(entries) => AddEntriesF(env, m, entries);
      if o.thrown.Some? then o else InitHandlersF(env, o.m, hs[1..])
  }

  /** The initial data, set through the `data` setter when truthy; a function is called for it. */
  function StartData(opts: Options, m: Machine): (m': Machine)
    ensures m' == m.(data := m'.data, emitted := m'.emitted)
  {
    match opts.initialData
    case NoInitialData => m
    case DataValue(v) => if Truthy(v) then SetDataF(m, v) else m
    case DataThunk(f) => SetDataF(m, f())
  }

  /**
   * `startSM`: nothing if already started; refused without a truthy
   * initial state; otherwise set the initial data, register the built-in
   * handlers and then the given ones, mark the machine started and enter
   * the initial state.
   */
  function StartF(env: Env, opts: Options, m: Machine): (o: Outcome)
    ensures m.started ==> o == Outcome(m, None)
    ensures !m.started && !StateTruthy(opts.initialState) ==> o == Outcome(m, Some("Initial state must be defined"))
    ensures o.m.stopped == m.stopped
    ensures !m.started && o.thrown.None? ==>
      o.m.started && |o.m.emitted| > 0 && o.m.emitted[|o.m.emitted| - 1] == InitNote
  {
    if m.started then Outcome(m, None)
    else if !StateTruthy(opts.initialState) then Outcome(m, Some("Initial state must be defined"))
    else
      var m1 := StartData(opts, m);
      var o := InitHandlersF(env, m1, DefaultHandlers + opts.handlers);
      if o.thrown.Some? then o
      else
        var o' := SetStateF(env, o.m.(started := true), opts.initialState.value);
        if o'.thrown.Some? then o' else Outcome(o'.m.(emitted := o'.m.emitted + [InitNote]), None)
  }

  /** `stopSM`: mark the machine stopped and tell the listeners why. */
  function StopF(m: Machine, reason: Option<string>): (m': Machine)
    ensures !Running(m')
    ensures m' == m.(stopped := true, emitted := m'.emitted)
    ensures m'.emitted == m.emitted + [TerminateNote(reason)]
  {
    m.(stopped := true, emitted := m.emitted + [TerminateNote(reason)])
  }

  /** `call`: register a pending reply under a fresh id and add a call event carrying that id. */
  function CallF(env: Env, m: Machine, request: EventContext): (r: (Outcome, string))
    ensures r.1 in r.0.m.pending.cells
    ensures !Running(m) ==> r.0.thrown == Some("Can't add event. Not running.")
  {
    var (pending, from) := Pendings.TableCreate(m.pending);
    (AddEventF(env, m.(pending := pending), CallEvent(from, Some(request)), false), from)
  }

  /** `cast`: add a cast event; whatever it throws is swallowed. */
  function CastF(env: Env, m: Machine, request: EventContext, extra: Value): (m': Machine)
    ensures Preserves(m, m')
    ensures !Running(m) ==> m' == m
  {
    AddEventF(env, m, CastEvent(Some(request), extra), false).m
  }

  /** `getState` and `getData`: calls answered by the built-in handlers. */
  function GetStateF(env: Env, m: Machine): (r: (Outcome, string))
    ensures r.1 in r.0.m.pending.cells
    ensures !Running(m) ==> r.0.thrown.Some?
  {
    CallF(env, m, PrimContext(Str("getState")))
  }

  function GetDataF(env: Env, m: Machine): (r: (Outcome, string))
    ensures r.1 in r.0.m.pending.cells
    ensures !Running(m) ==> r.0.thrown.Some?
  {
    CallF(env, m, PrimContext(Str("getData")))
  }

  /** `cancelTimer`. */
  function CancelTimerF(m: Machine, name: string): (m': Machine)
    ensures !HasTimer(m', name)
    ensures forall other :: other != name ==> NamedTimers.TableGet(m'.timers, other) == NamedTimers.TableGet(m.timers, other)
    ensures m' == m.(timers := m'.timers)
  {
    m.(timers := TableCancel(m.timers, name).1)
  }

  /** `hasTimer`. */
  predicate HasTimer(m: Machine, name: string): (r: bool)
    ensures r <==> name in m.timers.timers
  {
    NamedTimers.TableGet(m.timers, name).Some?
  }

  /**
   * A timer going off: its own entry goes first, then the listener the
   * machine attached adds the timer's event as an internal one.
   */
  function FireTimerF(env: Env, m: Machine, name: string): (o: Outcome)
    ensures Preserves(m, o.m)
    ensures name !in m.timers.timers ==> o == Outcome(m, None)
    ensures name in m.timers.timers && !Running(m) ==> !HasTimer(o.m, name) && o.thrown.Some?
  {
    if name !in m.timers.timers then Outcome(m, None)
    else AddEventF(env, m.(timers := TableFired(m.timers, name)), m.timers.timers[name].listener, true)
  }

  /** `processEvents`, the deferred turn that resumes the queue. */
  function ProcessEventsF(env: Env, m: Machine): (o: Outcome)
    ensures Preserves(m, o.m)
    ensures !Running(m) || |m.events| == 0 || m.processing ==> o == Outcome(m, None)
  {
    DoProcessEventsF(env, m)
  }
}
