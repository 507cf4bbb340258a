/**
 * The state machine as an object (src/StateMachine.ts): its fields are
 * updated in place by methods that follow the source's own, and each
 * method is proved to do exactly what the corresponding function of
 * `Semantics` describes.
 */
module Engine {
  import opened Wrappers
  import opened Values
  import opened States
  import opened Types
  import opened Actions
  import opened Events
  import opened EventQueue
  import opened NamedTimers
  import opened Pendings
  import opened Results
  import opened Builders
  import opened Handlers
  import opened Semantics

  class StateMachine {
    /** The route renderer and route compiler the machine is built with. */
    const env: Env
    /** `initialState`, `handlers` and `initialData`, as given to the constructor. */
    const options: Options

    var started: bool
    var stopped: bool
    /** `processingEvent`. */
    var processing: bool
    /** `_initial`: no state has been set yet. */
    var initial: bool
    var state: Option<State>
    var data: Value
    /** The priority queue of events waiting to be handled. */
    var events: seq<Event>
    const timers: Timers<Event>
    const pending: Pending<Payload>
    /** `_routeHandlers`, in registration order. */
    var routeHandlers: seq<RouteHandler>
    /** What the machine has emitted to its listeners. */
    var emitted: seq<Note>

    function Snapshot(): Machine
      reads this, timers, pending
    {
      Machine(started, stopped, processing, initial, state, data, events,
        timers.Table(), pending.Table(), routeHandlers, emitted)
    }

    ghost predicate Valid()
      reads this, pending
    {
      pending.Valid()
    }

    constructor(env: Env, options: Options)
      ensures Valid() && fresh(timers) && fresh(pending)
      ensures Snapshot() == NewMachine && this.env == env && this.options == options
    {
      this.env := env;
      this.options := options;
      started, stopped, processing, initial := false, false, false, true;
      state, data, events := None, Undefined, [];
      timers := new Timers();
      pending := new Pending();
      routeHandlers, emitted := [], [];
    }

    /** `hasTimer`. */
    function HasTimer(name: string): (r: bool)
      reads this, timers
      ensures r <==> name in timers.Table().timers
    {
      timers.Get(name).Some?
    }

    /** `hasStateTimer` and `hasEventTimer`. */
    function HasStateTimer(): (r: bool)
      reads this, timers
      ensures r <==> Semantics.HasTimer(Snapshot(), "stateTimeout")
    {
      HasTimer("stateTimeout")
    }

    function HasEventTimer(): (r: bool)
      reads this, timers
      ensures r <==> Semantics.HasTimer(Snapshot(), "eventTimeout")
    {
      HasTimer("eventTimeout")
    }

    /** `cancelTimer`. */
    method CancelTimer(name: string)
      requires Valid()
      modifies timers
      ensures Valid() && Snapshot() == CancelTimerF(old(Snapshot()), name)
    {
      var _ := timers.Cancel(name);
    }

    /** The `data` setter. */
    method SetData(v: Value)
      requires Valid()
      modifies this
      ensures Valid() && Snapshot() == SetDataF(old(Snapshot()), v)
    {
      var previous := data;
      data := v;
      emitted := emitted + [DataNote(v, previous)];
    }

    method SetStateTimeout(time: Timeout)
      requires Valid()
      modifies timers
      ensures Valid() && Snapshot() == SetStateTimeoutF(old(Snapshot()), time)
    {
      var _ := timers.Create(time, Some("stateTimeout"), StateTimeoutEvent(time));
    }

    method SetEventTimeout(time: Timeout)
      requires Valid()
      modifies timers
      ensures Valid() && Snapshot() == SetEventTimeoutF(old(Snapshot()), time)
    {
      var _ := timers.Create(time, Some("eventTimeout"), EventTimeoutEvent(time));
    }

    method SetGenericTimeout(time: Timeout, name: string)
      requires Valid()
      modifies timers
      ensures Valid() && Snapshot() == SetGenericTimeoutF(old(Snapshot()), time, name)
    {
      var _ := timers.Create(time, Some(name), GenericTimeoutEvent(name, time));
    }

    /**
     * `getEventHandler`: the first route, over the handlers in
     * registration order and each handler's routes in order, that matches
     * the event's route in the current state. Reading the state throws
     * when there is none.
     */
    method GetEventHandler(e: Event) returns (h: Option<MatchedHandler>, thrown: Option<string>)
      ensures !StateTruthy(state) ==> thrown == Some("No state?")
      ensures StateTruthy(state) ==> thrown.None? && h == FindHandler(routeHandlers, ToRoute(e, env.dataToRoute, state))
    {
      if !StateTruthy(state) {
        return None, Some("No state?");
      }
      thrown := None;
      var eventRoute := ToRoute(e, env.dataToRoute, state);
      var i := 0;
      while i < |routeHandlers|
        invariant 0 <= i <= |routeHandlers|
        invariant FindHandler(routeHandlers, eventRoute) == FindHandler(routeHandlers[i..], eventRoute)
      {
        var routes := routeHandlers[i].routes;
        var j := 0;
        while j < |routes|
          invariant 0 <= j <= |routes|
          invariant FindRoute(routes, eventRoute) == FindRoute(routes[j..], eventRoute)
        {
          var result := routes[j].1(eventRoute);
          if result.Some? {
            return Some(MatchedHandler(result.value, routes[j].0, routeHandlers[i].handler)), None;
          }
          assert routes[j..][1..] == routes[j + 1..];
          j := j + 1;
        }
        assert routeHandlers[i..][1..] == routeHandlers[i + 1..];
        i := i + 1;
      }
      return None, None;
    }

    /** The "state" note, and the "complexStateChanged" one when a complex state keeps its name. */
    method AnnounceState(s: State, prev: Option<State>)
      requires Valid()
      modifies this
      ensures Valid() && Snapshot() == AnnounceStateF(old(Snapshot()), s, prev)
    {
      state := Some(s);
      emitted := emitted + [StateNote(s, prev)];
      if (IsComplexState(Some(s)) || IsComplexState(prev)) && StateName(prev) == StateName(Some(s)) {
        emitted := emitted + [ComplexStateChangedNote(s, prev)];
      }
    }

    /** After the Enter event: cancel the state timeout and emit "stateChanged". */
    method StateChanged(s: State, prev: Option<State>)
      requires Valid()
      modifies this, timers
      ensures Valid() && Snapshot() == StateChangedF(old(Snapshot()), s, prev)
    {
      var _ := timers.Cancel("stateTimeout");
      emitted := emitted + [StateChangedNote(s, prev)];
    }

    /**
     * The `state` setter: an Enter event on the first call or on a real
     * change, then the state timeout is cancelled.
     */
    method SetState(s: State) returns (thrown: Option<string>)
      requires Valid()
      modifies this, timers, pending
      ensures Valid() && Outcome(Snapshot(), thrown) == SetStateF(env, old(Snapshot()), s)
      decreases if processing then 0 else 1, 5
    {
      var s' := Normalize(s);
      var prev := if initial then Some(s') else state;
      var oldName: Prim := StateName(prev);
      AnnounceState(s', prev);
      if initial || !StateEquals(Some(s'), prev) {
        thrown := AddEvent(EnterEvent(oldName), true);
        if thrown.Some? {
          return;
        }
        StateChanged(s', prev);
      }
      initial := false;
      thrown := None;
    }

    /** `addEvent`. */
    method AddEvent(e: Event, internal: bool) returns (thrown: Option<string>)
      requires Valid()
      modifies this, timers, pending
      ensures Valid() && Outcome(Snapshot(), thrown) == AddEventF(env, old(Snapshot()), e, internal)
      decreases if processing then 0 else 1, 3
    {
      if !started || stopped {
        return Some("Can't add event. Not running.");
      }
      if !internal {
        var _ := timers.Cancel("eventTimeout");
      }
      emitted := emitted + [EventNote(e)];
      events := Add(events, e);
      thrown := DoProcessEvents();
    }

    /** `doProcessEvents`. */
    method DoProcessEvents() returns (thrown: Option<string>)
      requires Valid()
      modifies this, timers, pending
      ensures Valid() && Outcome(Snapshot(), thrown) == DoProcessEventsF(env, old(Snapshot()))
      decreases if processing then 0 else 1, 2
    {
      if !started || stopped || |events| == 0 || processing {
        return None;
      }
      var e := events[0];
      events := events[1..];
      thrown := HandleEvent(e);
    }

    /** `handleEvent`; the deferred `processEvents` it ends with is the separate step `ProcessEvents`. */
    method HandleEvent(e: Event) returns (thrown: Option<string>)
      requires Valid() && !processing
      modifies this, timers, pending
      ensures Valid() && Outcome(Snapshot(), thrown) == HandleEventF(env, old(Snapshot()), e)
      decreases 1, 1
    {
      processing := true;
      var h;
      h, thrown := GetEventHandler(e);
      if thrown.Some? {
        return;
      }
      var opts := HandlerOpts(if h.Some? then h.value.result else map[], state.value, data, e,
        if h.Some? then h.value.route else "");
      var r := Invoke(if h.Some? then Some(h.value.handler) else None, opts);
      thrown := HandleResult(r);
      if thrown.Some? {
        return;
      }
      processing := false;
    }

    /** `handleResult`. */
    method HandleResult(r: HandlerResult) returns (thrown: Option<string>)
      requires Valid()
      modifies this, timers, pending
      ensures Valid() && Outcome(Snapshot(), thrown) == HandleResultF(env, old(Snapshot()), r)
      decreases if processing then 0 else 1, 7
    {
      if r.NoResult? {
        return None;
      }
      var res := if r.BuilderOf? then BuildResult(r.builder, data) else r.result;
      if res.kind.NextStateResult? {
        thrown := SetState(res.kind.target);
        if thrown.Some? {
          return;
        }
      }
      if res.withData && res.hasData {
        var v := ReadData(res);
        if v.Thrown? {
          return Some(v.error);
        }
        SetData(v.value);
      }
      thrown := HandleActions(res.actions);
    }

    /** The loop over a result's actions, stopping at the first that throws. */
    method HandleActions(acts: seq<Act>) returns (thrown: Option<string>)
      requires Valid()
      modifies this, timers, pending
      ensures Valid() && Outcome(Snapshot(), thrown) == HandleActionsF(env, old(Snapshot()), acts)
      decreases if processing then 0 else 1, 6, |acts|
    {
      ghost var start := Snapshot();
      var i := 0;
      while i < |acts|
        invariant 0 <= i <= |acts|
        invariant Valid()
        invariant start.processing ==> processing
        invariant HandleActionsF(env, start, acts) == HandleActionsF(env, Snapshot(), acts[i..])
      {
        thrown := HandleAction(acts[i]);
        if thrown.Some? {
          return;
        }
        i := i + 1;
      }
      thrown := None;
    }

    /** `handleAction`. */
    method HandleAction(a: Act) returns (thrown: Option<string>)
      requires Valid()
      modifies this, timers, pending
      ensures Valid() && Outcome(Snapshot(), thrown) == HandleActionF(env, old(Snapshot()), a)
      decreases if processing then 0 else 1, 5
    {
      TagPredicatesIdentifyClass(a);
      thrown := None;
      if IsReplyAction(a) {
        thrown := pending.Resolve(a.from, a.reply);
      } else if IsStateTimeoutAction(a) {
        SetStateTimeout(a.time);
      } else if IsEventTimeoutAction(a) {
        SetEventTimeout(a.time);
      } else if IsGenericTimeoutAction(a) {
        SetGenericTimeout(a.time, a.name.GetOr("DEFAULT"));
      } else if IsNextEventAction(a) {
        thrown := AddNextEvent(a);
      } else {
        thrown := Some("No handler for action: " + Tag(a));
      }
    }

    /** `addNextEvent`. */
    method AddNextEvent(a: Action) returns (thrown: Option<string>)
      requires Valid() && a.NextEventAction?
      modifies this, timers, pending
      ensures Valid() && Outcome(Snapshot(), thrown) == AddNextEventF(env, old(Snapshot()), a)
      decreases if processing then 0 else 1, 4
    {
      var e := MakeNextEvent(a.eventType, a.context, a.extra);
      if e.None? {
        return None;
      }
      thrown := AddEvent(e.value.(priority := Highest), true);
    }

    /** `processEvents`: the turn scheduled after each handled event. */
    method ProcessEvents() returns (thrown: Option<string>)
      requires Valid()
      modifies this, timers, pending
      ensures Valid() && Outcome(Snapshot(), thrown) == ProcessEventsF(env, old(Snapshot()))
    {
      thrown := DoProcessEvents();
    }

    /** A timer going off: its own entry is removed, then its event is added as an internal one. */
    method FireTimer(name: string) returns (thrown: Option<string>)
      requires Valid()
      modifies this, timers, pending
      ensures Valid() && Outcome(Snapshot(), thrown) == FireTimerF(env, old(Snapshot()), name)
    {
      var t := timers.Get(name);
      if t.None? {
        return None;
      }
      timers.Fire(name);
      thrown := AddEvent(t.value.listener, true);
    }

    /** `addHandler`. */
    method AddHandler(routes: Routes, handler: Handler) returns (thrown: Option<string>)
      requires Valid()
      modifies this
      ensures Valid() && Outcome(Snapshot(), thrown) == AddHandlerF(env, old(Snapshot()), routes, handler)
    {
      if started {
        return Some("Can't add handler. Already running.");
      }
      var mapped := CompileAll(env, RouteStrings(routes));
      if mapped.Thrown? {
        return Some(mapped.error);
      }
      routeHandlers := routeHandlers + [RouteHandler(mapped.value, handler)];
      thrown := None;
    }

    /** `initHandlers`: a pair is one handler; an object gives one handler per key, in key order. */
    method InitHandlers(hs: seq<HandlersEntry>) returns (thrown: Option<string>)
      requires Valid()
      modifies this
      ensures Valid() && Outcome(Snapshot(), thrown) == InitHandlersF(env, old(Snapshot()), hs)
    {
      var i := 0;
      while i < |hs|
        invariant 0 <= i <= |hs|
        invariant Valid()
        invariant InitHandlersF(env, old(Snapshot()), hs) == InitHandlersF(env, Snapshot(), hs[i..])
      {
        match hs[i] {
          case Pair(routes, handler) =>
            thrown := AddHandler(routes, handler);
          case Table(entries) =>
            ghost var before := Snapshot();
            var j := 0;
            thrown := None;
            while j < |entries|
              invariant 0 <= j <= |entries|
              invariant Valid()
              invariant thrown.None?
              invariant AddEntriesF(env, before, entries) == AddEntriesF(env, Snapshot(), entries[j..])
            {
              thrown := AddHandler(OneRoute(entries[j].0), entries[j].1);
              if thrown.Some? {
                break;
              }
              j := j + 1;
            }
            assert Outcome(Snapshot(), thrown) == AddEntriesF(env, before, entries);
        }
        if thrown.Some? {
          return;
        }
        i := i + 1;
      }
      thrown := None;
    }

    /** The initial data, set when truthy; a function is called for it. */
    method ApplyInitialData()
      requires Valid()
      modifies this
      ensures Valid() && Snapshot() == StartData(options, old(Snapshot()))
    {
      match options.initialData {
        case NoInitialData =>
        case DataValue(v) =>
          if Truthy(v) {
            SetData(v);
          }
        case DataThunk(f) =>
          SetData(f());
      }
    }

    /** `startSM`. */
    method StartSM() returns (thrown: Option<string>)
      requires Valid()
      modifies this, timers, pending
      ensures Valid() && Outcome(Snapshot(), thrown) == StartF(env, options, old(Snapshot()))
    {
      if started {
        return None;
      }
      if !StateTruthy(options.initialState) {
        return Some("Initial state must be defined");
      }
      ApplyInitialData();
      thrown := InitHandlers(DefaultHandlers + options.handlers);
      if thrown.Some? {
        return;
      }
      started := true;
      ghost var ready := Snapshot();
      thrown := SetState(options.initialState.value);
      assert Outcome(Snapshot(), thrown) == SetStateF(env, ready, options.initialState.value);
      if thrown.Some? {
        return;
      }
      emitted := emitted + [InitNote];
    }

    /** `stopSM`. */
    method StopSM(reason: Option<string>)
      requires Valid()
      modifies this
      ensures Valid() && Snapshot() == StopF(old(Snapshot()), reason)
    {
      stopped := true;
      emitted := emitted + [TerminateNote(reason)];
    }

    /** `call`: the id the reply will be settled under, and what adding the call event threw. */
    method Call(request: EventContext) returns (from: string, thrown: Option<string>)
      requires Valid()
      modifies this, timers, pending
      ensures Valid() && (Outcome(Snapshot(), thrown), from) == CallF(env, old(Snapshot()), request)
      ensures from !in old(pending.Table().cells)
    {
      from := pending.Create();
      thrown := AddEvent(CallEvent(from, Some(request)), false);
    }

    /** `cast`: errors are swallowed. */
    method Cast(request: EventContext, extra: Value)
      requires Valid()
      modifies this, timers, pending
      ensures Valid() && Snapshot() == CastF(env, old(Snapshot()), request, extra)
    {
      var _ := AddEvent(CastEvent(Some(request), extra), false);
    }

    /** `getState` and `getData`. */
    method GetState() returns (from: string, thrown: Option<string>)
      requires Valid()
      modifies this, timers, pending
      ensures Valid() && (Outcome(Snapshot(), thrown), from) == GetStateF(env, old(Snapshot()))
    {
      from, thrown := Call(PrimContext(Str("getState")));
    }

    method GetData() returns (from: string, thrown: Option<string>)
      requires Valid()
      modifies this, timers, pending
      ensures Valid() && (Outcome(Snapshot(), thrown), from) == GetDataF(env, old(Snapshot()))
    {
      from, thrown := Call(PrimContext(Str("getData")));
    }
  }
}
