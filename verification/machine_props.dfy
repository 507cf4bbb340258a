/**
 * Properties of the state machine's behaviour: what starting, stopping,
 * adding handlers and events, changing state, applying results and
 * actions, and timers going off do to a machine.
 */
module MachineProperties {
  import opened Wrappers
  import opened Strings
  import opened Values
  import opened States
  import opened Types
  import opened Actions
  import opened Events
  import opened EventQueue
  import opened NamedTimers
  import opened Pendings
  import opened Results
  import opened Builders
  import opened Handlers
  import opened Semantics

  // ---------------------------------------------------------------------
  // State normalisation

  /** A slash-separated name becomes its segments, and renders to the same route. */
  lemma NormalizeKeepsRoute(s: State)
    ensures StateTruthy(Some(s)) <==> StateTruthy(Some(Normalize(s)))
    ensures StateRoute(Some(Normalize(s))) == StateRoute(Some(s))
    ensures Normalize(Normalize(s)) == Normalize(s)
  {
    if s.StrState? && IndexOf(s.str, '/') > 0 {
      JoinSplit(s.str, '/');
    }
  }

  /** The first segment of a split name is its part before the first slash. */
  lemma NormalizeNamesFirstSegment(name: string)
    requires IndexOf(name, '/') > 0
    ensures Normalize(StrState(name)) == ArrState(Split(name, '/'))
    ensures StateName(Some(Normalize(StrState(name)))) == Str(name[..IndexOf(name, '/')])
  {
    SplitHead(name, '/');
  }

  // ---------------------------------------------------------------------
  // Starting and stopping

  /** Starting a started machine does nothing. */
  lemma StartIsIdempotent(env: Env, opts: Options, m: Machine)
    requires m.started
    ensures StartF(env, opts, m) == Outcome(m, None)
  {
  }

  /** Without a truthy initial state, start throws and changes nothing. */
  lemma StartNeedsInitialState(env: Env, opts: Options, m: Machine)
    requires !m.started && !StateTruthy(opts.initialState)
    ensures StartF(env, opts, m) == Outcome(m, Some("Initial state must be defined"))
  {
  }

  /** Registering handlers touches nothing but the handler list, which only grows. */
  lemma {:induction false} InitHandlersOnlyAppends(env: Env, m: Machine, hs: seq<HandlersEntry>)
    ensures var o := InitHandlersF(env, m, hs);
      o.m == m.(routes := o.m.routes) && m.routes <= o.m.routes
    decreases |hs|
  {
    if |hs| > 0 {
      var o := match hs[0]
        case Pair(routes, handler) => AddHandlerF(env, m, routes, handler)
        case Table(entries) => AddEntriesF(env, m, entries);
      if hs[0].Table? {
        AddEntriesOnlyAppends(env, m, hs[0].entries);
      }
      if o.thrown.None? {
        InitHandlersOnlyAppends(env, o.m, hs[1..]);
      }
    }
  }

  lemma {:induction false} AddEntriesOnlyAppends(env: Env, m: Machine, entries: seq<(string, Handler)>)
    ensures var o := AddEntriesF(env, m, entries);
      o.m == m.(routes := o.m.routes) && m.routes <= o.m.routes
    decreases |entries|
  {
    if |entries| > 0 {
      var o := AddHandlerF(env, m, OneRoute(entries[0].0), entries[0].1);
      if o.thrown.None? {
        AddEntriesOnlyAppends(env, o.m, entries[1..]);
      }
    }
  }

  /** Registering a list of entries registers its front part first. */
  lemma {:induction false} InitHandlersConcat(env: Env, m: Machine, hs: seq<HandlersEntry>, more: seq<HandlersEntry>)
    ensures var o := InitHandlersF(env, m, hs);
      InitHandlersF(env, m, hs + more) == if o.thrown.Some? then o else InitHandlersF(env, o.m, more)
    decreases |hs|
  {
    if |hs| == 0 {
      assert hs + more == more;
    } else {
      assert (hs + more)[0] == hs[0];
      assert (hs + more)[1..] == hs[1..] + more;
      var o := match hs[0]
        case Pair(routes, handler) => AddHandlerF(env, m, routes, handler)
        case Table(entries) => AddEntriesF(env, m, entries);
      if o.thrown.None? {
        InitHandlersConcat(env, o.m, hs[1..], more);
      }
    }
  }

  /** The two built-in handlers, registered on a machine not yet started, are appended in order. */
  lemma DefaultsRegistered(env: Env, m: Machine)
    requires !m.started
    ensures var o := InitHandlersF(env, m, DefaultHandlers);
      o.thrown.None? ==>
        |o.m.routes| == |m.routes| + 2 && o.m.routes[..|m.routes|] == m.routes &&
        o.m.routes[|m.routes|].handler == DefaultHandlers[0].handler &&
        o.m.routes[|m.routes| + 1].handler == DefaultHandlers[1].handler &&
        |o.m.routes[|m.routes|].routes| == 1 && o.m.routes[|m.routes|].routes[0].0 == GetStateRoute &&
        |o.m.routes[|m.routes| + 1].routes| == 1 && o.m.routes[|m.routes| + 1].routes[0].0 == GetDataRoute
  {
    var d := DefaultHandlers;
    var o1 := AddHandlerF(env, m, d[0].routes, d[0].handler);
    AddHandlerAppends(env, m, d[0].routes, d[0].handler);
    if o1.thrown.None? {
      var o2 := AddHandlerF(env, o1.m, d[1].routes, d[1].handler);
      AddHandlerAppends(env, o1.m, d[1].routes, d[1].handler);
      assert d[1..][1..] == [];
      assert InitHandlersF(env, o1.m, d[1..]) == (if o2.thrown.Some? then o2 else InitHandlersF(env, o2.m, []));
    }
  }

  /**
   * A machine that has never run, started with routes that compile,
   * holds the two built-in handlers in front of every handler it was
   * given, so lookup tries them first.
   */
  lemma StartRegistersBuiltinsFirst(env: Env, opts: Options, m: Machine)
    requires !m.started && m.routes == []
    requires StartF(env, opts, m).thrown.None? && StateTruthy(opts.initialState)
    ensures var r := StartF(env, opts, m).m.routes;
      |r| >= 2 && r[0].handler == DefaultHandlers[0].handler && r[1].handler == DefaultHandlers[1].handler &&
      |r[0].routes| == 1 && r[0].routes[0].0 == GetStateRoute &&
      |r[1].routes| == 1 && r[1].routes[0].0 == GetDataRoute
  {
    var m1 := StartData(opts, m);
    InitHandlersConcat(env, m1, DefaultHandlers, opts.handlers);
    var o1 := InitHandlersF(env, m1, DefaultHandlers);
    var o := InitHandlersF(env, m1, DefaultHandlers + opts.handlers);
    assert o.thrown.None?;
    assert o1.thrown.None?;
    DefaultsRegistered(env, m1);
    InitHandlersOnlyAppends(env, o1.m, opts.handlers);
    assert o1.m.routes <= o.m.routes;
    var o' := SetStateF(env, o.m.(started := true), opts.initialState.value);
    assert StartF(env, opts, m).m.routes == o'.m.routes == o.m.routes;
  }

  /** Starting a machine that was stopped first throws: the initial Enter event is refused. */
  lemma StartAfterStopThrows(env: Env, opts: Options, m: Machine)
    requires !m.started && m.stopped && m.initial
    ensures StartF(env, opts, m).thrown.Some?
  {
    if StateTruthy(opts.initialState) {
      var m1 := StartData(opts, m);
      var o := InitHandlersF(env, m1, DefaultHandlers + opts.handlers);
      InitHandlersOnlyAppends(env, m1, DefaultHandlers + opts.handlers);
      if o.thrown.None? {
        var m2 := o.m.(started := true);
        assert m2.initial && !Running(m2);
        var s := Normalize(opts.initialState.value);
        var a := AnnounceStateF(m2, s, Some(s));
        assert AddEventF(env, a, EnterEvent(StateName(Some(s))), true).thrown.Some?;
      }
    }
  }

  /**
   * A successful start enters the normalised initial state: it emits
   * "state" for it, adds an Enter event whose `old` is the initial
   * state's own name, and ends with "init". A state timeout armed while
   * that Enter event was handled is cancelled before start returns.
   */
  lemma StartEntersInitialState(env: Env, opts: Options, m: Machine)
    requires !m.started && m.initial
    requires StartF(env, opts, m).thrown.None? && StateTruthy(opts.initialState)
    ensures var o := StartF(env, opts, m).m;
      var s := Normalize(opts.initialState.value);
      o.started && !o.initial &&
      StateNote(s, Some(s)) in o.emitted &&
      EventNote(EnterEvent(StateName(Some(s)))) in o.emitted &&
      o.emitted[|o.emitted| - 1] == InitNote &&
      !HasTimer(o, "stateTimeout")
  {
    var s := Normalize(opts.initialState.value);
    var m1 := StartData(opts, m);
    var oh := InitHandlersF(env, m1, DefaultHandlers + opts.handlers);
    InitHandlersOnlyAppends(env, m1, DefaultHandlers + opts.handlers);
    var m2 := oh.m.(started := true);
    var a := AnnounceStateF(m2, s, Some(s));
    assert StateNote(s, Some(s)) in a.emitted;
    var oe := AddEventF(env, a, EnterEvent(StateName(Some(s))), true);
    assert oe.thrown.None?;
    assert Running(a);
    var queued := a.(emitted := a.emitted + [EventNote(EnterEvent(StateName(Some(s))))],
      events := Add(a.events, EnterEvent(StateName(Some(s)))));
    assert oe == DoProcessEventsF(env, queued);
    assert queued.emitted <= oe.m.emitted;
    assert EventNote(EnterEvent(StateName(Some(s)))) in queued.emitted;
  }

  /** Stopping makes the machine refuse events; a cast to it is swallowed and changes nothing. */
  lemma StopRefusesEvents(env: Env, m: Machine, reason: Option<string>, e: Event, internal: bool, request: EventContext, extra: Value)
    ensures var s := StopF(m, reason);
      s.stopped && s.emitted == m.emitted + [TerminateNote(reason)] &&
      AddEventF(env, s, e, internal) == Outcome(s, Some("Can't add event. Not running.")) &&
      CastF(env, s, request, extra) == s
  {
  }

  // ---------------------------------------------------------------------
  // Handlers

  /** Adding a handler after start throws and changes nothing. */
  lemma AddHandlerAfterStartThrows(env: Env, m: Machine, routes: Routes, handler: Handler)
    requires m.started
    ensures AddHandlerF(env, m, routes, handler) == Outcome(m, Some("Can't add handler. Already running."))
  {
  }

  /**
   * Before start, a handler whose routes all compile is appended with
   * its routes in order (a single route becomes a one-element list);
   * the first route that fails to compile throws its error and nothing
   * is added.
   */
  lemma AddHandlerAppends(env: Env, m: Machine, routes: Routes, handler: Handler)
    requires !m.started
    ensures var o := AddHandlerF(env, m, routes, handler);
      var rs := RouteStrings(routes);
      (o.thrown.None? ==>
        |o.m.routes| == |m.routes| + 1 && o.m.routes[..|m.routes|] == m.routes &&
        o.m == m.(routes := o.m.routes) &&
        var added := o.m.routes[|m.routes|];
        added.handler == handler && |added.routes| == |rs| &&
        forall i :: 0 <= i < |rs| ==> added.routes[i].0 == rs[i]) &&
      (o.thrown.Some? ==> o.m == m && exists i :: 0 <= i < |rs| && env.compile(rs[i]).Thrown?)
  {
    var rs := RouteStrings(routes);
    CompileAllFails(env, rs);
  }

  lemma {:induction false} CompileAllFails(env: Env, rs: seq<string>)
    ensures CompileAll(env, rs).Thrown? ==> exists i :: 0 <= i < |rs| && env.compile(rs[i]).Thrown?
    decreases |rs|
  {
    if |rs| > 0 && env.compile(rs[0]).Ok? {
      CompileAllFails(env, rs[1..]);
      if CompileAll(env, rs[1..]).Thrown? {
        var i :| 0 <= i < |rs[1..]| && env.compile(rs[1..][i]).Thrown?;
        assert env.compile(rs[i + 1]).Thrown?;
      }
    }
  }

  /** When the first registered handler's route matches, lookup picks it, whatever follows. */
  lemma FirstHandlerWins(routes: seq<RouteHandler>, eventRoute: string)
    requires |routes| > 0 && |routes[0].routes| > 0 && routes[0].routes[0].1(eventRoute).Some?
    ensures FindHandler(routes, eventRoute) ==
      Some(MatchedHandler(routes[0].routes[0].1(eventRoute).value, routes[0].routes[0].0, routes[0].handler))
  {
  }

  // ---------------------------------------------------------------------
  // Adding and dispatching events

  /** A machine not running refuses an event and changes nothing. */
  lemma AddEventWhenNotRunning(env: Env, m: Machine, e: Event, internal: bool)
    requires !Running(m)
    ensures AddEventF(env, m, e, internal) == Outcome(m, Some("Can't add event. Not running."))
  {
  }

  /**
   * While an event is being handled, adding one only queues it, in
   * priority order behind its own band; an external event also cancels
   * the event timeout, an internal one leaves the timers alone.
   */
  lemma AddEventWhileBusy(env: Env, m: Machine, e: Event, internal: bool)
    requires Running(m) && m.processing
    ensures var o := AddEventF(env, m, e, internal);
      o.thrown.None? &&
      o.m == m.(events := o.m.events, timers := o.m.timers, emitted := o.m.emitted) &&
      o.m.events == Add(m.events, e) &&
      multiset(o.m.events) == multiset(m.events) + multiset{e} &&
      o.m.emitted == m.emitted + [EventNote(e)] &&
      (internal ==> o.m.timers == m.timers) &&
      (!internal ==> !HasTimer(o.m, "eventTimeout")) &&
      (!internal ==> forall n :: n != "eventTimeout" ==> NamedTimers.TableGet(o.m.timers, n) == NamedTimers.TableGet(m.timers, n))
  {
    AddPermutes(m.events, e);
  }

  /** An event added to an idle machine with an empty queue is handled at once. */
  lemma AddEventWhenIdleDispatches(env: Env, m: Machine, e: Event, internal: bool)
    requires Running(m) && !m.processing && m.events == []
    ensures AddEventF(env, m, e, internal) ==
      HandleEventF(env, m.(timers := if internal then m.timers else TableCancel(m.timers, "eventTimeout").1,
        emitted := m.emitted + [EventNote(e)]), e)
  {
    assert Add([], e) == [e];
    assert [e][1..] == [];
  }

  /**
   * Dispatch does nothing on a machine that is not running, has nothing
   * queued, or is already handling an event: no nested dispatch.
   */
  lemma NoNestedDispatch(env: Env, m: Machine)
    requires !Running(m) || |m.events| == 0 || m.processing
    ensures DoProcessEventsF(env, m) == Outcome(m, None)
    ensures ProcessEventsF(env, m) == Outcome(m, None)
  {
  }

  /**
   * The event a dispatch takes is the head of the queue, which in a
   * sorted queue is of the most urgent band present.
   */
  lemma DispatchTakesMostUrgent(env: Env, m: Machine)
    requires Running(m) && !m.processing && |m.events| > 0 && Sorted(m.events)
    ensures DoProcessEventsF(env, m) == HandleEventF(env, m.(events := m.events[1..]), m.events[0])
    ensures forall i :: 0 <= i < |m.events| ==> PriorityValue(m.events[0].priority) <= PriorityValue(m.events[i].priority)
  {
  }

  /** Handling an event without a current state throws "No state?" and leaves the machine marked busy. */
  lemma HandleEventWithoutState(env: Env, m: Machine, e: Event)
    requires !m.processing && !StateTruthy(m.state)
    ensures HandleEventF(env, m, e) == Outcome(m.(processing := true), Some("No state?"))
  {
  }

  /** An event no route matches goes to the default handler, which returns nothing: only the queue has moved. */
  lemma UnmatchedEventIgnored(env: Env, m: Machine, e: Event)
    requires !m.processing && StateTruthy(m.state)
    requires FindHandler(m.routes, ToRoute(e, env.dataToRoute, m.state)).None?
    ensures HandleEventF(env, m, e) == Outcome(m, None)
  {
  }

  /**
   * A throw while handling an event is not caught: the machine stays
   * marked busy, so no later turn dispatches anything, and events added
   * afterwards only pile up in the queue.
   */
  lemma ThrowWedgesMachine(env: Env, m: Machine, e: Event, later: Event)
    requires !m.processing && HandleEventF(env, m, e).thrown.Some?
    ensures var w := HandleEventF(env, m, e).m;
      w.processing &&
      ProcessEventsF(env, w) == Outcome(w, None) &&
      (Running(w) ==> AddEventF(env, w, later, true).m.events == Add(w.events, later))
  {
  }

  // ---------------------------------------------------------------------
  // Changing state

  /**
   * Setting a state equal to the current one (after the first time) adds
   * no Enter event, keeps the timers, and emits only "state" and
   * possibly "complexStateChanged".
   */
  lemma SetSameState(env: Env, m: Machine, s: State)
    requires !m.initial && StateEquals(Some(Normalize(s)), m.state)
    ensures var o := SetStateF(env, m, s);
      o.thrown.None? &&
      o.m == m.(state := Some(Normalize(s)), emitted := o.m.emitted) &&
      |m.emitted| < |o.m.emitted| <= |m.emitted| + 2 && o.m.emitted[..|m.emitted|] == m.emitted &&
      forall i :: |m.emitted| <= i < |o.m.emitted| ==> o.m.emitted[i].StateNote? || o.m.emitted[i].ComplexStateChangedNote?
  {
  }

  /**
   * A real state change made while an event is being handled queues an
   * Enter event carrying the old state's name, cancels the state timeout
   * and nothing else, and ends by emitting "stateChanged".
   */
  lemma SetChangedStateWhileBusy(env: Env, m: Machine, s: State)
    requires Running(m) && m.processing && !m.initial && !StateEquals(Some(Normalize(s)), m.state)
    ensures var o := SetStateF(env, m, s);
      var enter := EnterEvent(StateName(m.state));
      o.thrown.None? &&
      o.m.state == Some(Normalize(s)) && !o.m.initial &&
      o.m.events == Add(m.events, enter) &&
      !HasTimer(o.m, "stateTimeout") &&
      (forall n :: n != "stateTimeout" ==> NamedTimers.TableGet(o.m.timers, n) == NamedTimers.TableGet(m.timers, n)) &&
      o.m.emitted[|o.m.emitted| - 1] == StateChangedNote(Normalize(s), m.state) &&
      EventNote(enter) in o.m.emitted
  {
    var s' := Normalize(s);
    var a := AnnounceStateF(m, s', m.state);
    var enter := EnterEvent(StateName(m.state));
    AddEventWhileBusy(env, a, enter, true);
  }

  /** However the Enter event went, a completed state change leaves no state timeout running. */
  lemma StateChangeCancelsStateTimer(env: Env, m: Machine, s: State)
    requires m.initial || !StateEquals(Some(Normalize(s)), m.state)
    requires SetStateF(env, m, s).thrown.None?
    ensures !HasTimer(SetStateF(env, m, s).m, "stateTimeout")
    ensures SetStateF(env, m, s).m.emitted[|SetStateF(env, m, s).m.emitted| - 1].StateChangedNote?
  {
  }

  // ---------------------------------------------------------------------
  // Results and actions

  /** A handler that returns nothing changes nothing. */
  lemma NoResultChangesNothing(env: Env, m: Machine)
    ensures HandleResultF(env, m, NoResult) == Outcome(m, None)
  {
  }

  /**
   * A next-state result with falsy data changes the state first, then
   * throws "No data!" when the data is read; none of its actions run.
   */
  lemma FalsyDataThrowsAfterStateChange(env: Env, m: Machine, target: State, v: Value, acts: seq<Act>)
    requires !Truthy(v)
    requires SetStateF(env, m, target).thrown.None?
    ensures HandleResultF(env, m, ResultOf(NewNextStateWithData(target, v, acts))) ==
      Outcome(SetStateF(env, m, target).m, Some("No data!"))
  {
  }

  /**
   * A keep-state builder with data updates stores the updates applied in
   * order to the current data, then runs its actions; if that value is
   * falsy the read throws "No data!" instead.
   */
  lemma BuilderUpdatesData(env: Env, m: Machine, acts: seq<Act>, updates: seq<Update>)
    requires |updates| > 0
    ensures var o := HandleResultF(env, m, BuilderOf(BuilderValue(KeepStateBuilder, acts, updates)));
      var v := ApplyAll(updates, m.data);
      o == if Truthy(v) then HandleActionsF(env, SetDataF(m, v), acts) else Outcome(m, Some("No data!"))
  {
  }

  /** A reply settles its caller's pending entry, once; a reply to an unknown caller throws. */
  lemma ReplySettlesPending(env: Env, m: Machine, from: string, reply: Payload)
    ensures var o := HandleActionF(env, m, ReplyAction(from, reply));
      if from in m.pending.cells then
        o.thrown.None? && o.m == m.(pending := o.m.pending) &&
        o.m.pending.cells == m.pending.cells[from := ResolveDeferred(m.pending.cells[from], reply)] &&
        o.m.pending.cells[from].Completed() &&
        (m.pending.cells[from].Completed() ==> o.m.pending == m.pending)
      else o == Outcome(m, Some("Cannot read property 'resolve' of undefined"))
  {
    TagPredicatesIdentifyClass(ReplyAction(from, reply));
  }

  /**
   * The three timeout actions (re)arm their timers: the state and event
   * timeouts under fixed names, a generic one under its name or
   * "DEFAULT"; each timer, when it goes off, adds its own kind of event.
   */
  lemma TimeoutActionsArmTimers(env: Env, m: Machine, time: Timeout, name: Option<string>)
    ensures var o := HandleActionF(env, m, StateTimeoutAction(time));
      o.thrown.None? && NamedTimers.TableGet(o.m.timers, "stateTimeout") == Some(Timer("stateTimeout", time, StateTimeoutEvent(time)))
    ensures var o := HandleActionF(env, m, EventTimeoutAction(time));
      o.thrown.None? && NamedTimers.TableGet(o.m.timers, "eventTimeout") == Some(Timer("eventTimeout", time, EventTimeoutEvent(time)))
    ensures var o := HandleActionF(env, m, GenericTimeoutAction(time, None));
      o.thrown.None? && NamedTimers.TableGet(o.m.timers, "DEFAULT") == Some(Timer("DEFAULT", time, GenericTimeoutEvent("DEFAULT", time)))
    ensures name.Some? && name.value != "" ==>
      var o := HandleActionF(env, m, GenericTimeoutAction(time, name));
      o.thrown.None? && NamedTimers.TableGet(o.m.timers, name.value) == Some(Timer(name.value, time, GenericTimeoutEvent(name.value, time)))
  {
    TagPredicatesIdentifyClass(StateTimeoutAction(time));
    TagPredicatesIdentifyClass(EventTimeoutAction(time));
    TagPredicatesIdentifyClass(GenericTimeoutAction(time, None));
    TagPredicatesIdentifyClass(GenericTimeoutAction(time, name));
  }

  /**
   * While an event is being handled, a next-event action for an internal
   * or cast event queues it at the Highest band: behind the Highest
   * events already queued and ahead of all others. Other event types add
   * nothing.
   */
  lemma NextEventJumpsQueue(env: Env, m: Machine, eventType: string, context: Option<EventContext>, extra: Value)
    requires Running(m) && m.processing && Sorted(m.events)
    ensures var o := HandleActionF(env, m, NextEventAction(eventType, context, extra));
      match MakeNextEvent(eventType, context, extra)
      case None => o == Outcome(m, None)
      case Some(e) =>
        o.thrown.None? &&
        exists k :: 0 <= k <= |m.events| &&
          o.m.events == m.events[..k] + [e.(priority := Highest)] + m.events[k..] &&
          (forall i :: 0 <= i < k ==> m.events[i].priority == Highest) &&
          (forall i :: k <= i < |m.events| ==> m.events[i].priority != Highest)
  {
    TagPredicatesIdentifyClass(NextEventAction(eventType, context, extra));
    var ne := MakeNextEvent(eventType, context, extra);
    if ne.Some? {
      var e := ne.value.(priority := Highest);
      AddEventWhileBusy(env, m, e, true);
      var k := AddPosition(m.events, e);
      forall i | 0 <= i < |m.events|
        ensures PriorityValue(m.events[i].priority) <= PriorityValue(Highest) <==> m.events[i].priority == Highest
      {
        PriorityBandsOrdered(m.events[i].priority, Highest);
      }
    }
  }

  /** Postpone, emit and unknown actions are not handled: they throw, naming the action, and change nothing. */
  lemma UnhandledActionsThrow(env: Env, m: Machine, a: Act)
    requires a.PostponeAction? || a.EmitAction? || a.OtherAction?
    ensures HandleActionF(env, m, a) == Outcome(m, Some("No handler for action: " + Tag(a)))
  {
    TagPredicatesIdentifyClass(a);
  }

  /** Running a list of actions is running its front part, then, unless that threw, the rest. */
  lemma {:induction false} HandleActionsConcat(env: Env, m: Machine, acts: seq<Act>, more: seq<Act>)
    ensures var o := HandleActionsF(env, m, acts);
      HandleActionsF(env, m, acts + more) == if o.thrown.Some? then o else HandleActionsF(env, o.m, more)
    decreases |acts|
  {
    if |acts| == 0 {
      assert acts + more == more;
    } else {
      assert (acts + more)[0] == acts[0];
      assert (acts + more)[1..] == acts[1..] + more;
      var o := HandleActionF(env, m, acts[0]);
      if o.thrown.None? {
        HandleActionsConcat(env, o.m, acts[1..], more);
      }
    }
  }

  /** The first action that throws stops the list: the actions after it never run. */
  lemma ActionsStopAtFirstThrow(env: Env, m: Machine, acts: seq<Act>, a: Act, more: seq<Act>)
    requires HandleActionsF(env, m, acts).thrown.None?
    requires HandleActionF(env, HandleActionsF(env, m, acts).m, a).thrown.Some?
    ensures HandleActionsF(env, m, acts + [a] + more) == HandleActionF(env, HandleActionsF(env, m, acts).m, a)
  {
    HandleActionsConcat(env, m, acts, [a] + more);
    assert acts + [a] + more == acts + ([a] + more);
    var o := HandleActionsF(env, m, acts);
    assert ([a] + more)[0] == a;
  }

  // ---------------------------------------------------------------------
  // Calls, casts and timers

  /**
   * A call registers a pending entry under an id not in use before, adds
   * a call event carrying that id, and keeps the entry whatever the
   * dispatch did.
   */
  lemma CallRegistersPending(env: Env, m: Machine, request: EventContext)
    requires IdsGenerated(m.pending)
    ensures var (o, from) := CallF(env, m, request);
      from !in m.pending.cells && from in o.m.pending.cells &&
      (Running(m) && m.processing ==>
        o.thrown.None? && o.m.pending.cells[from] == Unsettled &&
        o.m.events == Add(m.events, CallEvent(from, Some(request))))
  {
    CreateFresh(m.pending);
    var (p, from) := Pendings.TableCreate(m.pending);
    var o := AddEventF(env, m.(pending := p), CallEvent(from, Some(request)), false);
    assert from in p.cells;
    if Running(m) && m.processing {
      AddEventWhileBusy(env, m.(pending := p), CallEvent(from, Some(request)), false);
    }
  }

  /** While an event is being handled, a cast queues its event and cancels the event timeout. */
  lemma CastWhileBusy(env: Env, m: Machine, request: EventContext, extra: Value)
    requires Running(m) && m.processing
    ensures var m' := CastF(env, m, request, extra);
      m'.events == Add(m.events, CastEvent(Some(request), extra)) && !HasTimer(m', "eventTimeout")
  {
    AddEventWhileBusy(env, m, CastEvent(Some(request), extra), false);
  }

  /**
   * A timer going off removes its own entry first, then adds the event
   * it was armed with as an internal event, so the event timeout
   * survives it. Cancelling a timer beforehand keeps it from going off.
   */
  lemma FiredTimerAddsItsEvent(env: Env, m: Machine, name: string)
    requires HasTimer(m, name) && Running(m) && m.processing
    ensures var o := FireTimerF(env, m, name);
      o.thrown.None? && !HasTimer(o.m, name) &&
      o.m.events == Add(m.events, m.timers.timers[name].listener) &&
      (name != "eventTimeout" ==> HasTimer(o.m, "eventTimeout") == HasTimer(m, "eventTimeout"))
    ensures FireTimerF(env, CancelTimerF(m, name), name) == Outcome(CancelTimerF(m, name), None)
  {
    AddEventWhileBusy(env, m.(timers := TableFired(m.timers, name)), m.timers.timers[name].listener, true);
  }

  /** Every public operation keeps the event queue sorted. */
  lemma PublicStepsKeepQueueSorted(env: Env, opts: Options, m: Machine, request: EventContext, extra: Value,
                                   name: string, reason: Option<string>, routes: Routes, handler: Handler)
    requires Sorted(m.events)
    ensures Sorted(StartF(env, opts, m).m.events)
    ensures Sorted(StopF(m, reason).events)
    ensures Sorted(CallF(env, m, request).0.m.events)
    ensures Sorted(CastF(env, m, request, extra).events)
    ensures Sorted(AddHandlerF(env, m, routes, handler).m.events)
    ensures Sorted(FireTimerF(env, m, name).m.events)
    ensures Sorted(CancelTimerF(m, name).events)
    ensures Sorted(ProcessEventsF(env, m).m.events)
  {
    if !m.started && StateTruthy(opts.initialState) {
      var m1 := StartData(opts, m);
      InitHandlersOnlyAppends(env, m1, DefaultHandlers + opts.handlers);
    }
  }

  // ---------------------------------------------------------------------
  // Timeouts armed by a handler's result

  /** A one-action list is that action. */
  lemma SingleAction(env: Env, m: Machine, a: Act)
    ensures HandleActionsF(env, m, [a]) == HandleActionF(env, m, a)
  {
    assert [a][1..] == [];
  }

  /** A next-state result without data changes state, then runs its actions. */
  lemma NextStateResultRunsActions(env: Env, m: Machine, target: State, acts: seq<Act>)
    requires SetStateF(env, m, target).thrown.None?
    ensures HandleResultF(env, m, ResultOf(NewNextState(target, acts))) ==
      HandleActionsF(env, SetStateF(env, m, target).m, acts)
  {
  }

  /**
   * A result that moves to a new state and arms a state timeout leaves
   * that timer running: the state change cancels the old state's timer
   * before the result's actions run. (At start, by contrast, the initial
   * Enter event is handled before the cancellation; see
   * StartEntersInitialState.)
   */
  lemma NextStateKeepsNewStateTimer(env: Env, m: Machine, target: State, time: Timeout)
    requires Running(m) && m.processing && !m.initial && !StateEquals(Some(Normalize(target)), m.state)
    ensures var o := HandleResultF(env, m, ResultOf(NewNextState(target, [StateTimeoutAction(time)])));
      o.thrown.None? && o.m.state == Some(Normalize(target)) &&
      NamedTimers.TableGet(o.m.timers, "stateTimeout") == Some(Timer("stateTimeout", time, StateTimeoutEvent(time)))
  {
    SetChangedStateWhileBusy(env, m, target);
    var o1 := SetStateF(env, m, target);
    var acts: seq<Act> := [StateTimeoutAction(time)];
    NextStateResultRunsActions(env, m, target, acts);
    SingleAction(env, o1.m, StateTimeoutAction(time));
    TimeoutActionsArmTimers(env, o1.m, time, None);
  }

  /**
   * A `[state, timeout]` handler moves to the state and arms the event
   * timeout; the next external event cancels it again.
   */
  lemma TargetWithTimeoutArmsEventTimer(env: Env, m: Machine, target: string, time: Timeout, opts: HandlerOpts,
                                        request: EventContext, extra: Value)
    requires Running(m) && m.processing && !m.initial && !StateEquals(Some(Normalize(StrState(target))), m.state)
    ensures var o := HandleResultF(env, m, Invoke(Some(TargetWithTimeout(target, time)), opts));
      o.thrown.None? && o.m.state == Some(Normalize(StrState(target))) &&
      NamedTimers.TableGet(o.m.timers, "eventTimeout") == Some(Timer("eventTimeout", time, EventTimeoutEvent(time))) &&
      !HasTimer(CastF(env, o.m, request, extra), "eventTimeout")
  {
    SetChangedStateWhileBusy(env, m, StrState(target));
    var o1 := SetStateF(env, m, StrState(target));
    TimeoutActionsArmTimers(env, o1.m, time, None);
    var acts: seq<Act> := [EventTimeoutAction(time)];
    var b := BuilderValue(NextStateBuilder(StrState(target)), acts, []);
    InvokeShapes(Some(TargetWithTimeout(target, time)), opts);
    assert BuildResult(b, m.data) == NewNextState(StrState(target), acts);
    assert HandleResultF(env, m, BuilderOf(b)) == HandleResultF(env, m, ResultOf(NewNextState(StrState(target), acts)));
    NextStateResultRunsActions(env, m, StrState(target), acts);
    SingleAction(env, o1.m, EventTimeoutAction(time));
    var o := HandleActionF(env, o1.m, EventTimeoutAction(time));
    CastWhileBusy(env, o.m, request, extra);
  }
}
