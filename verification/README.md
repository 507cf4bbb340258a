# statem — a verified model of the state-machine runtime

This project models the runtime of `statem`, a behavioural state machine in
the style of Erlang's `gen_statem`. The model is written in Dafny and the
properties below are proved about it. A machine holds:

- a current state: a string, a list of segments, or a named record;
- data;
- an ordered list of route handlers;
- a stable priority queue of events;
- named timers;
- a table of pending calls.

Events reach the machine through `cast`, `call` (which waits for a
`reply`), timers going off, and the events that handlers themselves ask
for. Each event is rendered as a route, `type#context#state`. The first
registered route pattern that matches picks the handler. The handler
returns one of:

- nothing;
- a `Result`;
- a fluent `ResultBuilder`.

The machine then applies what was returned: it may move to a new state,
replace the data, and run the result's actions. The actions are replies,
state, event and generic timeouts, and next events. Entering a state
queues an `enter` event. Leaving a state cancels its state timeout. An
external event cancels the event timeout.

The model has two layers:

- **Specification layer.** `Semantics` (machine.dfy) gives the behaviour
  of every machine operation as a function. Each function maps a
  `Machine` snapshot to an `Outcome`: the machine after the step, plus the
  error it threw, if any. The re-entrant dispatch chain is a single group
  of mutually recursive functions: `addEvent` calls `doProcessEvents`,
  which calls `handleEvent`, `handleResult` and `handleAction`. These
  recurse back into `addEvent` when the current state changes or a next
  event is added.
- **Object layer.** `Engine.StateMachine` (engine.dfy) is a class with the
  source's fields. Its methods update those fields in place, together
  with a `Timers` object and a `Pending` object. Each method is proved to
  leave exactly the state the specification function gives.

The helper classes are modelled the same way, each as a class specified by
a function over its fields: `ResultBuilder`, `Response`, `Result`,
`Context`, `Timers` and `Pending`. `MachineProperties`
(machine_props.dfy) holds the lemmas about the machine's behaviour.

Some behaviours of the code are easy to miss, and the model keeps them:

- **Handler errors wedge the machine.** `handleEvent` has no `catch`
  (src/StateMachine.ts:405-424). An error thrown during dispatch
  propagates to whoever added the event, and `processingEvent` stays
  `true`. After that the queue is never drained again
  (`MachineProperties.ThrowWedgesMachine`).
- **Built-in routes come first.** They are registered before the user's
  routes (`defaultHandlers.concat(handlers)`), so a user route cannot
  shadow them, although the comment at src/StateMachine.ts:73 calls them
  "appended to the end" (`MachineProperties.StartRegistersBuiltinsFirst`).
- **Unknown ids throw.** `resolve`/`reject`/`get` on an unknown pending id
  throws a `TypeError`; nothing ignores it (`Pendings.UnknownIdThrows`).
- **Stopping is unconditional.** `stopSM` sets the stopped flag and emits
  `terminate` every time, stopped or not.
- **No `getStateAndData` route.** There are built-in routes for
  `getState` and `getData` only.
- **Late state timeout cancel.** In the `state` setter the `enter` event is
  added, and so handled at once when the machine is idle, before
  `"stateTimeout"` is cancelled. A state timeout armed by the initial
  `enter` handler is therefore cancelled straight away
  (`MachineProperties.StartEntersInitialState`).
- **`nextEvent` drops its type.** The `nextEvent(type, context, extra)`
  factory and the `Response` method of that name both pass only the
  context and the extra on to `internalEvent`
  (src/result/builder/index.ts:76-79, src/result/builder/Response.ts:91-95).
  The builder's `internalEvent` keeps just the context
  (src/result/builder/ResultBuilder.ts:133-135), so a `"cast"` next event
  becomes an internal one and its extra is lost
  (`BuilderFactories.NextEventIgnoresType`).

## Model

| member | source | states |
|---|---|---|
| Semantics.SetDataF | src/StateMachine.ts:300-305 | setting data keeps the machine invariant (`Preserves`: lifecycle flags and routes unchanged, notes only appended, pending ids only added, a sorted queue stays sorted) |
| Semantics.SetStateTimeoutF | src/StateMachine.ts:514-522 | re-arming "stateTimeout" keeps the machine invariant |
| Semantics.SetEventTimeoutF | src/StateMachine.ts:317-326 | re-arming "eventTimeout" keeps the machine invariant |
| Semantics.SetGenericTimeoutF | src/StateMachine.ts:335-344 | re-arming a named generic timer keeps the machine invariant |
| Semantics.AnnounceStateF | src/StateMachine.ts:262-279 | the first half of the state setter stores the new state and only emits notes: queue, timers, pending calls and the busy flag are untouched |
| Semantics.StateChangedF | src/StateMachine.ts:280-284 | cancelling the state timeout and announcing the change keeps the machine invariant |
| Semantics.SetStateF | src/StateMachine.ts:262-286 | the state setter, including the synchronous handling of its `enter` event, keeps the machine invariant whether or not it throws |
| Semantics.AddEventF | src/StateMachine.ts:488-502 | adding an event, including everything it dispatches synchronously, keeps the machine invariant |
| Semantics.DoProcessEventsF | src/StateMachine.ts:546-559 | one dispatch pass keeps the machine invariant, and does nothing on a machine that is not running, has an empty queue or is busy |
| Semantics.HandleEventF | src/StateMachine.ts:405-424 | handling an event keeps the invariant; it leaves the machine idle when it succeeds and busy when it throws |
| Semantics.HandleResultF | src/StateMachine.ts:430-452 | applying a handler's result keeps the machine invariant |
| Semantics.HandleActionsF | src/StateMachine.ts:449-451 | running a result's actions in order keeps the machine invariant |
| Semantics.HandleActionF | src/StateMachine.ts:458-479 | running one action keeps the machine invariant |
| Semantics.AddNextEventF | src/StateMachine.ts:528-534 | adding the event a next-event action describes keeps the machine invariant |
| Semantics.CompileAll | src/StateMachine.ts:190-193 | compiled routes come in the given order, each paired with its own pattern string |
| Semantics.StartData | src/StateMachine.ts:136-141 | applying the initial data changes only the data and the emitted notes |
| Semantics.Normalize | src/StateMachine.ts:263-265 | a string with a "/" after its first character becomes at least two segments that join back into it; every other state is kept |
| Semantics.AddHandlerF | src/StateMachine.ts:177-199 | once started, `addHandler` throws "Can't add handler. Already running." and changes nothing; any throw changes nothing; otherwise exactly one entry, with the handler and one compiled pattern per route, is appended and nothing else changes |
| Semantics.AddEntriesF | src/StateMachine.ts:367-370 | registering the entries of a handler object only extends the route table, by one entry per key when nothing throws |
| Semantics.InitHandlersF | src/StateMachine.ts:361-374 | registering handlers only extends the route table; on a started machine it changes nothing |
| Semantics.StartF | src/StateMachine.ts:126-149 | starting a started machine does nothing; without a truthy initial state it throws "Initial state must be defined" and changes nothing; it never changes the stopped flag; a successful start leaves the machine started with "init" as the last note |
| Semantics.StopF | src/StateMachine.ts:151-155 | stopping leaves the machine not running, sets only the stopped flag and appends one "terminate" note with the reason |
| Semantics.CallF | src/StateMachine.ts:157-165 | the call's id is registered in the pending table afterwards; a machine that is not running throws "Can't add event. Not running." |
| Semantics.CastF | src/StateMachine.ts:167-175 | a cast keeps the machine invariant and, on a machine that is not running, changes nothing |
| Semantics.GetStateF | src/StateMachine.ts:212-214 | the "getState" call's id is registered afterwards; a machine that is not running throws |
| Semantics.GetDataF | src/StateMachine.ts:222-224 | the "getData" call's id is registered afterwards; a machine that is not running throws |
| Semantics.CancelTimerF | src/StateMachine.ts:232-234 | afterwards no timer of that name runs, every other timer is as before, and nothing else changes |
| Semantics.HasTimer | src/StateMachine.ts:241-243 | true exactly when a timer of that name is registered (own names only: names inherited from `Object.prototype` are left out) |
| Semantics.FireTimerF | src/StateMachine.ts:321-324 | a timer going off keeps the machine invariant; an unknown timer changes nothing; on a machine that is not running the timer is gone and adding its event throws |
| Semantics.ProcessEventsF | src/StateMachine.ts:539-541 | the deferred turn keeps the machine invariant and does nothing on a machine that is not running, has an empty queue or is busy |
| MachineProperties.NormalizeKeepsRoute | src/StateMachine.ts:263-265 | splitting a slash-separated state name into segments keeps its truthiness and its route, and is idempotent |
| MachineProperties.NormalizeNamesFirstSegment | src/StateMachine.ts:263-271 | a name with a '/' after its first character becomes its segments, and its state name is the part before the first '/' |
| MachineProperties.StartIsIdempotent | src/StateMachine.ts:127-129 | starting a started machine returns it unchanged, without error |
| MachineProperties.StartNeedsInitialState | src/StateMachine.ts:132-134 | without a truthy initial state, start throws "Initial state must be defined" and changes nothing |
| MachineProperties.InitHandlersOnlyAppends | src/StateMachine.ts:361-374 | registering the handler list changes only the route list, which keeps its old entries as a prefix |
| MachineProperties.AddEntriesOnlyAppends | src/StateMachine.ts:368-370 | registering the entries of a handler object changes only the route list, which keeps its old entries as a prefix |
| MachineProperties.InitHandlersConcat | src/StateMachine.ts:362-372 | registering `hs + more` registers `hs`, then, unless that threw, `more` |
| MachineProperties.DefaultsRegistered | src/StateMachine.ts:77-85 | on a machine not yet started, the two built-in routes are appended in order, with their own handlers |
| MachineProperties.StartRegistersBuiltinsFirst | src/StateMachine.ts:362 | after a successful start, the first two route handlers are the getState and getData built-ins |
| MachineProperties.StartAfterStopThrows | src/StateMachine.ts:126-149 | starting a machine that was stopped before it started throws, because its initial `enter` event is refused |
| MachineProperties.StartEntersInitialState | src/StateMachine.ts:126-149 | a successful start marks the machine started and no longer initial. It emits "state" with the initial state as its own previous state. It dispatches `enter` from that state's name and ends with "init". No state timeout is left running |
| MachineProperties.StopRefusesEvents | src/StateMachine.ts:151-175 | stop sets the stopped flag and emits "terminate" with the reason; afterwards adding any event throws "Can't add event. Not running." and changes nothing, and a cast changes nothing |
| MachineProperties.AddHandlerAfterStartThrows | src/StateMachine.ts:180-182 | adding a handler to a started machine throws "Can't add handler. Already running." and changes nothing |
| MachineProperties.AddHandlerAppends | src/StateMachine.ts:177-199 | before start, a successful add appends the handler with its routes in order and changes nothing else; a failed add changes nothing, and one of its routes failed to compile |
| MachineProperties.CompileAllFails | src/StateMachine.ts:190-197 | compiling a route list throws only when one of its routes fails to compile |
| MachineProperties.FirstHandlerWins | src/StateMachine.ts:385-395 | when the first route of the first handler matches, lookup returns that handler and route, whatever follows |
| MachineProperties.AddEventWhenNotRunning | src/StateMachine.ts:489-491 | a machine not started, or stopped, refuses an event with "Can't add event. Not running." and changes nothing |
| MachineProperties.AddEventWhileBusy | src/StateMachine.ts:488-502 | while an event is being handled, adding one only queues it: the queue gains exactly that event and stays sorted, and an external event cancels the event timeout |
| MachineProperties.AddEventWhenIdleDispatches | src/StateMachine.ts:488-502 | an event added to an idle machine with an empty queue is handled at once |
| MachineProperties.NoNestedDispatch | src/StateMachine.ts:546-552 | on a machine that is not running, has an empty queue or is already handling an event, a dispatch pass and a deferred `processEvents` do nothing |
| MachineProperties.DispatchTakesMostUrgent | src/StateMachine.ts:546-559 | a dispatch pass handles the head of the queue, whose band is at least as urgent as every queued event's |
| MachineProperties.HandleEventWithoutState | src/StateMachine.ts:251-256 | handling an event with no current state throws "No state?" and leaves the machine marked busy |
| MachineProperties.UnmatchedEventIgnored | src/StateMachine.ts:405-424 | an event that no route matches goes to the default handler, which returns nothing, so the machine is unchanged |
| MachineProperties.ThrowWedgesMachine | src/StateMachine.ts:405-424 | after a handler throws, the machine stays busy: the deferred `processEvents` does nothing and later events are only queued |
| MachineProperties.SetSameState | src/StateMachine.ts:262-286 | setting a state equal to the current one stores it and emits only "state" (and possibly "complexStateChanged"); queue, timers and everything else are unchanged |
| MachineProperties.SetChangedStateWhileBusy | src/StateMachine.ts:280-284 | a real state change while busy queues `enter` from the old state's name, cancels the state timeout and emits "stateChanged" |
| MachineProperties.StateChangeCancelsStateTimer | src/StateMachine.ts:280-284 | however the `enter` event went, a completed state change leaves no state timer and ends with a "stateChanged" note |
| MachineProperties.NoResultChangesNothing | src/StateMachine.ts:431-433 | a handler that returns nothing changes nothing |
| MachineProperties.FalsyDataThrowsAfterStateChange | src/StateMachine.ts:439-447 | a next-state result carrying falsy data changes state first, then throws "No data!" |
| MachineProperties.BuilderUpdatesData | src/StateMachine.ts:435-447 | a keep-state builder with data specs sets the data to the specs folded over the current data, then runs its actions; falsy folded data throws "No data!" instead |
| MachineProperties.ReplySettlesPending | src/StateMachine.ts:461-463 | a reply resolves its caller's pending entry and changes nothing else, an already settled entry staying as it was; a reply to an unknown id throws a TypeError and changes nothing |
| MachineProperties.TimeoutActionsArmTimers | src/StateMachine.ts:464-472 | state, event and generic timeout actions arm "stateTimeout", "eventTimeout" and the given name, or "DEFAULT" when no name is given |
| MachineProperties.NextEventJumpsQueue | src/StateMachine.ts:528-534 | a next event is queued at band Highest, after the Highest events already queued and before every other event |
| MachineProperties.UnhandledActionsThrow | src/StateMachine.ts:476-478 | postpone, emit and unknown actions throw "No handler for action: " and the action's type, and change nothing |
| MachineProperties.HandleActionsConcat | src/StateMachine.ts:449-451 | running `acts + more` runs `acts`, then, unless that threw, `more` |
| MachineProperties.ActionsStopAtFirstThrow | src/StateMachine.ts:449-451 | the first action that throws ends the list; the actions after it never run |
| MachineProperties.CallRegistersPending | src/StateMachine.ts:157-165 | a call registers a pending entry under an id not used before; on a busy machine the entry is open and the call event carrying that id is queued |
| MachineProperties.CastWhileBusy | src/StateMachine.ts:167-175 | a cast while busy queues its cast event and cancels the event timeout |
| MachineProperties.FiredTimerAddsItsEvent | src/StateMachine.ts:317-326 | a timer that goes off removes its own entry and queues its event as internal, so another name's firing keeps the event timeout; a cancelled timer's firing does nothing |
| MachineProperties.PublicStepsKeepQueueSorted | src/StateMachine.ts:95 | every public operation keeps the event queue in priority order |
| MachineProperties.NextStateResultRunsActions | src/StateMachine.ts:439-451 | a next-state result without data changes state, then runs its actions on the resulting machine |
| MachineProperties.NextStateKeepsNewStateTimer | test/timeouts.ts:47-52 | `nextState(s).stateTimeout(t)` moves to `s` and leaves a state timer running, armed after the old one was cancelled |
| MachineProperties.TargetWithTimeoutArmsEventTimer | src/StateMachine.ts:579-581 | a `[state, timeout]` handler moves to the state and leaves an event timer running, which a later cast cancels |
| Engine.StateMachine.constructor | src/StateMachine.ts:87-116 | a new machine: not started, no state, empty queue, no handlers, timers or pending calls |
| Engine.StateMachine.HasTimer | src/StateMachine.ts:241-243 | true exactly when a timer of that name is registered (own names only: names inherited from `Object.prototype` are left out) |
| Engine.StateMachine.HasStateTimer | src/StateMachine.ts:118-120 | true exactly when "stateTimeout" is running |
| Engine.StateMachine.HasEventTimer | src/StateMachine.ts:122-124 | true exactly when "eventTimeout" is running |
| Engine.StateMachine.CancelTimer | src/StateMachine.ts:232-234 | the fields afterwards are `CancelTimerF` of the fields before |
| Engine.StateMachine.SetData | src/StateMachine.ts:300-305 | the fields afterwards are `SetDataF` of the fields before |
| Engine.StateMachine.SetStateTimeout | src/StateMachine.ts:514-522 | the fields afterwards are `SetStateTimeoutF` of the fields before |
| Engine.StateMachine.SetEventTimeout | src/StateMachine.ts:317-326 | the fields afterwards are `SetEventTimeoutF` of the fields before |
| Engine.StateMachine.SetGenericTimeout | src/StateMachine.ts:335-344 | the fields afterwards are `SetGenericTimeoutF` of the fields before |
| Engine.StateMachine.GetEventHandler | src/StateMachine.ts:381-399 | the nested search loop throws "No state?" without a state, else returns the first (handler, route) in registration order whose pattern matches the event's route |
| Engine.StateMachine.AnnounceState | src/StateMachine.ts:262-279 | the fields afterwards are `AnnounceStateF` of the fields before |
| Engine.StateMachine.StateChanged | src/StateMachine.ts:280-284 | the fields afterwards are `StateChangedF` of the fields before |
| Engine.StateMachine.SetState | src/StateMachine.ts:262-286 | fields and error afterwards are `SetStateF` of the fields before |
| Engine.StateMachine.AddEvent | src/StateMachine.ts:488-502 | fields and error afterwards are `AddEventF` of the fields before |
| Engine.StateMachine.DoProcessEvents | src/StateMachine.ts:546-559 | fields and error afterwards are `DoProcessEventsF` of the fields before |
| Engine.StateMachine.HandleEvent | src/StateMachine.ts:405-424 | fields and error afterwards are `HandleEventF` of the fields before |
| Engine.StateMachine.HandleResult | src/StateMachine.ts:430-452 | the loop over the actions leaves fields and error equal to `HandleResultF` of the fields before |
| Engine.StateMachine.HandleActions | src/StateMachine.ts:449-451 | the loop over the actions, stopping at the first that throws, leaves fields and error equal to `HandleActionsF` of the fields before |
| Engine.StateMachine.HandleAction | src/StateMachine.ts:458-479 | fields and error afterwards are `HandleActionF` of the fields before |
| Engine.StateMachine.AddNextEvent | src/StateMachine.ts:528-534 | fields and error afterwards are `AddNextEventF` of the fields before |
| Engine.StateMachine.ProcessEvents | src/StateMachine.ts:539-541 | fields and error afterwards are `ProcessEventsF` of the fields before |
| Engine.StateMachine.FireTimer | src/StateMachine.ts:321-324 | fields and error afterwards are `FireTimerF` of the fields before |
| Engine.StateMachine.AddHandler | src/StateMachine.ts:177-199 | fields and error afterwards are `AddHandlerF` of the fields before |
| Engine.StateMachine.InitHandlers | src/StateMachine.ts:361-374 | the loop over pairs and handler objects leaves fields and error equal to `InitHandlersF` of the fields before |
| Engine.StateMachine.ApplyInitialData | src/StateMachine.ts:136-141 | the fields afterwards are `StartData` of the fields before |
| Engine.StateMachine.StartSM | src/StateMachine.ts:126-149 | fields and error afterwards are `StartF` of the fields before |
| Engine.StateMachine.StopSM | src/StateMachine.ts:151-155 | the fields afterwards are `StopF` of the fields before |
| Engine.StateMachine.Call | src/StateMachine.ts:157-165 | fields, error and returned id are `CallF` of the fields before; the id was not pending before |
| Engine.StateMachine.Cast | src/StateMachine.ts:167-175 | the fields afterwards are `CastF` of the fields before; nothing is thrown |
| Engine.StateMachine.GetState | src/StateMachine.ts:212-214 | fields, error and id are `GetStateF` (a "getState" call) of the fields before |
| Engine.StateMachine.GetData | src/StateMachine.ts:222-224 | fields, error and id are `GetDataF` (a "getData" call) of the fields before |
| Handlers.RouteStrings | src/StateMachine.ts:186-188 | a single route becomes a one-element list; a list is kept as given |
| Handlers.FindRouteFirst | src/StateMachine.ts:386-396 | route search finds nothing exactly when no route matches; otherwise it returns the first matching route with its parameters |
| Handlers.FindHandlerFirst | src/StateMachine.ts:381-399 | handler search finds nothing exactly when no route of any handler matches. Otherwise it returns handler i and route j with the match result, no earlier (handler, route) pair in search order matching |
| Handlers.InvokeShapes | src/StateMachine.ts:567-584 | no handler gives nothing; a function is called with the options; a state name gives `nextState(name)`; a `[state, timeout]` pair gives `nextState(state).eventTimeout(timeout)` |
| Handlers.GetStateReplies | src/StateMachine.ts:77-85 | the built-in handlers reply to the caller bound by the route with the current state, or with the current data, keeping the state |
| Handlers.Invoke | src/StateMachine.ts:567-584 | no handler gives nothing; a function handler gives what the function returns; a state or `[state, timeout]` handler gives a next-state builder to that state with no data updates |
| Handlers.FindRoute | src/StateMachine.ts:386-396 | nothing is found exactly when no route of the handler matches; what is found is one of its routes with that route's match parameters |
| Handlers.FindHandler | src/StateMachine.ts:381-399 | what is found is a registered (handler, route) pair whose pattern matches the event route, with its parameters |
| EventQueue.Add | src/StateMachine.ts:500 | adding an event grows the queue by one |
| EventQueue.AddSorted | src/StateMachine.ts:95 | adding to a sorted queue keeps it sorted and brings in nothing but the new event |
| EventQueue.AddPermutes | src/StateMachine.ts:500 | the queue gains exactly the added event: a permutation of the old queue plus it |
| EventQueue.AddStable | src/StateMachine.ts:95 | within each band events keep their arrival order, and the new event joins its band last |
| EventQueue.OfBandNone | src/StateMachine.ts:95 | a sorted queue whose head is less urgent than a band holds no event of that band |
| EventQueue.AddAt | src/StateMachine.ts:500 | `add` inserts the event at the first position holding a less urgent event, or at the end |
| EventQueue.AddPosition | src/StateMachine.ts:500 | the new event goes in after every event of its band or a more urgent one, and before every less urgent event |
| Events.NewEvent | src/event/Event.ts:39-47 | a new event starts at Normal priority with the given context and extra |
| Events.MakeNextEvent | src/event/index.ts:44-51 | "internal" makes an internal event with the context; "cast" makes a cast event with context and extra; any other type makes none |
| Events.ComparatorOrdersByUrgency | src/event/Event.ts:89-91 | the comparator is negative exactly when the first band is more urgent, zero exactly on equal bands, and antisymmetric |
| Events.ToRouteHasThreeParts | src/event/Event.ts:98-100 | when no part contains '#', splitting an event route on '#' gives back its type, context and state parts |
| Events.TypeRoute | src/event/Event.ts:78-80 | the type route starts with the event type; it is the type itself except for a call event, which adds "/" and the caller's id |
| Events.Route | src/event/Event.ts:53-55 | when the type route holds no "#", splitting the route on "#" gives the type route and then the pieces of the rendered context |
| Events.ToRoute | src/event/Event.ts:98-100 | the event route is a prefix and the state route a suffix of the full route, with a separator between them |
| Events.Comparator | src/event/Event.ts:89-91 | negative exactly when the first event is of a more urgent band, zero exactly on equal bands, positive exactly when less urgent |
| Types.PriorityBandsOrdered | src/types.ts:73-79 | the five priority values are distinct and ordered Highest < High < Normal < Low < Lowest |
| NamedTimers.CreateInstalls | src/util/Timers.ts:46-57 | after `create`, the name maps to the new timer and every other entry is unchanged |
| NamedTimers.CreateNames | src/util/Timers.ts:49 | a truthy name is used as given; otherwise a fresh generated name is used |
| NamedTimers.CancelAbsent | src/util/Timers.ts:66-69 | cancelling an absent name returns false and changes nothing |
| NamedTimers.CancelPresent | src/util/Timers.ts:66-75 | cancelling a present name returns true and removes exactly that entry |
| NamedTimers.FiredRemovesItself | src/util/Timers.ts:55 | a timer that goes off removes its own entry and only it |
| NamedTimers.TableGet | src/util/Timers.ts:81-83 | `get` finds a timer exactly when one of that name is registered, and returns it (own names only) |
| NamedTimers.TableCancel | src/util/Timers.ts:66-75 | the flag says whether the name was registered; the name is removed, every other entry and the counter are kept |
| NamedTimers.TableCreate | src/util/Timers.ts:46-57 | the new timer carries its name, timeout and listener and is registered under its name; the table gains that name only and every other entry is kept |
| NamedTimers.TableFired | src/util/Timers.ts:55 | a timer going off removes its own name and keeps every other entry |
| NamedTimers.Timers.constructor | src/util/Timers.ts:30-31 | a new registry is empty |
| NamedTimers.Timers.Cancel | src/util/Timers.ts:66-75 | result and new table are `TableCancel` of the old table |
| NamedTimers.Timers.Create | src/util/Timers.ts:46-57 | returned timer and new table are `TableCreate` of the old table |
| NamedTimers.Timers.Fire | src/util/Timers.ts:55 | the new table is `TableFired` of the old table |
| Pendings.ResolveDeferred | src/util/Deferred.ts:86-97 | resolving settles a deferred; one already settled stays as it was |
| Pendings.RejectDeferred | src/util/Deferred.ts:86-97 | rejecting settles a deferred; one already settled stays as it was |
| Pendings.CreateFresh | src/util/Pending.ts:31-37 | `create` returns an id not registered before, now open, and the table keeps holding generated ids only |
| Pendings.UnknownIdThrows | src/util/Pending.ts:39-55 | `get`, `resolve` and `reject` of an unknown id all throw |
| Pendings.SettleOnce | src/util/Pending.ts:47-55 | resolving an open entry records the value; a later resolve or reject changes nothing |
| Pendings.RemoveOnlyThat | src/util/Pending.ts:43-45 | `remove` deletes that entry and no other |
| Pendings.CleanupKeepsOpen | src/util/Pending.ts:57-63 | `cleanup` keeps exactly the entries that have not completed |
| Pendings.TableCreate | src/util/Pending.ts:31-37 | the returned id is registered as open, every other entry is kept, and the counter advances |
| Pendings.TableGet | src/util/Pending.ts:39-41 | `get` succeeds exactly for a registered id and returns its deferred |
| Pendings.TableRemove | src/util/Pending.ts:43-45 | the id is removed and every other entry is kept |
| Pendings.TableResolve | src/util/Pending.ts:47-50 | succeeds exactly for a registered id, which is then settled; an already settled id changes nothing; other entries are kept |
| Pendings.TableReject | src/util/Pending.ts:52-55 | succeeds exactly for a registered id, which is then settled; an already settled id changes nothing; other entries are kept |
| Pendings.TableCleanup | src/util/Pending.ts:57-63 | an id is kept exactly when it was registered and not completed, with its entry unchanged |
| Pendings.Pending.constructor | src/util/Pending.ts:29 | a new table is empty |
| Pendings.Pending.Create | src/util/Pending.ts:31-37 | new table and id are `TableCreate` of the old table; the id was not registered before |
| Pendings.Pending.Remove | src/util/Pending.ts:43-45 | the new table is `TableRemove` of the old one |
| Pendings.Pending.Resolve | src/util/Pending.ts:47-50 | new table or error is `TableResolve` of the old one |
| Pendings.Pending.Reject | src/util/Pending.ts:52-55 | new table or error is `TableReject` of the old one |
| Pendings.Pending.Cleanup | src/util/Pending.ts:57-63 | the loop over completed ids leaves `TableCleanup` of the old table |
| UniqIds.UniqIdInjective | src/util/Pending.ts:33 | distinct counters give distinct generated ids |
| States.StateName | src/State.ts:79-90 | a falsy state has name ''; a string state is its own name; an array state is named by its property "0" (its first segment, `undefined` when empty) and a record by its property "name"; every name is a string or `undefined` |
| States.StateRoute | src/State.ts:115-132 | a falsy state routes as "*", a string as itself, an array as its segments joined with "/"; a record as its name followed by each field's key and rendered value, all joined with "/" (a record without fields as its name and a trailing "/") |
| States.ComplexIsNotString | src/State.ts:43-72 | complex means exactly not a string, `undefined` included; an array state is both an object and complex |
| States.StateEqualsReflexive | src/State.ts:98-108 | a present state equals itself; a missing state equals nothing, not even another missing one |
| States.StringNeverEqualsComplex | src/State.ts:98-108 | a string state never equals a complex one, either way round |
| States.StringStatesEqual | src/State.ts:99-101 | string states are equal exactly when the strings are |
| States.ArrayStatesEqual | src/State.ts:103-105 | array states are equal exactly when their segments are |
| States.ArrayNeverEqualsObject | src/State.ts:103-107 | an array state and a record state are never equal, either way round |
| States.EqualStatesShareName | src/State.ts:79-108 | equal states have the same name |
| States.RecordEqualityNotSymmetric | src/State.ts:107 | two records can be equal one way round and unequal the other |
| States.RecordRouteShape | src/State.ts:128-131 | when no name, key or value holds "/", a record's route splits back into its name and then each field's key and value, in field order |
| States.RecordEntriesLikeObject | src/State.ts:128-131 | a record's properties are `name` followed by its fields, no key twice, each read back with its own value; no key of the flattened route pairs is `name`, so the filter of `stateRoute` removes nothing |
| States.ArrayRouteSplits | src/State.ts:124-126 | when no segment holds "/", an array state's route splits back into its segments |
| States.PropRoutes | src/State.ts:129-131 | one `key/value` text per field, in field order |
| States.Pairs | src/State.ts:129-131 | the fields' keys and rendered values, flattened in order: twice as many items, key at even and value at odd positions |
| States.StateEquals | src/State.ts:98-108 | equal states are both present and both strings or both not; two strings, or two arrays, are equal exactly when they are identical |
| Values.Keys | src/util/arrayEqual.ts:33-34 | `Object.keys` lists each property name, in order |
| Values.Lookup | src/util/arrayEqual.ts:38 | a property read gives the first value stored under the key, or `undefined` when the object has no own property of that name (inherited members are left out) |
| ArrayEqual.ArrayEqual | src/util/arrayEqual.ts:22-30 | the early-exit loop returns true exactly when both arrays have the same length and are `===` at every index |
| ArrayEqual.ObjEqual | src/util/arrayEqual.ts:32-43 | the loop returns true exactly when key counts agree and every key of `a` reads the same in `b` |
| ArrayEqual.ElementsEqualIsEquality | src/util/arrayEqual.ts:22-30 | `arrayEqual` holds exactly for equal sequences |
| ArrayEqual.ElementsEqualReflexiveSymmetric | src/util/arrayEqual.ts:22-30 | `arrayEqual` is reflexive and symmetric |
| ArrayEqual.ObjectsEqualNotSymmetric | src/util/arrayEqual.ts:32-43 | `objEqual` is not symmetric: an `undefined`-valued key matches a missing key one way only |
| ArrayEqual.ElementsEqual | src/util/arrayEqual.ts:22-30 | element-wise equality holds exactly for equal sequences |
| ArrayEqual.ObjectsEqual | src/util/arrayEqual.ts:32-43 | equal objects have as many keys, every key defined in the first reads the same in the second, and every object equals itself |
| FindValue.FirstTruthy | src/util/ArrayHelpers.ts:42-52 | the result is `undefined` or truthy |
| FindValue.FindValue | src/util/ArrayHelpers.ts:42-52 | the index loop with early return yields the first truthy callback result |
| FindValue.FirstTruthyIsFirst | src/util/ArrayHelpers.ts:45-50 | if index i is the first with a truthy result, that result is returned |
| FindValue.FirstTruthyUndefined | src/util/ArrayHelpers.ts:45-51 | `undefined` comes back exactly when no element gives a truthy result |
| PushFixed.PushFixed | src/util/pushFixed.ts:32-35 | the item comes last. With size >= 1 the result has min(length + 1, size) items, the rest being the newest items of the array; otherwise it is just the item |
| PushFixed.PushFixedUnderCapacity | src/util/pushFixed.ts:32-35 | below capacity nothing is dropped |
| PushFixed.PushAllBounded | src/util/pushFixed.ts:32-35 | repeated pushes never exceed the size and end with the last pushed item |
| LogUtils.PrefixTruncates | src/log/utils.ts:31-35 | a long tag becomes ".." followed by its last `prefixLen - 2` characters |
| LogUtils.PrefixPads | src/log/utils.ts:31-35 | a short tag is left-padded with the fill, a space by default, and ends with the tag |
| LogUtils.PrefixWidth | src/log/utils.ts:31-35 | with width at least 2 and a non-empty fill, the prefix is exactly the width |
| LogUtils.PrefixEmptyFill | src/log/utils.ts:31-35 | an empty fill leaves a short tag as it is |
| LogUtils.PzPadsWithoutTruncating | src/log/utils.ts:37-43 | `pz2`/`pz3` left-pad with '0' to 2/3 characters, ending with the number's text and never cutting it |
| LogUtils.Pz2SingleDigit | src/log/utils.ts:37-39 | a single digit gets exactly one leading zero |
| LogUtils.Prefix | src/log/utils.ts:31-35 | a long tag gives ".." and, for a width of at least 2, exactly the width, ending in the tag's tail; a short tag ends with the tag |
| LogUtils.Pz2 | src/log/utils.ts:37-39 | at least two characters, ending with the number's text, preceded only by '0' |
| LogUtils.Pz3 | src/log/utils.ts:41-43 | at least three characters, ending with the number's text, preceded only by '0' |
| Strings.NatToString | src/log/utils.ts:38 | the decimal form of a number is a non-empty digit string, one character exactly below 10 |
| Strings.IntToString | src/log/utils.ts:38 | negative numbers get a leading '-' |
| Strings.IndexOf | src/StateMachine.ts:263 | `indexOf` is -1 exactly when the character is absent, else the position of its first occurrence |
| Strings.Split | src/StateMachine.ts:264 | a split has at least one piece |
| Strings.JoinSplit | src/State.ts:125 | joining the pieces of a split with the separator gives back the string |
| Strings.SplitJoin | src/State.ts:125 | splitting the join of separator-free pieces gives back the pieces |
| Strings.SplitPiecesFree | src/StateMachine.ts:264 | no piece of a split contains the separator |
| Strings.SplitHead | src/StateMachine.ts:264 | the first piece is the text before the first separator, and there are at least two pieces |
| Strings.RepeatTo | src/log/utils.ts:34 | the pad of `padStart` has the requested length and repeats the fill cyclically |
| Strings.PadStart | src/log/utils.ts:34 | `padStart` reaches the requested length unless the string is already long enough or the fill is empty, and always ends with the string |
| Actions.TagPredicatesExclusive | src/action/index.ts:56-102 | at most one of the seven tag predicates holds, and none holds for an unknown tag |
| Actions.TagPredicatesIdentifyClass | src/action/index.ts:56-102 | for a well-tagged action each predicate holds exactly for its own class |
| Results.NewResultFields | src/result/Result.ts:50-52 | a plain result keeps its actions in order and starts without data |
| Results.AssignThenRead | src/result/ResultWithData.ts:41-51 | the setter raises `hasData` and keeps the actions. A plain result reads back the value; a result with data throws "No data!" when the value is falsy. A second assignment overrides the first |
| Results.NewResultWithDataFields | src/result/ResultWithData.ts:36-46 | a result with data has `hasData` set, and reading throws exactly when the data is falsy |
| Results.NewNextStateWithDataFields | src/result/NextStateWithData.ts:14-17 | the result targets the given state, carries the data and keeps its actions in order |
| Results.DataStringCases | src/result/ResultWithData.ts:53-55 | the data string is '' without data, the rendering of the data otherwise, and throws only where reading the data throws |
| Results.AssignData | src/result/ResultWithData.ts:48-51 | the setter stores the value, raises `hasData` and keeps kind, actions and class |
| Results.ReadData | src/result/ResultWithData.ts:41-46 | the getter throws "No data!" exactly for a result with data whose value is falsy, and otherwise returns the stored value |
| Results.Result.constructor | src/result/Result.ts:50-52 | the fields are `NewResult(actions)` |
| Results.Result.WithData | src/result/ResultWithData.ts:36-39 | the fields are `NewResultWithData` |
| Results.Result.NextStateWithData | src/result/NextStateWithData.ts:14-17 | the fields are `NewNextStateWithData` |
| Results.Result.WithoutData | src/result/Result.ts:50-52 | the fields are `NewWithoutData` |
| Results.Result.SetNewData | src/result/ResultWithData.ts:48-51 | the new fields are `AssignData` of the old ones |
| Results.Result.NewData | src/result/ResultWithData.ts:41-46 | the getter returns `ReadData` of the fields, the stored value when it does not throw |
| Results.Result.GetDataString | src/result/ResultWithData.ts:53-55 | the getter returns `DataString` of the fields |
| Builders.ApplyAllEmpty | src/result/builder/ResultBuilder.ts:152-157 | with no specs the data is returned unchanged |
| Builders.ApplyAllAppend | src/result/builder/ResultBuilder.ts:152-157 | a spec appended last is applied last |
| Builders.ApplyAllConcat | src/result/builder/ResultBuilder.ts:152-157 | folding over a concatenation folds over each part in turn |
| Builders.NextStateBuilderResult | src/result/builder/NextStateBuilder.ts:34-40 | without specs the result is a data-less next state, whatever the data; with specs it carries the folded data |
| Builders.AppendersIndependent | src/result/builder/ResultBuilder.ts:62-145 | `data` adds a spec and no action; `action` adds actions and no spec |
| Builders.ApplyAll | src/result/builder/ResultBuilder.ts:152-157 | no spec leaves the data as it is; one spec applies that spec |
| Builders.BuildResult | src/result/builder/NextStateBuilder.ts:34-40 | the result has the builder's kind and actions; it carries data exactly when there are specs, and then the folded data; without specs it reads as `undefined` |
| Builders.ResultBuilder.constructor | src/result/builder/ResultBuilder.ts:33-37 | a new builder has no actions and no specs |
| Builders.ResultBuilder.Action | src/result/builder/ResultBuilder.ts:62-65 | returns the same builder, with the actions appended in order |
| Builders.ResultBuilder.StateTimeout | src/result/builder/ResultBuilder.ts:72-74 | returns the same builder, with a state timeout action appended |
| Builders.ResultBuilder.EventTimeout | src/result/builder/ResultBuilder.ts:81-83 | returns the same builder, with an event timeout action appended |
| Builders.ResultBuilder.GenericTimeout | src/result/builder/ResultBuilder.ts:92-94 | returns the same builder, with a generic timeout action appended |
| Builders.ResultBuilder.Reply | src/result/builder/ResultBuilder.ts:103-105 | returns the same builder, with a reply action appended |
| Builders.ResultBuilder.Postpone | src/result/builder/ResultBuilder.ts:112-114 | returns the same builder, with a postpone action appended |
| Builders.ResultBuilder.NextEvent | src/result/builder/ResultBuilder.ts:124-126 | returns the same builder, with a next-event action appended |
| Builders.ResultBuilder.InternalEvent | src/result/builder/ResultBuilder.ts:133-135 | returns the same builder, with an internal next-event action that carries no extra |
| Builders.ResultBuilder.Data | src/result/builder/ResultBuilder.ts:142-145 | returns the same builder, with the spec appended |
| Builders.ResultBuilder.ApplyUpdates | src/result/builder/ResultBuilder.ts:152-157 | the loop returns the specs folded over the data |
| Builders.ResultBuilder.GetResult | src/result/builder/NextStateBuilder.ts:34-40 | a fresh result whose fields are `BuildResult` of the builder and data |
| BuilderFactories.FreshBuilders | src/result/builder/index.ts:39-57 | `nextState(s)` targets `s`; `keepState()` and `repeatState()` are empty |
| BuilderFactories.OneActionFactories | src/result/builder/index.ts:65-117 | `reply`, `stateTimeout`, `eventTimeout`, `timeout` and `internalEvent` each give a keep-state builder with exactly that action |
| BuilderFactories.NextEventIgnoresType | src/result/builder/index.ts:76-79 | `nextEvent` ignores its type and extra and always adds an internal event |
| BuilderFactories.DataFactory | src/result/builder/index.ts:124-126 | `data(spec)` gives a keep-state builder with that one spec and no action |
| Responses.Response.constructor | src/result/builder/Response.ts:30-31 | a new response has no builder |
| Responses.Response.GetBuilder | src/result/builder/Response.ts:33-36 | the getter returns the existing builder, or installs and returns a fresh keep-state builder |
| Responses.Response.SetBuilder | src/result/builder/Response.ts:38-43 | the setter throws "Response already had a builder" and keeps the old builder when one exists, else installs the new one |
| Responses.Response.Data | src/result/builder/Response.ts:50-53 | appends the spec to the current, or a fresh keep-state, builder |
| Responses.Response.EventTimeout | src/result/builder/Response.ts:60-63 | appends an event timeout to the current, or a fresh keep-state, builder |
| Responses.Response.InternalEvent | src/result/builder/Response.ts:71-75 | appends an internal next event, context only |
| Responses.Response.KeepState | src/result/builder/Response.ts:80-82 | returns the response and creates no builder |
| Responses.Response.NextEvent | src/result/builder/Response.ts:91-95 | ignores the type and appends an internal next event |
| Responses.Response.NextState | src/result/builder/Response.ts:102-105 | installs a next-state builder through the guarded setter, which throws when a builder exists |
| Responses.Response.RepeatState | src/result/builder/Response.ts:111-114 | installs a repeat-state builder through the guarded setter, which throws when a builder exists |
| Responses.Response.Reply | src/result/builder/Response.ts:122-125 | appends a reply action |
| Responses.Response.StateTimeout | src/result/builder/Response.ts:132-135 | appends a state timeout action |
| Responses.Response.GenericTimeout | src/result/builder/Response.ts:142-145 | appends an unnamed generic timeout action |
| Responses.NextStateOnlyOnce | src/result/builder/Response.ts:38-105 | a second `nextState`, or one after any helper has created a builder, throws |
| Responses.KeepStateCreatesNothing | src/result/builder/Response.ts:80-105 | `keepState()` then `nextState(s)` succeeds and targets `s` |
| Contexts.Context.constructor | src/Context.ts:59-63 | a truthy initial state is stored while `hasState` stays false |
| Contexts.Context.SetData | src/Context.ts:69-72 | stores the data and raises `hasData`, nothing else |
| Contexts.Context.SetState | src/Context.ts:82-85 | stores the state and raises `hasState`, nothing else |
| Contexts.Context.IsComplex | src/Context.ts:74-76 | true exactly when the stored state is missing or not a string |
| Contexts.Context.Name | src/Context.ts:87-89 | the context's name is `stateName` of its state: '' without a state, the string itself for a string state |
| Contexts.Context.StateEq | src/Context.ts:91-93 | false without another context, else `stateEquals` of the two states; a context equals itself exactly when it has a state |

## Left out

- Inherited property names. The timer table (src/util/Timers.ts:31), like every object the model reads, is a plain object, so the source looks names up through `Object.prototype`. The model holds own keys only, which affects `NamedTimers.Timers`, `NamedTimers.TableGet`, `NamedTimers.TableCancel`, `NamedTimers.TableCreate`, `Semantics.HasTimer`, `Semantics.CancelTimerF`, `Semantics.SetGenericTimeoutF` and `Values.Lookup`. In the source, a name such as "toString", "constructor" or "__proto__" reads as present: `hasTimer("toString")` is true on a fresh machine. Cancelling or creating a timer under such a name calls the inherited member's missing `cancel` and throws a `TypeError` (src/util/Timers.ts:66-72). In the model such a name is absent, so `hasTimer` is false, `cancel` changes nothing, and `create` installs the timer. Likewise, `objEqual`'s `b[k]` (src/util/arrayEqual.ts:38) reads an inherited member where `Values.Lookup` gives `undefined`.

- Asynchrony. `async`/`await`, promises and `setImmediate` are not modelled. A pending call is settled at once when its reply is handled. The `setImmediate(doProcessEvents)` that ends `handleEvent` is the separate step `ProcessEvents`, which the environment may take at any time.
- Timers firing. Timer expiry comes from the clock, so it is the explicit step `FireTimer`. The Timers listener that removes the entry runs first, then the machine's listener, which adds the timer's event as an internal one. Timeouts are kept as values; no wall-clock time is modelled.
- Events to listeners. `EventEmitter` listeners are not modelled. What the machine emits ("init", "terminate", "state", "complexStateChanged", "stateChanged", "data", "event") is recorded, in order, in the `emitted` field.
- Logging. The logger and the `log` helper object are left out; logging has no effect on the machine.
- Route patterns. The `route-parser` matcher is not part of this model. Compiling a pattern is the parameter `env.compile`, which may throw, and each compiled pattern is a function from a route to its parameters. `dataToRoute` and `dataToString` (src/util/StringHelper.ts) are not part of this model either; they are parameters.
- Generated ids. `uniqId` (src/util/uniqId.ts) is not part of this model. A counter-derived name stands in for it, with one counter per timer table and per pending table.
- Other result classes. The KeepState, RepeatState and NextState result classes, `isResultBuilder`, `isNextStateResult` and `isResultWithData` are not part of this model. They are modelled after NextStateBuilder and NextStateWithData: a keep-state or repeat-state builder yields a result that keeps the state.
- Call event routes. CallEvent.ts is not part of this model. The type route of a call event is taken to be `call/<from>`, which is what the built-in routes `call/:from#getState#*_` and `call/:from#getData#*_` match.
- Action text. Action.toString is not part of this model. The message for an unknown action is built from the action's type.
- Handlers. Handlers are pure functions of their options. A handler that throws, or that mutates shared objects, is not modelled.
- Options. `Object.assign(this, init)` is modelled for `initialState`, `handlers` and `initialData` only; other option keys overriding fields are not modelled.
- findValue. Installing `findValue` on `Array.prototype`, and skipping the install when one exists, is not modelled; the function itself is.
- PushFixed.PushFixed: `concat` spreads an array-valued item into several elements; the model appends the item as one element.
- Record states. A record state holds its `name` apart from its other fields, and the `Fields` type keeps those other keys distinct from each other and from `name`, as in a JavaScript object. So the `k !== "name"` filter of `stateRoute` (src/State.ts:128-131) has nothing to remove, and `Object.keys` counts one key more than the fields (`States.RecordEntriesLikeObject`).
- Strings: lengths, `substr` and `padStart` count characters, not UTF-16 code units. `Strings.PadStart`, `Strings.RepeatTo`, `Strings.SubstrFrom` and `LogUtils.Prefix` therefore differ from src/log/utils.ts:31-35 only for characters outside the Basic Multilingual Plane, which JavaScript counts as two.
- Numbers. Numbers are mathematical integers: floating point, `NaN` and `-0` are left out.
- Cleanup. `Pending.cleanup` is modelled, but the machine never calls it, so pending entries are never dropped by the engine.
- Data-update specs. `immutability-helper` specs are known only by their effect: a spec is a function from data to data.
