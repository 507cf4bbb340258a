/**
 * The builder factory functions (src/result/builder/index.ts). Each
 * returns a fresh builder: a keep-state one unless it says otherwise.
 */
module BuilderFactories {
  import opened Wrappers
  import opened Values
  import opened States
  import opened Types
  import opened Actions
  import opened Builders

  /** `nextState(state)`. */
  function NextState(s: State): BuilderValue
  {
    EmptyBuilder(NextStateBuilder(s))
  }

  /** `keepState()`. */
  function KeepState(): BuilderValue
  {
    EmptyBuilder(KeepStateBuilder)
  }

  /** `repeatState()`. */
  function RepeatState(): BuilderValue
  {
    EmptyBuilder(RepeatStateBuilder)
  }

  /** `reply(from, msg)`. */
  function Reply(from: string, msg: Payload): BuilderValue
  {
    AppendActions(KeepState(), [ReplyAction(from, msg)])
  }

  /** `internalEvent(context, extra)`: the builder's `internalEvent` takes the context only. */
  function InternalEvent(context: Option<EventContext>, extra: Value): BuilderValue
  {
    AppendActions(KeepState(), [NextEventAction("internal", context, Undefined)])
  }

  /** `nextEvent(type, context, extra)`: the type is not used; an internal event is added. */
  function NextEvent(eventType: string, context: Option<EventContext>, extra: Value): BuilderValue
  {
    InternalEvent(context, extra)
  }

  /** `stateTimeout(time)`. */
  function StateTimeout(time: Timeout): BuilderValue
  {
    AppendActions(KeepState(), [StateTimeoutAction(time)])
  }

  /** `eventTimeout(time)`. */
  function EventTimeout(time: Timeout): BuilderValue
  {
    AppendActions(KeepState(), [EventTimeoutAction(time)])
  }

  /** `timeout(time)`: a generic timeout without a name. */
  function GenericTimeout(time: Timeout): BuilderValue
  {
    AppendActions(KeepState(), [GenericTimeoutAction(time, None)])
  }

  /** `data(spec)`. */
  function Data(u: Update): BuilderValue
  {
    AppendUpdate(KeepState(), u)
  }

  // ---------------------------------------------------------------------
  // Properties

  /** `nextState(s)` targets `s`; `keepState()`/`repeatState()` are empty; none has actions or specs. */
  lemma FreshBuilders(s: State)
    ensures NextState(s).kind == NextStateBuilder(s) && NextState(s).actions == [] && NextState(s).updates == []
    ensures KeepState().actions == [] == RepeatState().actions && KeepState().updates == [] == RepeatState().updates
  {
  }

  /** Each one-action factory yields a keep-state builder with exactly that action and no spec. */
  lemma OneActionFactories(from: string, msg: Payload, time: Timeout, context: Option<EventContext>, extra: Value)
    ensures Reply(from, msg) == BuilderValue(KeepStateBuilder, [ReplyAction(from, msg)], [])
    ensures StateTimeout(time) == BuilderValue(KeepStateBuilder, [StateTimeoutAction(time)], [])
    ensures EventTimeout(time) == BuilderValue(KeepStateBuilder, [EventTimeoutAction(time)], [])
    ensures GenericTimeout(time) == BuilderValue(KeepStateBuilder, [GenericTimeoutAction(time, None)], [])
    ensures InternalEvent(context, extra) == BuilderValue(KeepStateBuilder, [NextEventAction("internal", context, Undefined)], [])
  {
  }

  /** `nextEvent` ignores its type and its extra: any two calls with the same context agree. */
  lemma NextEventIgnoresType(t1: string, t2: string, context: Option<EventContext>, x1: Value, x2: Value)
    ensures NextEvent(t1, context, x1) == NextEvent(t2, context, x2)
    ensures NextEvent(t1, context, x1).actions[0].eventType == "internal"
  {
  }

  /** `data(spec)` yields a keep-state builder with one spec and no action. */
  lemma DataFactory(u: Update, d: Value)
    ensures Data(u).kind == KeepStateBuilder && Data(u).actions == [] && |Data(u).updates| == 1
    ensures ApplyAll(Data(u).updates, d) == u(d)
  {
    assert Data(u).updates == [u];
  }
}
