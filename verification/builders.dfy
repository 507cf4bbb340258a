/**
 * Fluent result builders (src/result/builder/ResultBuilder.ts,
 * NextStateBuilder.ts). A builder accumulates actions and data-update
 * specs and materialises a result from the current data.
 */
module Builders {
  import opened Wrappers
  import opened Values
  import opened States
  import opened Types
  import opened Actions
  import opened Results

  /** Which builder: one that moves to a target state, keeps the state, or repeats it. */
  datatype BuilderKind = NextStateBuilder(target: State) | KeepStateBuilder | RepeatStateBuilder

  /** A data-update spec, known by its effect: the data `update(data, spec)` yields. */
  type Update = Value -> Value

  /** A builder's fields. */
  datatype BuilderValue = BuilderValue(kind: BuilderKind, actions: seq<Act>, updates: seq<Update>)

  /** A fresh builder of the given kind. */
  function EmptyBuilder(kind: BuilderKind): BuilderValue
  {
    BuilderValue(kind, [], [])
  }

  /** `action(...actions)`: append the actions, in order. */
  function AppendActions(b: BuilderValue, acts: seq<Act>): BuilderValue
  {
    b.(actions := b.actions + acts)
  }

  /** `data(spec)`: append a spec to the update list. */
  function AppendUpdate(b: BuilderValue, u: Update): BuilderValue
  {
    b.(updates := b.updates + [u])
  }

  /** `applyUpdates(data)`: the specs folded left to right over the data. */
  function ApplyAll(updates: seq<Update>, data: Value): (r: Value)
    ensures |updates| == 0 ==> r == data
    ensures |updates| == 1 ==> r == updates[0](data)
    decreases |updates|
  {
    if |updates| == 0 then data else ApplyAll(updates[1..], updates[0](data))
  }

  /** The result kind a builder produces. */
  function ResultKindOf(k: BuilderKind): ResultKind
  {
    match k
    case NextStateBuilder(s) => NextStateResult(s)
    case KeepStateBuilder => KeepStateResult
    case RepeatStateBuilder => RepeatStateResult
  }

  /**
   * `getResult(data)`: without specs, a result carrying only the actions
   * (the data argument is not looked at); with specs, a result with data
   * `applyUpdates(data)`.
   */
  function BuildResult(b: BuilderValue, data: Value): (r: ResultValue)
    ensures r.kind == ResultKindOf(b.kind) && r.actions == b.actions
    ensures r.withData == r.hasData == (|b.updates| > 0)
    ensures |b.updates| > 0 ==> r.stored == ApplyAll(b.updates, data)
    ensures |b.updates| == 0 ==> ReadData(r) == Ok(Undefined)
  {
    if |b.updates| == 0 then NewWithoutData(ResultKindOf(b.kind), b.actions)
    else NewResultWithData(ResultKindOf(b.kind), ApplyAll(b.updates, data), b.actions)
  }

  // ---------------------------------------------------------------------
  // Properties

  /** With no specs the data is returned unchanged. */
  lemma ApplyAllEmpty(data: Value)
    ensures ApplyAll([], data) == data
  {
  }

  /** Folding is left to right: a spec appended last is applied last. */
  lemma {:induction false} ApplyAllAppend(updates: seq<Update>, u: Update, data: Value)
    ensures ApplyAll(updates + [u], data) == u(ApplyAll(updates, data))
    decreases |updates|
  {
    if |updates| > 0 {
      assert (updates + [u])[1..] == updates[1..] + [u];
      ApplyAllAppend(updates[1..], u, updates[0](data));
    }
  }

  /** Folding over a concatenation is folding over each part in turn. */
  lemma {:induction false} ApplyAllConcat(us: seq<Update>, vs: seq<Update>, data: Value)
    ensures ApplyAll(us + vs, data) == ApplyAll(vs, ApplyAll(us, data))
    decreases |us|
  {
    if |us| > 0 {
      assert (us + vs)[0] == us[0];
      assert (us + vs)[1..] == us[1..] + vs;
      ApplyAllConcat(us[1..], vs, us[0](data));
    } else {
      assert us + vs == vs;
    }
  }

  /**
   * A NextStateBuilder without specs yields a plain NextState that never
   * reads the data; with specs, a NextStateWithData whose data is the
   * folded update. Either way the target is the builder's and the actions
   * are in builder order.
   */
  lemma NextStateBuilderResult(s: State, b: BuilderValue, d1: Value, d2: Value)
    requires b.kind == NextStateBuilder(s)
    ensures |b.updates| == 0 ==> BuildResult(b, d1) == NewNextState(s, b.actions) == BuildResult(b, d2)
    ensures |b.updates| > 0 ==> BuildResult(b, d1) == NewNextStateWithData(s, ApplyAll(b.updates, d1), b.actions)
  {
  }

  /** `data(spec)` adds no action, and appending actions touches no spec. */
  lemma AppendersIndependent(b: BuilderValue, acts: seq<Act>, u: Update)
    ensures AppendUpdate(b, u).actions == b.actions && |AppendUpdate(b, u).updates| == |b.updates| + 1
    ensures AppendActions(b, acts).updates == b.updates && AppendActions(b, acts).kind == b.kind
    ensures AppendActions(AppendActions(b, acts), []) == AppendActions(b, acts)
  {
  }

  /** A builder object; its appenders push onto the lists in place and return the same builder. */
  class ResultBuilder {
    const kind: BuilderKind
    var actions: seq<Act>
    var updates: seq<Update>

    function Snapshot(): BuilderValue
      reads this
    {
      BuilderValue(kind, actions, updates)
    }

    constructor (kind: BuilderKind)
      ensures Snapshot() == EmptyBuilder(kind)
    {
      this.kind := kind;
      actions := [];
      updates := [];
    }

    /** `action(...actions)`. */
    method Action(acts: seq<Act>) returns (r: ResultBuilder)
      modifies this
      ensures r == this
      ensures Snapshot() == AppendActions(old(Snapshot()), acts)
    {
      actions := actions + acts;
      return this;
    }

    method StateTimeout(time: Timeout) returns (r: ResultBuilder)
      modifies this
      ensures r == this
      ensures Snapshot() == AppendActions(old(Snapshot()), [StateTimeoutAction(time)])
    {
      r := Action([StateTimeoutAction(time)]);
    }

    method EventTimeout(time: Timeout) returns (r: ResultBuilder)
      modifies this
      ensures r == this
      ensures Snapshot() == AppendActions(old(Snapshot()), [EventTimeoutAction(time)])
    {
      r := Action([EventTimeoutAction(time)]);
    }

    /** `timeout(time, name?)`: a generic timeout, named or not. */
    method GenericTimeout(time: Timeout, name: Option<string>) returns (r: ResultBuilder)
      modifies this
      ensures r == this
      ensures Snapshot() == AppendActions(old(Snapshot()), [GenericTimeoutAction(time, name)])
    {
      r := Action([GenericTimeoutAction(time, name)]);
    }

    method Reply(from: string, msg: Payload) returns (r: ResultBuilder)
      modifies this
      ensures r == this
      ensures Snapshot() == AppendActions(old(Snapshot()), [ReplyAction(from, msg)])
    {
      r := Action([ReplyAction(from, msg)]);
    }

    method Postpone() returns (r: ResultBuilder)
      modifies this
      ensures r == this
      ensures Snapshot() == AppendActions(old(Snapshot()), [PostponeAction])
    {
      r := Action([PostponeAction]);
    }

    method NextEvent(eventType: string, context: Option<EventContext>, extra: Value) returns (r: ResultBuilder)
      modifies this
      ensures r == this
      ensures Snapshot() == AppendActions(old(Snapshot()), [NextEventAction(eventType, context, extra)])
    {
      r := Action([NextEventAction(eventType, context, extra)]);
    }

    /** `internalEvent(context)`: an 'internal' next event; no extra is carried. */
    method InternalEvent(context: Option<EventContext>) returns (r: ResultBuilder)
      modifies this
      ensures r == this
      ensures Snapshot() == AppendActions(old(Snapshot()), [NextEventAction("internal", context, Undefined)])
    {
      r := Action([NextEventAction("internal", context, Undefined)]);
    }

    /** `data(spec)`. */
    method Data(u: Update) returns (r: ResultBuilder)
      modifies this
      ensures r == this
      ensures Snapshot() == AppendUpdate(old(Snapshot()), u)
    {
      updates := updates + [u];
      return this;
    }

    /** `applyUpdates(data)`: the loop reassigning `data` once per spec. */
    method ApplyUpdates(data: Value) returns (r: Value)
      ensures r == ApplyAll(updates, data)
    {
      r := data;
      var i := 0;
      while i < |updates|
        invariant 0 <= i <= |updates|
        invariant ApplyAll(updates, data) == ApplyAll(updates[i..], r)
      {
        assert updates[i..][1..] == updates[i + 1..];
        r := updates[i](r);
        i := i + 1;
      }
    }

    /** `getResult(data)`. */
    method GetResult(data: Value) returns (res: Result)
      ensures fresh(res)
      ensures res.Snapshot() == BuildResult(Snapshot(), data)
    {
      if |updates| == 0 {
        res := new Result.WithoutData(ResultKindOf(kind), actions);
      } else {
        var d := ApplyUpdates(data);
        res := new Result.WithData(ResultKindOf(kind), d, actions);
      }
    }
  }
}
