/**
 * `Response` (src/result/builder/Response.ts): a fluent facade over one
 * lazily created builder. Reading the builder creates a keep-state one;
 * installing a builder when one exists throws.
 */
module Responses {
  import opened Wrappers
  import opened Values
  import opened States
  import opened Types
  import opened Actions
  import opened Builders

  const AlreadyHadBuilder := "Response already had a builder"

  class Response {
    var builder: ResultBuilder?

    /** What the builder getter would hand out: the current builder, or an empty keep-state one. */
    function Current(): BuilderValue
      reads this, builder
    {
      if builder == null then EmptyBuilder(KeepStateBuilder) else builder.Snapshot()
    }

    constructor ()
      ensures builder == null
    {
      builder := null;
    }

    /** The `builder` getter: creates a KeepStateBuilder on first access, then returns that same one. */
    method GetBuilder() returns (b: ResultBuilder)
      modifies this
      ensures builder == b
      ensures old(builder) != null ==> b == old(builder)
      ensures old(builder) == null ==> fresh(b) && b.Snapshot() == EmptyBuilder(KeepStateBuilder)
    {
      if builder == null {
        builder := new ResultBuilder(KeepStateBuilder);
      }
      b := builder;
    }

    /** The `builder` setter: throws when a builder is already there. */
    method SetBuilder(value: ResultBuilder) returns (thrown: Option<string>)
      modifies this
      ensures old(builder) != null ==> thrown == Some(AlreadyHadBuilder) && builder == old(builder)
      ensures old(builder) == null ==> thrown.None? && builder == value
    {
      if builder != null {
        return Some(AlreadyHadBuilder);
      }
      builder := value;
      return None;
    }

    /** `data(spec)`. */
    method Data(u: Update) returns (r: Response)
      modifies this, builder
      ensures r == this && builder != null
      ensures old(builder) != null ==> builder == old(builder)
      ensures builder.Snapshot() == AppendUpdate(old(Current()), u)
    {
      var b := GetBuilder();
      var _ := b.Data(u);
      return this;
    }

    /** `eventTimeout(time)`. */
    method EventTimeout(time: Timeout) returns (r: Response)
      modifies this, builder
      ensures r == this && builder != null
      ensures old(builder) != null ==> builder == old(builder)
      ensures builder.Snapshot() == AppendActions(old(Current()), [EventTimeoutAction(time)])
    {
      var b := GetBuilder();
      var _ := b.EventTimeout(time);
      return this;
    }

    /** `internalEvent(context, extra)`: the builder keeps the context only. */
    method InternalEvent(context: Option<EventContext>, extra: Value) returns (r: Response)
      modifies this, builder
      ensures r == this && builder != null
      ensures old(builder) != null ==> builder == old(builder)
      ensures builder.Snapshot() == AppendActions(old(Current()), [NextEventAction("internal", context, Undefined)])
    {
      var b := GetBuilder();
      var _ := b.InternalEvent(context);
      return this;
    }

    /** `keepState()`: returns this without creating a builder. */
    method KeepState() returns (r: Response)
      ensures r == this
    {
      return this;
    }

    /** `nextEvent(type, context, extra)`: the type is not used; an internal event is added. */
    method NextEvent(eventType: string, context: Option<EventContext>, extra: Value) returns (r: Response)
      modifies this, builder
      ensures r == this && builder != null
      ensures old(builder) != null ==> builder == old(builder)
      ensures builder.Snapshot() == AppendActions(old(Current()), [NextEventAction("internal", context, Undefined)])
    {
      r := InternalEvent(context, extra);
    }

    /** `nextState(state)`: installs a NextStateBuilder through the guarded setter. */
    method NextState(s: State) returns (r: Response, thrown: Option<string>)
      modifies this
      ensures r == this
      ensures old(builder) != null ==> thrown == Some(AlreadyHadBuilder) && builder == old(builder)
      ensures old(builder) == null ==>
                thrown.None? && builder != null && fresh(builder) && builder.Snapshot() == EmptyBuilder(NextStateBuilder(s))
    {
      var nb := new ResultBuilder(NextStateBuilder(s));
      thrown := SetBuilder(nb);
      r := this;
    }

    /** `repeatState()`: installs a RepeatStateBuilder through the guarded setter. */
    method RepeatState() returns (r: Response, thrown: Option<string>)
      modifies this
      ensures r == this
      ensures old(builder) != null ==> thrown == Some(AlreadyHadBuilder) && builder == old(builder)
      ensures old(builder) == null ==>
                thrown.None? && builder != null && fresh(builder) && builder.Snapshot() == EmptyBuilder(RepeatStateBuilder)
    {
      var nb := new ResultBuilder(RepeatStateBuilder);
      thrown := SetBuilder(nb);
      r := this;
    }

    /** `reply(from, msg)`. */
    method Reply(from: string, msg: Payload) returns (r: Response)
      modifies this, builder
      ensures r == this && builder != null
      ensures old(builder) != null ==> builder == old(builder)
      ensures builder.Snapshot() == AppendActions(old(Current()), [ReplyAction(from, msg)])
    {
      var b := GetBuilder();
      var _ := b.Reply(from, msg);
      return this;
    }

    /** `stateTimeout(time)`. */
    method StateTimeout(time: Timeout) returns (r: Response)
      modifies this, builder
      ensures r == this && builder != null
      ensures old(builder) != null ==> builder == old(builder)
      ensures builder.Snapshot() == AppendActions(old(Current()), [StateTimeoutAction(time)])
    {
      var b := GetBuilder();
      var _ := b.StateTimeout(time);
      return this;
    }

    /** `timeout(time)`: an unnamed generic timeout. */
    method GenericTimeout(time: Timeout) returns (r: Response)
      modifies this, builder
      ensures r == this && builder != null
      ensures old(builder) != null ==> builder == old(builder)
      ensures builder.Snapshot() == AppendActions(old(Current()), [GenericTimeoutAction(time, None)])
    {
      var b := GetBuilder();
      var _ := b.GenericTimeout(time, None);
      return this;
    }
  }

  /**
   * `nextState` succeeds on a fresh response and throws the second time;
   * it also throws once any helper has touched the builder.
   */
  method NextStateOnlyOnce(s1: State, s2: State, time: Timeout) returns (first: Option<string>, second: Option<string>, afterHelper: Option<string>)
    ensures first.None?
    ensures second == Some(AlreadyHadBuilder)
    ensures afterHelper == Some(AlreadyHadBuilder)
  {
    var resp := new Response();
    var _, t1 := resp.NextState(s1);
    var _, t2 := resp.NextState(s2);
    first, second := t1, t2;
    var other := new Response();
    var _ := other.StateTimeout(time);
    var _, t3 := other.RepeatState();
    afterHelper := t3;
  }

  /** `keepState()` creates no builder, so a later `nextState` still succeeds. */
  method KeepStateCreatesNothing(s: State) returns (thrown: Option<string>, target: BuilderKind)
    ensures thrown.None?
    ensures target == NextStateBuilder(s)
  {
    var resp := new Response();
    var _ := resp.KeepState();
    var _, t := resp.NextState(s);
    thrown := t;
    target := resp.builder.kind;
  }
}
