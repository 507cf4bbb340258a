/**
 * The per-transition record (src/Context.ts). Its `state` and `data`
 * setters store the value and raise the matching flag.
 */
module Contexts {
  import opened Wrappers
  import opened Values
  import opened States
  import opened Types
  import opened Events

  /** The fields of a context. */
  datatype ContextValue = ContextValue(
    emit: seq<(string, seq<Value>)>,
    enterState: bool,
    eventTimeout: Option<Timeout>,
    genericTimeout: Option<(Timeout, string)>,
    hasData: bool,
    hasState: bool,
    nextEvents: seq<Event>,
    replies: seq<(string, Value)>,
    stateTimeout: Option<Timeout>,
    usingDefaultHandler: bool,
    data: Value,
    state: Option<State>)

  /** A fresh context: empty lists, flags down, no timeouts, the state stored only when truthy. */
  function NewContext(s: Option<State>): ContextValue
  {
    ContextValue([], false, None, None, false, false, [], [], None, false, Undefined,
      if StateTruthy(s) then s else None)
  }

  class Context {
    var emit: seq<(string, seq<Value>)>
    var enterState: bool
    var eventTimeout: Option<Timeout>
    var genericTimeout: Option<(Timeout, string)>
    var hasData: bool
    var hasState: bool
    var nextEvents: seq<Event>
    var replies: seq<(string, Value)>
    var stateTimeout: Option<Timeout>
    var usingDefaultHandler: bool
    var data: Value
    var state: Option<State>

    function Snapshot(): ContextValue
      reads this
    {
      ContextValue(emit, enterState, eventTimeout, genericTimeout, hasData, hasState,
        nextEvents, replies, stateTimeout, usingDefaultHandler, data, state)
    }

    /** `new Context(state?)`: a given state is stored but `hasState` stays false. */
    constructor (s: Option<State>)
      ensures Snapshot() == NewContext(s)
      ensures StateTruthy(s) ==> state == s && !hasState
    {
      emit := [];
      enterState := false;
      eventTimeout := None;
      genericTimeout := None;
      hasData := false;
      hasState := false;
      nextEvents := [];
      replies := [];
      stateTimeout := None;
      usingDefaultHandler := false;
      data := Undefined;
      state := if StateTruthy(s) then s else None;
    }

    /** The `data` setter. */
    method SetData(v: Value)
      modifies this
      ensures Snapshot() == old(Snapshot()).(data := v, hasData := true)
    {
      data := v;
      hasData := true;
    }

    /** The `state` setter. */
    method SetState(s: Option<State>)
      modifies this
      ensures Snapshot() == old(Snapshot()).(state := s, hasState := true)
    {
      state := s;
      hasState := true;
    }

    /** `isComplexState`: the stored state is not a string. */
    function IsComplex(): (r: bool)
      reads this
      ensures r <==> !state.Some? || !state.value.StrState?
    {
      IsComplexState(state)
    }

    /** `stateName` of the stored state. */
    function Name(): (r: Value)
      reads this
      ensures r == StateName(state)
      ensures state == None ==> r == Str("")
      ensures state.Some? && state.value.StrState? ==> r == Str(state.value.str)
    {
      StateName(state)
    }

    /** `stateEq(other)`: false without another context, else `stateEquals` of the two states. */
    function StateEq(other: Context?): (r: bool)
      reads this, other
      ensures other == null ==> !r
      ensures other != null ==> (r <==> StateEquals(state, other.state))
      ensures other == this ==> (r <==> state.Some?)
    {
      if other == null then false
      else
        assert other == this && state.Some? ==> StateEquals(state, other.state) by {
          if other == this && state.Some? {
            StateEqualsReflexive(state.value);
          }
        }
        StateEquals(state, other.state)
    }
  }
}
