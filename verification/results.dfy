/**
 * Handler results (src/result/Result.ts, ResultWithData.ts,
 * NextStateWithData.ts). One class stands for the hierarchy: `withData`
 * marks instances of ResultWithData, whose `newData` getter refuses falsy
 * data, and `kind` records whether the result moves to a next state.
 */
module Results {
  import opened Wrappers
  import opened Values
  import opened States
  import opened Actions

  datatype ResultKind =
    | NextStateResult(target: State)
    | KeepStateResult
    | RepeatStateResult
    | PlainResult

  /** A result object's fields. */
  datatype ResultValue = ResultValue(kind: ResultKind, actions: seq<Act>, withData: bool, hasData: bool, stored: Value)

  /** `new Result(...actions)`. */
  function NewResult(actions: seq<Act>): ResultValue
  {
    ResultValue(PlainResult, actions, false, false, Undefined)
  }

  /** The `newData` setter: records the value and raises `hasData`, whatever the value. */
  function AssignData(r: ResultValue, v: Value): (r': ResultValue)
    ensures r'.hasData && r'.stored == v
    ensures r'.kind == r.kind && r'.actions == r.actions && r'.withData == r.withData
  {
    r.(hasData := true, stored := v)
  }

  /** `new ResultWithData(newData, ...actions)`: actions through `super`, then the data setter. */
  function NewResultWithData(kind: ResultKind, newData: Value, actions: seq<Act>): ResultValue
  {
    AssignData(ResultValue(kind, actions, true, false, Undefined), newData)
  }

  /** `new NextStateWithData(nextState, newData, ...actions)`. */
  function NewNextStateWithData(target: State, newData: Value, actions: seq<Act>): ResultValue
  {
    NewResultWithData(NextStateResult(target), newData, actions)
  }

  /** A result of the given kind that is no ResultWithData and holds no data. */
  function NewWithoutData(kind: ResultKind, actions: seq<Act>): ResultValue
  {
    ResultValue(kind, actions, false, false, Undefined)
  }

  /** `new NextState(nextState, ...actions)`: a next-state result without data. */
  function NewNextState(target: State, actions: seq<Act>): ResultValue
  {
    NewWithoutData(NextStateResult(target), actions)
  }

  /** The `newData` getter: a ResultWithData throws "No data!" on falsy data. */
  function ReadData(r: ResultValue): (a: Attempt<Value>)
    ensures a.Thrown? <==> r.withData && !Truthy(r.stored)
    ensures a.Thrown? ==> a.error == "No data!"
    ensures a.Ok? ==> a.value == r.stored
  {
    if r.withData && !Truthy(r.stored) then Thrown("No data!") else Ok(r.stored)
  }

  /** `dataString`: empty without data, else the rendering of `newData` (whose getter may throw). */
  function DataString(r: ResultValue, dataToString: Value -> string): Attempt<string>
  {
    if !r.hasData then Ok("")
    else match ReadData(r)
      case Ok(v) => Ok(dataToString(v))
      case Thrown(e) => Thrown(e)
  }

  // ---------------------------------------------------------------------
  // Properties

  /** A plain result holds its constructor's actions in order and starts without data. */
  lemma NewResultFields(actions: seq<Act>)
    ensures NewResult(actions).actions == actions
    ensures !NewResult(actions).hasData && !NewResult(actions).withData
    ensures ReadData(NewResult(actions)) == Ok(Undefined)
  {
  }

  /**
   * Assigning `newData` raises `hasData` even for `undefined`, and reading
   * gives back the last value assigned, unless a ResultWithData refuses
   * it as falsy; the actions are untouched.
   */
  lemma AssignThenRead(r: ResultValue, v: Value, w: Value)
    ensures AssignData(r, v).hasData && AssignData(r, v).actions == r.actions
    ensures !r.withData ==> ReadData(AssignData(r, v)) == Ok(v)
    ensures r.withData ==> ReadData(AssignData(r, v)) == if Truthy(v) then Ok(v) else Thrown("No data!")
    ensures AssignData(AssignData(r, w), v) == AssignData(r, v)
  {
  }

  /**
   * Constructing a ResultWithData always assigns data, so `hasData` holds;
   * the actions are forwarded in order, and reading the data throws
   * exactly when it is falsy.
   */
  lemma NewResultWithDataFields(kind: ResultKind, newData: Value, actions: seq<Act>)
    ensures var r := NewResultWithData(kind, newData, actions);
      r.hasData && r.withData && r.kind == kind && r.actions == actions
    ensures ReadData(NewResultWithData(kind, newData, actions)).Thrown? <==> !Truthy(newData)
    ensures Truthy(newData) ==> ReadData(NewResultWithData(kind, newData, actions)) == Ok(newData)
  {
  }

  /** A NextStateWithData targets its constructor's state, carries data and keeps its actions' order. */
  lemma NewNextStateWithDataFields(target: State, newData: Value, actions: seq<Act>)
    ensures var r := NewNextStateWithData(target, newData, actions);
      r.kind.NextStateResult? && r.kind.target == target && r.hasData && r.actions == actions
  {
  }

  /** `dataString` is "" whenever `hasData` is false, and throws only where reading the data does. */
  lemma DataStringCases(r: ResultValue, dataToString: Value -> string)
    ensures !r.hasData ==> DataString(r, dataToString) == Ok("")
    ensures r.hasData && ReadData(r).Ok? ==> DataString(r, dataToString) == Ok(dataToString(r.stored))
    ensures DataString(r, dataToString).Thrown? <==> r.hasData && ReadData(r).Thrown?
  {
  }

  /** A result object; its `newData` setter and getter work on the fields in place. */
  class Result {
    const kind: ResultKind
    const withData: bool
    var actions: seq<Act>
    var hasData: bool
    var stored: Value

    function Snapshot(): ResultValue
      reads this
    {
      ResultValue(kind, actions, withData, hasData, stored)
    }

    /** `new Result(...actions)`. */
    constructor (actions: seq<Act>)
      ensures Snapshot() == NewResult(actions)
    {
      kind := PlainResult;
      withData := false;
      this.actions := actions;
      hasData := false;
      stored := Undefined;
    }

    /** `new ResultWithData(newData, ...actions)` of the given kind. */
    constructor WithData(kind: ResultKind, newData: Value, actions: seq<Act>)
      ensures Snapshot() == NewResultWithData(kind, newData, actions)
    {
      this.kind := kind;
      withData := true;
      this.actions := actions;
      hasData := false;
      stored := Undefined;
      new;
      SetNewData(newData);
    }

    /** `new NextStateWithData(nextState, newData, ...actions)`. */
    constructor NextStateWithData(target: State, newData: Value, actions: seq<Act>)
      ensures Snapshot() == NewNextStateWithData(target, newData, actions)
    {
      kind := NextStateResult(target);
      withData := true;
      this.actions := actions;
      hasData := false;
      stored := Undefined;
      new;
      SetNewData(newData);
    }

    /** A data-less result of the given kind, such as `new NextState(nextState, ...actions)`. */
    constructor WithoutData(kind: ResultKind, actions: seq<Act>)
      ensures Snapshot() == NewWithoutData(kind, actions)
    {
      this.kind := kind;
      withData := false;
      this.actions := actions;
      hasData := false;
      stored := Undefined;
    }

    /** The `newData` setter. */
    method SetNewData(v: Value)
      modifies this
      ensures Snapshot() == AssignData(old(Snapshot()), v)
    {
      hasData := true;
      stored := v;
    }

    /** The `newData` getter. */
    method NewData() returns (r: Attempt<Value>)
      ensures r == ReadData(Snapshot())
      ensures r.Ok? ==> r.value == stored
    {
      if withData && !Truthy(stored) {
        return Thrown("No data!");
      }
      return Ok(stored);
    }

    /** The `dataString` getter. */
    method GetDataString(dataToString: Value -> string) returns (r: Attempt<string>)
      ensures r == DataString(Snapshot(), dataToString)
    {
      if !hasData {
        return Ok("");
      }
      var d := NewData();
      match d
      case Ok(v) => r := Ok(dataToString(v));
      case Thrown(e) => r := Thrown(e);
    }
  }
}
