/** `Array.prototype.findValue` (src/util/ArrayHelpers.ts): the first truthy callback result. */
module FindValue {
  import opened Values

  /** The callback: element, index and the whole array, as `Array.prototype.find` passes them. */
  type Callback<!T> = (T, nat, seq<T>) -> Value

  /** The first truthy `fn(arr[i], i, arr)` for `i >= from`, or `undefined` when none is. */
  function FirstTruthy<T>(arr: seq<T>, fn: Callback<T>, from: nat): (r: Value)
    requires from <= |arr|
    ensures r == Undefined || Truthy(r)
    decreases |arr| - from
  {
    if from == |arr| then Undefined
    else if Truthy(fn(arr[from], from, arr)) then fn(arr[from], from, arr)
    else FirstTruthy(arr, fn, from + 1)
  }

  /** The index loop with its early return, scanning from index 0. */
  method FindValue<T>(arr: seq<T>, fn: Callback<T>) returns (r: Value)
    ensures r == FirstTruthy(arr, fn, 0)
  {
    var i := 0;
    while i < |arr|
      invariant 0 <= i <= |arr|
      invariant FirstTruthy(arr, fn, 0) == FirstTruthy(arr, fn, i)
    {
      var ret := fn(arr[i], i, arr);
      if Truthy(ret) {
        return ret;
      }
      i := i + 1;
    }
    return Undefined;
  }

  /**
   * The result is the callback's value at the first index where it is
   * truthy; every earlier result (undefined, 0, '', false, null) was
   * skipped, and nothing after that index affects the answer.
   */
  lemma {:induction false} FirstTruthyIsFirst<T>(arr: seq<T>, fn: Callback<T>, from: nat, i: nat)
    requires from <= i < |arr|
    requires Truthy(fn(arr[i], i, arr))
    requires forall j :: from <= j < i ==> !Truthy(fn(arr[j], j, arr))
    ensures FirstTruthy(arr, fn, from) == fn(arr[i], i, arr)
    decreases i - from
  {
    if from < i {
      FirstTruthyIsFirst(arr, fn, from + 1, i);
    }
  }

  /** `undefined` comes back exactly when no element yields a truthy result. */
  lemma {:induction false} FirstTruthyUndefined<T>(arr: seq<T>, fn: Callback<T>, from: nat)
    requires from <= |arr|
    ensures FirstTruthy(arr, fn, from) == Undefined <==> forall j :: from <= j < |arr| ==> !Truthy(fn(arr[j], j, arr))
    decreases |arr| - from
  {
    if from < |arr| {
      FirstTruthyUndefined(arr, fn, from + 1);
    }
  }
}
