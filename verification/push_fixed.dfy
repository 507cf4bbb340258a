/** `pushFixed` (src/util/pushFixed.ts): append to a bounded history, dropping from the front. */
module PushFixed {

  /**
   * `arr.slice(max(0, arr.length - size + 1)).concat(item)`: a new
   * sequence; `arr` itself is a value and is left as it was.
   */
  function PushFixed<T>(item: T, arr: seq<T>, size: int): (r: seq<T>)
    ensures |r| >= 1 && r[|r| - 1] == item
    ensures size >= 1 ==> |r| == Min(|arr| + 1, size)
    ensures size >= 1 ==> r[..|r| - 1] == arr[|arr| - Min(|arr|, size - 1)..]
    ensures size < 1 ==> r == [item]
  {
    var start := Max(0, |arr| - size + 1);
    (if start <= |arr| then arr[start..] else []) + [item]
  }

  function Min(a: int, b: int): int { if a <= b then a else b }

  function Max(a: int, b: int): int { if a >= b then a else b }

  /** Below capacity nothing is dropped: the result is `arr` followed by `item`. */
  lemma PushFixedUnderCapacity<T>(item: T, arr: seq<T>, size: int)
    requires |arr| < size
    ensures PushFixed(item, arr, size) == arr + [item]
  {
  }

  /** Pushing every item of `items` in turn onto `arr`. */
  function PushAll<T>(items: seq<T>, arr: seq<T>, size: int): seq<T>
    decreases |items|
  {
    if |items| == 0 then arr else PushAll(items[1..], PushFixed(items[0], arr, size), size)
  }

  /**
   * A history that starts within its bound stays within it however many
   * items are pushed, and its last element is the last item pushed.
   */
  lemma {:induction false} PushAllBounded<T>(items: seq<T>, arr: seq<T>, size: int)
    requires size >= 1 && |arr| <= size
    ensures |PushAll(items, arr, size)| <= size
    ensures |items| > 0 ==> |PushAll(items, arr, size)| >= 1
    ensures |items| > 0 ==> PushAll(items, arr, size)[|PushAll(items, arr, size)| - 1] == items[|items| - 1]
    decreases |items|
  {
    if |items| > 0 {
      var next := PushFixed(items[0], arr, size);
      PushAllBounded(items[1..], next, size);
      if |items| == 1 {
        assert PushAll(items[1..], next, size) == next;
      } else {
        assert items[1..][|items[1..]| - 1] == items[|items| - 1];
      }
    }
  }
}
