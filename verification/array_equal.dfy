/**
 * `arrayEqual` and `objEqual` (src/util/arrayEqual.ts): early-exit loops
 * that compare with `===`, specified against the predicates below.
 */
module ArrayEqual {
  import opened Values

  /** Same length and `===` at every index. */
  predicate ElementsEqual<T(==)>(a: seq<T>, b: seq<T>): (r: bool)
    ensures r <==> a == b
  {
    |a| == |b| && forall i :: 0 <= i < |a| ==> a[i] == b[i]
  }

  /**
   * Same number of keys, and every key of `a` reads the same in `b`
   * (a key missing from `b` reads as `undefined`).
   */
  predicate ObjectsEqual(a: Entries, b: Entries): (r: bool)
    ensures r ==> |a| == |b|
    ensures r ==> forall k :: Lookup(a, k) != Undefined ==> Lookup(b, k) == Lookup(a, k)
    ensures a == b ==> r
  {
    |a| == |b| && forall i :: 0 <= i < |a| ==> Lookup(a, a[i].0) == Lookup(b, a[i].0)
  }

  method ArrayEqual<T(==)>(arr1: seq<T>, arr2: seq<T>) returns (r: bool)
    ensures |arr1| != |arr2| ==> !r
    ensures r <==> ElementsEqual(arr1, arr2)
  {
    var l1 := |arr1|;
    if l1 != |arr2| {
      return false;
    }
    var i := 0;
    while i < l1
      invariant 0 <= i <= l1
      invariant forall j :: 0 <= j < i ==> arr1[j] == arr2[j]
    {
      if arr1[i] != arr2[i] {
        return false;
      }
      i := i + 1;
    }
    return true;
  }

  method ObjEqual(a: Entries, b: Entries) returns (r: bool)
    ensures |a| != |b| ==> !r
    ensures r <==> ObjectsEqual(a, b)
  {
    var aKeys := Keys(a);
    var bKeys := Keys(b);
    if |aKeys| != |bKeys| {
      return false;
    }
    var i := 0;
    while i < |aKeys|
      invariant 0 <= i <= |aKeys|
      invariant forall j :: 0 <= j < i ==> Lookup(a, a[j].0) == Lookup(b, a[j].0)
    {
      var k := aKeys[i];
      assert k == a[i].0;
      var va, vb := Lookup(a, k), Lookup(b, k);
      if va != vb {
        return false;
      }
      assert forall j :: 0 <= j < i + 1 ==> Lookup(a, a[j].0) == Lookup(b, a[j].0) by {
        forall j | 0 <= j < i + 1
          ensures Lookup(a, a[j].0) == Lookup(b, a[j].0)
        {
          if j == i {
            assert a[j].0 == k;
          }
        }
      }
      i := i + 1;
    }
    return true;
  }

  /** `arrayEqual` is `===` lifted to sequences: it holds exactly for equal sequences. */
  lemma ElementsEqualIsEquality<T>(a: seq<T>, b: seq<T>)
    ensures ElementsEqual(a, b) <==> a == b
  {
    if ElementsEqual(a, b) {
      assert a == b;
    }
  }

  /** `arrayEqual` is reflexive and symmetric. */
  lemma ElementsEqualReflexiveSymmetric<T>(a: seq<T>, b: seq<T>)
    ensures ElementsEqual(a, a)
    ensures ElementsEqual(a, b) == ElementsEqual(b, a)
  {
  }

  /**
   * `objEqual` is not symmetric: a key of `a` holding `undefined` matches a
   * key that `b` lacks, while `b`'s own extra key is never inspected.
   */
  lemma ObjectsEqualNotSymmetric()
    ensures var a := [("name", Str("x")), ("p", Undefined)];
            var b := [("name", Str("x")), ("q", Num(1))];
            ObjectsEqual(a, b) && !ObjectsEqual(b, a)
  {
    var a := [("name", Str("x")), ("p", Undefined)];
    var b := [("name", Str("x")), ("q", Num(1))];
    assert Lookup(a, "q") == Undefined;
    assert Lookup(b, "q") == Num(1);
    assert !ObjectsEqual(b, a) by { assert Lookup(b, b[1].0) != Lookup(a, b[1].0); }
  }
}
