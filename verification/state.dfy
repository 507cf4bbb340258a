/**
 * States (src/State.ts): a plain name, a list of name segments, or a named
 * record of primitive fields; their names, structural equality and route
 * rendering. A missing state (`undefined`) is `None`.
 */
module States {
  import opened Wrappers
  import opened Strings
  import opened Values
  import opened ArrayEqual

  datatype State =
    | StrState(str: string)
    /** An `Array<string>` of sub-state segments. */
    | ArrState(segs: seq<string>)
    /** A `NamedPrimitiveObject`: its `name` key and its other keys in `Object.entries` order. */
    | ObjState(name: string, props: Fields)

  /**
   * The fields of a record other than `name`: as in any JavaScript object,
   * no key occurs twice, and none of them is `name` itself.
   */
  predicate DistinctFields(props: seq<(string, Prim)>)
  {
    (forall i :: 0 <= i < |props| ==> props[i].0 != "name") &&
    (forall i, j :: 0 <= i < j < |props| ==> props[i].0 != props[j].0)
  }

  type Fields = props: seq<(string, Prim)> | DistinctFields(props) witness []

  /** JavaScript truthiness of a state: only `undefined` and `''` are falsy. */
  predicate StateTruthy(s: Option<State>)
  {
    s.Some? && s.value != StrState("")
  }

  /** `typeof s === "string"`. */
  predicate IsStringState(s: Option<State>)
  {
    s.Some? && s.value.StrState?
  }

  /** `typeof s !== "string"`: also true of `undefined`. */
  predicate IsComplexState(s: Option<State>)
  {
    !(s.Some? && s.value.StrState?)
  }

  /** `Array.isArray(s)`. */
  predicate IsArrayState(s: Option<State>)
  {
    s.Some? && s.value.ArrState?
  }

  /** `typeof s === "object"`: arrays are objects too. */
  predicate IsObjState(s: Option<State>)
  {
    s.Some? && (s.value.ArrState? || s.value.ObjState?)
  }

  /** The keys `"0"`, `"1"`, ... under which an array holds its elements. */
  function IndexKey(i: nat): string
  {
    NatToString(i)
  }

  /** The own enumerable properties `objEqual` sees for an object-typed state. */
  function StateEntries(s: State): (es: Entries)
    requires !s.StrState?
  {
    match s
    case ArrState(segs) => seq(|segs|, i requires 0 <= i < |segs| => (IndexKey(i), Str(segs[i])))
    case ObjState(name, props) => [("name", Str(name))] + props
  }

  /**
   * `stateName(s)`: `''` when falsy, the string itself, and otherwise the
   * property a complex state keeps its name under: index `0` of an array
   * (`undefined` for `[]`), `name` of a record.
   */
  function StateName(s: Option<State>): (r: Value)
    ensures !StateTruthy(s) ==> r == Str("")
    ensures IsStringState(s) ==> r == Str(s.value.str)
    ensures IsArrayState(s) ==> r == Lookup(StateEntries(s.value), "0")
    ensures s.Some? && s.value.ObjState? ==> r == Lookup(StateEntries(s.value), "name")
    ensures r.Str? || r.Undefined?
  {
    if !StateTruthy(s) then Str("")
    else match s.value
      case StrState(str) => Str(str)
      case ArrState(segs) =>
        assert IndexKey(0) == "0";
        if |segs| > 0 then Str(segs[0]) else Undefined
      case ObjState(name, _) => Str(name)
  }

  /**
   * `stateEquals(a, b)`: strings by `===`, arrays element by element,
   * anything else object-typed by `objEqual`; a missing state equals nothing.
   */
  predicate StateEquals(a: Option<State>, b: Option<State>): (r: bool)
    ensures r ==> a.Some? && b.Some?
    ensures r ==> (IsStringState(a) <==> IsStringState(b))
    ensures IsStringState(a) && IsStringState(b) ==> (r <==> a == b)
    ensures IsArrayState(a) && IsArrayState(b) ==> (r <==> a == b)
  {
    if IsStringState(a) && IsStringState(b) then a.value.str == b.value.str
    else if IsArrayState(a) && IsArrayState(b) then ElementsEqual(a.value.segs, b.value.segs)
    else if IsObjState(a) && IsObjState(b) then ObjectsEqual(StateEntries(a.value), StateEntries(b.value))
    else false
  }

  /** One `[key, value]` pair of a record state joined with `/`. */
  function PropRoute(p: (string, Prim)): string
  {
    Join([p.0, JoinText(p.1)], "/")
  }

  /** The joined pairs of a record's fields, in order. */
  function PropRoutes(props: seq<(string, Prim)>): (rs: seq<string>)
    ensures |rs| == |props|
    ensures forall i :: 0 <= i < |props| ==> rs[i] == PropRoute(props[i])
  {
    seq(|props|, i requires 0 <= i < |props| => PropRoute(props[i]))
  }

  /** The keys and rendered values of a record's fields, flattened in order: k1, v1, k2, v2, ... */
  function Pairs(props: seq<(string, Prim)>): (ps: seq<string>)
    ensures |ps| == 2 * |props|
    ensures forall i :: 0 <= i < |props| ==> ps[2 * i] == props[i].0 && ps[2 * i + 1] == JoinText(props[i].1)
    decreases |props|
  {
    if |props| == 0 then []
    else
      var rest := Pairs(props[1..]);
      assert forall i :: 1 <= i < |props| ==> props[i] == props[1..][i - 1];
      [props[0].0, JoinText(props[0].1)] + rest
  }

  /** Joining the joined pairs is joining the flattened keys and values. */
  lemma {:induction false} JoinPropRoutes(props: seq<(string, Prim)>)
    requires |props| >= 1
    ensures Join(PropRoutes(props), "/") == Join(Pairs(props), "/")
    decreases |props|
  {
    var p, rest := props[0], props[1..];
    var k, v := p.0, JoinText(p.1);
    JoinCons(k, [v], "/");
    assert PropRoute(p) == k + "/" + v;
    if |props| == 1 {
      assert PropRoutes(props) == [PropRoute(p)];
      assert Pairs(props) == [k] + [v];
    } else {
      JoinPropRoutes(rest);
      assert PropRoutes(props) == [PropRoute(p)] + PropRoutes(rest);
      JoinCons(PropRoute(p), PropRoutes(rest), "/");
      assert Pairs(props) == [k] + ([v] + Pairs(rest));
      JoinCons(v, Pairs(rest), "/");
      JoinCons(k, [v] + Pairs(rest), "/");
    }
  }

  /**
   * `stateRoute(s)`: the state part of an event route. A falsy state is
   * `*`, a string is itself, an array its segments joined with `/`, and a
   * record its name followed by each field's key and value, all joined
   * with `/` (a record without fields keeps a trailing `/`).
   */
  function StateRoute(s: Option<State>): (r: string)
    ensures !StateTruthy(s) ==> r == "*"
    ensures IsStringState(s) && StateTruthy(s) ==> r == s.value.str
    ensures IsArrayState(s) ==> r == Join(s.value.segs, "/")
    ensures s.Some? && s.value.ObjState? && |s.value.props| == 0 ==> r == s.value.name + "/"
    ensures s.Some? && s.value.ObjState? && |s.value.props| >= 1 ==> r == Join([s.value.name] + Pairs(s.value.props), "/")
  {
    if !StateTruthy(s) then "*"
    else match s.value
      case StrState(str) => str
      case ArrState(segs) => Join(segs, "/")
      case ObjState(name, props) =>
        if |props| == 0 then name + "/"
        else
          JoinPropRoutes(props);
          JoinCons(name, Pairs(props), "/");
          name + "/" + Join(PropRoutes(props), "/")
  }

  // ---------------------------------------------------------------------
  // Properties

  /** Exactly the non-string values (including `undefined`) are complex. */
  lemma ComplexIsNotString(s: Option<State>)
    ensures IsComplexState(s) <==> !IsStringState(s)
    ensures IsComplexState(None)
    ensures IsArrayState(s) ==> IsObjState(s) && IsComplexState(s)
  {
  }

  /** Every present state equals itself; a missing state equals nothing, not even another missing one. */
  lemma StateEqualsReflexive(s: State)
    ensures StateEquals(Some(s), Some(s))
    ensures !StateEquals(None, Some(s)) && !StateEquals(Some(s), None) && !StateEquals(None, None)
  {
  }

  /** A string state never equals a complex one, in either order. */
  lemma StringNeverEqualsComplex(a: Option<State>, b: Option<State>)
    requires IsStringState(a) && IsComplexState(b)
    ensures !StateEquals(a, b) && !StateEquals(b, a)
  {
  }

  /** Two string states are equal exactly when the strings are. */
  lemma StringStatesEqual(x: string, y: string)
    ensures StateEquals(Some(StrState(x)), Some(StrState(y))) <==> x == y
  {
  }

  /** Two array states are equal exactly when they have the same segments. */
  lemma ArrayStatesEqual(x: seq<string>, y: seq<string>)
    ensures StateEquals(Some(ArrState(x)), Some(ArrState(y))) <==> x == y
  {
    ElementsEqualIsEquality(x, y);
  }

  /**
   * An array state and a record state are compared by `objEqual`, and that
   * comparison always fails: the record's `name` is missing from the array,
   * and the array's index keys cannot all fit among the record's other keys.
   */
  lemma ArrayNeverEqualsObject(segs: seq<string>, name: string, props: Fields)
    ensures var a, o := ArrState(segs), ObjState(name, props);
            StateEquals(Some(a), Some(o)) == ObjectsEqual(StateEntries(a), StateEntries(o))
    ensures !StateEquals(Some(ArrState(segs)), Some(ObjState(name, props)))
    ensures !StateEquals(Some(ObjState(name, props)), Some(ArrState(segs)))
  {
    var A, B := StateEntries(ArrState(segs)), StateEntries(ObjState(name, props));
    // The record's `name` key reads `undefined` in the array.
    forall i | 0 <= i < |A| ensures A[i].0 != "name" {
      IndexKeyNotName(i);
    }
    assert Lookup(A, "name") == Undefined;
    assert Lookup(B, "name") == Str(name);
    assert !ObjectsEqual(B, A) by {
      if |B| == |A| { assert Lookup(B, B[0].0) != Lookup(A, B[0].0); }
    }
    if ObjectsEqual(A, B) {
      var n := |segs|;
      var indexKeys := set i | 0 <= i < n :: IndexKey(i);
      forall k | k in indexKeys ensures k in KeySet(props) {
        var i :| 0 <= i < n && k == IndexKey(i);
        forall j | 0 <= j < i ensures A[j].0 != k {
          if A[j].0 == k { NatToStringInjective(j, i); }
        }
        assert Lookup(A, A[i].0) == Str(segs[i]);
        assert Lookup(B, k) != Undefined;
        IndexKeyNotName(i);
        LookupFoundInTail(B, k);
      }
      IndexKeysCard(n);
      KeySetCard(props);
      assert indexKeys <= KeySet(props);
      SubsetCard(indexKeys, KeySet(props));
      assert false;
    }
  }

  /** The keys of a record's non-`name` properties. */
  function KeySet(props: seq<(string, Prim)>): set<string>
  {
    set i | 0 <= i < |props| :: props[i].0
  }

  lemma IndexKeyNotName(i: nat)
    ensures IndexKey(i) != "name"
  {
    var k := IndexKey(i);
    assert '0' <= k[0] <= '9';
  }

  lemma LookupFoundInTail(B: Entries, k: string)
    requires |B| >= 1 && B[0].0 != k && Lookup(B, k) != Undefined
    ensures k in set i | 1 <= i < |B| :: B[i].0
  {
    var i :| 0 <= i < |B| && B[i].0 == k;
  }

  lemma {:induction false} IndexKeysCard(n: nat)
    ensures |set i | 0 <= i < n :: IndexKey(i)| == n
  {
    if n > 0 {
      var prev := set i | 0 <= i < n - 1 :: IndexKey(i);
      IndexKeysCard(n - 1);
      assert (set i | 0 <= i < n :: IndexKey(i)) == prev + {IndexKey(n - 1)};
      if IndexKey(n - 1) in prev {
        var i :| 0 <= i < n - 1 && IndexKey(i) == IndexKey(n - 1);
        NatToStringInjective(i, n - 1);
      }
    }
  }

  lemma {:induction false} KeySetCard(props: seq<(string, Prim)>)
    ensures |KeySet(props)| <= |props|
  {
    if |props| > 0 {
      var init := props[..|props| - 1];
      KeySetCard(init);
      assert KeySet(props) == KeySet(init) + {props[|props| - 1].0};
    } else {
      assert KeySet(props) == {};
    }
  }

  lemma SubsetCard<T>(a: set<T>, b: set<T>)
    requires a <= b
    ensures |a| <= |b|
  {
    assert b == a + (b - a);
  }

  /** Equal states have the same name. */
  lemma EqualStatesShareName(a: Option<State>, b: Option<State>)
    requires StateEquals(a, b)
    ensures StateName(a) == StateName(b)
  {
    var x, y := a.value, b.value;
    if x.ArrState? && y.ObjState? {
      ArrayNeverEqualsObject(x.segs, y.name, y.props);
    } else if x.ObjState? && y.ArrState? {
      ArrayNeverEqualsObject(y.segs, x.name, x.props);
    } else if x.ObjState? && y.ObjState? {
      var A, B := StateEntries(x), StateEntries(y);
      assert Lookup(A, A[0].0) == Lookup(B, A[0].0);
    } else if x.ArrState? && y.ArrState? {
      ArrayStatesEqual(x.segs, y.segs);
    }
  }

  /** Two records with the same name and fields can be unequal one way and equal the other. */
  lemma RecordEqualityNotSymmetric()
    ensures var a := Some(ObjState("S", [("p", Undefined)]));
            var b := Some(ObjState("S", [("q", Num(1))]));
            StateEquals(a, b) && !StateEquals(b, a)
  {
    var pa: Fields := [("p", Undefined)];
    var pb: Fields := [("q", Num(1))];
    var a := ObjState("S", pa);
    var b := ObjState("S", pb);
    var A, B := StateEntries(a), StateEntries(b);
    assert Lookup(A, "q") == Undefined;
    assert Lookup(B, "q") == Num(1);
    assert Lookup(A, "p") == Undefined;
    assert !ObjectsEqual(B, A) by { assert Lookup(B, B[1].0) != Lookup(A, B[1].0); }
    assert ObjectsEqual(A, B) by {
      forall i | 0 <= i < |A| ensures Lookup(A, A[i].0) == Lookup(B, A[i].0) {
        if i == 1 { assert Lookup(B, "p") == Undefined; }
      }
    }
  }

  /** When no segment holds a `/`, an array state's route splits back into its segments. */
  lemma ArrayRouteSplits(segs: seq<string>)
    requires |segs| >= 1
    requires forall i :: 0 <= i < |segs| ==> '/' !in segs[i]
    ensures Split(StateRoute(Some(ArrState(segs))), '/') == segs
  {
    SplitJoin(segs, '/');
  }

  /** A separator-free head before separator-free pieces: splitting their join gives them back. */
  lemma SplitJoinCons(head: string, parts: seq<string>, c: char)
    requires c !in head
    requires forall k :: 0 <= k < |parts| ==> c !in parts[k]
    ensures Split(Join([head] + parts, [c]), c) == [head] + parts
  {
    var all := [head] + parts;
    assert forall k :: 1 <= k < |all| ==> all[k] == parts[k - 1];
    SplitJoin(all, c);
  }

  /** No flattened key or value holds `c` when no field's key or rendered value does. */
  lemma {:induction false} PairsFree(props: seq<(string, Prim)>, c: char)
    requires forall i :: 0 <= i < |props| ==> c !in props[i].0 && c !in JoinText(props[i].1)
    ensures forall k :: 0 <= k < |Pairs(props)| ==> c !in Pairs(props)[k]
    decreases |props|
  {
    if |props| > 0 {
      var rest := props[1..];
      assert forall i :: 0 <= i < |rest| ==> rest[i] == props[i + 1];
      PairsFree(rest, c);
      assert Pairs(props) == [props[0].0, JoinText(props[0].1)] + Pairs(rest);
    }
  }

  /**
   * When no name, key or rendered value holds a `/`, a record state's route
   * splits back into its name followed by each field's key and value, in order.
   */
  lemma RecordRouteShape(name: string, props: Fields)
    requires |props| >= 1
    requires '/' !in name
    requires forall i :: 0 <= i < |props| ==> '/' !in props[i].0 && '/' !in JoinText(props[i].1)
    ensures Split(StateRoute(Some(ObjState(name, props))), '/') == [name] + Pairs(props)
  {
    PairsFree(props, '/');
    SplitJoinCons(name, Pairs(props), '/');
  }

  /**
   * A record state's properties are those of a JavaScript object: `name`
   * first, then the other fields with their own values, no key twice; so
   * `Object.keys` counts one more than the fields, and the flattened route
   * pairs of `stateRoute` never hold a `name` key.
   */
  lemma RecordEntriesLikeObject(name: string, props: Fields)
    ensures var es := StateEntries(ObjState(name, props));
            && |Keys(es)| == |props| + 1
            && (forall i, j :: 0 <= i < j < |es| ==> Keys(es)[i] != Keys(es)[j])
            && Lookup(es, "name") == Str(name)
            && (forall i :: 0 <= i < |props| ==> Lookup(es, props[i].0) == props[i].1)
    ensures forall i :: 0 <= i < |props| ==> Pairs(props)[2 * i] != "name"
  {
    var es := StateEntries(ObjState(name, props));
    forall i | 0 <= i < |props|
      ensures Lookup(es, props[i].0) == props[i].1
    {
      assert es[i + 1] == props[i];
      forall j | 0 <= j < i + 1 ensures es[j].0 != props[i].0 {
        if j > 0 { assert es[j] == props[j - 1]; }
      }
    }
  }
}
