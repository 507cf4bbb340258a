/**
 * JavaScript values as the core sees them. Numbers are modelled as
 * integers; objects, arrays and functions are references compared by
 * identity.
 */
module Values {
  import opened Strings

  datatype Value =
    | Undefined
    | Null
    | Bool(b: bool)
    | Num(n: int)
    | Str(s: string)
    | Ref(id: nat)   // an object, array or function, known only by its identity

  /** JavaScript truthiness: `undefined`, `null`, `false`, `0` and `''` are falsy. */
  predicate Truthy(v: Value)
  {
    match v
    case Undefined => false
    case Null => false
    case Bool(b) => b
    case Num(n) => n != 0
    case Str(s) => s != ""
    case Ref(_) => true
  }

  predicate IsPrimitive(v: Value) { !v.Ref? }

  /** `number | string | boolean | null | undefined` (src/types.ts). */
  type Prim = v: Value | IsPrimitive(v) witness Undefined

  /** How `Array.prototype.join` renders a primitive element. */
  function JoinText(v: Prim): string
  {
    match v
    case Undefined => ""
    case Null => ""
    case Bool(b) => if b then "true" else "false"
    case Num(n) => IntToString(n)
    case Str(s) => s
  }

  /** An object's own enumerable properties, in `Object.keys` order. */
  type Entries = seq<(string, Value)>

  function Keys(es: Entries): (ks: seq<string>)
    ensures |ks| == |es|
    ensures forall i :: 0 <= i < |es| ==> ks[i] == es[i].0
  {
    seq(|es|, i requires 0 <= i < |es| => es[i].0)
  }

  /** `obj[k]`: the value stored under `k`, or `undefined` when `k` is not a key. */
  function Lookup(es: Entries, k: string): (v: Value)
    ensures (forall i :: 0 <= i < |es| ==> es[i].0 != k) ==> v == Undefined
    ensures forall i :: 0 <= i < |es| && es[i].0 == k && (forall j :: 0 <= j < i ==> es[j].0 != k) ==> v == es[i].1
    decreases |es|
  {
    if |es| == 0 then Undefined
    else if es[0].0 == k then es[0].1
    else Lookup(es[1..], k)
  }
}
