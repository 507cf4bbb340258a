/** Shared vocabulary of src/types.ts: priority bands, timeouts and event contexts. */
module Types {
  import opened Values

  /** `enum Priority`: five bands, a smaller number being more urgent. */
  datatype Priority = Highest | High | Normal | Low | Lowest

  function PriorityValue(p: Priority): int
  {
    match p
    case Highest => 1000
    case High => 2000
    case Normal => 3000
    case Low => 4000
    case Lowest => 5000
  }

  /** The position of a band in declaration order, most urgent first. */
  function Rank(p: Priority): nat
  {
    match p
    case Highest => 0
    case High => 1
    case Normal => 2
    case Low => 3
    case Lowest => 4
  }

  /** The numeric values follow the declaration order strictly: Highest < High < Normal < Low < Lowest. */
  lemma PriorityBandsOrdered(p: Priority, q: Priority)
    ensures PriorityValue(p) < PriorityValue(q) <==> Rank(p) < Rank(q)
    ensures PriorityValue(p) == PriorityValue(q) <==> p == q
    ensures PriorityValue(Highest) < PriorityValue(High) < PriorityValue(Normal) < PriorityValue(Low) < PriorityValue(Lowest)
  {
  }

  /** `Timeout = number | string`. */
  type Timeout = v: Value | v.Num? || v.Str? witness Num(0)

  /** `EventContext`: a primitive, or a flat record of primitives. */
  datatype EventContext =
    | PrimContext(v: Prim)
    | RecordContext(fields: seq<(string, Prim)>)
}
