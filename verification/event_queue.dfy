/**
 * The engine's event queue: a stable priority queue ordered by
 * `Event.comparator`. An added event goes behind every queued event of
 * the same or a more urgent band and ahead of every less urgent one, and
 * `poll` takes the head.
 */
module EventQueue {
  import opened Types
  import opened Events

  /** Queued events are in non-decreasing priority value. */
  predicate Sorted(q: seq<Event>)
  {
    forall i, j :: 0 <= i < j < |q| ==> PriorityValue(q[i].priority) <= PriorityValue(q[j].priority)
  }

  /** `events.add(e)`. */
  function Add(q: seq<Event>, e: Event): (r: seq<Event>)
    ensures |r| == |q| + 1
    decreases |q|
  {
    if |q| == 0 then [e]
    else if Comparator(q[0], e) > 0 then [e] + q
    else [q[0]] + Add(q[1..], e)
  }

  /** The queued events of band `p`, in queue order. */
  function OfBand(q: seq<Event>, p: Priority): seq<Event>
    decreases |q|
  {
    if |q| == 0 then [] else (if q[0].priority == p then [q[0]] else []) + OfBand(q[1..], p)
  }

  // ---------------------------------------------------------------------
  // Properties

  /** Adding keeps the queue sorted. */
  lemma {:induction false} AddSorted(q: seq<Event>, e: Event)
    requires Sorted(q)
    ensures Sorted(Add(q, e))
    ensures forall i :: 0 <= i < |Add(q, e)| ==> Add(q, e)[i] == e || Add(q, e)[i] in q
    decreases |q|
  {
    if |q| > 0 && Comparator(q[0], e) <= 0 {
      AddSorted(q[1..], e);
      var r := Add(q, e);
      assert r == [q[0]] + Add(q[1..], e);
      forall i | 1 <= i < |r|
        ensures PriorityValue(q[0].priority) <= PriorityValue(r[i].priority)
      {
        assert r[i] == Add(q[1..], e)[i - 1];
      }
    }
  }

  /** Adding loses and invents nothing: the queue gains exactly `e`. */
  lemma {:induction false} AddPermutes(q: seq<Event>, e: Event)
    ensures multiset(Add(q, e)) == multiset(q) + multiset{e}
    decreases |q|
  {
    if |q| > 0 && Comparator(q[0], e) <= 0 {
      AddPermutes(q[1..], e);
      assert q == [q[0]] + q[1..];
    }
  }

  /** Stability: within a band, events keep their arrival order and `e` joins its band last. */
  lemma {:induction false} AddStable(q: seq<Event>, e: Event, p: Priority)
    requires Sorted(q)
    ensures OfBand(Add(q, e), p) == OfBand(q, p) + (if e.priority == p then [e] else [])
    decreases |q|
  {
    if |q| == 0 {
    } else if Comparator(q[0], e) > 0 {
      assert ([e] + q)[1..] == q;
      if e.priority == p {
        OfBandNone(q, p);
      }
    } else {
      AddStable(q[1..], e, p);
      assert ([q[0]] + Add(q[1..], e))[1..] == Add(q[1..], e);
    }
  }

  /** In a sorted queue of strictly less urgent events, none belongs to band `p`. */
  lemma {:induction false} OfBandNone(q: seq<Event>, p: Priority)
    requires |q| > 0 && Sorted(q) && PriorityValue(q[0].priority) > PriorityValue(p)
    ensures OfBand(q, p) == []
    decreases |q|
  {
    if |q| > 1 {
      OfBandNone(q[1..], p);
    }
  }

  /** Where `Add` inserts: the first position holding a less urgent event, or the end. */
  function InsertIndex(q: seq<Event>, e: Event): (k: nat)
    ensures k <= |q|
    decreases |q|
  {
    if |q| == 0 then 0
    else if Comparator(q[0], e) > 0 then 0
    else 1 + InsertIndex(q[1..], e)
  }

  /** `Add` places `e` at `InsertIndex`: every event before it is no less urgent, the one after it less urgent. */
  lemma {:induction false} AddAt(q: seq<Event>, e: Event)
    ensures var k := InsertIndex(q, e);
      Add(q, e) == q[..k] + [e] + q[k..] &&
      (forall i :: 0 <= i < k ==> Comparator(q[i], e) <= 0) &&
      (k < |q| ==> Comparator(q[k], e) > 0)
    decreases |q|
  {
    if |q| > 0 && Comparator(q[0], e) <= 0 {
      var t := q[1..];
      var k' := InsertIndex(t, e);
      AddAt(t, e);
      assert q[..k' + 1] == [q[0]] + t[..k'];
      assert q[k' + 1..] == t[k'..];
      forall i | 0 <= i < k' + 1
        ensures Comparator(q[i], e) <= 0
      {
        if i > 0 {
          assert q[i] == t[i - 1];
        }
      }
    }
  }

  /**
   * The added event is polled before every queued event of a less urgent
   * band and after every queued event of its own or a more urgent band.
   */
  lemma AddPosition(q: seq<Event>, e: Event) returns (k: nat)
    requires Sorted(q)
    ensures k <= |q| && Add(q, e) == q[..k] + [e] + q[k..]
    ensures forall i :: 0 <= i < k ==> PriorityValue(q[i].priority) <= PriorityValue(e.priority)
    ensures forall i :: k <= i < |q| ==> PriorityValue(q[i].priority) > PriorityValue(e.priority)
  {
    k := InsertIndex(q, e);
    AddAt(q, e);
    forall i | k <= i < |q|
      ensures PriorityValue(q[i].priority) > PriorityValue(e.priority)
    {
      assert PriorityValue(q[k].priority) <= PriorityValue(q[i].priority);
    }
  }
}
