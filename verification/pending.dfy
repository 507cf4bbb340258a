/**
 * Pending calls (src/util/Pending.ts): a dictionary from generated ids to
 * settle-once deferred results.
 */
module Pendings {
  import opened Wrappers
  import opened UniqIds

  /** A deferred result: still open, or settled for good. */
  datatype Deferred<T> = Unsettled | Resolved(value: T) | Rejected(reason: T)
  {
    /** `completed`: the deferred has settled. */
    predicate Completed() { !Unsettled? }
  }

  /** `deferred.resolve(x)`: settles an open deferred; a settled one stays as it was. */
  function ResolveDeferred<T>(d: Deferred<T>, x: T): (r: Deferred<T>)
    ensures r.Completed()
    ensures d.Completed() ==> r == d
  {
    if d.Unsettled? then Resolved(x) else d
  }

  /** `deferred.reject(x)`, likewise settle-once. */
  function RejectDeferred<T>(d: Deferred<T>, x: T): (r: Deferred<T>)
    ensures r.Completed()
    ensures d.Completed() ==> r == d
  {
    if d.Unsettled? then Rejected(x) else d
  }

  datatype PendingTable<T> = PendingTable(cells: map<string, Deferred<T>>, next: nat)

  /** Every id in the table was generated before the counter's current value. */
  ghost predicate IdsGenerated<T>(p: PendingTable<T>)
  {
    forall id :: id in p.cells ==> exists k: nat :: k < p.next && id == UniqId(k)
  }

  /** `create()`: register a new unsettled deferred under a generated id. */
  function TableCreate<T>(p: PendingTable<T>): (r: (PendingTable<T>, string))
    ensures r.0.cells.Keys == p.cells.Keys + {r.1} && r.0.cells[r.1] == Unsettled
    ensures forall id :: id in p.cells && id != r.1 ==> r.0.cells[id] == p.cells[id]
    ensures r.0.next == p.next + 1
  {
    (PendingTable(p.cells[UniqId(p.next) := Unsettled], p.next + 1), UniqId(p.next))
  }

  /** `get(id)`: the id's promise; an unknown id reads a property of `undefined` and throws. */
  function TableGet<T>(p: PendingTable<T>, id: string): (r: Attempt<Deferred<T>>)
    ensures r.Ok? <==> id in p.cells
    ensures r.Ok? ==> r.value == p.cells[id]
  {
    if id in p.cells then Ok(p.cells[id]) else Thrown("Cannot read property 'promise' of undefined")
  }

  /** `remove(id)`. */
  function TableRemove<T>(p: PendingTable<T>, id: string): (p': PendingTable<T>)
    ensures p'.cells.Keys == p.cells.Keys - {id} && p'.next == p.next
    ensures forall other :: other in p'.cells ==> p'.cells[other] == p.cells[other]
  {
    p.(cells := p.cells - {id})
  }

  /** `resolve(id, x)`: settle the id's deferred; an unknown id throws. */
  function TableResolve<T>(p: PendingTable<T>, id: string, x: T): (r: Attempt<PendingTable<T>>)
    ensures r.Ok? <==> id in p.cells
    ensures r.Ok? ==> r.value.cells.Keys == p.cells.Keys && r.value.cells[id].Completed()
    ensures r.Ok? && p.cells[id].Completed() ==> r.value == p
    ensures r.Ok? ==> forall other :: other in p.cells && other != id ==> r.value.cells[other] == p.cells[other]
  {
    if id in p.cells then Ok(p.(cells := p.cells[id := ResolveDeferred(p.cells[id], x)]))
    else Thrown("Cannot read property 'resolve' of undefined")
  }

  /** `reject(id, x)`: the same with a rejection. */
  function TableReject<T>(p: PendingTable<T>, id: string, x: T): (r: Attempt<PendingTable<T>>)
    ensures r.Ok? <==> id in p.cells
    ensures r.Ok? ==> r.value.cells.Keys == p.cells.Keys && r.value.cells[id].Completed()
    ensures r.Ok? && p.cells[id].Completed() ==> r.value == p
    ensures r.Ok? ==> forall other :: other in p.cells && other != id ==> r.value.cells[other] == p.cells[other]
  {
    if id in p.cells then Ok(p.(cells := p.cells[id := RejectDeferred(p.cells[id], x)]))
    else Thrown("Cannot read property 'reject' of undefined")
  }

  /** `cleanup()`: drop the completed entries. */
  function TableCleanup<T>(p: PendingTable<T>): (p': PendingTable<T>)
    ensures forall id :: id in p'.cells <==> id in p.cells && !p.cells[id].Completed()
    ensures forall id :: id in p'.cells ==> p'.cells[id] == p.cells[id]
  {
    p.(cells := map id | id in p.cells && !p.cells[id].Completed() :: p.cells[id])
  }

  // ---------------------------------------------------------------------
  // Properties

  /** `create` returns an id that was not registered before, now open; the table keeps only generated ids. */
  lemma CreateFresh<T>(p: PendingTable<T>)
    requires IdsGenerated(p)
    ensures var (p', id) := TableCreate(p);
      id !in p.cells && TableGet(p', id) == Ok(Unsettled) && IdsGenerated(p') &&
      forall other :: other != id ==> TableGet(p', other) == TableGet(p, other)
  {
    var (p', id) := TableCreate(p);
    if id in p.cells {
      var k: nat :| k < p.next && id == UniqId(k);
      UniqIdInjective(k, p.next);
    }
    forall x | x in p'.cells
      ensures exists k: nat :: k < p'.next && x == UniqId(k)
    {
      if x != id {
        var k: nat :| k < p.next && x == UniqId(k);
        assert k < p'.next;
      } else {
        assert p.next < p'.next;
      }
    }
  }

  /** An unknown id is an error for `get`, `resolve` and `reject` alike. */
  lemma UnknownIdThrows<T>(p: PendingTable<T>, id: string, x: T)
    requires id !in p.cells
    ensures TableGet(p, id).Thrown? && TableResolve(p, id, x).Thrown? && TableReject(p, id, x).Thrown?
  {
  }

  /**
   * A deferred settles at most once: after `resolve` the id is completed
   * with that value, and a later `resolve` or `reject` changes nothing.
   */
  lemma SettleOnce<T>(p: PendingTable<T>, id: string, x: T, y: T)
    requires TableGet(p, id) == Ok(Unsettled)
    ensures TableResolve(p, id, x).Ok? && TableGet(TableResolve(p, id, x).value, id) == Ok(Resolved(x))
    ensures TableResolve(TableResolve(p, id, x).value, id, y) == TableResolve(p, id, x)
    ensures TableReject(TableResolve(p, id, x).value, id, y) == TableResolve(p, id, x)
  {
    var p' := TableResolve(p, id, x).value;
    assert p'.cells[id := Resolved(x)] == p'.cells;
  }

  /** `remove(id)` deletes that entry and no other. */
  lemma RemoveOnlyThat<T>(p: PendingTable<T>, id: string, other: string)
    ensures TableGet(TableRemove(p, id), id).Thrown?
    ensures other != id ==> TableGet(TableRemove(p, id), other) == TableGet(p, other)
  {
  }

  /** `cleanup` removes exactly the completed entries and keeps the open ones. */
  lemma CleanupKeepsOpen<T>(p: PendingTable<T>, id: string)
    ensures id in TableCleanup(p).cells <==> id in p.cells && !p.cells[id].Completed()
    ensures id in TableCleanup(p).cells ==> TableCleanup(p).cells[id] == Unsettled
  {
  }

  /** The dictionary as an object whose methods update it in place. */
  class Pending<T> {
    var cells: map<string, Deferred<T>>
    var next: nat

    function Table(): PendingTable<T>
      reads this
    {
      PendingTable(cells, next)
    }

    ghost predicate Valid()
      reads this
    {
      IdsGenerated(Table())
    }

    constructor()
      ensures Valid() && Table() == PendingTable(map[], 0)
    {
      cells := map[];
      next := 0;
    }

    method Create() returns (id: string)
      requires Valid()
      modifies this
      ensures Valid()
      ensures (Table(), id) == TableCreate(old(Table()))
      ensures id !in old(cells)
    {
      CreateFresh(Table());
      id := UniqId(next);
      cells := cells[id := Unsettled];
      next := next + 1;
    }

    /** `get(id)`, which throws for an unknown id. */
    function Get(id: string): Attempt<Deferred<T>>
      reads this
    {
      TableGet(Table(), id)
    }

    method Remove(id: string)
      requires Valid()
      modifies this
      ensures Valid()
      ensures Table() == TableRemove(old(Table()), id)
    {
      cells := cells - {id};
    }

    method Resolve(id: string, x: T) returns (thrown: Option<string>)
      requires Valid()
      modifies this
      ensures Valid()
      ensures var r := TableResolve(old(Table()), id, x);
        if r.Ok? then thrown.None? && Table() == r.value else thrown == Some(r.error) && Table() == old(Table())
    {
      if id !in cells {
        return Some("Cannot read property 'resolve' of undefined");
      }
      cells := cells[id := ResolveDeferred(cells[id], x)];
      return None;
    }

    method Reject(id: string, x: T) returns (thrown: Option<string>)
      requires Valid()
      modifies this
      ensures Valid()
      ensures var r := TableReject(old(Table()), id, x);
        if r.Ok? then thrown.None? && Table() == r.value else thrown == Some(r.error) && Table() == old(Table())
    {
      if id !in cells {
        return Some("Cannot read property 'reject' of undefined");
      }
      cells := cells[id := RejectDeferred(cells[id], x)];
      return None;
    }

    /** Collects the completed ids, then removes each in turn. */
    method Cleanup()
      requires Valid()
      modifies this
      ensures Valid()
      ensures Table() == TableCleanup(old(Table()))
    {
      var completed := set id | id in cells && cells[id].Completed();
      ghost var original := cells;
      while completed != {}
        invariant Valid() && next == old(next)
        invariant completed <= original.Keys
        invariant forall id :: id in completed ==> original[id].Completed()
        invariant cells == map id | id in original && (id in completed || !original[id].Completed()) :: original[id]
        decreases |completed|
      {
        var id :| id in completed;
        Remove(id);
        completed := completed - {id};
      }
    }
  }
}
