/**
 * The named timer registry (src/util/Timers.ts). A running timer is kept
 * with its timeout and the listener its owner attached; the wall clock
 * is outside the model, so a timer goes off only when `Fire` is called.
 */
module NamedTimers {
  import opened Wrappers
  import opened Types
  import opened UniqIds

  datatype Timer<L> = Timer(name: string, timeout: Timeout, listener: L)

  /** The dictionary of running timers, and the counter that generates unnamed timers' names. */
  datatype TimerTable<L> = TimerTable(timers: map<string, Timer<L>>, next: nat)

  /** The name a timer is created under: the given one if truthy, else a generated one. */
  function TimerName<L>(t: TimerTable<L>, n: Option<string>): string
  {
    if n.Some? && n.value != "" then n.value else UniqId(t.next)
  }

  /** `get(name)`. */
  function TableGet<L>(t: TimerTable<L>, name: string): (r: Option<Timer<L>>)
    ensures r.Some? <==> name in t.timers
    ensures r.Some? ==> r.value == t.timers[name]
  {
    if name in t.timers then Some(t.timers[name]) else None
  }

  /** `cancel(name)`: whether a timer of that name was running, and the table without it. */
  function TableCancel<L>(t: TimerTable<L>, name: string): (r: (bool, TimerTable<L>))
    ensures r.0 <==> name in t.timers
    ensures r.1.timers.Keys == t.timers.Keys - {name} && r.1.next == t.next
    ensures forall other :: other in r.1.timers ==> r.1.timers[other] == t.timers[other]
  {
    if name !in t.timers then (false, t)
    else (true, t.(timers := t.timers - {name}))
  }

  /** `create(timeout, n)`: cancel any timer of that name, then install the new one. */
  function TableCreate<L>(t: TimerTable<L>, timeout: Timeout, n: Option<string>, listener: L): (r: (Timer<L>, TimerTable<L>))
    ensures r.0 == Timer(TimerName(t, n), timeout, listener)
    ensures r.1.timers.Keys == t.timers.Keys + {TimerName(t, n)} && r.1.timers[TimerName(t, n)] == r.0
    ensures forall other :: other in r.1.timers && other != TimerName(t, n) ==> r.1.timers[other] == t.timers[other]
  {
    var name := TimerName(t, n);
    var next := if n.Some? && n.value != "" then t.next else t.next + 1;
    var cancelled := TableCancel(t, name).1;
    var timer := Timer(name, timeout, listener);
    (timer, TimerTable(cancelled.timers[name := timer], next))
  }

  /** The listener `create` attaches: a timer that goes off removes its own entry. */
  function TableFired<L>(t: TimerTable<L>, name: string): (t': TimerTable<L>)
    ensures t'.timers.Keys == t.timers.Keys - {name}
    ensures forall other :: other in t'.timers ==> t'.timers[other] == t.timers[other]
  {
    TableCancel(t, name).1
  }

  // ---------------------------------------------------------------------
  // Properties

  /**
   * After `create`, `get` under its name returns the new timer; every
   * other name is untouched, so at most one timer lives per name.
   */
  lemma CreateInstalls<L>(t: TimerTable<L>, timeout: Timeout, n: Option<string>, listener: L, other: string)
    ensures var (timer, t') := TableCreate(t, timeout, n, listener);
      TableGet(t', TimerName(t, n)) == Some(timer) && timer.timeout == timeout && timer.listener == listener
    ensures var (timer, t') := TableCreate(t, timeout, n, listener);
      other != TimerName(t, n) ==> TableGet(t', other) == TableGet(t, other)
    ensures var (_, t') := TableCreate(t, timeout, n, listener);
      t'.timers.Keys == t.timers.Keys + {TimerName(t, n)}
  {
  }

  /** A truthy name is used as given; otherwise the name is generated and the counter moves on. */
  lemma CreateNames<L>(t: TimerTable<L>, timeout: Timeout, n: Option<string>, listener: L)
    ensures n.Some? && n.value != "" ==> TableCreate(t, timeout, n, listener).0.name == n.value
    ensures !(n.Some? && n.value != "") ==>
      TableCreate(t, timeout, n, listener).0.name == UniqId(t.next) && TableCreate(t, timeout, n, listener).1.next == t.next + 1
  {
  }

  /** `cancel` of an absent name returns false and changes nothing. */
  lemma CancelAbsent<L>(t: TimerTable<L>, name: string)
    requires TableGet(t, name).None?
    ensures TableCancel(t, name) == (false, t)
  {
  }

  /** `cancel` of a present name returns true and removes exactly that entry. */
  lemma CancelPresent<L>(t: TimerTable<L>, name: string, other: string)
    requires TableGet(t, name).Some?
    ensures TableCancel(t, name).0
    ensures TableGet(TableCancel(t, name).1, name).None?
    ensures other != name ==> TableGet(TableCancel(t, name).1, other) == TableGet(t, other)
  {
  }

  /** A timer that goes off removes its own entry, and only it. */
  lemma FiredRemovesItself<L>(t: TimerTable<L>, name: string, other: string)
    ensures TableGet(TableFired(t, name), name).None?
    ensures other != name ==> TableGet(TableFired(t, name), other) == TableGet(t, other)
  {
  }

  /** The registry as an object whose dictionary `create`, `cancel` and firing update in place. */
  class Timers<L> {
    var timers: map<string, Timer<L>>
    var next: nat

    function Table(): TimerTable<L>
      reads this
    {
      TimerTable(timers, next)
    }

    constructor()
      ensures Table() == TimerTable(map[], 0)
    {
      timers := map[];
      next := 0;
    }

    /** `get(name)`. */
    function Get(name: string): Option<Timer<L>>
      reads this
    {
      TableGet(Table(), name)
    }

    method Cancel(name: string) returns (found: bool)
      modifies this
      ensures (found, Table()) == TableCancel(old(Table()), name)
    {
      if name !in timers {
        return false;
      }
      timers := timers - {name};
      return true;
    }

    method Create(timeout: Timeout, n: Option<string>, listener: L) returns (t: Timer<L>)
      modifies this
      ensures (t, Table()) == TableCreate(old(Table()), timeout, n, listener)
    {
      var name;
      if n.Some? && n.value != "" {
        name := n.value;
      } else {
        name := UniqId(next);
        next := next + 1;
      }
      var _ := Cancel(name);
      t := Timer(name, timeout, listener);
      timers := timers[name := t];
    }

    /** The timer `name` goes off: its self-removal listener runs. */
    method Fire(name: string)
      modifies this
      ensures Table() == TableFired(old(Table()), name)
    {
      var _ := Cancel(name);
    }
  }
}
