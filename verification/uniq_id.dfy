/** Generated identifiers for timers and pending calls (a counter stands in for `uniqId`). */
module UniqIds {
  import opened Strings

  /** The `k`-th generated identifier. */
  function UniqId(k: nat): string
  {
    "uid-" + NatToString(k)
  }

  /** Distinct counters give distinct identifiers. */
  lemma UniqIdInjective(a: nat, b: nat)
    requires UniqId(a) == UniqId(b)
    ensures a == b
  {
    assert UniqId(a)[4..] == NatToString(a);
    assert UniqId(b)[4..] == NatToString(b);
    NatToStringInjective(a, b);
  }
}
