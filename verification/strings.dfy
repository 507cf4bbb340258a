/**
 * The few JavaScript string operations the core relies on: decimal
 * rendering of numbers, `indexOf` of a character, `split` on a character,
 * `join` with a separator, `padStart` and `substr`.
 */
module Strings {

  /** The digit character for 0 <= d < 10. */
  function Digit(d: nat): (c: char)
    requires d < 10
    ensures '0' <= c <= '9'
  {
    "0123456789"[d]
  }

  /** `String(n)` for a non-negative integer: its decimal digits, no leading zeros. */
  function NatToString(n: nat): (s: string)
    ensures |s| >= 1
    ensures forall i :: 0 <= i < |s| ==> '0' <= s[i] <= '9'
    ensures (|s| == 1) <==> n < 10
    decreases n
  {
    if n < 10 then [Digit(n)] else NatToString(n / 10) + [Digit(n % 10)]
  }

  /** `String(i)` for any integer: a leading '-' for negative values. */
  function IntToString(i: int): (s: string)
    ensures |s| >= 1
    ensures i < 0 ==> s[0] == '-'
    ensures i >= 0 ==> s == NatToString(i)
  {
    if i < 0 then "-" + NatToString(-i) else NatToString(i)
  }

  /** Distinct numbers render as distinct strings. */
  lemma {:induction false} NatToStringInjective(a: nat, b: nat)
    requires NatToString(a) == NatToString(b)
    ensures a == b
    decreases a
  {
    var sa, sb := NatToString(a), NatToString(b);
    if a >= 10 && b >= 10 {
      assert sa[..|sa| - 1] == NatToString(a / 10);
      assert sb[..|sb| - 1] == NatToString(b / 10);
      NatToStringInjective(a / 10, b / 10);
      assert Digit(a % 10) == sa[|sa| - 1] == sb[|sb| - 1] == Digit(b % 10);
      DigitInjective(a % 10, b % 10);
    } else {
      assert a < 10 && b < 10;
      DigitInjective(a, b);
    }
  }

  lemma DigitInjective(x: nat, y: nat)
    requires x < 10 && y < 10 && Digit(x) == Digit(y)
    ensures x == y
  {
  }

  /** `s.indexOf(c)`: the first position of `c` in `s`, or -1. */
  function IndexOf(s: string, c: char): (r: int)
    ensures -1 <= r < |s|
    ensures r == -1 <==> c !in s
    ensures r >= 0 ==> s[r] == c && c !in s[..r]
    decreases |s|
  {
    if |s| == 0 then -1
    else if s[0] == c then 0
    else
      var k := IndexOf(s[1..], c);
      assert s[1..][..(if k < 0 then 0 else k)] == s[1..1 + (if k < 0 then 0 else k)];
      if k < 0 then -1 else k + 1
  }

  /** `s.split(c)` for a one-character separator: the pieces between occurrences of `c`. */
  function Split(s: string, c: char): (parts: seq<string>)
    ensures |parts| >= 1
    decreases |s|
  {
    var i := IndexOf(s, c);
    if i < 0 then [s] else [s[..i]] + Split(s[i + 1..], c)
  }

  /** `parts.join(sep)`. */
  function Join(parts: seq<string>, sep: string): string
    decreases |parts|
  {
    if |parts| == 0 then ""
    else if |parts| == 1 then parts[0]
    else parts[0] + sep + Join(parts[1..], sep)
  }

  /** Joining a piece in front of a non-empty list puts the separator between them. */
  lemma JoinCons(p: string, parts: seq<string>, sep: string)
    requires |parts| >= 1
    ensures Join([p] + parts, sep) == p + sep + Join(parts, sep)
  {
    assert ([p] + parts)[1..] == parts;
  }

  /** One step of JoinSplit: a separator-free prefix, the separator, and a rest that round-trips. */
  lemma JoinSplitFound(pre: string, c: char, rest: string)
    requires c !in pre
    requires Join(Split(rest, c), [c]) == rest
    ensures Join(Split(pre + [c] + rest, c), [c]) == pre + [c] + rest
  {
    SplitAtFirst(pre, c, rest);
    JoinCons(pre, Split(rest, c), [c]);
  }

  /** Splitting on `c` and joining with `c` gives back the original string. */
  lemma {:induction false} JoinSplit(s: string, c: char)
    ensures Join(Split(s, c), [c]) == s
    decreases |s|
  {
    var i := IndexOf(s, c);
    if i >= 0 {
      var pre, rest := s[..i], s[i + 1..];
      JoinSplit(rest, c);
      JoinSplitFound(pre, c, rest);
      assert s == pre + [c] + rest;
    } else {
      assert Split(s, c) == [s];
    }
  }

  /** No piece of a split contains the separator. */
  lemma {:induction false} SplitPiecesFree(s: string, c: char)
    ensures forall k :: 0 <= k < |Split(s, c)| ==> c !in Split(s, c)[k]
    decreases |s|
  {
    var i := IndexOf(s, c);
    if i >= 0 {
      SplitPiecesFree(s[i + 1..], c);
    }
  }

  /** The first piece of a split is the prefix before the first separator. */
  lemma SplitHead(s: string, c: char)
    requires c in s
    ensures Split(s, c)[0] == s[..IndexOf(s, c)]
    ensures |Split(s, c)| >= 2
  {
  }

  /** Splitting at the first separator: the prefix before it, then the split of the rest. */
  lemma SplitAtFirst(a: string, c: char, rest: string)
    requires c !in a
    ensures Split(a + [c] + rest, c) == [a] + Split(rest, c)
  {
    var s := a + [c] + rest;
    assert s[|a|] == c;
    assert s[..|a|] == a;
    assert IndexOf(s, c) == |a|;
    assert s[|a| + 1..] == rest;
  }

  /** The converse of JoinSplit: pieces free of the separator are recovered by splitting their join. */
  lemma {:induction false} SplitJoin(parts: seq<string>, c: char)
    requires |parts| >= 1
    requires forall k :: 0 <= k < |parts| ==> c !in parts[k]
    ensures Split(Join(parts, [c]), c) == parts
    decreases |parts|
  {
    if |parts| == 1 {
      assert IndexOf(parts[0], c) == -1;
    } else {
      SplitJoin(parts[1..], c);
      SplitAtFirst(parts[0], c, Join(parts[1..], [c]));
    }
  }

  /** `fill` repeated and cut to exactly `n` characters (the pad of `padStart`). */
  function RepeatTo(fill: string, n: nat): (r: string)
    requires |fill| > 0
    ensures |r| == n
    ensures forall i :: 0 <= i < n ==> r[i] == fill[i % |fill|]
    decreases n
  {
    if n == 0 then ""
    else
      var r' := RepeatTo(fill, n - 1);
      r' + [fill[(n - 1) % |fill|]]
  }

  /** `s.padStart(n, fill)`: left-pad `s` to length `n`; an empty fill or a long enough `s` is returned as is. */
  function PadStart(s: string, n: int, fill: string): (r: string)
    ensures |r| == if n <= |s| || |fill| == 0 then |s| else n
    ensures r[|r| - |s|..] == s
  {
    if n <= |s| || |fill| == 0 then s else RepeatTo(fill, n - |s|) + s
  }

  /** `s.substr(start)` for a start that is never negative: the suffix from `start`, empty past the end. */
  function SubstrFrom(s: string, start: nat): (r: string)
  {
    if start <= |s| then s[start..] else ""
  }
}
