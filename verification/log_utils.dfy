/** Log-line padding helpers (src/log/utils.ts). */
module LogUtils {
  import opened Wrappers
  import opened Strings

  /**
   * `prefix(tag, prefixLen = 12, fill?)`: a tag longer than `prefixLen`
   * keeps only its tail behind "..", a shorter one is left-padded with
   * `fill`, a space when none is given.
   */
  function Prefix(tag: string, prefixLen: int, fill: Option<string>): (r: string)
    ensures |tag| > prefixLen ==> |r| >= 2 && r[..2] == ".."
    ensures |tag| > prefixLen >= 2 ==> |r| == prefixLen && r[2..] == tag[|tag| - (prefixLen - 2)..]
    ensures |tag| <= prefixLen ==> |r| >= |tag| && r[|r| - |tag|..] == tag
  {
    if |tag| > prefixLen then ".." + SubstrFrom(tag, |tag| - prefixLen + 2)
    else PadStart(tag, prefixLen, fill.GetOr(" "))
  }

  /** `prefix(tag)` with the default width. */
  function DefaultPrefix(tag: string): string
  {
    Prefix(tag, 12, None)
  }

  /** `pz2(num)`: the number's decimal form, left-padded with '0' to two characters. */
  function Pz2(num: int): (r: string)
    ensures |r| >= 2 && |r| >= |IntToString(num)|
    ensures r[|r| - |IntToString(num)|..] == IntToString(num)
    ensures forall i :: 0 <= i < |r| - |IntToString(num)| ==> r[i] == '0'
  {
    PadStart(IntToString(num), 2, "0")
  }

  /** `pz3(num)`: the same to three characters. */
  function Pz3(num: int): (r: string)
    ensures |r| >= 3 && |r| >= |IntToString(num)|
    ensures r[|r| - |IntToString(num)|..] == IntToString(num)
    ensures forall i :: 0 <= i < |r| - |IntToString(num)| ==> r[i] == '0'
  {
    PadStart(IntToString(num), 3, "0")
  }

  /** A long tag becomes ".." followed by its last `prefixLen - 2` characters. */
  lemma PrefixTruncates(tag: string, prefixLen: int, fill: Option<string>)
    requires 2 <= prefixLen < |tag|
    ensures Prefix(tag, prefixLen, fill) == ".." + tag[|tag| - (prefixLen - 2)..]
  {
  }

  /** A short tag is left-padded with the fill (a space by default) and ends with the tag itself. */
  lemma PrefixPads(tag: string, prefixLen: int, fill: Option<string>)
    requires |tag| <= prefixLen
    requires fill != Some("")
    ensures var r := Prefix(tag, prefixLen, fill);
      |r| == prefixLen && r[prefixLen - |tag|..] == tag &&
      forall i :: 0 <= i < prefixLen - |tag| ==> r[i] == fill.GetOr(" ")[i % |fill.GetOr(" ")|]
  {
  }

  /**
   * For a width of at least two and any fill but the empty string, the
   * prefix is exactly `prefixLen` characters long; a tag of exactly that
   * width comes back unchanged.
   */
  lemma PrefixWidth(tag: string, prefixLen: int, fill: Option<string>)
    requires prefixLen >= 2 && fill != Some("")
    ensures |Prefix(tag, prefixLen, fill)| == prefixLen
    ensures |tag| == prefixLen ==> Prefix(tag, prefixLen, fill) == tag
  {
  }

  /** An empty fill string leaves a short tag as it is (as `padStart` does). */
  lemma PrefixEmptyFill(tag: string, prefixLen: int)
    requires |tag| <= prefixLen
    ensures Prefix(tag, prefixLen, Some("")) == tag
  {
  }

  /** `pz2`/`pz3` end with the number's own text, reach at least 2/3 characters and never cut it. */
  lemma PzPadsWithoutTruncating(num: int)
    ensures |Pz2(num)| == if |IntToString(num)| >= 2 then |IntToString(num)| else 2
    ensures |Pz3(num)| == if |IntToString(num)| >= 3 then |IntToString(num)| else 3
    ensures var s := IntToString(num); var p := Pz2(num); p[|p| - |s|..] == s
    ensures var s := IntToString(num); var p := Pz3(num); p[|p| - |s|..] == s
    ensures var p := Pz2(num); forall i :: 0 <= i < |p| - |IntToString(num)| ==> p[i] == '0'
    ensures var p := Pz3(num); forall i :: 0 <= i < |p| - |IntToString(num)| ==> p[i] == '0'
  {
  }

  /** A single digit gets exactly one leading zero from `pz2`. */
  lemma Pz2SingleDigit(num: int)
    requires 0 <= num < 10
    ensures Pz2(num) == ['0', Digit(num)]
  {
  }
}
