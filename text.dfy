/** The string splitting used on resource addresses and attribute paths, and decimal rendering. */
module Text {
  import opened Outcomes

  /** Position of the first '.' in `s`, if any. */
  function FirstDot(s: string): (r: Option<nat>)
    ensures r.None? <==> '.' !in s
    ensures r.Some? ==> r.value < |s| && s[r.value] == '.' && '.' !in s[..r.value]
  {
    if |s| == 0 then None
    else if s[0] == '.' then Some(0)
    else match FirstDot(s[1..])
      case None => None
      case Some(i) =>
        assert s[1..][..i] == s[1..i + 1];
        assert s[..i + 1] == [s[0]] + s[1..i + 1];
        Some(i + 1)
  }

  /** `s.split(".", 1)` unpacked into two names: None when there is no '.'
      (Python raises ValueError there), else the text before and after the first '.'. */
  function SplitFirst(s: string): (r: Option<(string, string)>)
    ensures r.None? <==> '.' !in s
    ensures r.Some? ==> s == r.value.0 + "." + r.value.1 && '.' !in r.value.0
  {
    match FirstDot(s)
    case None => None
    case Some(i) =>
      assert s == s[..i] + "." + s[i + 1..];
      Some((s[..i], s[i + 1..]))
  }

  /** Joins non-empty `parts` with '.' between consecutive ones (Python's ".".join). */
  function JoinDots(parts: seq<string>): string
    requires |parts| >= 1
  {
    if |parts| == 1 then parts[0] else parts[0] + "." + JoinDots(parts[1..])
  }

  /** `s.split(".")`: never empty, no part holds a '.', and joining the parts gives `s` back. */
  function SplitAll(s: string): (r: seq<string>)
    ensures |r| >= 1
    ensures forall i :: 0 <= i < |r| ==> '.' !in r[i]
    ensures JoinDots(r) == s
    decreases |s|
  {
    match FirstDot(s)
    case None => [s]
    case Some(i) =>
      var rest := SplitAll(s[i + 1..]);
      assert ([s[..i]] + rest)[1..] == rest;
      assert s == s[..i] + "." + s[i + 1..];
      [s[..i]] + rest
  }

  /** The first '.' of a joined path is the one right after its first part. */
  lemma {:induction false} FirstDotAfterPart(p: string, rest: string)
    requires '.' !in p
    ensures FirstDot(p + "." + rest) == Some(|p|)
  {
    if |p| > 0 {
      assert (p + "." + rest)[1..] == p[1..] + "." + rest;
      FirstDotAfterPart(p[1..], rest);
    }
  }

  /** Splitting a join of dot-free parts recovers the parts. */
  lemma {:induction false} SplitAllJoinDots(parts: seq<string>)
    requires |parts| >= 1
    requires forall i :: 0 <= i < |parts| ==> '.' !in parts[i]
    ensures SplitAll(JoinDots(parts)) == parts
  {
    if |parts| > 1 {
      var s := JoinDots(parts);
      FirstDotAfterPart(parts[0], JoinDots(parts[1..]));
      assert s[..|parts[0]|] == parts[0];
      assert s[|parts[0]| + 1..] == JoinDots(parts[1..]);
      SplitAllJoinDots(parts[1..]);
    } else {
      assert '.' !in parts[0];
    }
  }

  /** The number a string of decimal digits denotes, read left to right. */
  function DecimalValue(s: string): nat
    requires forall i :: 0 <= i < |s| ==> '0' <= s[i] <= '9'
  {
    if |s| == 0 then 0
    else DecimalValue(s[..|s| - 1]) * 10 + (s[|s| - 1] as int - '0' as int)
  }

  /** Python's str() of a non-negative int: the digits denoting n, without leading zeros. */
  function NatToDecimal(n: nat): (r: string)
    ensures |r| >= 1
    ensures forall i :: 0 <= i < |r| ==> '0' <= r[i] <= '9'
    ensures DecimalValue(r) == n
    ensures n > 0 ==> r[0] != '0'
  {
    var d := ['0' + (n % 10) as char];
    if n < 10 then d
    else
      var high := NatToDecimal(n / 10);
      assert (high + d)[..|high|] == high;
      high + d
  }

  /** Different numbers are rendered differently. */
  lemma NatToDecimalInjective(m: nat, n: nat)
    requires NatToDecimal(m) == NatToDecimal(n)
    ensures m == n
  {
  }

  /** Python's str() of an int: a '-' or a digit first. */
  function IntToDecimal(n: int): (r: string)
    ensures |r| >= 1 && (r[0] == '-' || '0' <= r[0] <= '9')
  {
    if n < 0 then "-" + NatToDecimal(-n) else NatToDecimal(n)
  }
}
