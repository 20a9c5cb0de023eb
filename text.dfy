/**
 * String helpers shared by the front end (JavaScript) and the back end (Python):
 * white-space trimming, ASCII lower-casing, substring search, the text after the
 * last dot of a file name, and decimal rendering of integers.
 */
module Text {
  import opened Wrappers

  /** ASCII white space: space, tab, line feed, vertical tab, form feed, carriage return. */
  predicate IsSpace(c: char) {
    c == ' ' || c == '\t' || c == '\n' || c == '\r' || c as int == 11 || c as int == 12
  }

  predicate IsDigit(c: char) {
    '0' <= c <= '9'
  }

  /** `sub` is the piece of `s` that starts at index `k`. */
  predicate OccursAt(s: string, k: nat, sub: string) {
    k + |sub| <= |s| && s[k..k + |sub|] == sub
  }

  /** Drops leading white space; the result is a suffix of `s`. */
  function TrimStart(s: string): (r: string)
    ensures |r| <= |s| && r == s[|s| - |r|..]
    ensures r == [] || !IsSpace(r[0])
    ensures forall i :: 0 <= i < |s| - |r| ==> IsSpace(s[i])
  {
    if s != [] && IsSpace(s[0]) then TrimStart(s[1..]) else s
  }

  /** Drops trailing white space; the result is a prefix of `s`. */
  function TrimEnd(s: string): (r: string)
    ensures |r| <= |s| && r == s[..|r|]
    ensures r == [] || !IsSpace(r[|r| - 1])
    ensures forall i :: |r| <= i < |s| ==> IsSpace(s[i])
  {
    if s != [] && IsSpace(s[|s| - 1]) then TrimEnd(s[..|s| - 1]) else s
  }

  /**
   * JavaScript's `trim()` and Python's `strip()`: a contiguous piece of `s` that
   * neither starts nor ends with white space, empty exactly when `s` is blank.
   */
  function Trim(s: string): (r: string)
    ensures |r| <= |s|
    ensures r == [] || (!IsSpace(r[0]) && !IsSpace(r[|r| - 1]))
    ensures r == [] <==> forall i :: 0 <= i < |s| ==> IsSpace(s[i])
    ensures Contains(s, r)
  {
    var t := TrimStart(s);
    var r := TrimEnd(t);
    assert OccursAt(s, |s| - |t|, r);
    r
  }

  /**
   * `Trim(s)` is `s` without its leading and its trailing white space: the piece
   * starts where the leading white space ends, and everything before it and after it
   * is white space. With the edges of the piece not being white space, this fixes it.
   */
  lemma {:induction false} TrimSpec(s: string)
    ensures var r, k := Trim(s), |s| - |TrimStart(s)|;
      && OccursAt(s, k, r)
      && (forall i :: 0 <= i < k ==> IsSpace(s[i]))
      && (forall i :: k + |r| <= i < |s| ==> IsSpace(s[i]))
  {
    var t := TrimStart(s);
    TrimUnfold(s);
    PrefixOfSuffix(s, t, TrimEnd(t));
  }

  lemma TrimUnfold(s: string)
    ensures Trim(s) == TrimEnd(TrimStart(s))
  {
  }

  /** A prefix `r` of a suffix `t` of `s` sits in `s`, followed by what `t` has after it. */
  lemma PrefixOfSuffix(s: string, t: string, r: string)
    requires |t| <= |s| && t == s[|s| - |t|..] && |r| <= |t| && r == t[..|r|]
    requires forall i :: |r| <= i < |t| ==> IsSpace(t[i])
    ensures OccursAt(s, |s| - |t|, r)
    ensures forall i :: |s| - |t| + |r| <= i < |s| ==> IsSpace(s[i])
  {
    var k := |s| - |t|;
    assert s[k..][..|r|] == s[k..k + |r|];
    forall i | k + |r| <= i < |s| ensures IsSpace(s[i]) {
      assert s[i] == t[i - k];
    }
  }

  function LowerChar(c: char): char {
    if 'A' <= c <= 'Z' then (c as int + 32) as char else c
  }

  /** `toLowerCase()` / `lower()` on the ASCII letters. */
  function Lower(s: string): string {
    seq(|s|, i requires 0 <= i < |s| => LowerChar(s[i]))
  }

  /** `s.includes(sub)` / `sub in s`. */
  predicate Contains(s: string, sub: string) {
    exists k :: 0 <= k <= |s| && OccursAt(s, k, sub)
  }

  /** A text never contains a longer one. */
  lemma NotContainedWhenLonger(s: string, sub: string)
    requires |sub| > |s|
    ensures !Contains(s, sub)
  {
  }

  /** The index of the last '.' of `s`, or -1 when it has none. */
  function LastDot(s: string): (k: int)
    ensures -1 <= k < |s|
    ensures k >= 0 ==> s[k] == '.'
    ensures forall i :: k < i < |s| ==> s[i] != '.'
  {
    if s == [] then -1
    else if s[|s| - 1] == '.' then |s| - 1
    else
      var k := LastDot(s[..|s| - 1]);
      assert forall i :: k < i < |s| - 1 ==> s[..|s| - 1][i] == s[i];
      k
  }

  /**
   * JavaScript's `name.split(".").pop()`: the text after the last dot, or the whole
   * name when it has no dot. Python's `name.rsplit('.', 1)[1]` is the same text
   * whenever the name has a dot.
   */
  function AfterLastDot(s: string): (r: string)
    ensures |r| <= |s| && r == s[|s| - |r|..]
    ensures '.' !in r
    ensures |r| < |s| ==> s[|s| - |r| - 1] == '.'
    ensures '.' in s <==> |r| < |s|
  {
    var k := LastDot(s);
    s[k + 1..]
  }

  function DigitChar(d: nat): (c: char)
    requires d < 10
    ensures IsDigit(c)
  {
    ('0' as int + d) as char
  }

  function DigitValue(c: char): nat
    requires IsDigit(c)
  {
    c as int - '0' as int
  }

  predicate AllDigits(s: string) {
    forall i :: 0 <= i < |s| ==> IsDigit(s[i])
  }

  /** The value of a string of decimal digits. */
  function DigitsValue(s: string): nat
    requires AllDigits(s)
  {
    if s == [] then 0 else DigitsValue(s[..|s| - 1]) * 10 + DigitValue(s[|s| - 1])
  }

  /** JavaScript's `n.toString()` / Python's `str(n)` for a non-negative integer. */
  function NatToString(n: nat): (r: string)
    ensures |r| >= 1 && AllDigits(r)
    ensures |r| == 1 <==> n < 10
  {
    if n < 10 then [DigitChar(n)] else NatToString(n / 10) + [DigitChar(n % 10)]
  }

  function IntToString(i: int): string {
    if i < 0 then "-" + NatToString(-i) else NatToString(i)
  }

  /** Reading the decimal text back gives the number: `NatToString` loses nothing. */
  lemma {:induction false} NatToStringRoundTrip(n: nat)
    ensures DigitsValue(NatToString(n)) == n
  {
    if n >= 10 {
      var r := NatToString(n);
      NatToStringRoundTrip(n / 10);
      assert r[..|r| - 1] == NatToString(n / 10);
    }
  }

  /** Reads a non-empty string of decimal digits. */
  function ParseNat(s: string): Option<nat> {
    if s != [] && AllDigits(s) then Some(DigitsValue(s)) else None
  }

  /** JavaScript's `s.padStart(2, "0")`. */
  function Pad2(s: string): (r: string)
    ensures |r| >= 2
    ensures |s| >= 2 ==> r == s
    ensures |s| < 2 ==> r == seq(2 - |s|, _ => '0') + s
  {
    if |s| >= 2 then s else if |s| == 1 then "0" + s else "00"
  }

  /**
   * Reads a "M:SS" clock text: decimal minutes, a colon, exactly two decimal digits.
   * It is the reading the duration formatters' outputs are checked against.
   */
  function ParseClock(t: string): Option<(nat, nat)> {
    if |t| >= 4 && t[|t| - 3] == ':' && AllDigits(t[|t| - 2..]) then
      match ParseNat(t[..|t| - 3])
      case Some(m) => Some((m, DigitsValue(t[|t| - 2..])))
      case None => None
    else None
  }

  /** A number below 100, padded to two digits, reads back as itself. */
  lemma Pad2RoundTrip(r: nat)
    requires r < 100
    ensures |Pad2(NatToString(r))| == 2 && AllDigits(Pad2(NatToString(r)))
    ensures DigitsValue(Pad2(NatToString(r))) == r
  {
    var b := Pad2(NatToString(r));
    NatToStringRoundTrip(r);
    if r >= 10 {
      assert |NatToString(r / 10)| == 1;
    } else {
      assert b == "0" + NatToString(r);
      assert b[..1] == "0";
    }
  }

  /** A clock text reads as the values of its two digit runs. */
  lemma ParseClockOf(a: string, b: string)
    requires a != [] && AllDigits(a) && |b| == 2 && AllDigits(b)
    ensures ParseClock(a + ":" + b) == Some((DigitsValue(a), DigitsValue(b)))
  {
    var t := a + ":" + b;
    assert t[..|t| - 3] == a;
    assert t[|t| - 2..] == b;
  }

  /** A clock text built from minutes and a two-digit seconds field reads back as both. */
  lemma ClockRoundTrip(m: nat, r: nat)
    requires r < 100
    ensures ParseClock(NatToString(m) + ":" + Pad2(NatToString(r))) == Some((m, r))
  {
    Pad2RoundTrip(r);
    NatToStringRoundTrip(m);
    ParseClockOf(NatToString(m), Pad2(NatToString(r)));
  }
}
