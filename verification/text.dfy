/**
 * String helpers the rule-based classifier relies on: ASCII lower-casing,
 * substring search (Python's `sub in s`), and decimal rendering of integers
 * (Python's `str(n)` / f-string formatting) together with its parser.
 */
module Text {

  datatype Option<+T> = None | Some(value: T) {
    function GetOr(default: T): T {
      match this
      case Some(v) => v
      case None => default
    }
  }

  // ---------------------------------------------------------------------
  // Lower-casing
  // ---------------------------------------------------------------------

  predicate IsUpper(c: char) {
    'A' <= c <= 'Z'
  }

  /** Lower-cases one ASCII letter; every other character is kept. */
  function LowerChar(c: char): (d: char)
    ensures !IsUpper(d)
    ensures IsUpper(c) || d == c
  {
    if IsUpper(c) then (c as int + 32) as char else c
  }

  /** Python's `s.lower()`, restricted to ASCII letters. */
  function Lower(s: string): (r: string)
    ensures |r| == |s|
    ensures forall i :: 0 <= i < |s| ==> r[i] == LowerChar(s[i])
  {
    if s == [] then [] else [LowerChar(s[0])] + Lower(s[1..])
  }

  /** Lower-casing twice is the same as lower-casing once. */
  lemma LowerIdempotent(s: string)
    ensures Lower(Lower(s)) == Lower(s)
  {
    var once := Lower(s);
    var twice := Lower(once);
    assert |twice| == |once|;
    forall i | 0 <= i < |once|
      ensures twice[i] == once[i]
    {
      assert !IsUpper(once[i]);
    }
  }

  // ---------------------------------------------------------------------
  // Substring search
  // ---------------------------------------------------------------------

  /** Python's `sub in s`: does `sub` occur somewhere in `s`? */
  predicate Contains(s: string, sub: string)
    decreases |s|
  {
    if |sub| > |s| then false
    else if s[..|sub|] == sub then true
    else Contains(s[1..], sub)
  }

  /** `sub` occurs in `s` starting at position `i`. */
  predicate OccursAt(s: string, sub: string, i: nat) {
    i + |sub| <= |s| && s[i..i + |sub|] == sub
  }

  /** An occurrence one position further in `s` is an occurrence in `s[1..]`. */
  lemma OccursShift(s: string, sub: string, i: nat)
    requires |s| > 0
    ensures OccursAt(s, sub, i + 1) <==> OccursAt(s[1..], sub, i)
  {
    if i + 1 + |sub| <= |s| {
      assert s[1..][i..i + |sub|] == s[i + 1..i + 1 + |sub|];
    }
  }

  /** The search agrees with the positional definition of an occurrence. */
  lemma {:induction false} ContainsIffOccurs(s: string, sub: string)
    ensures Contains(s, sub) <==> exists i: nat :: OccursAt(s, sub, i)
    decreases |s|
  {
    if |sub| > |s| {
      assert forall i: nat :: !OccursAt(s, sub, i);
    } else if s[..|sub|] == sub {
      assert OccursAt(s, sub, 0);
    } else {
      var t := s[1..];
      assert Contains(s, sub) == Contains(t, sub);
      ContainsIffOccurs(t, sub);
      if Contains(t, sub) {
        var i: nat :| OccursAt(t, sub, i);
        OccursShift(s, sub, i);
      } else {
        forall i: nat | OccursAt(s, sub, i)
          ensures false
        {
          assert i != 0;
          OccursShift(s, sub, i - 1);
        }
      }
    }
  }

  /** A pattern whose first character never appears in `s` does not occur in it. */
  lemma {:induction false} AbsentFirstCharNotContained(s: string, sub: string)
    requires |sub| > 0 && sub[0] !in s
    ensures !Contains(s, sub)
    decreases |s|
  {
    if |sub| <= |s| {
      assert s[..|sub|][0] == s[0];
      AbsentFirstCharNotContained(s[1..], sub);
    }
  }

  // ---------------------------------------------------------------------
  // Decimal rendering of integers and its parser
  // ---------------------------------------------------------------------

  predicate IsDigit(c: char) {
    '0' <= c <= '9'
  }

  predicate AllDigits(s: string) {
    forall i :: 0 <= i < |s| ==> IsDigit(s[i])
  }

  function DigitChar(d: nat): (c: char)
    requires d < 10
    ensures IsDigit(c)
  {
    ('0' as int + d) as char
  }

  /** Python's `str(n)` for a non-negative integer: no leading zero except in "0". */
  function NatToString(n: nat): (r: string)
    ensures |r| >= 1 && AllDigits(r)
    ensures n == 0 ==> r == "0"
    ensures n > 0 ==> r[0] != '0'
    decreases n
  {
    if n < 10 then [DigitChar(n)] else NatToString(n / 10) + [DigitChar(n % 10)]
  }

  /** Python's `str(n)` for any integer: a minus sign before the digits. */
  function IntToString(n: int): (r: string)
    ensures forall i :: 0 <= i < |r| ==> r[i] != ','
  {
    if n < 0 then "-" + NatToString(-n) else NatToString(n)
  }

  /** The value of a string of decimal digits (0 for the empty string). */
  function DigitsValue(s: string): int
  {
    if s == [] then 0
    else DigitsValue(s[..|s| - 1]) * 10 + (s[|s| - 1] as int - '0' as int)
  }

  /** Python's `int(s)` on what `IntToString` produces. */
  function ParseInt(s: string): int
  {
    if |s| > 0 && s[0] == '-' then -DigitsValue(s[1..]) else DigitsValue(s)
  }

  lemma {:induction false} NatToStringRoundTrip(n: nat)
    ensures DigitsValue(NatToString(n)) == n
    decreases n
  {
    var r := NatToString(n);
    if n >= 10 {
      NatToStringRoundTrip(n / 10);
      assert r[..|r| - 1] == NatToString(n / 10);
    }
  }

  lemma IntToStringRoundTrip(n: int)
    ensures ParseInt(IntToString(n)) == n
  {
    if n < 0 {
      NatToStringRoundTrip(-n);
      assert IntToString(n)[1..] == NatToString(-n);
    } else {
      NatToStringRoundTrip(n);
      assert IsDigit(NatToString(n)[0]);
    }
  }

  // ---------------------------------------------------------------------
  // "x,y" coordinate pairs
  // ---------------------------------------------------------------------

  /** Position of the first ',' in `s`, or `|s|` when there is none. */
  function IndexOfComma(s: string): (k: nat)
    ensures k <= |s|
    ensures k < |s| ==> s[k] == ','
    ensures forall j :: 0 <= j < k ==> s[j] != ','
  {
    if s == [] then 0
    else if s[0] == ',' then 0
    else 1 + IndexOfComma(s[1..])
  }

  /** The f-string `f"{x},{y}"`. */
  function FormatPair(x: int, y: int): string
  {
    IntToString(x) + "," + IntToString(y)
  }

  /** Splits "x,y" at its first comma and reads both integers back. */
  function ParsePair(p: string): Option<(int, int)>
  {
    var k := IndexOfComma(p);
    if k < |p| then Some((ParseInt(p[..k]), ParseInt(p[k + 1..]))) else None
  }

  /** Formatting a pair loses nothing: the two integers can be read back. */
  lemma FormatPairRoundTrip(x: int, y: int)
    ensures ParsePair(FormatPair(x, y)) == Some((x, y))
  {
    var a, b := IntToString(x), IntToString(y);
    var p := FormatPair(x, y);
    assert p[|a|] == ',';
    assert IndexOfComma(p) == |a| by {
      assert forall j :: 0 <= j < |a| ==> p[j] == a[j];
    }
    assert p[..|a|] == a;
    assert p[|a| + 1..] == b;
    IntToStringRoundTrip(x);
    IntToStringRoundTrip(y);
  }
}
