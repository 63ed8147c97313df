/**
 * The Python string built-ins the services rely on, restricted to ASCII:
 * `str.isdigit`, `int(...)` on a digit string, `str(int)`, `str.lower`,
 * `str.startswith`, `str.replace(pattern, "")` and `str.strip()`.
 */
module Text {

  // ---------------------------------------------------------------------
  // Digits and decimal numbers
  // ---------------------------------------------------------------------

  /** `str.isdigit` on a single ASCII character. */
  predicate IsDigit(c: char) {
    '0' <= c <= '9'
  }

  predicate AllDigits(s: string) {
    forall i :: 0 <= i < |s| ==> IsDigit(s[i])
  }

  function DigitValue(c: char): (v: nat)
    requires IsDigit(c)
    ensures v <= 9
  {
    c as int - '0' as int
  }

  function DigitChar(v: nat): (c: char)
    requires v <= 9
    ensures IsDigit(c) && DigitValue(c) == v
  {
    ('0' as int + v) as char
  }

  /** `"".join(filter(str.isdigit, s))`: the digit characters of `s`, in order. */
  function Digits(s: string): (d: string)
    ensures AllDigits(d)
    ensures |d| <= |s|
    ensures d == [] <==> forall i :: 0 <= i < |s| ==> !IsDigit(s[i])
  {
    if s == [] then []
    else (if IsDigit(s[0]) then [s[0]] else []) + Digits(s[1..])
  }

  /** Text none of whose characters is a digit has no digits to filter. */
  lemma NoDigitsIn(s: string)
    requires forall c :: c in s ==> !IsDigit(c)
    ensures Digits(s) == []
  {
    assert forall i :: 0 <= i < |s| ==> s[i] in s;
  }

  /** Filtering distributes over concatenation. */
  lemma {:induction false} DigitsAppend(a: string, b: string)
    ensures Digits(a + b) == Digits(a) + Digits(b)
  {
    if a == [] {
      assert a + b == b;
    } else {
      var head := if IsDigit(a[0]) then [a[0]] else [];
      calc {
        Digits(a + b);
        { assert (a + b)[0] == a[0] && (a + b)[1..] == a[1..] + b; }
        head + Digits(a[1..] + b);
        { DigitsAppend(a[1..], b); }
        head + (Digits(a[1..]) + Digits(b));
        (head + Digits(a[1..])) + Digits(b);
      }
    }
  }

  /** A single character is kept exactly when it is a digit. */
  lemma DigitsOfChar(c: char)
    ensures Digits([c]) == if IsDigit(c) then [c] else []
  {
    assert [c][1..] == [];
  }

  /**
   * Filtering keeps every digit and nothing else, in order: a string of
   * digits is its own filter, and one-character filters concatenate.
   */
  lemma {:induction false} DigitsOfDigitString(s: string)
    requires AllDigits(s)
    ensures Digits(s) == s
  {
    if s != [] {
      DigitsOfDigitString(s[1..]);
      assert [s[0]] + s[1..] == s;
    }
  }

  /** `int(d)` for a non-empty string of ASCII digits, read left to right. */
  function DecimalValue(d: string): nat
    requires AllDigits(d)
  {
    if d == [] then 0
    else DecimalValue(d[..|d| - 1]) * 10 + DigitValue(d[|d| - 1])
  }

  /** A digit string reads as zero exactly when every digit is '0'. */
  lemma {:induction false} DecimalValueZero(d: string)
    requires AllDigits(d)
    ensures DecimalValue(d) == 0 <==> forall i :: 0 <= i < |d| ==> d[i] == '0'
  {
    if d != [] {
      var init := d[..|d| - 1];
      DecimalValueZero(init);
      assert forall i :: 0 <= i < |init| ==> init[i] == d[i];
    }
  }

  /** Two or more digits with a non-zero leading digit read as at least ten. */
  lemma {:induction false} DecimalValueAtLeastTen(d: string)
    requires AllDigits(d) && |d| >= 2 && d[0] != '0'
    ensures DecimalValue(d) >= 10
  {
    var init := d[..|d| - 1];
    if |d| == 2 {
      assert init == [d[0]];
      assert DecimalValue([d[0]]) == DecimalValue([]) * 10 + DigitValue(d[0]);
    } else {
      assert init[0] == d[0];
      DecimalValueAtLeastTen(init);
    }
  }

  /** A single digit reads as its own value. */
  lemma DecimalValueOfDigit(c: char)
    requires IsDigit(c)
    ensures DecimalValue([c]) == DigitValue(c)
  {
    assert [c][..0] == [];
  }

  /** `str(n)` for a natural number: decimal digits, no leading zero. */
  function NatToDecimal(n: nat): (s: string)
    ensures AllDigits(s) && |s| >= 1
    ensures s[0] == '0' ==> n == 0 && s == "0"
    decreases n
  {
    if n < 10 then [DigitChar(n)]
    else NatToDecimal(n / 10) + [DigitChar(n % 10)]
  }

  /** Reading back a rendered number gives the number: `int(str(n)) == n`. */
  lemma {:induction false} NatToDecimalRoundTrip(n: nat)
    ensures DecimalValue(NatToDecimal(n)) == n
    decreases n
  {
    var s := NatToDecimal(n);
    if n < 10 {
      DecimalValueOfDigit(DigitChar(n));
    } else {
      var init := NatToDecimal(n / 10);
      assert s[..|s| - 1] == init;
      NatToDecimalRoundTrip(n / 10);
    }
  }

  /** `str(n)` for any integer, with a leading '-' when negative. */
  function IntToDecimal(n: int): (s: string)
    ensures |s| >= 1
    ensures n >= 0 ==> AllDigits(s) && DecimalValue(s) == n
    ensures n < 0 ==> s[0] == '-' && AllDigits(s[1..]) && DecimalValue(s[1..]) == -n
    ensures n >= 0 && s[0] == '0' ==> s == "0"
    ensures n < 0 ==> |s| >= 2 && s[1] != '0'
  {
    if n < 0 then
      NatToDecimalRoundTrip(-n);
      assert ("-" + NatToDecimal(-n))[1..] == NatToDecimal(-n);
      "-" + NatToDecimal(-n)
    else
      NatToDecimalRoundTrip(n);
      NatToDecimal(n)
  }

  // ---------------------------------------------------------------------
  // Case, prefixes and replacement
  // ---------------------------------------------------------------------

  function LowerChar(c: char): char {
    if 'A' <= c <= 'Z' then (c as int - 'A' as int + 'a' as int) as char else c
  }

  /** `str.lower` on ASCII text. */
  function ToLower(s: string): (r: string)
    ensures |r| == |s|
    ensures forall i :: 0 <= i < |r| ==> !('A' <= r[i] <= 'Z')
    ensures forall i :: 0 <= i < |s| && !('A' <= s[i] <= 'Z') ==> r[i] == s[i]
    ensures forall i :: 0 <= i < |s| && 'A' <= s[i] <= 'Z' ==> r[i] as int == s[i] as int + 32
  {
    seq(|s|, i requires 0 <= i < |s| => LowerChar(s[i]))
  }

  /** Lower-casing twice is lower-casing once. */
  lemma ToLowerIdempotent(s: string)
    ensures ToLower(ToLower(s)) == ToLower(s)
  {
  }

  /** Text without upper-case letters is its own lower-case form. */
  lemma ToLowerOfLower(s: string)
    requires forall i :: 0 <= i < |s| ==> !('A' <= s[i] <= 'Z')
    ensures ToLower(s) == s
  {
  }

  /** `s.startswith(p)`. */
  predicate StartsWith(s: string, p: string) {
    |p| <= |s| && s[..|p|] == p
  }

  lemma StartsWithAppend(p: string, s: string)
    ensures StartsWith(p + s, p)
  {
    assert (p + s)[..|p|] == p;
  }

  /** Whether `p` occurs in `s` starting at index `k`. */
  predicate OccursAt(s: string, p: string, k: nat) {
    k + |p| <= |s| && s[k..k + |p|] == p
  }

  /** Whether `p` occurs anywhere in `s`. */
  predicate Contains(s: string, p: string) {
    exists k: nat | k <= |s| :: OccursAt(s, p, k)
  }

  /**
   * `s.replace(p, "")`: scanning left to right, every non-overlapping
   * occurrence of `p` is dropped.
   */
  function RemoveAll(s: string, p: string): (r: string)
    requires p != []
    ensures |r| <= |s|
    decreases |s|
  {
    if s == [] then []
    else if StartsWith(s, p) then RemoveAll(s[|p|..], p)
    else [s[0]] + RemoveAll(s[1..], p)
  }

  /**
   * Text without an occurrence of `p` comes back unchanged, and text with
   * one loses at least the length of `p`.
   */
  lemma {:induction false} RemoveAllSpec(s: string, p: string)
    requires p != []
    ensures !Contains(s, p) ==> RemoveAll(s, p) == s
    ensures Contains(s, p) ==> |RemoveAll(s, p)| <= |s| - |p|
    decreases |s|
  {
    if s == [] {
    } else if StartsWith(s, p) {
      assert OccursAt(s, p, 0);
    } else {
      NoMatchInTail(s, p);
      MatchInTail(s, p);
      RemoveAllSpec(s[1..], p);
    }
  }

  /** An occurrence away from the front of a string not starting with `p` is an occurrence in its tail. */
  lemma MatchInTail(s: string, p: string)
    requires s != [] && !StartsWith(s, p)
    ensures Contains(s, p) ==> Contains(s[1..], p)
  {
    if Contains(s, p) {
      var k: nat :| k <= |s| && OccursAt(s, p, k);
      assert k != 0;
      assert s[1..][k - 1..k - 1 + |p|] == s[k..k + |p|];
      assert OccursAt(s[1..], p, k - 1);
    }
  }

  /** An occurrence in the tail is an occurrence in the whole. */
  lemma NoMatchInTail(s: string, p: string)
    requires s != []
    ensures Contains(s[1..], p) ==> Contains(s, p)
  {
    if Contains(s[1..], p) {
      var k: nat :| k <= |s[1..]| && OccursAt(s[1..], p, k);
      assert s[k + 1..k + 1 + |p|] == s[1..][k..k + |p|];
      assert OccursAt(s, p, k + 1);
    }
  }

  /** A leading occurrence is removed and the scan continues after it. */
  lemma RemoveAllLeading(p: string, s: string)
    requires p != []
    ensures RemoveAll(p + s, p) == RemoveAll(s, p)
  {
    assert StartsWith(p + s, p);
    assert (p + s)[|p|..] == s;
  }

  /** No occurrence of `p` in `s` starts before index `n`. */
  predicate NoMatchBefore(s: string, p: string, n: nat) {
    forall k: nat :: k < n ==> !OccursAt(s, p, k)
  }

  /**
   * Text before the first occurrence is kept verbatim and the occurrence
   * is dropped: when no match of `p` starts inside `a`, removing from
   * `a + p + b` keeps `a` and continues after the occurrence.
   */
  lemma {:induction false} RemoveAllFirstOccurrence(a: string, p: string, b: string)
    requires p != []
    requires NoMatchBefore(a + p + b, p, |a|)
    ensures RemoveAll(a + p + b, p) == a + RemoveAll(b, p)
  {
    if a == [] {
      assert a + p + b == p + b;
      RemoveAllLeading(p, b);
    } else {
      var s := a + p + b;
      var t := a[1..] + p + b;
      assert !OccursAt(s, p, 0);
      RemoveAllSkipsNonMatch(a, p, b);
      assert RemoveAll(t, p) == a[1..] + RemoveAll(b, p) by {
        NoEarlyMatchInTail(a, p, b);
        RemoveAllFirstOccurrence(a[1..], p, b);
      }
      assert [a[0]] + (a[1..] + RemoveAll(b, p)) == a + RemoveAll(b, p);
    }
  }

  /** A first character that opens no match is kept and the scan moves on by one. */
  lemma RemoveAllSkipsNonMatch(a: string, p: string, b: string)
    requires p != [] && a != [] && !OccursAt(a + p + b, p, 0)
    ensures RemoveAll(a + p + b, p) == [a[0]] + RemoveAll(a[1..] + p + b, p)
  {
    var s := a + p + b;
    assert !StartsWith(s, p);
    assert s[1..] == a[1..] + p + b;
  }

  /** No match starting inside `a` means none starting inside `a`'s tail either. */
  lemma NoEarlyMatchInTail(a: string, p: string, b: string)
    requires a != [] && NoMatchBefore(a + p + b, p, |a|)
    ensures NoMatchBefore(a[1..] + p + b, p, |a| - 1)
  {
    var s := a + p + b;
    var t := a[1..] + p + b;
    forall k: nat | k < |a| - 1
      ensures !OccursAt(t, p, k)
    {
      assert !OccursAt(s, p, k + 1);
      if k + |p| <= |t| {
        assert t[k..k + |p|] == s[k + 1..k + 1 + |p|];
      }
    }
  }

  // ---------------------------------------------------------------------
  // Whitespace stripping
  // ---------------------------------------------------------------------

  /** `str.isspace` on an ASCII character: tab to carriage return, the four separators 0x1C-0x1F and space. */
  predicate IsSpace(c: char) {
    (9 <= c as int <= 13) || (28 <= c as int <= 32)
  }

  predicate AllSpace(s: string) {
    forall i :: 0 <= i < |s| ==> IsSpace(s[i])
  }

  /** `s.lstrip()`: drops the longest all-whitespace prefix. */
  function LStrip(s: string): string {
    if s != [] && IsSpace(s[0]) then LStrip(s[1..]) else s
  }

  /** What `lstrip` removes is all whitespace, and what it keeps does not open with whitespace. */
  lemma {:induction false} LStripSpec(s: string)
    ensures |LStrip(s)| <= |s| && LStrip(s) == s[|s| - |LStrip(s)|..]
    ensures AllSpace(s[..|s| - |LStrip(s)|])
    ensures LStrip(s) != [] ==> !IsSpace(LStrip(s)[0])
  {
    if s != [] && IsSpace(s[0]) {
      LStripSpec(s[1..]);
      var k := |s| - |LStrip(s)|;
      assert s[..k] == [s[0]] + s[1..][..k - 1];
    }
  }

  /** `s.rstrip()`: drops the longest all-whitespace suffix. */
  function RStrip(s: string): string {
    if s != [] && IsSpace(s[|s| - 1]) then RStrip(s[..|s| - 1]) else s
  }

  /** What `rstrip` removes is all whitespace, and what it keeps does not close with whitespace. */
  lemma {:induction false} RStripSpec(s: string)
    ensures |RStrip(s)| <= |s| && RStrip(s) == s[..|RStrip(s)|]
    ensures AllSpace(s[|RStrip(s)|..])
    ensures RStrip(s) != [] ==> !IsSpace(RStrip(s)[|RStrip(s)| - 1])
  {
    if s != [] && IsSpace(s[|s| - 1]) {
      var init := s[..|s| - 1];
      RStripSpec(init);
      var k := |RStrip(s)|;
      assert s[k..] == init[k..] + [s[|s| - 1]];
    }
  }

  /** `s.strip()`. */
  function Strip(s: string): string {
    RStrip(LStrip(s))
  }

  /**
   * Right-stripping a concatenation: when the right part keeps a
   * non-space character, the left part is untouched; otherwise the right
   * part vanishes and the strip continues into the left part.
   */
  lemma {:induction false} RStripAppend(u: string, t: string)
    ensures RStrip(t) != [] ==> RStrip(u + t) == u + RStrip(t)
    ensures RStrip(t) == [] ==> RStrip(u + t) == RStrip(u)
    decreases |t|
  {
    if t == [] {
      assert u + t == u;
    } else if IsSpace(t[|t| - 1]) {
      assert (u + t)[..|u + t| - 1] == u + t[..|t| - 1];
      RStripAppend(u, t[..|t| - 1]);
    } else {
      assert (u + t)[|u + t| - 1] == t[|t| - 1];
    }
  }
}
