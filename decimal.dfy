/**
 * Decimal text of integers, as the C++ side writes and reads it.
 *
 * Writing: `std::to_string(int)` and `operator<<(int)` both produce an
 * optional '-' followed by the shortest run of decimal digits.
 *
 * Reading: the `%d` conversion of `sscanf` and `operator>>(int&)` on a stream
 * both skip leading white space, accept one optional sign and then the longest
 * run of decimal digits, of which there must be at least one.  Whatever follows
 * the digits is left unread.
 */
module Decimal {
  import opened Wrappers

  predicate IsDigit(c: char) { '0' <= c <= '9' }

  /** The characters `isspace` accepts in the C locale. */
  predicate IsSpace(c: char) {
    c == ' ' || c == '\t' || c == '\n' || c == '\U{B}' || c == '\U{C}' || c == '\r'
  }

  function DigitChar(d: nat): (c: char)
    requires d < 10
    ensures IsDigit(c) && DigitValue(c) == d
  {
    ('0' as int + d) as char
  }

  function DigitValue(c: char): int
  {
    c as int - '0' as int
  }

  predicate AllDigits(s: string) {
    forall k :: 0 <= k < |s| ==> IsDigit(s[k])
  }

  /** The value of a run of decimal digits, most significant first. */
  function DigitsValue(s: string): int
  {
    if s == [] then 0
    else DigitsValue(s[..|s| - 1]) * 10 + DigitValue(s[|s| - 1])
  }

  /** The shortest decimal digits of `n`. */
  function NatToDigits(n: nat): (r: string)
    ensures |r| >= 1 && AllDigits(r)
    ensures |r| > 1 ==> r[0] != '0'
  {
    if n < 10 then [DigitChar(n)] else NatToDigits(n / 10) + [DigitChar(n % 10)]
  }

  /** `std::to_string(int)`, and the text `operator<<` writes for an int. */
  function IntToString(n: int): (r: string)
    ensures |r| >= 1
    ensures !IsSpace(r[0]) && r[0] != '+'
  {
    if n < 0 then "-" + NatToDigits(-n) else NatToDigits(n)
  }

  /** The first index at or after `i` that is not white space. */
  function SkipSpace(s: string, i: nat): (r: nat)
    requires i <= |s|
    ensures i <= r <= |s|
    decreases |s| - i
  {
    if i < |s| && IsSpace(s[i]) then SkipSpace(s, i + 1) else i
  }

  /** The end of the run of digits that starts at `i`. */
  function DigitsEnd(s: string, i: nat): (r: nat)
    requires i <= |s|
    ensures i <= r <= |s|
    decreases |s| - i
  {
    if i < |s| && IsDigit(s[i]) then DigitsEnd(s, i + 1) else i
  }

  /**
   * An optional sign and a run of digits starting exactly at `j`: the value
   * read and the index just past its last digit, or None without a digit.
   */
  function ScanSigned(s: string, j: nat): (r: Option<(int, nat)>)
    requires j <= |s|
    ensures r.Some? ==> j < r.value.1 <= |s|
  {
    var signed := j < |s| && (s[j] == '-' || s[j] == '+');
    var k := if signed then j + 1 else j;
    var e := DigitsEnd(s, k);
    if e == k then None
    else
      var v: int := DigitsValue(s[k..e]);
      Some((if signed && s[j] == '-' then -v else v, e))
  }

  /**
   * One `%d` conversion (or one `operator>>(int&)`) starting at index `i`:
   * white space is skipped, then a signed digit run is read.
   */
  function ScanInt(s: string, i: nat): (r: Option<(int, nat)>)
    requires i <= |s|
    ensures r.Some? ==> i < r.value.1 <= |s|
  {
    ScanSigned(s, SkipSpace(s, i))
  }

  lemma {:induction false} DigitsValueOfNat(n: nat)
    ensures DigitsValue(NatToDigits(n)) == n
  {
    if n >= 10 {
      var d := NatToDigits(n / 10);
      var s := d + [DigitChar(n % 10)];
      assert s[..|s| - 1] == d;
      DigitsValueOfNat(n / 10);
    }
  }

  /** A digit run followed by a non-digit (or the end) is read whole. */
  lemma {:induction false} DigitsEndOfRun(s: string, i: nat, e: nat)
    requires i <= e <= |s|
    requires AllDigits(s[i..e])
    requires e == |s| || !IsDigit(s[e])
    ensures DigitsEnd(s, i) == e
    decreases e - i
  {
    if i < e {
      assert s[i..e][0] == s[i];
      assert s[i + 1..e] == s[i..e][1..];
      DigitsEndOfRun(s, i + 1, e);
    }
  }

  /**
   * Reading back what `std::to_string` wrote: when the text of `n` stands at
   * index `i` and is not followed by another digit, one `%d` reads `n` and
   * stops right after it.
   */
  lemma ScanIntString(s: string, i: nat, n: int)
    requires i + |IntToString(n)| <= |s|
    requires s[i..i + |IntToString(n)|] == IntToString(n)
    requires i + |IntToString(n)| == |s| || !IsDigit(s[i + |IntToString(n)|])
    ensures ScanInt(s, i) == Some((n, i + |IntToString(n)|))
  {
    var e := i + |IntToString(n)|;
    assert s[i] == IntToString(n)[0];
    assert SkipSpace(s, i) == i;
    if n < 0 {
      assert s[i + 1..e] == s[i..e][1..];
      ReadDigits(s, i + 1, e, -n);
    } else {
      ReadDigits(s, i, e, n);
    }
  }

  /** The shortest digits of `m`, standing between `k` and `e`, are read whole as `m`. */
  lemma ReadDigits(s: string, k: nat, e: nat, m: nat)
    requires k <= e <= |s|
    requires s[k..e] == NatToDigits(m)
    requires e == |s| || !IsDigit(s[e])
    ensures DigitsEnd(s, k) == e
    ensures DigitsValue(s[k..e]) == m
  {
    DigitsEndOfRun(s, k, e);
    DigitsValueOfNat(m);
  }

  lemma {:induction false} SkipSpaceShift(p: string, s: string, i: nat)
    requires i <= |s|
    ensures SkipSpace(p + s, |p| + i) == |p| + SkipSpace(s, i)
    decreases |s| - i
  {
    if i < |s| {
      assert (p + s)[|p| + i] == s[i];
      if IsSpace(s[i]) {
        SkipSpaceShift(p, s, i + 1);
      }
    }
  }

  lemma {:induction false} DigitsEndShift(p: string, s: string, i: nat)
    requires i <= |s|
    ensures DigitsEnd(p + s, |p| + i) == |p| + DigitsEnd(s, i)
    decreases |s| - i
  {
    if i < |s| {
      assert (p + s)[|p| + i] == s[i];
      if IsDigit(s[i]) {
        DigitsEndShift(p, s, i + 1);
      }
    }
  }

  lemma SliceShift(p: string, s: string, a: nat, b: nat)
    requires a <= b <= |s|
    ensures (p + s)[|p| + a..|p| + b] == s[a..b]
  {
  }

  lemma ScanSignedShift(p: string, s: string, j: nat)
    requires j <= |s|
    ensures ScanSigned(s, j).None? ==> ScanSigned(p + s, |p| + j).None?
    ensures ScanSigned(s, j).Some? ==>
      ScanSigned(p + s, |p| + j) == Some((ScanSigned(s, j).value.0, |p| + ScanSigned(s, j).value.1))
  {
    var t := p + s;
    assert j < |s| ==> t[|p| + j] == s[j];
    var signed := j < |s| && (s[j] == '-' || s[j] == '+');
    var k := if signed then j + 1 else j;
    DigitsEndShift(p, s, k);
    var e := DigitsEnd(s, k);
    SliceShift(p, s, k, e);
  }

  /** Reading is local: text in front of the read position makes no difference. */
  lemma ScanIntShift(p: string, s: string, i: nat)
    requires i <= |s|
    ensures ScanInt(s, i).None? ==> ScanInt(p + s, |p| + i).None?
    ensures ScanInt(s, i).Some? ==>
      ScanInt(p + s, |p| + i) == Some((ScanInt(s, i).value.0, |p| + ScanInt(s, i).value.1))
  {
    SkipSpaceShift(p, s, i);
    ScanSignedShift(p, s, SkipSpace(s, i));
  }

  /** White space in front of a number is skipped. */
  lemma ScanIntSkipsSpace(s: string, i: nat)
    requires i < |s| && IsSpace(s[i])
    ensures ScanInt(s, i) == ScanInt(s, i + 1)
  {
    assert SkipSpace(s, i) == SkipSpace(s, i + 1);
  }

  /** Nothing can be read at the end of the text. */
  lemma ScanIntAtEnd(s: string)
    ensures ScanInt(s, |s|) == None
  {
  }
}
