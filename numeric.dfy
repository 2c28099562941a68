/**
 * Decimal text and the two strconv conversions the core relies on:
 * strconv.Atoi (used for `batchsize`, `max_retries`, `max_streams`,
 * `max_line_size` and for every duration value) and the base-10
 * formatting that encoding/json uses for an int64.
 */
module Numeric {
  import opened Wrappers

  const MaxInt64: int := 0x7fff_ffff_ffff_ffff
  const MinInt64: int := -0x8000_0000_0000_0000

  predicate IsDigit(c: char) { '0' <= c <= '9' }

  predicate AllDigits(s: string) { forall i :: 0 <= i < |s| ==> IsDigit(s[i]) }

  function DigitValue(c: char): (d: nat)
    requires IsDigit(c)
    ensures d < 10
  {
    c as int - '0' as int
  }

  function DigitChar(d: nat): (c: char)
    requires d < 10
    ensures IsDigit(c) && DigitValue(c) == d
  {
    ('0' as int + d) as char
  }

  /** The value of a run of decimal digits, most significant digit first. */
  function DecimalValue(s: string): nat
    requires AllDigits(s)
  {
    if s == [] then 0 else DecimalValue(s[..|s| - 1]) * 10 + DigitValue(s[|s| - 1])
  }

  /** The shortest decimal text of n; reading it back gives n. */
  function Decimal(n: nat): (s: string)
    ensures s != [] && AllDigits(s)
    ensures DecimalValue(s) == n
  {
    if n < 10 then [DigitChar(n)]
    else
      var s := Decimal(n / 10) + [DigitChar(n % 10)];
      assert s[..|s| - 1] == Decimal(n / 10);
      s
  }

  /** base-10 formatting of an integer, as strconv.FormatInt(n, 10). */
  function FormatInt(n: int): (s: string)
    ensures s != []
    ensures forall i :: 0 <= i < |s| ==> IsDigit(s[i]) || (i == 0 && s[i] == '-')
  {
    if n < 0 then "-" + Decimal(-n) else Decimal(n)
  }

  datatype NumError = ErrSyntax | ErrRange

  const MaxUint64: int := 0xffff_ffff_ffff_ffff

  /** The length of the run of decimal digits that s starts with. */
  function DigitPrefix(s: string): (n: nat)
    ensures n <= |s| && AllDigits(s[..n])
    ensures n < |s| ==> !IsDigit(s[n])
  {
    if s != [] && IsDigit(s[0]) then
      var m := DigitPrefix(s[1..]);
      assert s[..m + 1] == [s[0]] + s[1..][..m];
      m + 1
    else 0
  }

  /** The text after an optional leading sign. */
  function Unsigned(s: string): string {
    if s != [] && (s[0] == '+' || s[0] == '-') then s[1..] else s
  }

  predicate Negative(s: string) { s != [] && s[0] == '-' }

  /**
   * strconv.Atoi on a 64-bit platform: an optional sign, then one or more
   * decimal digits, whose value must fit in an int64. Texts of 19 bytes or
   * more go through ParseInt and ParseUint, which read the digits left to
   * right and report a range error as soon as they exceed 2^64 - 1, before
   * any later non-digit is seen; shorter texts cannot get that far, so one
   * rule covers both paths.
   */
  function Atoi(s: string): (r: Result<int, NumError>)
    ensures r.Success? ==> MinInt64 <= r.value <= MaxInt64
    ensures r.Success? <==>
      var body := Unsigned(s);
      body != [] && AllDigits(body) &&
      (if Negative(s) then -(DecimalValue(body) as int) >= MinInt64 else DecimalValue(body) <= MaxInt64)
    ensures r.Success? ==>
      r.value == if Negative(s) then -(DecimalValue(Unsigned(s)) as int) else DecimalValue(Unsigned(s))
    ensures r == Failure(ErrSyntax) ==> Unsigned(s) == [] || !AllDigits(Unsigned(s))
    ensures r == Failure(ErrRange) ==> DecimalValue(Unsigned(s)[..DigitPrefix(Unsigned(s))]) > MaxInt64
  {
    var body := Unsigned(s);
    var n := DigitPrefix(body);
    if DecimalValue(body[..n]) > MaxUint64 then
      assert AllDigits(body) ==> body[..n] == body;
      Failure(ErrRange)
    else if n == 0 || n < |body| then Failure(ErrSyntax)
    else
      assert body[..n] == body;
      var v := if Negative(s) then -(DecimalValue(body) as int) else DecimalValue(body);
      if v < MinInt64 || v > MaxInt64 then Failure(ErrRange) else Success(v)
  }

  /** An unsigned digit run is accepted exactly when its value fits in an int64. */
  lemma AtoiDigits(s: string)
    requires s != [] && AllDigits(s)
    ensures Atoi(s) == if DecimalValue(s) <= MaxInt64 then Success(DecimalValue(s)) else Failure(ErrRange)
  {
    assert IsDigit(s[0]);
    assert Unsigned(s) == s;
  }

  /** A digit run followed by a non-digit: the digit prefix is exactly the run. */
  lemma {:induction false} DigitPrefixOf(d: string, t: string)
    requires AllDigits(d) && (t == [] || !IsDigit(t[0]))
    ensures DigitPrefix(d + t) == |d|
  {
    if d != [] {
      assert IsDigit(d[0]) && (d + t)[0] == d[0];
      assert (d + t)[1..] == d[1..] + t;
      DigitPrefixOf(d[1..], t);
    } else {
      assert d + t == t;
    }
  }

  /**
   * A digit run followed by a non-digit is a syntax error, unless the digits
   * already exceed 2^64 - 1: then the range error is reported first.
   */
  lemma OverflowReportedFirst(d: string, c: char, rest: string)
    requires d != [] && AllDigits(d) && !IsDigit(c)
    ensures Atoi(d + [c] + rest) == if DecimalValue(d) > MaxUint64 then Failure(ErrRange) else Failure(ErrSyntax)
  {
    var s := d + [c] + rest;
    assert s == d + ([c] + rest);
    assert IsDigit(d[0]) && s[0] == d[0];
    assert Unsigned(s) == s;
    DigitPrefixOf(d, [c] + rest);
    assert s[..|d|] == d;
  }

  /** Formatting an int64 and parsing it back gives the same number. */
  lemma AtoiFormatInt(n: int)
    requires MinInt64 <= n <= MaxInt64
    ensures Atoi(FormatInt(n)) == Success(n)
  {
    var s := FormatInt(n);
    if n < 0 {
      assert s[1..] == Decimal(-n);
    } else {
      assert IsDigit(s[0]);
    }
  }
}
