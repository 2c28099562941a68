/**
 * Properties of the duration scanner: what the matches of a text are made
 * of, which text around them is ignored, the canonical shorthand it reads
 * back, and the examples that pin its behaviour down.
 */
module DurationProperties {
  import opened Wrappers
  import opened Numeric
  import opened Duration

  // ---- The scan only looks forward: a prefix it starts after is invisible ----

  lemma {:induction false} DigitsEndShift(p: string, s: string, i: nat)
    requires i <= |s|
    ensures DigitsEnd(p + s, |p| + i) == |p| + DigitsEnd(s, i)
    decreases |s| - i
  {
    if i < |s| && IsDigit(s[i]) {
      DigitsEndShift(p, s, i + 1);
    }
  }

  lemma {:induction false} SpacesEndShift(p: string, s: string, j: nat)
    requires j <= |s|
    ensures SpacesEnd(p + s, |p| + j) == |p| + SpacesEnd(s, j)
    decreases |s| - j
  {
    if j < |s| && IsSpace(s[j]) {
      SpacesEndShift(p, s, j + 1);
    }
  }

  lemma UnitAtShift(p: string, s: string, k: nat)
    requires k <= |s|
    ensures UnitAt(p + s, |p| + k) == UnitAt(s, k)
  {
    var x := p + s;
    if k + 1 < |s| { assert x[|p| + k + 1] == s[k + 1]; }
    if k < |s| { assert x[|p| + k] == s[k]; }
  }

  lemma SliceShift(p: string, s: string, i: nat, j: nat)
    requires i <= j <= |s|
    ensures (p + s)[|p| + i..|p| + j] == s[i..j]
  {
  }

  /** A failed match attempt at a digit, seen from inside s and from inside p + s. */
  lemma ScanShiftMiss(p: string, s: string, i: nat, j: nat, k: nat)
    requires i < |s| && IsDigit(s[i])
    requires j == DigitsEnd(s, i) && k == SpacesEnd(s, j)
    requires DigitsEnd(p + s, |p| + i) == |p| + j
    requires SpacesEnd(p + s, |p| + j) == |p| + k
    requires UnitAt(p + s, |p| + k) == UnitAt(s, k) == None
    requires ScanFrom(p + s, |p| + j) == ScanFrom(s, j)
    ensures ScanFrom(p + s, |p| + i) == ScanFrom(s, i)
  {
    assert (p + s)[|p| + i] == s[i];
  }

  /** A successful match at a digit of s, seen from inside p + s. */
  lemma ScanHitShifted(p: string, s: string, i: nat, j: nat, k: nat, u: string)
    requires i < |s| && IsDigit(s[i]) && i <= j <= |s|
    requires DigitsEnd(p + s, |p| + i) == |p| + j
    requires SpacesEnd(p + s, |p| + j) == |p| + k
    requires UnitAt(p + s, |p| + k) == Some(u)
    ensures ScanFrom(p + s, |p| + i) == [Token(s[i..j], u)] + ScanFrom(p + s, |p| + k + |u|)
  {
    var x := p + s;
    assert x[|p| + i] == s[i];
    ScanHit(x, |p| + i, u);
    SliceShift(p, s, i, j);
  }

  /** A successful match at a digit, seen from inside s and from inside p + s. */
  lemma ScanShiftHit(p: string, s: string, i: nat, j: nat, k: nat, u: string)
    requires i < |s| && IsDigit(s[i])
    requires j == DigitsEnd(s, i) && k == SpacesEnd(s, j)
    requires DigitsEnd(p + s, |p| + i) == |p| + j
    requires SpacesEnd(p + s, |p| + j) == |p| + k
    requires UnitAt(p + s, |p| + k) == UnitAt(s, k) == Some(u)
    requires ScanFrom(p + s, |p| + k + |u|) == ScanFrom(s, k + |u|)
    ensures ScanFrom(p + s, |p| + i) == ScanFrom(s, i)
  {
    ScanHitShifted(p, s, i, j, k, u);
    ScanHit(s, i, u);
  }

  /** Scanning p + s from inside s gives the matches of s from there. */
  lemma {:induction false} ScanShift(p: string, s: string, i: nat)
    requires i <= |s|
    ensures ScanFrom(p + s, |p| + i) == ScanFrom(s, i)
    decreases |s| - i
  {
    var x := p + s;
    if i == |s| {
    } else if !IsDigit(s[i]) {
      assert x[|p| + i] == s[i];
      ScanShift(p, s, i + 1);
    } else {
      var j := DigitsEnd(s, i);
      DigitsEndShift(p, s, i);
      var k := SpacesEnd(s, j);
      SpacesEndShift(p, s, j);
      UnitAtShift(p, s, k);
      match UnitAt(s, k)
      case Some(u) =>
        ScanShift(p, s, k + |u|);
        ScanShiftHit(p, s, i, j, k, u);
      case None =>
        ScanShift(p, s, j);
        ScanShiftMiss(p, s, i, j, k);
    }
  }

  // ---- A character that cannot be part of a match splits the scan ----

  lemma {:induction false} DigitsEndSplit(a: string, c: char, b: string, i: nat)
    requires i <= |a| && !IsDigit(c)
    ensures DigitsEnd(a + [c] + b, i) == DigitsEnd(a, i)
    decreases |a| - i
  {
    if i < |a| && IsDigit(a[i]) {
      DigitsEndSplit(a, c, b, i + 1);
    }
  }

  lemma {:induction false} SpacesEndSplit(a: string, c: char, b: string, j: nat)
    requires j <= |a| && !IsSpace(c)
    ensures SpacesEnd(a + [c] + b, j) == SpacesEnd(a, j)
    decreases |a| - j
  {
    if j < |a| && IsSpace(a[j]) {
      SpacesEndSplit(a, c, b, j + 1);
    }
  }

  lemma {:induction false} ScanSplitFrom(a: string, c: char, b: string, i: nat)
    requires i <= |a| && IsInert(c)
    ensures ScanFrom(a + [c] + b, i) == ScanFrom(a, i) + ScanFrom(b, 0)
    decreases |a| - i
  {
    var x := a + [c] + b;
    if i == |a| {
      assert x[|a|] == c;
      ScanShift(a + [c], b, 0);
    } else if !IsDigit(a[i]) {
      ScanSplitFrom(a, c, b, i + 1);
    } else {
      var j := DigitsEnd(a, i);
      DigitsEndSplit(a, c, b, i);
      var k := SpacesEnd(a, j);
      SpacesEndSplit(a, c, b, j);
      assert UnitAt(x, k) == UnitAt(a, k) by {
        assert x[k] == if k < |a| then a[k] else c;
        if k + 1 < |a| { assert x[k + 1] == a[k + 1]; }
        if k + 1 == |a| { assert x[k + 1] == c; }
      }
      assert x[i..j] == a[i..j];
      match UnitAt(a, k)
      case Some(u) => ScanSplitFrom(a, c, b, k + |u|);
      case None => ScanSplitFrom(a, c, b, j);
    }
  }

  /**
   * Text outside the matches is ignored: a character that is no digit,
   * no space and no unit letter splits the matches of a text in two.
   */
  lemma SeparatorSplits(a: string, c: char, b: string)
    requires IsInert(c)
    ensures ScanFrom(a + [c] + b, 0) == ScanFrom(a, 0) + ScanFrom(b, 0)
  {
    ScanSplitFrom(a, c, b, 0);
  }

  lemma LowerConcat(a: string, b: string)
    ensures Lower(a + b) == Lower(a) + Lower(b)
  {
    assert forall i :: 0 <= i < |a + b| ==> Lower(a + b)[i] == (Lower(a) + Lower(b))[i];
  }

  /** Matching ignores case: texts that agree once lower-cased are read alike. */
  lemma CaseIgnored(a: string, b: string)
    requires |a| == |b|
    requires forall i :: 0 <= i < |a| ==> LowerChar(a[i]) == LowerChar(b[i])
    ensures Matches(a) == Matches(b)
    ensures Accumulation(a) == Accumulation(b)
  {
    assert Lower(a) == Lower(b);
  }

  /** FromString adds onto T: two calls in a row add both durations. */
  method FromStringTwice(t: StrTimeDuration, a: string, b: string)
    returns (e1: Option<DurationError>, e2: Option<DurationError>)
    modifies t`T
    ensures t.T == old(t.T) + Accumulation(a).added + Accumulation(b).added
    ensures e1 == Accumulation(a).err && e2 == Accumulation(b).err
  {
    e1 := t.FromString(a);
    e2 := t.FromString(b);
  }

  /**
   * UnmarshalJSON hands the raw JSON text, quotes included, to FromString;
   * the quotes around a JSON string change nothing.
   */
  lemma QuotesIgnored(raw: string)
    ensures Matches("\"" + raw + "\"") == Matches(raw)
    ensures Accumulation("\"" + raw + "\"") == Accumulation(raw)
  {
    var q: string := "\"";
    LowerConcat(q + raw, q);
    LowerConcat(q, raw);
    assert Lower(q) == q;
    var l := Lower(raw);
    assert Lower(q + raw + q) == [] + ['"'] + (l + ['"']);
    SeparatorSplits([], '"', l + ['"']);
    assert l + ['"'] == l + ['"'] + [];
    SeparatorSplits(l, '"', []);
  }

  // ---- Texts the scan finds nothing in ----

  lemma {:induction false} NoUnitLetterNoMatch(s: string, i: nat)
    requires i <= |s|
    requires forall k :: i <= k < |s| ==> !IsUnitLetter(s[k])
    ensures ScanFrom(s, i) == []
    decreases |s| - i
  {
    if i == |s| {
    } else if !IsDigit(s[i]) {
      NoUnitLetterNoMatch(s, i + 1);
    } else {
      NoUnitLetterNoMatch(s, DigitsEnd(s, i));
    }
  }

  lemma {:induction false} NoDigitNoMatch(s: string, i: nat)
    requires i <= |s|
    requires forall k :: i <= k < |s| ==> !IsDigit(s[k])
    ensures ScanFrom(s, i) == []
    decreases |s| - i
  {
    if i < |s| {
      NoDigitNoMatch(s, i + 1);
    }
  }

  /**
   * MarshalJSON writes T as a plain number, which has no unit, so reading
   * that output back with FromString fails and adds nothing.
   */
  lemma MarshalledNotReparsable(n: int)
    ensures Accumulation(FormatInt(n)) == Parsed(0, Some(NoMatch))
  {
    var s := FormatInt(n);
    NoUnitLetterNoMatch(Lower(s), 0);
  }

  // ---- The canonical shorthand is read back token for token ----

  /** The shorthand text of a list of tokens, e.g. "2h30m". */
  function Render(ts: seq<Token>): string
  {
    if ts == [] then "" else ts[0].digits + ts[0].unit + Render(ts[1..])
  }

  lemma {:induction false} RenderStartsWithDigit(ts: seq<Token>)
    requires AllWellFormed(ts) && ts != []
    ensures Render(ts) != [] && IsDigit(Render(ts)[0])
  {
    assert Render(ts)[0] == ts[0].digits[0];
  }

  /** DigitsEnd is determined by its contract. */
  lemma {:induction false} DigitsEndAt(s: string, i: nat, j: nat)
    requires i <= j <= |s|
    requires forall m :: i <= m < j ==> IsDigit(s[m])
    requires j == |s| || !IsDigit(s[j])
    ensures DigitsEnd(s, i) == j
    decreases j - i
  {
    if i < j {
      DigitsEndAt(s, i + 1, j);
    }
  }

  /** One successful match at a digit. */
  lemma ScanHit(s: string, i: nat, u: string)
    requires i < |s| && IsDigit(s[i])
    requires UnitAt(s, SpacesEnd(s, DigitsEnd(s, i))) == Some(u)
    ensures ScanFrom(s, i) ==
      [Token(s[i..DigitsEnd(s, i)], u)] + ScanFrom(s, SpacesEnd(s, DigitsEnd(s, i)) + |u|)
  {
  }

  /**
   * A digit run followed directly by a unit is matched right at its start,
   * provided a lone "m" is not followed by an "s" (which would make it "ms").
   */
  lemma HeadMatch(d: string, u: string, r: string)
    requires d != [] && AllDigits(d) && KnownUnit(u)
    requires u == "m" && r != [] ==> IsDigit(r[0])
    ensures ScanFrom(d + u + r, 0) == [Token(d, u)] + ScanFrom(d + u + r, |d| + |u|)
  {
    var x := d + u + r;
    assert x[|d|] == u[0];
    assert forall m :: 0 <= m < |d| ==> x[m] == d[m];
    DigitsEndAt(x, 0, |d|);
    assert UnitAt(x, |d|) == Some(u) by {
      if |u| == 2 {
        assert x[|d| + 1] == u[1];
        assert u == [u[0], u[1]];
      } else {
        assert u == [u[0]];
        if |d| + 1 < |x| {
          assert x[|d| + 1] == r[0];
        }
      }
    }
    ScanHit(x, 0, u);
    assert x[0..|d|] == d;
  }

  /** Scanning the shorthand of well-formed tokens gives back those tokens. */
  lemma {:induction false} ScanRender(ts: seq<Token>)
    requires AllWellFormed(ts)
    ensures ScanFrom(Render(ts), 0) == ts
    decreases |ts|
  {
    if ts != [] {
      var d, u, r := ts[0].digits, ts[0].unit, Render(ts[1..]);
      RenderTail(ts);
      HeadMatch(d, u, r);
      ScanShift(d + u, r, 0);
      ScanRender(ts[1..]);
      assert ScanFrom(Render(ts), 0) == [ts[0]] + ts[1..];
    }
  }

  /** What HeadMatch needs to know about the rest of a shorthand. */
  lemma RenderTail(ts: seq<Token>)
    requires AllWellFormed(ts) && ts != []
    ensures AllWellFormed(ts[1..])
    ensures Render(ts) == ts[0].digits + ts[0].unit + Render(ts[1..])
    ensures ts[1..] != [] ==> Render(ts[1..]) != [] && IsDigit(Render(ts[1..])[0])
  {
    assert forall i :: 0 <= i < |ts| - 1 ==> ts[1..][i] == ts[i + 1];
    if ts[1..] != [] {
      RenderStartsWithDigit(ts[1..]);
    }
  }


  lemma {:induction false} TotalConcat(a: seq<Token>, b: seq<Token>)
    requires AllWellFormed(a) && AllWellFormed(b)
    ensures AllWellFormed(a + b)
    ensures Total(a + b) == Total(a) + Total(b)
    decreases |b|
  {
    if b != [] {
      var b' := b[..|b| - 1];
      assert (a + b)[..|a + b| - 1] == a + b';
      TotalConcat(a, b');
    } else {
      assert a + b == a;
    }
  }

  /** The shorthand of two token lists one after the other is the shorthand of both. */
  lemma {:induction false} RenderConcat(a: seq<Token>, b: seq<Token>)
    ensures Render(a + b) == Render(a) + Render(b)
    decreases |a|
  {
    if a == [] {
      assert a + b == b;
    } else {
      assert (a + b)[0] == a[0] && (a + b)[1..] == a[1..] + b;
      RenderConcat(a[1..], b);
    }
  }

  /**
   * Shorthand texts written one after the other add up, whatever units
   * repeat: "1h" followed by "1h" is read as two hours, not range-checked
   * or replaced.
   */
  lemma RepeatedUnitsAdd(a: seq<Token>, b: seq<Token>)
    requires AllWellFormed(a) && AllWellFormed(b)
    ensures ScanFrom(Render(a) + Render(b), 0) == a + b
    ensures AllWellFormed(a + b) && Total(a + b) == Total(a) + Total(b)
  {
    TotalConcat(a, b);
    RenderConcat(a, b);
    ScanRender(a + b);
  }

  // ---- The examples of strTimeduration_test.go ----

  /** A lower-case shorthand whose values fit in an int64 is accepted with its total. */
  lemma AcceptedShorthand(raw: string, ts: seq<Token>)
    requires AllWellFormed(ts) && Render(ts) == raw && NoUpper(raw)
    requires forall i :: 0 <= i < |ts| ==> DecimalValue(ts[i].digits) <= MaxInt64
    requires ts != []
    ensures Matches(raw) == ts
    ensures Accumulation(raw) == Parsed(Total(ts), None)
  {
    assert Lower(raw) == raw;
    ScanRender(ts);
  }

  lemma OneDigit(a: char)
    requires IsDigit(a)
    ensures DecimalValue([a]) == DigitValue(a)
  {
    assert [a][..0] == [];
  }

  lemma TwoDigits(a: char, b: char)
    requires IsDigit(a) && IsDigit(b)
    ensures DecimalValue([a, b]) == DigitValue(a) * 10 + DigitValue(b)
  {
    assert [a, b][..1] == [a];
    OneDigit(a);
  }

  lemma ThreeDigits(a: char, b: char, c: char)
    requires IsDigit(a) && IsDigit(b) && IsDigit(c)
    ensures DecimalValue([a, b, c]) == DigitValue(a) * 100 + DigitValue(b) * 10 + DigitValue(c)
  {
    assert [a, b, c][..2] == [a, b];
    TwoDigits(a, b);
  }

  lemma Render2(t: Token, t': Token)
    ensures Render([t, t']) == t.digits + t.unit + (t'.digits + t'.unit)
  {
    assert [t, t'][1..] == [t'];
    assert [t'][1..] == [];
    assert Render([t']) == t'.digits + t'.unit + "";
  }

  lemma Render3(t: Token, t': Token, t'': Token)
    ensures Render([t, t', t'']) == t.digits + t.unit + (t'.digits + t'.unit + (t''.digits + t''.unit))
  {
    assert [t, t', t''][1..] == [t', t''];
    Render2(t', t'');
  }

  lemma Total1(t: Token)
    requires WellFormed(t)
    ensures AllWellFormed([t]) && Total([t]) == Nanos(t)
  {
    assert [t][..0] == [];
  }

  lemma Total2(t: Token, t': Token)
    requires WellFormed(t) && WellFormed(t')
    ensures AllWellFormed([t, t']) && Total([t, t']) == Nanos(t) + Nanos(t')
  {
    assert [t, t'][..1] == [t];
    Total1(t);
  }

  lemma Total3(t: Token, t': Token, t'': Token)
    requires WellFormed(t) && WellFormed(t') && WellFormed(t'')
    ensures AllWellFormed([t, t', t'']) && Total([t, t', t'']) == Nanos(t) + Nanos(t') + Nanos(t'')
  {
    assert [t, t', t''][..2] == [t, t'];
    Total2(t, t');
  }

  lemma ExampleTwoHoursThirty()
    ensures Accumulation("2h30m") == Parsed(2 * Hour + 30 * Minute, None)
  {
    var ts := [Token("2", "h"), Token("30", "m")];
    var t0 := Token("2", "h");
    assert WellFormed(t0) && Nanos(t0) == 2 * UnitTable["h"] by {
      OneDigit('2');
    }
    var t1 := Token("30", "m");
    assert WellFormed(t1) && Nanos(t1) == 30 * UnitTable["m"] by {
      TwoDigits('3', '0');
    }
    assert Total(ts) == 2 * Hour + 30 * Minute by {
      Total2(t0, t1);
    }
    assert Render(ts) == "2h30m" && NoUpper("2h30m") by {
      Render2(t0, t1);
    }
    AcceptedShorthand("2h30m", ts);
  }

  lemma ExampleOneDay()
    ensures Accumulation("1d") == Parsed(Day, None)
  {
    var ts := [Token("1", "d")];
    var t0 := Token("1", "d");
    assert WellFormed(t0) && Nanos(t0) == 1 * UnitTable["d"] by {
      OneDigit('1');
    }
    assert Total(ts) == Day by {
      Total1(t0);
    }
    assert Render(ts) == "1d" && NoUpper("1d") by {
      assert Render(ts[0..]) == "1d";
    }
    AcceptedShorthand("1d", ts);
  }

  lemma ExampleOneWeek()
    ensures Accumulation("1w") == Parsed(Week, None)
  {
    var ts := [Token("1", "w")];
    var t0 := Token("1", "w");
    assert WellFormed(t0) && Nanos(t0) == 1 * UnitTable["w"] by {
      OneDigit('1');
    }
    assert Total(ts) == Week by {
      Total1(t0);
    }
    assert Render(ts) == "1w" && NoUpper("1w") by {
      assert Render(ts[0..]) == "1w";
    }
    AcceptedShorthand("1w", ts);
  }

  lemma ExampleFortyFiveSeconds()
    ensures Accumulation("45s") == Parsed(45 * Second, None)
  {
    var ts := [Token("45", "s")];
    var t0 := Token("45", "s");
    assert WellFormed(t0) && Nanos(t0) == 45 * UnitTable["s"] by {
      TwoDigits('4', '5');
    }
    assert Total(ts) == 45 * Second by {
      Total1(t0);
    }
    assert Render(ts) == "45s" && NoUpper("45s") by {
      assert Render(ts[0..]) == "45s";
    }
    AcceptedShorthand("45s", ts);
  }

  lemma ExampleHundredMilliseconds()
    ensures Accumulation("100ms") == Parsed(100 * Millisecond, None)
  {
    var ts := [Token("100", "ms")];
    var t0 := Token("100", "ms");
    assert WellFormed(t0) && Nanos(t0) == 100 * UnitTable["ms"] by {
      ThreeDigits('1', '0', '0');
    }
    assert Total(ts) == 100 * Millisecond by {
      Total1(t0);
    }
    assert Render(ts) == "100ms" && NoUpper("100ms") by {
      assert Render(ts[0..]) == "100ms";
    }
    AcceptedShorthand("100ms", ts);
  }

  lemma ThreeUnitsTokens(ts: seq<Token>)
    requires ts == [Token("2", "h"), Token("30", "m"), Token("500", "ms")]
    ensures AllWellFormed(ts)
    ensures Total(ts) == 2 * Hour + 30 * Minute + 500 * Millisecond
    ensures Render(ts) == "2h30m500ms"
  {
    var t0, t1, t2 := ts[0], ts[1], ts[2];
    assert WellFormed(t0) && Nanos(t0) == 2 * UnitTable["h"] by {
      OneDigit('2');
    }
    assert WellFormed(t1) && Nanos(t1) == 30 * UnitTable["m"] by {
      TwoDigits('3', '0');
    }
    assert WellFormed(t2) && Nanos(t2) == 500 * UnitTable["ms"] by {
      ThreeDigits('5', '0', '0');
    }
    Total3(t0, t1, t2);
    Render3(t0, t1, t2);
  }

  lemma ExampleThreeUnits()
    ensures Accumulation("2h30m500ms") == Parsed(2 * Hour + 30 * Minute + 500 * Millisecond, None)
  {
    var ts := [Token("2", "h"), Token("30", "m"), Token("500", "ms")];
    ThreeUnitsTokens(ts);
    assert NoUpper("2h30m500ms");
    AcceptedShorthand("2h30m500ms", ts);
  }


  lemma ExampleMinutesOverflowIntoHours()
    ensures Accumulation("2h60m") == Parsed(3 * Hour, None)
  {
    var ts := [Token("2", "h"), Token("60", "m")];
    var t0 := Token("2", "h");
    assert WellFormed(t0) && Nanos(t0) == 2 * UnitTable["h"] by {
      OneDigit('2');
    }
    var t1 := Token("60", "m");
    assert WellFormed(t1) && Nanos(t1) == 60 * UnitTable["m"] by {
      TwoDigits('6', '0');
    }
    assert Total(ts) == 3 * Hour by {
      Total2(t0, t1);
    }
    assert Render(ts) == "2h60m" && NoUpper("2h60m") by {
      Render2(t0, t1);
    }
    AcceptedShorthand("2h60m", ts);
  }

  lemma ExamplesRejected()
    ensures Accumulation("invalid") == Parsed(0, Some(NoMatch))
    ensures Accumulation("5y") == Parsed(0, Some(NoMatch))
    ensures Accumulation("114514") == Parsed(0, Some(NoMatch))
    ensures Accumulation("") == Parsed(0, Some(NoMatch))
  {
    NoDigitNoMatch(Lower("invalid"), 0);
    NoUnitLetterNoMatch(Lower("5y"), 0);
    NoUnitLetterNoMatch(Lower("114514"), 0);
  }

  /** The second token of "1 h\t30m": "30" directly followed by "m" at the end. */
  lemma SpacesBetweenTail(s: string)
    requires s == "1 h\t30m"
    ensures ScanFrom(s, 4) == [Token("30", "m")]
  {
    DigitsEndAt(s, 4, 6);
    assert SpacesEnd(s, 6) == 6;
    assert UnitAt(s, 6) == Some("m");
    ScanHit(s, 4, "m");
    assert s[4..6] == "30";
  }

  /** The first token of "1 h\t30m": a space before "h", then a tab that is skipped. */
  lemma SpacesBetweenScan(s: string)
    requires s == "1 h\t30m"
    ensures ScanFrom(s, 0) == [Token("1", "h"), Token("30", "m")]
  {
    DigitsEndAt(s, 0, 1);
    assert SpacesEnd(s, 1) == 2;
    assert UnitAt(s, 2) == Some("h");
    ScanHit(s, 0, "h");
    assert s[0..1] == "1";
    assert ScanFrom(s, 3) == ScanFrom(s, 4);
    SpacesBetweenTail(s);
  }

  /** A lower-case text whose scan gives tokens that fit in an int64 is accepted with their total. */
  lemma AcceptedScan(raw: string, ts: seq<Token>)
    requires AllWellFormed(ts) && NoUpper(raw) && ScanFrom(raw, 0) == ts && ts != []
    requires forall i :: 0 <= i < |ts| ==> DecimalValue(ts[i].digits) <= MaxInt64
    ensures Accumulation(raw) == Parsed(Total(ts), None)
  {
    assert Lower(raw) == raw;
  }

  lemma SpacesBetweenTokens(ts: seq<Token>)
    requires ts == [Token("1", "h"), Token("30", "m")]
    ensures AllWellFormed(ts) && Total(ts) == Hour + 30 * Minute
  {
    var t0, t1 := ts[0], ts[1];
    assert WellFormed(t0) && Nanos(t0) == 1 * UnitTable["h"] by {
      OneDigit('1');
    }
    assert WellFormed(t1) && Nanos(t1) == 30 * UnitTable["m"] by {
      TwoDigits('3', '0');
    }
    Total2(t0, t1);
  }

  /** `\s*` between the digits and the unit: spaces and tabs there are skipped. */
  lemma ExampleSpacesBetween()
    ensures Accumulation("1 h\t30m") == Parsed(Hour + 30 * Minute, None)
  {
    var s, ts := "1 h\t30m", [Token("1", "h"), Token("30", "m")];
    SpacesBetweenScan(s);
    SpacesBetweenTokens(ts);
    assert NoUpper(s);
    AcceptedScan(s, ts);
  }

  /**
   * A value that overflows an int64 stops the call: the tokens before it
   * have been added, and the error names its digits.
   */
  lemma OverflowKeepsEarlierTokens(raw: string)
    requires Matches(raw) != [] && Accumulation(raw).err.Some?
    ensures var ts := Matches(raw); var n := InRangePrefix(ts);
      n < |ts| && AllWellFormed(ts[..n]) &&
      Accumulation(raw) == Parsed(Total(ts[..n]), Some(BadValue(ts[n].digits)))
  {
  }
}
