/**
 * The duration shorthand of strTimeduration.go: StrTimeDuration.FromString
 * scans the lower-cased text for every leftmost, non-overlapping match of
 * `(\d+)\s*(ms|s|m|h|d|w)` and adds value times unit onto the receiver's T.
 * Durations are integer nanoseconds, as time.Duration is.
 */
module Duration {
  import opened Wrappers
  import opened Numeric

  const Millisecond: int := 1_000_000
  const Second: int := 1000 * Millisecond
  const Minute: int := 60 * Second
  const Hour: int := 60 * Minute
  const Day: int := 24 * Hour
  const Week: int := 7 * Day

  /** unitMap: the multiplier of every unit the pattern can capture. */
  const UnitTable: map<string, int> :=
    map["ms" := Millisecond, "s" := Second, "m" := Minute, "h" := Hour, "d" := Day, "w" := Week]

  /** One submatch of the pattern: match[1] (the digits) and match[2] (the unit). */
  datatype Token = Token(digits: string, unit: string)

  /** A unit name the pattern can capture, spelt out letter by letter. */
  predicate KnownUnit(u: string) {
    (|u| == 1 && IsUnitLetter(u[0])) || (|u| == 2 && u[0] == 'm' && u[1] == 's')
  }

  /** The names the pattern can capture are exactly the keys of the unit table. */
  lemma KnownUnitsAreKeys(u: string)
    ensures KnownUnit(u) <==> u in UnitTable
  {
    if |u| == 1 {
      assert u == [u[0]];
    } else if |u| == 2 {
      assert u == [u[0], u[1]];
    }
  }

  /** A token the pattern can produce: at least one digit and a known unit. */
  predicate WellFormed(t: Token) {
    t.digits != [] && AllDigits(t.digits) && KnownUnit(t.unit)
  }

  predicate AllWellFormed(ts: seq<Token>) {
    forall i :: 0 <= i < |ts| ==> WellFormed(ts[i])
  }

  /** `\s` in Go's regexp syntax: tab, newline, form feed, carriage return, space. */
  predicate IsSpace(c: char) {
    c == ' ' || c == '\t' || c == '\n' || c == '\r' || c as int == 12
  }

  /** A letter that can begin one of the alternatives `ms|s|m|h|d|w`. */
  predicate IsUnitLetter(c: char) {
    c == 's' || c == 'm' || c == 'h' || c == 'd' || c == 'w'
  }

  /** A character that is neither a digit, nor `\s`, nor a unit letter: it can be no part of a match. */
  predicate IsInert(c: char) {
    !IsDigit(c) && !IsSpace(c) && !IsUnitLetter(c)
  }

  function LowerChar(c: char): char {
    if 'A' <= c <= 'Z' then (c as int + 32) as char else c
  }

  /** No ASCII capital letter. */
  predicate NoUpper(s: string) { forall i :: 0 <= i < |s| ==> !('A' <= s[i] <= 'Z') }

  /**
   * strings.ToLower, on the ASCII letters that the pattern can see: each
   * capital becomes its small letter, every other character stays, and no
   * capital is left.
   */
  function Lower(s: string): (r: string)
    ensures |r| == |s| && NoUpper(r)
    ensures forall i :: 0 <= i < |s| && 'A' <= s[i] <= 'Z' ==> r[i] == (s[i] as int + 32) as char
    ensures forall i :: 0 <= i < |s| && !('A' <= s[i] <= 'Z') ==> r[i] == s[i]
  {
    seq(|s|, i requires 0 <= i < |s| => LowerChar(s[i]))
  }

  /** Lower-casing twice is lower-casing once. */
  lemma LowerIdempotent(s: string)
    ensures Lower(Lower(s)) == Lower(s)
  {
    var r := Lower(s);
    assert forall i :: 0 <= i < |r| ==> Lower(r)[i] == r[i];
  }

  /** End of the maximal run of digits starting at i (`\d+` is greedy). */
  function DigitsEnd(s: string, i: nat): (j: nat)
    requires i <= |s|
    ensures i <= j <= |s|
    ensures j == |s| || !IsDigit(s[j])
    decreases |s| - i
  {
    if i < |s| && IsDigit(s[i]) then DigitsEnd(s, i + 1) else i
  }

  /** End of the maximal run of `\s` starting at j (`\s*` is greedy). */
  function SpacesEnd(s: string, j: nat): (k: nat)
    requires j <= |s|
    ensures j <= k <= |s|
    ensures forall m :: j <= m < k ==> IsSpace(s[m])
    ensures k == |s| || !IsSpace(s[k])
    decreases |s| - j
  {
    if j < |s| && IsSpace(s[j]) then SpacesEnd(s, j + 1) else j
  }

  /**
   * The alternative of `ms|s|m|h|d|w` that matches at k, tried in that
   * order, so "ms" is preferred to "m".
   */
  function UnitAt(s: string, k: nat): (u: Option<string>)
    ensures u.Some? ==> KnownUnit(u.value) && k + |u.value| <= |s|
    ensures u.Some? ==> s[k] == u.value[0] && (|u.value| == 2 ==> s[k + 1] == u.value[1])
    ensures u.None? <==> k >= |s| || !IsUnitLetter(s[k])
    ensures k + 1 < |s| && s[k] == 'm' && s[k + 1] == 's' ==> u == Some("ms")
  {
    if k + 1 < |s| && s[k] == 'm' && s[k + 1] == 's' then Some("ms")
    else if k < |s| && IsUnitLetter(s[k]) then Some([s[k]])
    else None
  }

  /**
   * All matches of the pattern in s from position i on, left to right.
   * At a digit, the greedy digit run and space run are followed by a unit
   * or the match fails; a failed attempt fails just the same from every
   * later position of the same digit run, so the scan resumes after it.
   * After a match the scan resumes right after its unit.
   */
  function ScanFrom(s: string, i: nat): seq<Token>
    requires i <= |s|
    decreases |s| - i
  {
    if i == |s| then []
    else if !IsDigit(s[i]) then ScanFrom(s, i + 1)
    else
      var j := DigitsEnd(s, i);
      var k := SpacesEnd(s, j);
      match UnitAt(s, k)
      case Some(u) => [Token(s[i..j], u)] + ScanFrom(s, k + |u|)
      case None => ScanFrom(s, j)
  }

  /** Every character of a digit run is a digit. */
  lemma {:induction false} DigitsRun(s: string, i: nat)
    requires i <= |s|
    ensures AllDigits(s[i..DigitsEnd(s, i)])
    decreases |s| - i
  {
    if i < |s| && IsDigit(s[i]) {
      DigitsRun(s, i + 1);
      assert s[i..DigitsEnd(s, i)] == [s[i]] + s[i + 1..DigitsEnd(s, i + 1)];
    }
  }

  /** Every match has a non-empty digit run and a unit of the table. */
  lemma {:induction false} ScanWellFormed(s: string, i: nat)
    requires i <= |s|
    ensures AllWellFormed(ScanFrom(s, i))
    decreases |s| - i
  {
    if i == |s| {
    } else if !IsDigit(s[i]) {
      ScanWellFormed(s, i + 1);
    } else {
      var j := DigitsEnd(s, i);
      var k := SpacesEnd(s, j);
      match UnitAt(s, k)
      case Some(u) =>
        ScanWellFormed(s, k + |u|);
        DigitsRun(s, i);
        var rest := ScanFrom(s, k + |u|);
        assert forall n :: 1 <= n < |rest| + 1 ==> ([Token(s[i..j], u)] + rest)[n] == rest[n - 1];
      case None =>
        ScanWellFormed(s, j);
    }
  }

  /** re.FindAllStringSubmatch(strings.ToLower(raw), -1). */
  function Matches(raw: string): (ts: seq<Token>)
    ensures AllWellFormed(ts)
  {
    ScanWellFormed(Lower(raw), 0);
    ScanFrom(Lower(raw), 0)
  }

  function Nanos(t: Token): int
    requires WellFormed(t)
  {
    KnownUnitsAreKeys(t.unit);
    DecimalValue(t.digits) * UnitTable[t.unit]
  }

  /** The sum of value times multiplier over the tokens. */
  function Total(ts: seq<Token>): int
    requires AllWellFormed(ts)
  {
    if ts == [] then 0 else Total(ts[..|ts| - 1]) + Nanos(ts[|ts| - 1])
  }

  lemma TotalSnoc(ts: seq<Token>, i: nat)
    requires AllWellFormed(ts) && i < |ts|
    ensures AllWellFormed(ts[..i]) && AllWellFormed(ts[..i + 1])
    ensures Total(ts[..i + 1]) == Total(ts[..i]) + Nanos(ts[i])
  {
    assert ts[..i + 1][..i] == ts[..i];
  }

  /** The number of leading tokens whose value strconv.Atoi accepts. */
  function InRangePrefix(ts: seq<Token>): (n: nat)
    requires AllWellFormed(ts)
    ensures n <= |ts|
    ensures forall i :: 0 <= i < n ==> DecimalValue(ts[i].digits) <= MaxInt64
    ensures n < |ts| ==> DecimalValue(ts[n].digits) > MaxInt64
  {
    if ts == [] || DecimalValue(ts[0].digits) > MaxInt64 then 0
    else 1 + InRangePrefix(ts[1..])
  }

  datatype DurationError =
    | NoMatch                     // "invalid time duration format"
    | BadValue(digits: string)    // "... unable to parse time value, get:" + digits

  /** What one FromString call adds onto T, and the error it returns. */
  datatype Parsed = Parsed(added: int, err: Option<DurationError>)

  /**
   * The effect of FromString(raw): with no match nothing is added; otherwise
   * the tokens are added in order until one whose digits overflow an int64,
   * which stops the call with an error after the earlier ones were added.
   */
  function Accumulation(raw: string): (p: Parsed)
    ensures Matches(raw) == [] ==> p == Parsed(0, Some(NoMatch))
    ensures p.err.None? <==>
      Matches(raw) != [] && forall i :: 0 <= i < |Matches(raw)| ==> DecimalValue(Matches(raw)[i].digits) <= MaxInt64
    ensures p.err.None? ==> p.added == Total(Matches(raw))
  {
    var ts := Matches(raw);
    if ts == [] then Parsed(0, Some(NoMatch))
    else
      var n := InRangePrefix(ts);
      if n == |ts| then
        assert ts[..n] == ts;
        Parsed(Total(ts), None)
      else
        Parsed(Total(ts[..n]), Some(BadValue(ts[n].digits)))
  }

  /** StrTimeDuration: a duration field of the configuration. */
  class StrTimeDuration {
    var Raw: string
    var T: int

    constructor ()
      ensures Raw == "" && T == 0
    {
      Raw := "";
      T := 0;
    }

    /** Adds every matched token onto T; Raw is left alone. */
    method FromString(raw: string) returns (err: Option<DurationError>)
      modifies this`T
      ensures T == old(T) + Accumulation(raw).added
      ensures err == Accumulation(raw).err
    {
      var matches := Matches(raw);
      if |matches| == 0 {
        return Some(NoMatch);
      }
      var i := 0;
      while i < |matches|
        invariant 0 <= i <= |matches|
        invariant i <= InRangePrefix(matches)
        invariant T == old(T) + Total(matches[..i])
      {
        var m := matches[i];
        AtoiDigits(m.digits);
        var v := Atoi(m.digits);
        if v.Failure? {
          assert i == InRangePrefix(matches);
          return Some(BadValue(m.digits));
        }
        assert i < InRangePrefix(matches);
        KnownUnitsAreKeys(m.unit);
        if m.unit !in UnitTable {
          // "invalid time unit": the pattern only captures keys of the table
          assert false;
        }
        T := T + v.value * UnitTable[m.unit];
        TotalSnoc(matches, i);
        i := i + 1;
      }
      assert matches[..i] == matches;
      assert InRangePrefix(matches) == |matches|;
      return None;
    }

    /** The JSON text of a duration is scanned as it stands, quotes included. */
    method UnmarshalJSON(data: string) returns (err: Option<DurationError>)
      modifies this`T
      ensures T == old(T) + Accumulation(data).added
      ensures err == Accumulation(data).err
    {
      err := FromString(data);
    }

    /** json.Marshal of T: a plain base-10 number, with no unit. */
    function MarshalJSON(): (r: string)
      reads this
      ensures forall i :: 0 <= i < |r| ==> IsDigit(r[i]) || (i == 0 && r[i] == '-')
      ensures MinInt64 <= T <= MaxInt64 ==> Atoi(r) == Success(T)
    {
      if MinInt64 <= T <= MaxInt64 then AtoiFormatInt(T); FormatInt(T) else FormatInt(T)
    }

    function TimeDuration(): int
      reads this
    {
      T
    }
  }
}
