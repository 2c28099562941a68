/**
 * The go-kit logger adapter of log.go: Log pairs up its arguments as
 * key/value fields and emits them on the zap logger at the info level.
 * The emission is returned instead of performed.
 */
module KeyValueLog {
  import opened Wrappers

  /** An interface{} argument: only whether it is a string matters here. */
  datatype Any = Str(s: string) | Int(i: int) | Bool(b: bool) | Nil

  /** zap.Any(key, value). */
  datatype Field = Field(Key: string, Value: Any)

  datatype Level = Debug | Info | Warn | Error

  /** The `switch level` of Log: an unknown level name logs at info. */
  function LevelFor(name: string): (l: Level)
    ensures name == "debug" <==> l == Debug
    ensures name == "warn" <==> l == Warn
    ensures name == "error" <==> l == Error
    ensures name != "debug" && name != "warn" && name != "error" ==> l == Info
  {
    if name == "debug" then Debug
    else if name == "info" then Info
    else if name == "warn" then Warn
    else if name == "error" then Error
    else Info
  }

  /** One call of l.logger.Info (or another level) with its fields. */
  datatype Emission = Emission(level: Level, fields: seq<Field>)

  datatype LogError =
    | OddCount   // "invalid number of keyvals"
    | NotPairs   // "keyvals must be a sequence of key/value pairs"

  /** Every even position holds a string key. */
  predicate KeysAreStrings(keyvals: seq<Any>) {
    forall i :: 0 <= i < |keyvals| && i % 2 == 0 ==> keyvals[i].Str?
  }

  /**
   * Log: an odd-length list or a non-string key fails and emits nothing;
   * otherwise the pairs become fields, in order, emitted at info.
   */
  method Log(keyvals: seq<Any>) returns (emitted: Option<Emission>, err: Option<LogError>)
    ensures |keyvals| % 2 != 0 ==> err == Some(OddCount)
    ensures |keyvals| % 2 == 0 && !KeysAreStrings(keyvals) ==> err == Some(NotPairs)
    ensures err.Some? <==> emitted.None?
    ensures err.None? <==> |keyvals| % 2 == 0 && KeysAreStrings(keyvals)
    ensures emitted.Some? ==> emitted.value.level == Info && |emitted.value.fields| == |keyvals| / 2
    ensures emitted.Some? ==> forall j :: 0 <= j < |emitted.value.fields| ==>
      keyvals[2 * j].Str? && emitted.value.fields[j] == Field(keyvals[2 * j].s, keyvals[2 * j + 1])
  {
    if |keyvals| % 2 != 0 {
      return None, Some(OddCount);
    }
    var level := "info";
    var fields: seq<Field> := [];
    var i := 0;
    while i < |keyvals|
      invariant 0 <= i <= |keyvals| && i % 2 == 0
      invariant |fields| == i / 2
      invariant forall j :: 0 <= j < i && j % 2 == 0 ==> keyvals[j].Str?
      invariant forall j :: 0 <= j < |fields| ==>
        keyvals[2 * j].Str? && fields[j] == Field(keyvals[2 * j].s, keyvals[2 * j + 1])
    {
      if !keyvals[i].Str? {
        return None, Some(NotPairs);
      }
      var key := keyvals[i].s;
      var value := keyvals[i + 1];
      fields := fields + [Field(key, value)];
      i := i + 2;
    }
    return Some(Emission(LevelFor(level), fields)), None;
  }
}
