# caddy-logger-loki in Dafny

A model of the caddy-logger-loki Caddy log writer. The writer is configured from a Caddyfile block or
from JSON and sends every log line to a Grafana Loki server through the Loki client library. The model
covers five parts:

- **Duration shorthand** (`strTimeduration.go`, modules `Duration` and `DurationProperties`).
  - `StrTimeDuration.FromString` scans the lower-cased text for every leftmost, non-overlapping match of
    `(\d+)\s*(ms|s|m|h|d|w)`.
  - It adds value times unit onto `T`.
  - The regular expression is written out as a scanner, `ScanFrom`. At a digit it takes the greedy digit
    run, then the greedy `\s` run, then tries `ms` before the one-letter units.
  - `strconv.Atoi` is modelled as a 64-bit build runs it (module `Numeric`): sign, digits, int64 range, and a range error that wins over a later syntax error.
- **Configuration** (`main.go`, modules `LokiConfig`, `LokiModule` and `ConfigProperties`).
  - `LokiLog` is a class whose duration fields are `StrTimeDuration` objects, as in Go.
  - `UnmarshalCaddyfile` and `Validate` update its fields in place. Each is proved to agree with a
    function on the value `Snapshot()` of those fields: `Unmarshal` (a fold of `DirectiveStep` over the
    lines of the block) and `Validation`.
  - Those functions carry the properties: duplicate keys, blocks that reset and blocks that merge,
    durations that accumulate, the defaults, the check order and the assembled client configuration.
- **Secret un-shadowing** (`overwrite.go`, module `Overwrite`): the three conversions, written as record
  updates.
- **Writer** (`writer.go`, module `Writer`). The client's entry channel is the queue of entries sent so
  far. `Write` appends exactly one entry; `Close` requests one stop.
- **Key/value logger** (`log.go`, module `KeyValueLog`): `Log` pairs its arguments into fields and
  returns the emission instead of calling zap.

Caddyfile input is a tree of `Directive(name, args, block)`. Each `switch d.Val()` of
`UnmarshalCaddyfile` becomes a test on `KeywordOf(d.name)`, which maps every key a case names to its own
`Keyword` and every other key to `OtherKey`.

## Model

| member | source | states |
|---|---|---|
| Numeric.Atoi | strTimeduration.go:39-42 | succeeds exactly on an optional sign followed by decimal digits whose value fits in an int64, and then returns that signed value; a syntax error only for text that is not a sign and digits; a range error only when the leading digits exceed the int64 range |
| Numeric.AtoiDigits | strTimeduration.go:39-42 | an unsigned digit run parses to its decimal value when that fits in an int64, and fails with a range error otherwise |
| Numeric.OverflowReportedFirst | strTimeduration.go:39-42 | digits followed by a non-digit are a syntax error, unless the digits already exceed 2^64 - 1, which strconv reports first as a range error |
| Numeric.FormatInt | strTimeduration.go:59-61 | the decimal text of a number: digits with at most a leading minus |
| Numeric.AtoiFormatInt | strTimeduration.go:59-61 | parsing the decimal text of an int64 gives the number back |
| Duration.Lower | strTimeduration.go:19 | lower-casing keeps the length, turns each ASCII capital into its small letter, leaves every other character and leaves no capital |
| Duration.LowerIdempotent | strTimeduration.go:19 | lower-casing twice is lower-casing once |
| Duration.KnownUnitsAreKeys | strTimeduration.go:18-33 | the units the pattern can capture are exactly the keys of the unit table |
| Duration.SpacesEnd | strTimeduration.go:18 | the `\s*` of the pattern: every character skipped is white space, and the one after the run is not |
| Duration.UnitAt | strTimeduration.go:18 | a unit is found exactly when a unit letter stands at the position, and the unit returned is the text standing there; "ms" is preferred to "m" |
| Duration.ScanFrom | strTimeduration.go:18 | (definition, no contract) every leftmost, non-overlapping match of the pattern from a position on: greedy digits, greedy spaces, then a unit, resuming after a failed digit run; its properties are ScanWellFormed, ScanShift, SeparatorSplits and ScanRender |
| Duration.DigitsRun | strTimeduration.go:18 | every character of a captured digit run is a digit |
| Duration.ScanWellFormed | strTimeduration.go:18-47 | every match has a non-empty digit run and a unit that is a key of the unit table |
| Duration.Matches | strTimeduration.go:18-19 | every match of the lower-cased text is well formed |
| Duration.InRangePrefix | strTimeduration.go:39-42 | the tokens before the first digit run that does not fit in an int64 |
| Duration.Total | strTimeduration.go:49 | (definition, no contract) the sum over the matches of value times unit multiplier; its properties are Accumulation, RepeatedUnitsAdd and the examples |
| Duration.Accumulation | strTimeduration.go:17-53 | no match adds nothing and fails; otherwise the call succeeds exactly when every value fits in an int64, and then adds the sum of value times multiplier |
| Duration.StrTimeDuration.FromString | strTimeduration.go:17-53 | T grows by exactly what Accumulation adds, and the error is Accumulation's; Raw is untouched |
| Duration.StrTimeDuration.UnmarshalJSON | strTimeduration.go:55-57 | the raw JSON text, quotes included, is parsed as by FromString |
| Duration.StrTimeDuration.MarshalJSON | strTimeduration.go:59-61 | the output is a plain number with no unit, and parsing it gives T back |
| Duration.StrTimeDuration.TimeDuration | strTimeduration.go:63-65 | (definition, no contract) the accumulated duration T |
| DurationProperties.ScanShift | strTimeduration.go:18-19 | the matches after a position do not depend on the text before it |
| DurationProperties.SeparatorSplits | strTimeduration.go:18-19 | a character that can be part of no match splits the matches in two, so text outside the matches is ignored |
| DurationProperties.CaseIgnored | strTimeduration.go:19 | texts that agree once lower-cased give the same matches and the same result |
| DurationProperties.FromStringTwice | strTimeduration.go:49 | two calls in a row add both durations onto T |
| DurationProperties.QuotesIgnored | strTimeduration.go:55-57 | the quotes around a JSON string change neither the matches nor the result |
| DurationProperties.NoUnitLetterNoMatch | strTimeduration.go:21-23 | a text with no unit letter has no match |
| DurationProperties.NoDigitNoMatch | strTimeduration.go:21-23 | a text with no digit has no match |
| DurationProperties.MarshalledNotReparsable | strTimeduration.go:59-61 | the output of MarshalJSON is rejected by FromString and adds nothing |
| DurationProperties.ScanRender | strTimeduration.go:18 | scanning the shorthand text of well-formed tokens gives back exactly those tokens |
| DurationProperties.RepeatedUnitsAdd | strTimeduration.go:49 | the shorthand of two token lists one after the other is read as both lists and totals the sum of both, whatever units repeat |
| DurationProperties.AcceptedShorthand | strTimeduration.go:17-53 | a lower-case shorthand whose values fit in an int64 is accepted with its total |
| DurationProperties.ExampleTwoHoursThirty | strTimeduration_test.go:15 | "2h30m" is 2h30m |
| DurationProperties.ExampleOneDay | strTimeduration_test.go:16 | "1d" is 24h |
| DurationProperties.ExampleOneWeek | strTimeduration_test.go:17 | "1w" is 7 days |
| DurationProperties.ExampleFortyFiveSeconds | strTimeduration_test.go:18 | "45s" is 45s |
| DurationProperties.ExampleHundredMilliseconds | strTimeduration_test.go:19 | "100ms" is 100 milliseconds, not 100 minutes |
| DurationProperties.ExampleThreeUnits | strTimeduration_test.go:20 | "2h30m500ms" is 2h30m0.5s |
| DurationProperties.ExampleMinutesOverflowIntoHours | strTimeduration_test.go:23 | "2h60m" is 3h |
| DurationProperties.ExamplesRejected | strTimeduration_test.go:21-22 | "invalid" and "5y" have no match, fail and add nothing; so do two inputs of the model's own, the bare digits "114514" and the empty text (the test file only gives "114514" under a key that is not `time`, so it never reaches FromString) |
| DurationProperties.ExampleSpacesBetween | strTimeduration.go:18 | the `\s*` between digits and unit skips spaces and tabs: "1 h\t30m" is 1h30m |
| DurationProperties.AcceptedScan | strTimeduration.go:17-53 | a lower-case text whose matches all fit in an int64 is accepted, adding their total |
| DurationProperties.OverflowKeepsEarlierTokens | strTimeduration.go:17-53 | when a value overflows an int64 the call stops there: the matches before it have been added, and the error names the overflowing digits |
| Overwrite.ToPrometheusBasicAuth | overwrite.go:26-29 | the password comes from the shadow; username, username file and password file are kept |
| Overwrite.ToPrometheusTLSConfig | overwrite.go:37-40 | the key comes from the shadow; every other TLS field is kept |
| Overwrite.ToPrometheusOAuth2 | overwrite.go:49-53 | the client secret comes from the shadow and the TLS settings are the conversion of the shadowing TlsConfig; the other fields are kept |
| Overwrite.BasicAuthRoundTrip | overwrite.go:26-29 | shadowing a library struct and converting back gives the struct unchanged |
| Overwrite.TLSConfigRoundTrip | overwrite.go:37-40 | the same for TLS settings |
| Overwrite.OAuth2RoundTrip | overwrite.go:49-53 | the same for OAuth2 settings |
| Overwrite.EmbeddedSecretsIgnored | overwrite.go:27-50 | the secret held in the embedded struct never reaches the result, even when the shadow is empty |
| Overwrite.OAuth2EmbeddedTLSReplaced | overwrite.go:51 | the embedded TLS settings of OAuth2 are discarded |
| LokiConfig.FoldStep | main.go:211-212 | decoding one more line of a block continues from the value the earlier lines left |
| LokiConfig.FoldStopsAtError | main.go:211-444 | the lines after a failing line are never looked at |
| LokiConfig.KeywordOf | main.go:212-433 | (definition, no contract) the key each case of the switches names, and OtherKey for any key no case names |
| LokiConfig.PairStep | main.go:220-228 | a key/value line without its value fails; otherwise it sets that key to its value and keeps every other key |
| LokiConfig.DurationStep | main.go:236-244 | a duration line adds what FromString adds and fails exactly when FromString fails |
| LokiConfig.IntStep | main.go:245-254 | an integer line replaces the field when strconv.Atoi succeeds and fails, leaving the field, when it does not |
| LokiConfig.BasicAuthStep | main.go:258-279 | (definition, no contract) one basic_auth line: the four keys set their field from the argument or fail without it, other keys are skipped; its properties are BasicAuthReplaced and DecodeBasicAuthBlock |
| LokiConfig.Scopes | main.go:295-303 | the scopes are two empty strings followed by every argument but the first |
| LokiConfig.OAuth2Step | main.go:284-321 | (definition, no contract) one oauth2 line: endpoint_params decoded as pairs, scopes as Scopes, the other three keys set from the argument or fail without it, other keys skipped |
| LokiConfig.TlsStep | main.go:339-363 | (definition, no contract) one tls_config line: insecure_skip_verify sets the flag, the other four keys set from the argument or fail without it; its properties are TlsFieldsKept, TlsConfigMerged and FlagLines |
| LokiConfig.BackoffArgumentStep | main.go:368-395 | (definition, no contract) min_period and max_period add a duration, max_retries replaces the count when Atoi succeeds |
| LokiConfig.BackoffStep | main.go:366-396 | (definition, no contract) one backoff_config line: a missing argument fails, other keys are skipped; its properties are BackoffFieldsKept and BackoffConfigMerged |
| LokiConfig.TextStep | main.go:213-337 | (definition, no contract) a text key stores its argument in its field and changes nothing else; its properties are ArgumentLines |
| LokiConfig.DurationArgumentStep | main.go:236-442 | (definition, no contract) batchwait and timeout add their argument's duration through DurationStep; its properties are DurationsAccumulate |
| LokiConfig.IntArgumentStep | main.go:245-431 | (definition, no contract) the integer keys replace their field when Atoi succeeds, through IntStep; its properties are ArgumentLines |
| LokiConfig.ArgumentStep | main.go:213-442 | (definition, no contract) a top-level key with its argument: text stored, durations added, integers replaced on success; its properties are ArgumentLines and DurationsAccumulate |
| LokiConfig.BlockStep | main.go:218-411 | (definition, no contract) a top-level key that opens a block: pairs replace the map only on success, basic_auth and oauth2 restart from empty, tls_config and backoff_config continue from the current value |
| LokiConfig.DirectiveStep | main.go:212-443 | (definition, no contract) one top-level line: the argument keys, the block keys and the two flags, every other key ignored; its properties are UnknownKeyIgnored, FlagLines and HeadersReplaced |
| LokiConfig.Unmarshal | main.go:211-444 | (definition, no contract) the writer's block decoded line by line, stopping at the first error; its properties are FoldConcat, FoldSkipsInert and the scenarios |
| LokiConfig.OrDefault | main.go:465-493 | a zero field takes its default, and any other value (negative ones included) is kept |
| LokiConfig.Assemble | main.go:494-529 | (definition, no contract) the client configuration built from the fields; what it holds is ClientConfigContents |
| LokiConfig.BatchDefaults | main.go:465-475 | (definition, no contract) batchwait, batchsize and timeout take their defaults when zero; see ValidationDefaults |
| LokiConfig.BackoffDefaults | main.go:485-493 | (definition, no contract) min_period, max_period and max_retries take their defaults when zero; see ValidationDefaults |
| LokiConfig.Validation | main.go:449-532 | an empty URL, an unparsable URL and empty labels fail in that order, with nothing changed; success exactly when the URL parses, labels are present and the proxy URL is empty or parses |
| ConfigProperties.FoldConcat | main.go:211-444 | decoding a block in two parts: the second part continues from where the first stopped |
| ConfigProperties.FoldSkipsInert | main.go:211-444 | a line that changes nothing and never fails can be taken out of any block |
| ConfigProperties.PairsFoldOk | main.go:220-228 | a key/value block decodes exactly when every line has its value |
| ConfigProperties.PairsFold | main.go:218-229 | the decoded map holds exactly the keys of the lines, each with the value of its last line, so a later duplicate wins |
| ConfigProperties.PairsFirstMissing | main.go:223-225 | the error of a key/value block names the key of its first line without a value |
| ConfigProperties.HeadersReplaced | main.go:218-229 | a headers block replaces the whole map with the block's pairs when it decodes, and leaves the writer as it was when it fails |
| ConfigProperties.ArgumentLines | main.go:213-442 | a key without its argument fails and changes nothing; an integer that does not parse fails and changes nothing; a text argument never fails; a duration with no match fails and changes nothing |
| ConfigProperties.FlagLines | main.go:361-433 | a line holding only one of the three flag keys sets that flag to true and changes nothing else |
| ConfigProperties.UnknownKeyIgnored | main.go:212-443 | a line with a key no case names can be taken out of the block without changing the outcome |
| ConfigProperties.DurationsAccumulate | main.go:236-244 | two batchwait lines add up instead of the second replacing the first |
| ConfigProperties.BasicAuthReplaced | main.go:255-257 | a second basic_auth block replaces whatever the first one set |
| ConfigProperties.OAuth2Replaced | main.go:281-283 | a second oauth2 block replaces whatever the first one set |
| ConfigProperties.TlsConfigMerged | main.go:338-364 | two tls_config blocks decode as one block holding the lines of both |
| ConfigProperties.BackoffConfigMerged | main.go:365-397 | two backoff_config blocks decode as one block holding the lines of both |
| ConfigProperties.TlsFieldsKept | main.go:338-364 | tls_config keeps every field no line names, and always keeps the shadowing key, which no line sets |
| ConfigProperties.BackoffFieldsKept | main.go:365-397 | backoff_config keeps every field no line names |
| ConfigProperties.ScopesExample | main.go:295-303 | `scopes a b c` gives `["", "", "b", "c"]` |
| ConfigProperties.ValidationDefaults | main.go:465-493 | after a successful Validate each of the six defaulted fields holds its default exactly when it was zero, and its own value otherwise |
| ConfigProperties.ValidatedNonZero | main.go:465-493 | after a successful Validate none of the six defaulted fields is zero |
| ConfigProperties.ValidationChangesOnlyDefaults | main.go:449-532 | Validate changes only the six defaulted fields and clientConfig |
| ConfigProperties.ProxyFailure | main.go:465-483 | an unparsable proxy URL fails after the batch and timeout defaults were applied, with the backoff fields and clientConfig untouched |
| ConfigProperties.ClientConfigContents | main.go:494-529 | the client configuration has the fixed name, the URL, the defaulted values, the headers, tenant, bearer token and rate-limit flag passed through; basic_auth, oauth2 and tls_config are the full ToPrometheus conversions of the fields, nil auth blocks stay nil, and the proxy URL is present only when one was given |
| ConfigProperties.ValidationIdempotent | main.go:465-529 | validating the outcome of a successful Validate again gives the same outcome |
| ConfigProperties.ScenarioADefaults | main.go:207-532 | a block with only a URL and one label decodes and validates with every default applied |
| ConfigProperties.ScenarioBLabelsRequired | main.go:461-463 | a valid URL without a labels block fails with the labels error and changes nothing |
| LokiModule.BackoffConfig.constructor | main.go:129-138 | a BackoffConfig starts at zero, with two distinct durations |
| LokiModule.BackoffConfig.ApplyArgument | main.go:368-395 | one backoff_config line with its argument updates the fields as BackoffArgumentStep says |
| LokiModule.BackoffConfig.ApplyLine | main.go:366-396 | one line of a backoff_config block updates the three fields as BackoffStep says; other keys are skipped and a missing argument fails |
| LokiModule.BackoffConfig.Decode | main.go:365-397 | the block's lines update the fields in place as the fold of BackoffStep says, stopping at the first error |
| LokiModule.BackoffConfig.ApplyDefaults | main.go:485-493 | the backoff defaults are applied as BackoffDefaults says |
| LokiModule.LokiLog.constructor | main.go:24-127 | a new LokiLog has every field at its zero value |
| LokiModule.LokiLog.UnmarshalCaddyfile | main.go:207-446 | the fields end as Unmarshal says, including the partial updates made before an error, and the error is Unmarshal's |
| LokiModule.LokiLog.ApplyDirective | main.go:212-443 | one line of the writer's block updates the fields as DirectiveStep says |
| LokiModule.LokiLog.ApplyBlock | main.go:218-411 | a line that opens a block updates the fields as BlockStep says |
| LokiModule.LokiLog.ApplyArgument | main.go:213-442 | a line with its argument updates the fields as ArgumentStep says |
| LokiModule.LokiLog.ApplyDuration | main.go:236-442 | batchwait and timeout add onto their StrTimeDuration as DurationArgumentStep says |
| LokiModule.LokiLog.ApplyInt | main.go:245-431 | batchsize, max_streams and max_line_size are replaced only when strconv.Atoi succeeds |
| LokiModule.LokiLog.ApplyText | main.go:213-337 | url, tenant_id, bearer_token, bearer_token_file and proxy_url store their argument |
| LokiModule.LokiLog.DecodeBasicAuth | main.go:255-280 | basic_auth starts from an empty struct and decodes line by line, keeping what was set before an error |
| LokiModule.LokiLog.DecodeOAuth2 | main.go:281-322 | oauth2 starts from an empty struct and decodes line by line, keeping what was set before an error |
| LokiModule.LokiLog.DecodeTlsConfig | main.go:338-364 | tls_config decodes into the existing struct, line by line |
| LokiModule.LokiLog.DecodeBackoffConfig | main.go:365-397 | backoff_config decodes into the existing struct, line by line |
| LokiModule.LokiLog.Validate | main.go:449-532 | the fields end as Validation says, including the defaults applied before a proxy URL error, and the error is Validation's |
| LokiModule.LokiLog.ApplyBatchDefaults | main.go:465-475 | the batchwait, batchsize and timeout defaults are applied as BatchDefaults says |
| LokiModule.LokiLog.NewClientConfig | main.go:494-529 | the client configuration is assembled from the current fields |
| LokiModule.LokiLog.WriterKey | main.go:538-540 | the key is "loki_log_" followed by the URL, so the URL can be read back from it |
| LokiModule.DecodePairs | main.go:218-229 | a headers, labels or endpoint_params block is decoded as the fold of PairStep |
| LokiModule.ScopesOf | main.go:295-303 | the loop that builds the scopes yields Scopes of the arguments |
| LokiModule.DecodeBasicAuthBlock | main.go:256-279 | the basic_auth lines, starting from an empty struct, give the fold of BasicAuthStep, including the partial struct at an error |
| LokiModule.DecodeOAuth2Block | main.go:282-321 | the oauth2 lines, starting from an empty struct, give the fold of OAuth2Step, including the partial struct at an error |
| LokiModule.OAuth2Line | main.go:284-321 | one line of an oauth2 block gives OAuth2Step: endpoint_params decoded as pairs, scopes as Scopes, a missing argument an error, other keys skipped |
| LokiModule.DecodeTlsBlock | main.go:339-363 | the tls_config lines, starting from the current settings, give the fold of TlsStep |
| Writer.LabelSetOf | writer.go:18-22 | the label set has exactly the keys and values of the map |
| Writer.LokiWriter.constructor | writer.go:18-30 | the writer sends to the given client, with the labels of the map |
| Writer.LokiWriter.Write | writer.go:32-43 | exactly one entry is appended, with the writer's labels, the clock reading and the bytes of p; the length of p is returned, with no error |
| Writer.LokiWriter.Close | writer.go:45-48 | one stop is requested, nothing is sent and no error is returned |
| Writer.WriteTwice | writer.go:32-43 | two writes append two entries in call order and request no stop |
| KeyValueLog.LevelFor | log.go:36-47 | "debug", "warn" and "error" name their own level, and every other name, "info" included, logs at the info level |
| KeyValueLog.Log | log.go:20-50 | an odd count and a non-string key fail and emit nothing; otherwise fields pair each key with the value after it, in order, at the info level |

## Left out

- The leading `d.NextArg()` of UnmarshalCaddyfile consumes the writer's own name, which the Caddyfile parser always supplies. Its `ArgErr` branch (main.go:208-210) is not represented.
- The Caddyfile dispenser works on a flat token stream; here a line is a tree node. Extra arguments on a line and a block under a key that opens none are ignored. The real dispenser reads them as further keys.
- `url.Parse` is the parameter `parses` of Validate. The parsed `*url.URL` is represented by its text.
- time.Duration and Go's `int` are unbounded here. Overflow when adding durations or multiplying by a unit is not modelled. The int64 range check of `strconv.Atoi` is modelled.
- `strings.ToLower` is modelled on ASCII letters only; other letters cannot be part of a match.
- Go's test comment calls "5y" an invalid unit. In the code, "5y" is rejected because nothing matches, so the "invalid time unit" branch is unreachable. The model follows the code and proves that branch dead.
- MarshalJSON's number formatting is `FormatInt`. Only its digits and its reading back are stated.
- The Prometheus config structs keep only the fields this repository sets. The rest of `HTTPClientConfig` and `client.Config` is not modelled.
- A nil map and an empty map are the same value. `headers`/`labels` are both the empty map before any block is decoded.
- `Raw` of StrTimeDuration is not part of `Snapshot()`. No code path in the core sets it.
- LokiModule.LokiLog.NewClientConfig reads `TimeDuration()` as the plain field `T` that it is.
- `OpenWriter`, `client.New`, `Provision`, `CaddyModule`, `String`, `init` and the interface guards are not modelled. They are host and library plumbing.
- The Loki client's batching, pushing, retries and backoff are not part of this model.
- The channel's blocking and the concurrency of `StopNow` are not modelled. The channel is the sequence of entries sent, and StopNow is a counter of stop requests.
- `time.Now` is the parameter `now` of Write. Writer.WriteTwice takes two readings, and the model does not require them to be ordered.
- Labels are immutable map values, so cloning the label set per entry is implicit.
- zap is not called. Log returns the level and fields it would emit; the zap logger value is not modelled.
- The values of `interface{}` arguments are represented by a small sum type; only whether a key is a string matters.
- The basic_auth and oauth2 structs are built as values and then stored in their field. The Go code fills a fresh pointer that nothing else holds (main.go:256, 282), so aliasing is not modelled; the partial struct at an error is kept, as in Go. tls_config is a value field in Go (main.go:80): the model decodes a copy of it and stores the result, which has the same effect.
