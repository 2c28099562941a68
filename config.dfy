/**
 * The configuration of the Loki writer (main.go) as values: the fields of
 * LokiLog, the Caddyfile directives that fill them, and the checks and
 * defaults of Validate. LokiModule.LokiLog updates the same fields in place
 * and is proved to agree with the functions here.
 */
module LokiConfig {
  import opened Wrappers
  import opened Numeric
  import opened Duration
  import opened Overwrite

  // ---- The fields of LokiLog ----

  /** BackoffConfig: the two duration fields as nanoseconds, and the retry count. */
  datatype BackoffSettings = BackoffSettings(MinPeriod: int, MaxPeriod: int, MaxRetries: int)

  /** backoff.Config handed to the client. */
  datatype Backoff = Backoff(MinBackoff: int, MaxBackoff: int, MaxRetries: int)

  /** config.HTTPClientConfig; a proxy URL that was not given is None (a nil *url.URL). */
  datatype HTTPClientConfig = HTTPClientConfig(
    BasicAuth: Option<PromBasicAuth>,
    OAuth2: Option<PromOAuth2>,
    BearerToken: Secret,
    BearerTokenFile: string,
    TLSConfig: PromTLSConfig,
    ProxyURL: Option<string>)

  /** client.Config, with a parsed URL represented by its text. */
  datatype ClientConfig = ClientConfig(
    Name: string,
    URL: string,
    BatchWait: int,
    BatchSize: int,
    Client: HTTPClientConfig,
    Headers: map<string, string>,
    BackoffConfig: Backoff,
    Timeout: int,
    TenantID: string,
    DropRateLimitedBatches: bool)

  /**
   * The state of a LokiLog. Durations are the T of its StrTimeDuration
   * fields; a nil pointer is None, and so is a clientConfig that Validate
   * has not assigned yet.
   */
  datatype Settings = Settings(
    Url: string,
    Headers: map<string, string>,
    TenantId: string,
    BatchWait: int,
    BatchSize: int,
    BasicAuth: Option<BasicAuth>,
    Oauth2: Option<OAuth2>,
    BearerToken: string,
    BearTokenFile: string,
    ProxyURL: string,
    TlsConfig: TLSConfig,
    Backoff: BackoffSettings,
    DropRateLimitedBatches: bool,
    Labels: map<string, string>,
    TimeOut: int,
    ClientConfig: Option<ClientConfig>,
    MaxStreams: int,
    MaxLineSize: int,
    MaxLineSizeTruncate: bool)

  /** A LokiLog as `new(LokiLog)` makes it: every field at its zero value. */
  const ZeroSettings := Settings(
    "", map[], "", 0, 0, None, None, "", "", "", EmptyTLSConfig,
    BackoffSettings(0, 0, 0), false, map[], 0, None, 0, 0, false)

  // ---- Caddyfile directives ----

  /**
   * A Caddyfile line as the dispenser presents it: its first token (the
   * key), the arguments that follow on the same line, and the lines of the
   * block it opens, if any.
   */
  datatype Directive = Directive(name: string, args: seq<string>, block: seq<Directive>)

  /** The keys the `switch d.Val()` statements know, at the top level and in the nested blocks. */
  datatype Keyword =
    | UrlKey | HeadersKey | TenantIdKey | BatchWaitKey | BatchSizeKey | BasicAuthKey | OAuth2Key
    | BearerTokenKey | BearerTokenFileKey | ProxyUrlKey | TlsConfigKey | BackoffConfigKey
    | DropRateLimitedBatchesKey | LabelsKey | TimeoutKey | MaxStreamsKey | MaxLineSizeKey
    | MaxLineSizeTruncateKey
    | UsernameKey | UsernameFileKey | PasswordKey | PasswordFileKey
    | ClientIdKey | ClientSecretKey | ScopesKey | TokenUrlKey | EndpointParamsKey
    | CaFileKey | CertFileKey | KeyFileKey | ServerNameKey | InsecureSkipVerifyKey
    | MinPeriodKey | MaxPeriodKey | MaxRetriesKey
    | OtherKey

  /** The case of a switch that a key selects; any other key falls through every case. */
  function KeywordOf(name: string): Keyword {
    if name == "url" then UrlKey
    else if name == "headers" then HeadersKey
    else if name == "tenant_id" then TenantIdKey
    else if name == "batchwait" then BatchWaitKey
    else if name == "batchsize" then BatchSizeKey
    else if name == "basic_auth" then BasicAuthKey
    else if name == "oauth2" then OAuth2Key
    else if name == "bearer_token" then BearerTokenKey
    else if name == "bearer_token_file" then BearerTokenFileKey
    else if name == "proxy_url" then ProxyUrlKey
    else if name == "tls_config" then TlsConfigKey
    else if name == "backoff_config" then BackoffConfigKey
    else if name == "drop_rate_limited_batches" then DropRateLimitedBatchesKey
    else if name == "labels" then LabelsKey
    else if name == "timeout" then TimeoutKey
    else if name == "max_streams" then MaxStreamsKey
    else if name == "max_line_size" then MaxLineSizeKey
    else if name == "max_line_size_truncate" then MaxLineSizeTruncateKey
    else if name == "username" then UsernameKey
    else if name == "username_file" then UsernameFileKey
    else if name == "password" then PasswordKey
    else if name == "password_file" then PasswordFileKey
    else if name == "client_id" then ClientIdKey
    else if name == "client_secret" then ClientSecretKey
    else if name == "scopes" then ScopesKey
    else if name == "token_url" then TokenUrlKey
    else if name == "endpoint_params" then EndpointParamsKey
    else if name == "ca_file" then CaFileKey
    else if name == "cert_file" then CertFileKey
    else if name == "key_file" then KeyFileKey
    else if name == "server_name" then ServerNameKey
    else if name == "insecure_skip_verify" then InsecureSkipVerifyKey
    else if name == "min_period" then MinPeriodKey
    else if name == "max_period" then MaxPeriodKey
    else if name == "max_retries" then MaxRetriesKey
    else OtherKey
  }

  datatype DecodeError =
    | ArgErr(after: string)                           // d.ArgErr(): a key without its argument
    | BadDuration(key: string, reason: DurationError) // "parse <key> parameter failed, invalid duration"
    | BadInt(key: string, cause: NumError)            // "parse <key> parameter failed, invalid int"

  /** A value decoded so far, and the error that stopped the decoding, if one did. */
  datatype Partial<T> = Partial(value: T, err: Option<DecodeError>)

  /**
   * The lines of a block applied one after another to a value, stopping at
   * the first line that fails; the value keeps what the lines before it,
   * and the failing line itself, did to it.
   */
  function Fold<T>(init: T, ds: seq<Directive>, step: (T, Directive) -> Partial<T>): Partial<T>
    decreases |ds|
  {
    if ds == [] then Partial(init, None)
    else
      var p := Fold(init, ds[..|ds| - 1], step);
      if p.err.Some? then p else step(p.value, ds[|ds| - 1])
  }

  /** One more line: the fold of a longer prefix in terms of the shorter one. */
  lemma FoldStep<T>(init: T, ds: seq<Directive>, i: nat, step: (T, Directive) -> Partial<T>)
    requires i < |ds|
    ensures Fold(init, ds[..i + 1], step) ==
      var p := Fold(init, ds[..i], step); if p.err.Some? then p else step(p.value, ds[i])
  {
    assert ds[..i + 1][..i] == ds[..i];
  }

  /** The lines after a failing one are never looked at. */
  lemma {:induction false} FoldStopsAtError<T>(init: T, ds: seq<Directive>, i: nat, step: (T, Directive) -> Partial<T>)
    requires i <= |ds| && Fold(init, ds[..i], step).err.Some?
    ensures Fold(init, ds, step) == Fold(init, ds[..i], step)
    decreases |ds| - i
  {
    if i < |ds| {
      FoldStep(init, ds, i, step);
      FoldStopsAtError(init, ds, i + 1, step);
    } else {
      assert ds[..i] == ds;
    }
  }

  /** One `key value` line of a headers, labels or endpoint_params block. */
  function PairStep(m: map<string, string>, d: Directive): (r: Partial<map<string, string>>)
    ensures d.args == [] ==> r == Partial(m, Some(ArgErr(d.name)))
    ensures d.args != [] ==> r.err.None? && r.value.Keys == m.Keys + {d.name}
    ensures d.args != [] ==> r.value[d.name] == d.args[0]
    ensures d.args != [] ==> forall k :: k in m && k != d.name ==> r.value[k] == m[k]
  {
    if d.args == [] then Partial(m, Some(ArgErr(d.name))) else Partial(m[d.name := d.args[0]], None)
  }

  /** The outcome of adding a duration text onto a duration field. */
  function DurationStep(t: int, key: string, raw: string): (r: Partial<int>)
    ensures r.value == t + Accumulation(raw).added
    ensures r.err.None? <==> Accumulation(raw).err.None?
    ensures r.err.Some? ==> r.err == Some(BadDuration(key, Accumulation(raw).err.value))
  {
    var p := Accumulation(raw);
    Partial(t + p.added, if p.err.Some? then Some(BadDuration(key, p.err.value)) else None)
  }

  /** The outcome of strconv.Atoi on an integer field; a failure leaves the field alone. */
  function IntStep(n: int, key: string, raw: string): (r: Partial<int>)
    ensures Atoi(raw).Success? ==> r == Partial(Atoi(raw).value, None)
    ensures Atoi(raw).Failure? ==> r == Partial(n, Some(BadInt(key, Atoi(raw).error)))
  {
    match Atoi(raw)
    case Success(v) => Partial(v, None)
    case Failure(e) => Partial(n, Some(BadInt(key, e)))
  }

  /** The keys of a basic_auth block; each takes an argument. */
  predicate BasicAuthField(k: Keyword) {
    k.UsernameKey? || k.UsernameFileKey? || k.PasswordKey? || k.PasswordFileKey?
  }

  /** One line of a basic_auth block; the password goes to the shadowing field. */
  function BasicAuthStep(b: BasicAuth, d: Directive): Partial<BasicAuth> {
    var k := KeywordOf(d.name);
    if !BasicAuthField(k) then Partial(b, None)
    else if d.args == [] then Partial(b, Some(ArgErr(d.name)))
    else
      var v := d.args[0];
      if k.UsernameKey? then Partial(b.(Embedded := b.Embedded.(Username := v)), None)
      else if k.UsernameFileKey? then Partial(b.(Embedded := b.Embedded.(UsernameFile := v)), None)
      else if k.PasswordKey? then Partial(b.(Password := v), None)
      else Partial(b.(Embedded := b.Embedded.(PasswordFile := v)), None)
  }

  /**
   * The scopes line: its first argument is dropped, and the list starts
   * with the two empty strings `make([]string, 2)` creates.
   */
  function Scopes(args: seq<string>): (r: seq<string>)
    requires args != []
    ensures |r| == |args| + 1 && r[0] == "" && r[1] == ""
    ensures forall i :: 2 <= i < |r| ==> r[i] == args[i - 1]
  {
    ["", ""] + args[1..]
  }

  /** The keys of an oauth2 block that take an argument. */
  predicate OAuth2Field(k: Keyword) {
    k.ClientIdKey? || k.ClientSecretKey? || k.ScopesKey? || k.TokenUrlKey?
  }

  /** One line of an oauth2 block; the client secret goes to the shadowing field. */
  function OAuth2Step(o: OAuth2, d: Directive): Partial<OAuth2> {
    var k := KeywordOf(d.name);
    if k.EndpointParamsKey? then
      var p := Fold(map[], d.block, PairStep);
      if p.err.Some? then Partial(o, p.err)
      else Partial(o.(Embedded := o.Embedded.(EndpointParams := p.value)), None)
    else if !OAuth2Field(k) then Partial(o, None)
    else if d.args == [] then Partial(o, Some(ArgErr(d.name)))
    else
      var v := d.args[0];
      if k.ClientIdKey? then Partial(o.(Embedded := o.Embedded.(ClientID := v)), None)
      else if k.ClientSecretKey? then Partial(o.(ClientSecret := v), None)
      else if k.ScopesKey? then Partial(o.(Embedded := o.Embedded.(Scopes := Scopes(d.args))), None)
      else Partial(o.(Embedded := o.Embedded.(TokenURL := v)), None)
  }

  /** The keys of a tls_config block that take an argument. */
  predicate TlsField(k: Keyword) {
    k.CaFileKey? || k.CertFileKey? || k.KeyFileKey? || k.ServerNameKey?
  }

  /** One line of a tls_config block; insecure_skip_verify is a flag. */
  function TlsStep(t: TLSConfig, d: Directive): Partial<TLSConfig> {
    var k := KeywordOf(d.name);
    if k.InsecureSkipVerifyKey? then Partial(t.(Embedded := t.Embedded.(InsecureSkipVerify := true)), None)
    else if !TlsField(k) then Partial(t, None)
    else if d.args == [] then Partial(t, Some(ArgErr(d.name)))
    else
      var v := d.args[0];
      if k.CaFileKey? then Partial(t.(Embedded := t.Embedded.(CAFile := v)), None)
      else if k.CertFileKey? then Partial(t.(Embedded := t.Embedded.(CertFile := v)), None)
      else if k.KeyFileKey? then Partial(t.(Embedded := t.Embedded.(KeyFile := v)), None)
      else Partial(t.(Embedded := t.Embedded.(ServerName := v)), None)
  }

  /** The keys of a backoff_config block; each takes an argument. */
  predicate BackoffField(k: Keyword) {
    k.MinPeriodKey? || k.MaxPeriodKey? || k.MaxRetriesKey?
  }

  /** One line of a backoff_config block, given that it has its argument. */
  function BackoffArgumentStep(b: BackoffSettings, k: Keyword, key: string, v: string): Partial<BackoffSettings>
    requires BackoffField(k)
  {
    if k.MinPeriodKey? then
      var p := DurationStep(b.MinPeriod, key, v);
      Partial(b.(MinPeriod := p.value), p.err)
    else if k.MaxPeriodKey? then
      var p := DurationStep(b.MaxPeriod, key, v);
      Partial(b.(MaxPeriod := p.value), p.err)
    else
      var p := IntStep(b.MaxRetries, key, v);
      Partial(b.(MaxRetries := p.value), p.err)
  }

  /** One line of a backoff_config block. */
  function BackoffStep(b: BackoffSettings, d: Directive): Partial<BackoffSettings> {
    var k := KeywordOf(d.name);
    if !BackoffField(k) then Partial(b, None)
    else if d.args == [] then Partial(b, Some(ArgErr(d.name)))
    else BackoffArgumentStep(b, k, d.name, d.args[0])
  }

  /** The top-level keys whose value is the argument text itself. */
  predicate TextArgument(k: Keyword) {
    k.UrlKey? || k.TenantIdKey? || k.BearerTokenKey? || k.BearerTokenFileKey? || k.ProxyUrlKey?
  }

  /** The top-level keys whose argument is a duration. */
  predicate DurationArgument(k: Keyword) {
    k.BatchWaitKey? || k.TimeoutKey?
  }

  /** The top-level keys whose argument is an integer. */
  predicate IntArgument(k: Keyword) {
    k.BatchSizeKey? || k.MaxStreamsKey? || k.MaxLineSizeKey?
  }

  /** The top-level keys whose line must carry an argument. */
  predicate TakesArgument(k: Keyword) {
    TextArgument(k) || DurationArgument(k) || IntArgument(k)
  }

  /** The top-level keys that open a block. */
  predicate OpensBlock(k: Keyword) {
    k.HeadersKey? || k.LabelsKey? || k.BasicAuthKey? || k.OAuth2Key? || k.TlsConfigKey? || k.BackoffConfigKey?
  }

  function TextStep(s: Settings, k: Keyword, v: string): Settings
    requires TextArgument(k)
  {
    if k.UrlKey? then s.(Url := v)
    else if k.TenantIdKey? then s.(TenantId := v)
    else if k.BearerTokenKey? then s.(BearerToken := v)
    else if k.BearerTokenFileKey? then s.(BearTokenFile := v)
    else s.(ProxyURL := v)
  }

  /** batchwait and timeout: the duration text is added onto the field. */
  function DurationArgumentStep(s: Settings, k: Keyword, key: string, v: string): Partial<Settings>
    requires DurationArgument(k)
  {
    if k.BatchWaitKey? then
      var p := DurationStep(s.BatchWait, key, v);
      Partial(s.(BatchWait := p.value), p.err)
    else
      var p := DurationStep(s.TimeOut, key, v);
      Partial(s.(TimeOut := p.value), p.err)
  }

  /** batchsize, max_streams and max_line_size: the parsed integer replaces the field. */
  function IntArgumentStep(s: Settings, k: Keyword, key: string, v: string): Partial<Settings>
    requires IntArgument(k)
  {
    if k.BatchSizeKey? then
      var p := IntStep(s.BatchSize, key, v);
      Partial(s.(BatchSize := p.value), p.err)
    else if k.MaxStreamsKey? then
      var p := IntStep(s.MaxStreams, key, v);
      Partial(s.(MaxStreams := p.value), p.err)
    else
      var p := IntStep(s.MaxLineSize, key, v);
      Partial(s.(MaxLineSize := p.value), p.err)
  }

  /** A top-level line that takes an argument, given that it has one. */
  function ArgumentStep(s: Settings, k: Keyword, key: string, v: string): Partial<Settings>
    requires TakesArgument(k)
  {
    if TextArgument(k) then Partial(TextStep(s, k, v), None)
    else if DurationArgument(k) then DurationArgumentStep(s, k, key, v)
    else IntArgumentStep(s, k, key, v)
  }

  /**
   * A top-level line that opens a block. headers and labels build a new map
   * that replaces the old one only when the whole block decoded;
   * basic_auth and oauth2 start again from an empty struct and keep what
   * they decoded before an error; tls_config and backoff_config decode into
   * the existing struct.
   */
  function BlockStep(s: Settings, k: Keyword, block: seq<Directive>): Partial<Settings>
    requires OpensBlock(k)
  {
    if k.HeadersKey? || k.LabelsKey? then
      var p := Fold(map[], block, PairStep);
      if p.err.Some? then Partial(s, p.err)
      else if k.HeadersKey? then Partial(s.(Headers := p.value), None)
      else Partial(s.(Labels := p.value), None)
    else if k.BasicAuthKey? then
      var p := Fold(EmptyBasicAuth, block, BasicAuthStep);
      Partial(s.(BasicAuth := Some(p.value)), p.err)
    else if k.OAuth2Key? then
      var p := Fold(EmptyOAuth2, block, OAuth2Step);
      Partial(s.(Oauth2 := Some(p.value)), p.err)
    else if k.TlsConfigKey? then
      var p := Fold(s.TlsConfig, block, TlsStep);
      Partial(s.(TlsConfig := p.value), p.err)
    else
      var p := Fold(s.Backoff, block, BackoffStep);
      Partial(s.(Backoff := p.value), p.err)
  }

  /** One top-level line of the writer's block; an unknown key is ignored. */
  function DirectiveStep(s: Settings, d: Directive): Partial<Settings> {
    var k := KeywordOf(d.name);
    if TakesArgument(k) then
      if d.args == [] then Partial(s, Some(ArgErr(d.name))) else ArgumentStep(s, k, d.name, d.args[0])
    else if OpensBlock(k) then BlockStep(s, k, d.block)
    else if k.DropRateLimitedBatchesKey? then Partial(s.(DropRateLimitedBatches := true), None)
    else if k.MaxLineSizeTruncateKey? then Partial(s.(MaxLineSizeTruncate := true), None)
    else Partial(s, None)
  }

  /**
   * UnmarshalCaddyfile on the writer's directive: its own name is the
   * token the leading NextArg consumes; its block is decoded line by line.
   */
  function Unmarshal(s: Settings, writer: Directive): Partial<Settings> {
    Fold(s, writer.block, DirectiveStep)
  }

  // ---- Validate ----

  datatype ValidateError =
    | UrlRequired      // "url is required"
    | UrlInvalid       // "url is invalid"
    | LabelsRequired   // "labels is nil, at least one label is required"
    | ProxyUrlInvalid  // "proxy_url is invalid"

  datatype Validated = Validated(settings: Settings, err: Option<ValidateError>)

  const ClientName := "caddy-logger-loki"
  const DefaultBatchWait := 1 * Second
  const DefaultBatchSize := 1048576
  const DefaultTimeOut := 10 * Second
  const DefaultMaxRetries := 10
  const DefaultMinPeriod := 500 * Millisecond
  const DefaultMaxPeriod := 5 * Minute

  /** A zero field takes its default; any other value, negative ones included, stays. */
  function OrDefault(v: int, default: int): (r: int)
    requires default != 0
    ensures r != 0
    ensures v != 0 ==> r == v
    ensures v == 0 ==> r == default
  {
    if v == 0 then default else v
  }

  /** The client configuration Validate assembles from the defaulted fields. */
  function Assemble(s: Settings): ClientConfig {
    ClientConfig(
      ClientName,
      s.Url,
      s.BatchWait,
      s.BatchSize,
      HTTPClientConfig(
        if s.BasicAuth.Some? then Some(ToPrometheusBasicAuth(s.BasicAuth.value)) else None,
        if s.Oauth2.Some? then Some(ToPrometheusOAuth2(s.Oauth2.value)) else None,
        s.BearerToken,
        s.BearTokenFile,
        ToPrometheusTLSConfig(s.TlsConfig),
        if s.ProxyURL != "" then Some(s.ProxyURL) else None),
      s.Headers,
      Backoff(s.Backoff.MinPeriod, s.Backoff.MaxPeriod, s.Backoff.MaxRetries),
      s.TimeOut,
      s.TenantId,
      s.DropRateLimitedBatches)
  }

  /** The batch and timeout defaults, the first ones Validate applies. */
  function BatchDefaults(s: Settings): Settings {
    s.(BatchWait := OrDefault(s.BatchWait, DefaultBatchWait),
       BatchSize := OrDefault(s.BatchSize, DefaultBatchSize),
       TimeOut := OrDefault(s.TimeOut, DefaultTimeOut))
  }

  /** The backoff defaults, applied once the proxy URL has been checked. */
  function BackoffDefaults(b: BackoffSettings): BackoffSettings {
    BackoffSettings(
      OrDefault(b.MinPeriod, DefaultMinPeriod),
      OrDefault(b.MaxPeriod, DefaultMaxPeriod),
      OrDefault(b.MaxRetries, DefaultMaxRetries))
  }

  /**
   * Validate, with url.Parse given as the predicate `parses` (true when
   * parsing succeeds). The URL and label checks come before any field is
   * touched; the batch and timeout defaults are applied before the proxy
   * check, the backoff defaults and the client configuration after it.
   */
  function Validation(s: Settings, parses: string -> bool): (r: Validated)
    ensures s.Url == "" ==> r == Validated(s, Some(UrlRequired))
    ensures s.Url != "" && !parses(s.Url) ==> r == Validated(s, Some(UrlInvalid))
    ensures s.Url != "" && parses(s.Url) && |s.Labels| == 0 ==> r == Validated(s, Some(LabelsRequired))
    ensures r.err.None? <==>
      s.Url != "" && parses(s.Url) && |s.Labels| != 0 && (s.ProxyURL == "" || parses(s.ProxyURL))
  {
    if s.Url == "" then Validated(s, Some(UrlRequired))
    else if !parses(s.Url) then Validated(s, Some(UrlInvalid))
    else if |s.Labels| == 0 then Validated(s, Some(LabelsRequired))
    else
      var d := BatchDefaults(s);
      if d.ProxyURL != "" && !parses(d.ProxyURL) then Validated(d, Some(ProxyUrlInvalid))
      else
        var e := d.(Backoff := BackoffDefaults(d.Backoff));
        Validated(e.(ClientConfig := Some(Assemble(e))), None)
  }
}
