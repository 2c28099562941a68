/**
 * LokiLog of main.go as an object: UnmarshalCaddyfile and Validate update
 * its fields in place, and are proved to do what LokiConfig.Unmarshal and
 * LokiConfig.Validation say of its Snapshot().
 */
module LokiModule {
  import opened Wrappers
  import opened Numeric
  import opened Duration
  import opened Overwrite
  import opened LokiConfig

  /** BackoffConfig: the retry schedule of the client. */
  class BackoffConfig {
    const MinPeriod: StrTimeDuration
    const MaxPeriod: StrTimeDuration
    var MaxRetries: int

    constructor ()
      ensures fresh(MinPeriod) && fresh(MaxPeriod) && MinPeriod != MaxPeriod
      ensures Value() == BackoffSettings(0, 0, 0)
    {
      MinPeriod := new StrTimeDuration();
      MaxPeriod := new StrTimeDuration();
      MaxRetries := 0;
    }

    function Value(): BackoffSettings
      reads this, MinPeriod, MaxPeriod
    {
      BackoffSettings(MinPeriod.T, MaxPeriod.T, MaxRetries)
    }

    /** One line of a backoff_config block, once its argument is there. */
    method ApplyArgument(k: Keyword, key: string, v: string) returns (err: Option<DecodeError>)
      requires MinPeriod != MaxPeriod && BackoffField(k)
      modifies this, MinPeriod`T, MaxPeriod`T
      ensures Partial(Value(), err) == BackoffArgumentStep(old(Value()), k, key, v)
    {
      err := None;
      if k.MinPeriodKey? {
        var e := MinPeriod.FromString(v);
        if e.Some? {
          err := Some(BadDuration(key, e.value));
        }
      } else if k.MaxPeriodKey? {
        var e := MaxPeriod.FromString(v);
        if e.Some? {
          err := Some(BadDuration(key, e.value));
        }
      } else {
        var r := Atoi(v);
        if r.Failure? {
          return Some(BadInt(key, r.error));
        }
        MaxRetries := r.value;
      }
    }

    /** One line of a backoff_config block: keys other than the three are skipped. */
    method ApplyLine(d: Directive) returns (err: Option<DecodeError>)
      requires MinPeriod != MaxPeriod
      modifies this, MinPeriod`T, MaxPeriod`T
      ensures Partial(Value(), err) == BackoffStep(old(Value()), d)
    {
      var k := KeywordOf(d.name);
      if !BackoffField(k) {
        return None;
      }
      if d.args == [] {
        return Some(ArgErr(d.name));
      }
      err := ApplyArgument(k, d.name, d.args[0]);
    }

    /** A backoff_config block, line by line; what was set before an error stays. */
    method Decode(block: seq<Directive>) returns (err: Option<DecodeError>)
      requires MinPeriod != MaxPeriod
      modifies this, MinPeriod`T, MaxPeriod`T
      ensures Partial(Value(), err) == Fold(old(Value()), block, BackoffStep)
    {
      err := None;
      var i := 0;
      while i < |block| && err.None?
        invariant 0 <= i <= |block|
        invariant Partial(Value(), err) == Fold(old(Value()), block[..i], BackoffStep)
      {
        FoldStep(old(Value()), block, i, BackoffStep);
        err := ApplyLine(block[i]);
        i := i + 1;
      }
      if err.Some? {
        FoldStopsAtError(old(Value()), block, i, BackoffStep);
      } else {
        assert block[..i] == block;
      }
    }

    /** The max_retries, min_period and max_period defaults of Validate. */
    method ApplyDefaults()
      requires MinPeriod != MaxPeriod
      modifies this, MinPeriod`T, MaxPeriod`T
      ensures Value() == BackoffDefaults(old(Value()))
    {
      if MaxRetries == 0 {
        MaxRetries := DefaultMaxRetries;
      }
      if MinPeriod.T == 0 {
        MinPeriod.T := DefaultMinPeriod;
      }
      if MaxPeriod.T == 0 {
        MaxPeriod.T := DefaultMaxPeriod;
      }
    }
  }

  class LokiLog {
    var Url: string
    var Headers: map<string, string>
    var TenantId: string
    const BatchWait: StrTimeDuration
    var BatchSize: int
    var BasicAuth: Option<Overwrite.BasicAuth>
    var Oauth2: Option<OAuth2>
    var BearerToken: string
    var BearTokenFile: string
    var ProxyURL: string
    var TlsConfig: TLSConfig
    const BackoffConfig: BackoffConfig
    var DropRateLimitedBatches: bool
    var Labels: map<string, string>
    const TimeOut: StrTimeDuration
    var clientConfig: Option<ClientConfig>
    var MaxStreams: int
    var MaxLineSize: int
    var MaxLineSizeTruncate: bool

    /** The objects a LokiLog is made of: itself and its duration and backoff structs. */
    function Repr(): set<object> {
      {this, BatchWait, TimeOut, BackoffConfig, BackoffConfig.MinPeriod, BackoffConfig.MaxPeriod}
    }

    /** The four durations are four different values, as Go's embedded structs are. */
    predicate Valid() {
      BatchWait != TimeOut && BackoffConfig.MinPeriod != BackoffConfig.MaxPeriod &&
      BatchWait != BackoffConfig.MinPeriod && BatchWait != BackoffConfig.MaxPeriod &&
      TimeOut != BackoffConfig.MinPeriod && TimeOut != BackoffConfig.MaxPeriod
    }

    /** The value of every field. */
    function Snapshot(): Settings
      reads this, BatchWait, TimeOut, BackoffConfig, BackoffConfig.MinPeriod, BackoffConfig.MaxPeriod
    {
      Settings(Url, Headers, TenantId, BatchWait.T, BatchSize, BasicAuth, Oauth2, BearerToken,
        BearTokenFile, ProxyURL, TlsConfig, BackoffConfig.Value(), DropRateLimitedBatches, Labels,
        TimeOut.T, clientConfig, MaxStreams, MaxLineSize, MaxLineSizeTruncate)
    }

    /** new(LokiLog): every field at its zero value. */
    constructor ()
      ensures Valid() && fresh(Repr())
      ensures Snapshot() == ZeroSettings
    {
      Url := "";
      Headers := map[];
      TenantId := "";
      BatchWait := new StrTimeDuration();
      BatchSize := 0;
      BasicAuth := None;
      Oauth2 := None;
      BearerToken := "";
      BearTokenFile := "";
      ProxyURL := "";
      TlsConfig := EmptyTLSConfig;
      BackoffConfig := new BackoffConfig();
      DropRateLimitedBatches := false;
      Labels := map[];
      TimeOut := new StrTimeDuration();
      clientConfig := None;
      MaxStreams := 0;
      MaxLineSize := 0;
      MaxLineSizeTruncate := false;
    }

    /**
     * UnmarshalCaddyfile: the lines of the writer's block in order; the
     * first error is returned at once, with what was decoded before it
     * (and by the failing line itself) left in place.
     */
    method UnmarshalCaddyfile(writer: Directive) returns (err: Option<DecodeError>)
      requires Valid()
      modifies this, BatchWait`T, TimeOut`T, BackoffConfig, BackoffConfig.MinPeriod`T, BackoffConfig.MaxPeriod`T
      ensures Partial(Snapshot(), err) == Unmarshal(old(Snapshot()), writer)
    {
      var block := writer.block;
      var i := 0;
      while i < |block|
        invariant 0 <= i <= |block|
        invariant Partial(Snapshot(), None) == Fold(old(Snapshot()), block[..i], DirectiveStep)
      {
        FoldStep(old(Snapshot()), block, i, DirectiveStep);
        err := ApplyDirective(block[i]);
        if err.Some? {
          FoldStopsAtError(old(Snapshot()), block, i + 1, DirectiveStep);
          return;
        }
        i := i + 1;
      }
      assert block[..i] == block;
      return None;
    }

    /** One line of the writer's block: the `switch d.Val()` of UnmarshalCaddyfile. */
    method ApplyDirective(d: Directive) returns (err: Option<DecodeError>)
      requires Valid()
      modifies this, BatchWait`T, TimeOut`T, BackoffConfig, BackoffConfig.MinPeriod`T, BackoffConfig.MaxPeriod`T
      ensures Partial(Snapshot(), err) == DirectiveStep(old(Snapshot()), d)
    {
      err := None;
      var k := KeywordOf(d.name);
      if TakesArgument(k) {
        if d.args == [] {
          return Some(ArgErr(d.name));
        }
        err := ApplyArgument(k, d.name, d.args[0]);
      } else if OpensBlock(k) {
        err := ApplyBlock(k, d.block);
      } else if k.DropRateLimitedBatchesKey? {
        DropRateLimitedBatches := true;
      } else if k.MaxLineSizeTruncateKey? {
        MaxLineSizeTruncate := true;
      }
    }

    /** A top-level line that opens a block. */
    method ApplyBlock(k: Keyword, block: seq<Directive>) returns (err: Option<DecodeError>)
      requires Valid() && OpensBlock(k)
      modifies this, BackoffConfig, BackoffConfig.MinPeriod`T, BackoffConfig.MaxPeriod`T
      ensures Partial(Snapshot(), err) == BlockStep(old(Snapshot()), k, block)
    {
      if k.HeadersKey? || k.LabelsKey? {
        var m;
        m, err := DecodePairs(block);
        if err.Some? {
          return;
        }
        if k.HeadersKey? {
          Headers := m;
        } else {
          Labels := m;
        }
      } else if k.BasicAuthKey? {
        err := DecodeBasicAuth(block);
      } else if k.OAuth2Key? {
        err := DecodeOAuth2(block);
      } else if k.TlsConfigKey? {
        err := DecodeTlsConfig(block);
      } else {
        err := DecodeBackoffConfig(block);
      }
    }

    /** A top-level line whose key takes an argument, once the argument is there. */
    method ApplyArgument(k: Keyword, key: string, v: string) returns (err: Option<DecodeError>)
      requires Valid() && TakesArgument(k)
      modifies this, BatchWait`T, TimeOut`T
      ensures Partial(Snapshot(), err) == ArgumentStep(old(Snapshot()), k, key, v)
    {
      err := None;
      if TextArgument(k) {
        ApplyText(k, v);
      } else if DurationArgument(k) {
        err := ApplyDuration(k, key, v);
      } else {
        err := ApplyInt(k, key, v);
      }
    }

    /** batchwait and timeout: FromString on the field's StrTimeDuration. */
    method ApplyDuration(k: Keyword, key: string, v: string) returns (err: Option<DecodeError>)
      requires Valid() && DurationArgument(k)
      modifies BatchWait`T, TimeOut`T
      ensures Partial(Snapshot(), err) == DurationArgumentStep(old(Snapshot()), k, key, v)
    {
      var e;
      if k.BatchWaitKey? {
        e := BatchWait.FromString(v);
      } else {
        e := TimeOut.FromString(v);
      }
      err := if e.Some? then Some(BadDuration(key, e.value)) else None;
    }

    /** batchsize, max_streams and max_line_size: strconv.Atoi, stored only when it succeeds. */
    method ApplyInt(k: Keyword, key: string, v: string) returns (err: Option<DecodeError>)
      requires IntArgument(k)
      modifies this
      ensures Partial(Snapshot(), err) == IntArgumentStep(old(Snapshot()), k, key, v)
    {
      var r := Atoi(v);
      if r.Failure? {
        return Some(BadInt(key, r.error));
      }
      if k.BatchSizeKey? {
        BatchSize := r.value;
      } else if k.MaxStreamsKey? {
        MaxStreams := r.value;
      } else {
        MaxLineSize := r.value;
      }
      return None;
    }

    /** url, tenant_id, bearer_token, bearer_token_file and proxy_url: the argument is stored as it is. */
    method ApplyText(k: Keyword, v: string)
      requires TextArgument(k)
      modifies this
      ensures Snapshot() == TextStep(old(Snapshot()), k, v)
    {
      if k.UrlKey? {
        Url := v;
      } else if k.TenantIdKey? {
        TenantId := v;
      } else if k.BearerTokenKey? {
        BearerToken := v;
      } else if k.BearerTokenFileKey? {
        BearTokenFile := v;
      } else {
        ProxyURL := v;
      }
    }

    /** basic_auth: a fresh struct, filled line by line; what was set before an error stays. */
    method DecodeBasicAuth(block: seq<Directive>) returns (err: Option<DecodeError>)
      modifies this
      ensures var p := Fold(EmptyBasicAuth, block, BasicAuthStep);
        Snapshot() == old(Snapshot()).(BasicAuth := Some(p.value)) && err == p.err
    {
      var b;
      b, err := DecodeBasicAuthBlock(block);
      BasicAuth := Some(b);
    }

    /** oauth2: a fresh struct, filled line by line; what was set before an error stays. */
    method DecodeOAuth2(block: seq<Directive>) returns (err: Option<DecodeError>)
      modifies this
      ensures var p := Fold(EmptyOAuth2, block, OAuth2Step);
        Snapshot() == old(Snapshot()).(Oauth2 := Some(p.value)) && err == p.err
    {
      var o;
      o, err := DecodeOAuth2Block(block);
      Oauth2 := Some(o);
    }

    /** tls_config: decoded into the existing struct. */
    method DecodeTlsConfig(block: seq<Directive>) returns (err: Option<DecodeError>)
      modifies this
      ensures var p := Fold(old(TlsConfig), block, TlsStep);
        Snapshot() == old(Snapshot()).(TlsConfig := p.value) && err == p.err
    {
      var t;
      t, err := DecodeTlsBlock(TlsConfig, block);
      TlsConfig := t;
    }

    /** backoff_config: decoded into the existing struct; durations add up. */
    method DecodeBackoffConfig(block: seq<Directive>) returns (err: Option<DecodeError>)
      requires Valid()
      modifies BackoffConfig, BackoffConfig.MinPeriod`T, BackoffConfig.MaxPeriod`T
      ensures var p := Fold(old(BackoffConfig.Value()), block, BackoffStep);
        Snapshot() == old(Snapshot()).(Backoff := p.value) && err == p.err
    {
      err := BackoffConfig.Decode(block);
    }

    /**
     * Validate, with url.Parse given as `parses`: checks in order, fills
     * zero fields with defaults and assigns clientConfig.
     */
    method Validate(parses: string -> bool) returns (err: Option<ValidateError>)
      requires Valid()
      modifies this, BatchWait`T, TimeOut`T, BackoffConfig, BackoffConfig.MinPeriod`T, BackoffConfig.MaxPeriod`T
      ensures Validated(Snapshot(), err) == Validation(old(Snapshot()), parses)
    {
      if Url == "" {
        return Some(UrlRequired);
      }
      if !parses(Url) {
        return Some(UrlInvalid);
      }
      if |Labels| == 0 {
        return Some(LabelsRequired);
      }
      ApplyBatchDefaults();
      var proxyURL: Option<string> := None;
      if ProxyURL != "" {
        if !parses(ProxyURL) {
          return Some(ProxyUrlInvalid);
        }
        proxyURL := Some(ProxyURL);
      }
      BackoffConfig.ApplyDefaults();
      var c := NewClientConfig(proxyURL);
      clientConfig := Some(c);
      return None;
    }

    /** The batchwait, batchsize and timeout defaults. */
    method ApplyBatchDefaults()
      requires Valid()
      modifies this, BatchWait`T, TimeOut`T
      ensures Snapshot() == BatchDefaults(old(Snapshot()))
    {
      if BatchWait.T == 0 {
        BatchWait.T := DefaultBatchWait;
      }
      if BatchSize == 0 {
        BatchSize := DefaultBatchSize;
      }
      if TimeOut.T == 0 {
        TimeOut.T := DefaultTimeOut;
      }
    }

    /** The client configuration built from the fields, with the proxy URL already parsed. */
    method NewClientConfig(proxyURL: Option<string>) returns (c: ClientConfig)
      requires proxyURL == if ProxyURL != "" then Some(ProxyURL) else None
      ensures c == Assemble(Snapshot())
    {
      var backoffConfig := Backoff(BackoffConfig.MinPeriod.TimeDuration(), BackoffConfig.MaxPeriod.TimeDuration(),
        BackoffConfig.MaxRetries);
      var basicAuth: Option<PromBasicAuth> := None;
      if BasicAuth.Some? {
        basicAuth := Some(ToPrometheusBasicAuth(BasicAuth.value));
      }
      var oauth2: Option<PromOAuth2> := None;
      if Oauth2.Some? {
        oauth2 := Some(ToPrometheusOAuth2(Oauth2.value));
      }
      c := ClientConfig(
        ClientName,
        Url,
        BatchWait.TimeDuration(),
        BatchSize,
        HTTPClientConfig(basicAuth, oauth2, BearerToken, BearTokenFile, ToPrometheusTLSConfig(TlsConfig), proxyURL),
        Headers,
        backoffConfig,
        TimeOut.TimeDuration(),
        TenantId,
        DropRateLimitedBatches);
    }

    /** WriterKey: "loki_log_" followed by the URL, so the URL can be read back from the key. */
    function WriterKey(): (k: string)
      reads this
      ensures |k| == 9 + |Url| && k[..9] == "loki_log_" && k[9..] == Url
    {
      "loki_log_" + Url
    }
  }

  /** headers, labels and endpoint_params: a new map filled from the block's lines. */
  method DecodePairs(block: seq<Directive>) returns (m: map<string, string>, err: Option<DecodeError>)
    ensures Partial(m, err) == Fold(map[], block, PairStep)
  {
    m := map[];
    var i := 0;
    while i < |block|
      invariant 0 <= i <= |block|
      invariant Partial(m, None) == Fold(map[], block[..i], PairStep)
    {
      FoldStep(map[], block, i, PairStep);
      var key := block[i].name;
      if block[i].args == [] {
        FoldStopsAtError(map[], block, i + 1, PairStep);
        return m, Some(ArgErr(key));
      }
      m := m[key := block[i].args[0]];
      i := i + 1;
    }
    assert block[..i] == block;
    return m, None;
  }

  /** The scopes line: `make([]string, 2)`, then every argument after the first appended. */
  method ScopesOf(args: seq<string>) returns (scopes: seq<string>)
    requires args != []
    ensures scopes == Scopes(args)
  {
    scopes := ["", ""];
    var j := 1;
    while j < |args|
      invariant 1 <= j <= |args|
      invariant scopes == ["", ""] + args[1..j]
    {
      scopes := scopes + [args[j]];
      j := j + 1;
    }
    assert args[1..j] == args[1..];
  }

  /** basic_auth: the `switch d.Val()` over the block's lines, starting from an empty struct. */
  method DecodeBasicAuthBlock(block: seq<Directive>) returns (b: BasicAuth, err: Option<DecodeError>)
    ensures Partial(b, err) == Fold(EmptyBasicAuth, block, BasicAuthStep)
  {
    b, err := EmptyBasicAuth, None;
    var i := 0;
    while i < |block| && err.None?
      invariant 0 <= i <= |block|
      invariant Partial(b, err) == Fold(EmptyBasicAuth, block[..i], BasicAuthStep)
    {
      FoldStep(EmptyBasicAuth, block, i, BasicAuthStep);
      var d := block[i];
      var k := KeywordOf(d.name);
      if BasicAuthField(k) {
        if d.args == [] {
          err := Some(ArgErr(d.name));
        } else if k.UsernameKey? {
          b := b.(Embedded := b.Embedded.(Username := d.args[0]));
        } else if k.UsernameFileKey? {
          b := b.(Embedded := b.Embedded.(UsernameFile := d.args[0]));
        } else if k.PasswordKey? {
          b := b.(Password := d.args[0]);
        } else {
          b := b.(Embedded := b.Embedded.(PasswordFile := d.args[0]));
        }
      }
      i := i + 1;
    }
    if err.Some? {
      FoldStopsAtError(EmptyBasicAuth, block, i, BasicAuthStep);
    } else {
      assert block[..i] == block;
    }
  }

  /** oauth2: the block's lines in turn, starting from an empty struct. */
  method DecodeOAuth2Block(block: seq<Directive>) returns (o: OAuth2, err: Option<DecodeError>)
    ensures Partial(o, err) == Fold(EmptyOAuth2, block, OAuth2Step)
  {
    o, err := EmptyOAuth2, None;
    var i := 0;
    while i < |block| && err.None?
      invariant 0 <= i <= |block|
      invariant Partial(o, err) == Fold(EmptyOAuth2, block[..i], OAuth2Step)
    {
      FoldStep(EmptyOAuth2, block, i, OAuth2Step);
      o, err := OAuth2Line(o, block[i]);
      i := i + 1;
    }
    if err.Some? {
      FoldStopsAtError(EmptyOAuth2, block, i, OAuth2Step);
    } else {
      assert block[..i] == block;
    }
  }

  /** One line of an oauth2 block: the `switch d.Val()` inside the oauth2 case. */
  method OAuth2Line(o: OAuth2, d: Directive) returns (r: OAuth2, err: Option<DecodeError>)
    ensures Partial(r, err) == OAuth2Step(o, d)
  {
    r, err := o, None;
    var k := KeywordOf(d.name);
    if k.EndpointParamsKey? {
      var m, e := DecodePairs(d.block);
      if e.Some? {
        return o, e;
      }
      r := o.(Embedded := o.Embedded.(EndpointParams := m));
    } else if OAuth2Field(k) {
      if d.args == [] {
        return o, Some(ArgErr(d.name));
      }
      if k.ClientIdKey? {
        r := o.(Embedded := o.Embedded.(ClientID := d.args[0]));
      } else if k.ClientSecretKey? {
        r := o.(ClientSecret := d.args[0]);
      } else if k.ScopesKey? {
        var scopes := ScopesOf(d.args);
        r := o.(Embedded := o.Embedded.(Scopes := scopes));
      } else {
        r := o.(Embedded := o.Embedded.(TokenURL := d.args[0]));
      }
    }
  }

  /** tls_config: the `switch d.Val()` over the block's lines, starting from the current settings. */
  method DecodeTlsBlock(init: TLSConfig, block: seq<Directive>) returns (t: TLSConfig, err: Option<DecodeError>)
    ensures Partial(t, err) == Fold(init, block, TlsStep)
  {
    t, err := init, None;
    var i := 0;
    while i < |block| && err.None?
      invariant 0 <= i <= |block|
      invariant Partial(t, err) == Fold(init, block[..i], TlsStep)
    {
      FoldStep(init, block, i, TlsStep);
      var d := block[i];
      var k := KeywordOf(d.name);
      if k.InsecureSkipVerifyKey? {
        t := t.(Embedded := t.Embedded.(InsecureSkipVerify := true));
      } else if TlsField(k) {
        if d.args == [] {
          err := Some(ArgErr(d.name));
        } else if k.CaFileKey? {
          t := t.(Embedded := t.Embedded.(CAFile := d.args[0]));
        } else if k.CertFileKey? {
          t := t.(Embedded := t.Embedded.(CertFile := d.args[0]));
        } else if k.KeyFileKey? {
          t := t.(Embedded := t.Embedded.(KeyFile := d.args[0]));
        } else {
          t := t.(Embedded := t.Embedded.(ServerName := d.args[0]));
        }
      }
      i := i + 1;
    }
    if err.Some? {
      FoldStopsAtError(init, block, i, TlsStep);
    } else {
      assert block[..i] == block;
    }
  }
}
