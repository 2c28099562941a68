/**
 * Properties of Caddyfile decoding and of Validate: how blocks fold, which
 * lines are ignored, which blocks replace and which merge, and what
 * Validate fills in, checks and assembles.
 */
module ConfigProperties {
  import opened Wrappers
  import opened Numeric
  import opened Duration
  import opened Overwrite
  import opened LokiConfig

  // ---- Folding the lines of a block ----

  /** Decoding a block in two parts: the second part starts where the first one stopped. */
  lemma {:induction false} FoldConcat<T>(init: T, a: seq<Directive>, b: seq<Directive>, step: (T, Directive) -> Partial<T>)
    ensures Fold(init, a + b, step) ==
      var p := Fold(init, a, step); if p.err.Some? then p else Fold(p.value, b, step)
    decreases |b|
  {
    if b == [] {
      assert a + b == a;
    } else {
      var b' := b[..|b| - 1];
      FoldConcat(init, a, b', step);
      assert (a + b)[..|a + b| - 1] == a + b';
      assert (a + b)[|a + b| - 1] == b[|b| - 1];
      var p := Fold(init, a, step);
      if p.err.Some? {
        assert Fold(init, a + b', step) == p;
      }
    }
  }

  /** A line that changes nothing and never fails can be taken out of any block. */
  lemma {:induction false} FoldSkipsInert<T>(init: T, a: seq<Directive>, d: Directive, b: seq<Directive>,
                                             step: (T, Directive) -> Partial<T>)
    requires forall x: T :: step(x, d) == Partial(x, None)
    ensures Fold(init, a + [d] + b, step) == Fold(init, a + b, step)
    decreases |b|
  {
    if b == [] {
      assert (a + [d] + b)[..|a + [d] + b| - 1] == a;
      assert a + b == a;
    } else {
      var b' := b[..|b| - 1];
      FoldSkipsInert(init, a, d, b', step);
      assert (a + [d] + b)[..|a + [d] + b| - 1] == a + [d] + b';
      assert (a + [d] + b)[|a + [d] + b| - 1] == b[|b| - 1];
      assert (a + b)[..|a + b| - 1] == a + b';
      assert (a + b)[|a + b| - 1] == b[|b| - 1];
    }
  }

  // ---- headers, labels and endpoint_params ----

  /** No later line of the block has the key of line i. */
  predicate LastOfItsKey(block: seq<Directive>, i: nat)
    requires i < |block|
  {
    forall j :: i < j < |block| ==> block[j].name != block[i].name
  }

  /** A key/value block decodes exactly when every line has its value. */
  lemma {:induction false} PairsFoldOk(block: seq<Directive>)
    ensures Fold(map[], block, PairStep).err.None? <==> forall i :: 0 <= i < |block| ==> block[i].args != []
    decreases |block|
  {
    if block != [] {
      var n := |block| - 1;
      PairsFoldOk(block[..n]);
      assert forall i :: 0 <= i < n ==> block[..n][i] == block[i];
    }
  }

  /** The map holds exactly the keys of the lines. */
  ghost predicate PairsKeys(m: map<string, string>, block: seq<Directive>) {
    forall k :: k in m <==> exists i :: 0 <= i < |block| && block[i].name == k
  }

  /** Each key holds the value of its last line. */
  predicate PairsValues(m: map<string, string>, block: seq<Directive>) {
    forall i :: 0 <= i < |block| && LastOfItsKey(block, i) ==>
      block[i].args != [] && block[i].name in m && m[block[i].name] == block[i].args[0]
  }

  ghost predicate PairsAgree(m: map<string, string>, block: seq<Directive>) {
    PairsKeys(m, block) && PairsValues(m, block)
  }

  /** Adding the last line's key to the keys of the other lines. */
  lemma PairsKeysStep(q: map<string, string>, block: seq<Directive>)
    requires block != [] && block[|block| - 1].args != []
    requires PairsKeys(q, block[..|block| - 1])
    ensures PairsKeys(q[block[|block| - 1].name := block[|block| - 1].args[0]], block)
  {
    var n := |block| - 1;
    var init := block[..n];
    var d := block[n];
    var m := q[d.name := d.args[0]];
    forall k
      ensures k in m <==> exists i :: 0 <= i < |block| && block[i].name == k
    {
      if k in q {
        var i :| 0 <= i < |init| && init[i].name == k;
        assert block[i].name == k;
      }
      if k == d.name {
        assert block[n].name == k;
      }
      if exists i :: 0 <= i < |block| && block[i].name == k {
        var i :| 0 <= i < |block| && block[i].name == k;
        if i < n {
          assert init[i].name == k;
        }
      }
    }
  }

  /** Adding the last line's pair to the values of the other lines. */
  lemma PairsValuesStep(q: map<string, string>, block: seq<Directive>)
    requires block != [] && block[|block| - 1].args != []
    requires forall i :: 0 <= i < |block| ==> block[i].args != []
    requires PairsValues(q, block[..|block| - 1])
    ensures PairsValues(q[block[|block| - 1].name := block[|block| - 1].args[0]], block)
  {
    var n := |block| - 1;
    var init := block[..n];
    var m := q[block[n].name := block[n].args[0]];
    forall i | 0 <= i < |block| && LastOfItsKey(block, i)
      ensures block[i].args != [] && block[i].name in m && m[block[i].name] == block[i].args[0]
    {
      if i < n {
        assert init[i] == block[i];
        assert block[n].name != block[i].name;
        assert LastOfItsKey(init, i);
      }
    }
  }

  /**
   * A key/value block whose every line has its value decodes to the map
   * holding exactly the keys of its lines, each with the value of its
   * last line, so a later duplicate wins.
   */
  lemma {:induction false} PairsFold(block: seq<Directive>)
    requires forall i :: 0 <= i < |block| ==> block[i].args != []
    ensures Fold(map[], block, PairStep).err.None?
    ensures PairsAgree(Fold(map[], block, PairStep).value, block)
    decreases |block|
  {
    PairsFoldOk(block);
    if block != [] {
      var n := |block| - 1;
      assert forall i :: 0 <= i < n ==> block[..n][i] == block[i];
      PairsFold(block[..n]);
      PairsKeysStep(Fold(map[], block[..n], PairStep).value, block);
      PairsValuesStep(Fold(map[], block[..n], PairStep).value, block);
    }
  }

  /** The error of a key/value block names the key of its first line without a value. */
  lemma PairsFirstMissing(block: seq<Directive>, j: nat)
    requires j < |block| && block[j].args == []
    requires forall i :: 0 <= i < j ==> block[i].args != []
    ensures Fold(map[], block, PairStep).err == Some(ArgErr(block[j].name))
  {
    assert forall i :: 0 <= i < j ==> block[..j][i] == block[i];
    PairsFoldOk(block[..j]);
    FoldStep(map[], block, j, PairStep);
    FoldStopsAtError(map[], block, j + 1, PairStep);
  }

  /**
   * headers: a block that decodes replaces the whole map with the block's
   * pairs; one that fails leaves the writer as it was.
   */
  lemma HeadersReplaced(s: Settings, d: Directive)
    requires KeywordOf(d.name) == HeadersKey
    ensures var r := DirectiveStep(s, d);
      r.err.Some? ==> r.value == s
    ensures var r := DirectiveStep(s, d);
      r.err.None? <==> forall i :: 0 <= i < |d.block| ==> d.block[i].args != []
    ensures var r := DirectiveStep(s, d);
      r.err.None? ==> r.value == s.(Headers := r.value.Headers) && PairsAgree(r.value.Headers, d.block)
  {
    PairsFoldOk(d.block);
    if forall i :: 0 <= i < |d.block| ==> d.block[i].args != [] {
      PairsFold(d.block);
    }
  }

  // ---- Lines of the writer's block ----

  /**
   * A top-level key that takes an argument fails without one and changes
   * nothing; an integer that does not parse fails and changes nothing; a
   * text argument never fails; a duration with no match fails and changes
   * nothing.
   */
  lemma ArgumentLines(s: Settings, d: Directive)
    requires TakesArgument(KeywordOf(d.name))
    ensures d.args == [] ==> DirectiveStep(s, d) == Partial(s, Some(ArgErr(d.name)))
    ensures d.args != [] && TextArgument(KeywordOf(d.name)) ==> DirectiveStep(s, d).err.None?
    ensures d.args != [] && IntArgument(KeywordOf(d.name)) && Atoi(d.args[0]).Failure? ==>
      DirectiveStep(s, d) == Partial(s, Some(BadInt(d.name, Atoi(d.args[0]).error)))
    ensures d.args != [] && DurationArgument(KeywordOf(d.name)) && Matches(d.args[0]) == [] ==>
      DirectiveStep(s, d) == Partial(s, Some(BadDuration(d.name, NoMatch)))
  {
    if d.args != [] && DurationArgument(KeywordOf(d.name)) && Matches(d.args[0]) == [] {
      assert Accumulation(d.args[0]) == Parsed(0, Some(NoMatch));
      assert s.(BatchWait := s.BatchWait + 0) == s;
      assert s.(TimeOut := s.TimeOut + 0) == s;
    }
  }

  /** A line holding one of the flag keys sets that flag and changes nothing else. */
  lemma FlagLines(s: Settings, t: TLSConfig, d: Directive)
    ensures KeywordOf(d.name) == DropRateLimitedBatchesKey ==>
      DirectiveStep(s, d) == Partial(s.(DropRateLimitedBatches := true), None)
    ensures KeywordOf(d.name) == MaxLineSizeTruncateKey ==>
      DirectiveStep(s, d) == Partial(s.(MaxLineSizeTruncate := true), None)
    ensures KeywordOf(d.name) == InsecureSkipVerifyKey ==>
      TlsStep(t, d) == Partial(t.(Embedded := t.Embedded.(InsecureSkipVerify := true)), None)
  {
  }

  /** A line whose key no case of the switch names can be taken out of the writer's block. */
  lemma UnknownKeyIgnored(s: Settings, name: string, args: seq<string>, a: seq<Directive>, d: Directive, b: seq<Directive>)
    requires KeywordOf(d.name) == OtherKey
    ensures Unmarshal(s, Directive(name, args, a + [d] + b)) == Unmarshal(s, Directive(name, args, a + b))
  {
    forall x: Settings
      ensures DirectiveStep(x, d) == Partial(x, None)
    {
    }
    FoldSkipsInert(s, a, d, b, DirectiveStep);
  }

  /** Two lines of the same duration key add up instead of the second one replacing the first. */
  lemma DurationsAccumulate(s: Settings, w: Directive, a: string, b: string)
    requires w.block == [Directive("batchwait", [a], []), Directive("batchwait", [b], [])]
    requires Accumulation(a).err.None? && Accumulation(b).err.None?
    ensures Unmarshal(s, w) ==
      Partial(s.(BatchWait := s.BatchWait + Accumulation(a).added + Accumulation(b).added), None)
  {
    var d1 := w.block[0];
    var d2 := w.block[1];
    assert KeywordOf(d1.name) == BatchWaitKey;
    FoldConcat(s, [d1], [d2], DirectiveStep);
    assert [d1] + [d2] == w.block;
    assert Fold(s, [d1], DirectiveStep) == DirectiveStep(s, d1) by {
      assert [d1][..0] == [];
    }
    var s1 := DirectiveStep(s, d1).value;
    assert Fold(s1, [d2], DirectiveStep) == DirectiveStep(s1, d2) by {
      assert [d2][..0] == [];
    }
  }

  // ---- Blocks that replace and blocks that merge ----

  /** One line's fold is that line's step. */
  lemma FoldOne<T>(init: T, d: Directive, step: (T, Directive) -> Partial<T>)
    ensures Fold(init, [d], step) == step(init, d)
  {
    assert [d][..0] == [];
  }

  /**
   * A second basic_auth block replaces whatever the first one set: the
   * struct is built anew from the empty one.
   */
  lemma BasicAuthReplaced(s: Settings, name: string, args: seq<string>, d1: Directive, d2: Directive)
    requires KeywordOf(d1.name) == BasicAuthKey && KeywordOf(d2.name) == BasicAuthKey
    requires DirectiveStep(s, d1).err.None?
    ensures Unmarshal(s, Directive(name, args, [d1, d2])) == Unmarshal(s, Directive(name, args, [d2]))
  {
    FoldConcat(s, [d1], [d2], DirectiveStep);
    assert [d1] + [d2] == [d1, d2];
    FoldOne(s, d1, DirectiveStep);
    FoldOne(DirectiveStep(s, d1).value, d2, DirectiveStep);
    FoldOne(s, d2, DirectiveStep);
  }

  /** The same for oauth2. */
  lemma OAuth2Replaced(s: Settings, name: string, args: seq<string>, d1: Directive, d2: Directive)
    requires KeywordOf(d1.name) == OAuth2Key && KeywordOf(d2.name) == OAuth2Key
    requires DirectiveStep(s, d1).err.None?
    ensures Unmarshal(s, Directive(name, args, [d1, d2])) == Unmarshal(s, Directive(name, args, [d2]))
  {
    FoldConcat(s, [d1], [d2], DirectiveStep);
    assert [d1] + [d2] == [d1, d2];
    FoldOne(s, d1, DirectiveStep);
    FoldOne(DirectiveStep(s, d1).value, d2, DirectiveStep);
    FoldOne(s, d2, DirectiveStep);
  }

  /**
   * A second tls_config block continues where the first one stopped: two
   * blocks decode as one block holding the lines of both.
   */
  lemma TlsConfigMerged(s: Settings, name: string, args: seq<string>, d1: Directive, d2: Directive)
    requires KeywordOf(d1.name) == TlsConfigKey && KeywordOf(d2.name) == TlsConfigKey
    requires DirectiveStep(s, d1).err.None?
    ensures Unmarshal(s, Directive(name, args, [d1, d2])) ==
      Unmarshal(s, Directive(name, args, [Directive(d1.name, [], d1.block + d2.block)]))
  {
    FoldConcat(s, [d1], [d2], DirectiveStep);
    assert [d1] + [d2] == [d1, d2];
    FoldOne(s, d1, DirectiveStep);
    FoldOne(DirectiveStep(s, d1).value, d2, DirectiveStep);
    FoldOne(s, Directive(d1.name, [], d1.block + d2.block), DirectiveStep);
    FoldConcat(s.TlsConfig, d1.block, d2.block, TlsStep);
  }

  /** The same for backoff_config. */
  lemma BackoffConfigMerged(s: Settings, name: string, args: seq<string>, d1: Directive, d2: Directive)
    requires KeywordOf(d1.name) == BackoffConfigKey && KeywordOf(d2.name) == BackoffConfigKey
    requires DirectiveStep(s, d1).err.None?
    ensures Unmarshal(s, Directive(name, args, [d1, d2])) ==
      Unmarshal(s, Directive(name, args, [Directive(d1.name, [], d1.block + d2.block)]))
  {
    FoldConcat(s, [d1], [d2], DirectiveStep);
    assert [d1] + [d2] == [d1, d2];
    FoldOne(s, d1, DirectiveStep);
    FoldOne(DirectiveStep(s, d1).value, d2, DirectiveStep);
    FoldOne(s, Directive(d1.name, [], d1.block + d2.block), DirectiveStep);
    FoldConcat(s.Backoff, d1.block, d2.block, BackoffStep);
  }

  /** No line of the block has keyword k. */
  predicate Unmentioned(block: seq<Directive>, k: Keyword) {
    forall i :: 0 <= i < |block| ==> KeywordOf(block[i].name) != k
  }

  /** A block without keyword k, less its last line, is still without k; and so is that line. */
  lemma UnmentionedSplit(block: seq<Directive>, k: Keyword)
    requires block != [] && Unmentioned(block, k)
    ensures Unmentioned(block[..|block| - 1], k) && KeywordOf(block[|block| - 1].name) != k
  {
    var n := |block| - 1;
    forall i | 0 <= i < n
      ensures KeywordOf(block[..n][i].name) != k
    {
      assert block[..n][i] == block[i];
    }
  }

  /** One tls_config line changes at most the field it names. */
  lemma TlsStepKeeps(t: TLSConfig, d: Directive)
    ensures var r := TlsStep(t, d).value;
      r.Key == t.Key && r.Embedded.Key == t.Embedded.Key &&
      (KeywordOf(d.name) != CaFileKey ==> r.Embedded.CAFile == t.Embedded.CAFile) &&
      (KeywordOf(d.name) != CertFileKey ==> r.Embedded.CertFile == t.Embedded.CertFile) &&
      (KeywordOf(d.name) != KeyFileKey ==> r.Embedded.KeyFile == t.Embedded.KeyFile) &&
      (KeywordOf(d.name) != ServerNameKey ==> r.Embedded.ServerName == t.Embedded.ServerName) &&
      (KeywordOf(d.name) != InsecureSkipVerifyKey ==> r.Embedded.InsecureSkipVerify == t.Embedded.InsecureSkipVerify)
  {
  }

  /** The fields of a TLS configuration that tls_config lines set. */
  predicate TlsAgree(r: TLSConfig, t: TLSConfig, block: seq<Directive>) {
    r.Key == t.Key && r.Embedded.Key == t.Embedded.Key &&
    (Unmentioned(block, CaFileKey) ==> r.Embedded.CAFile == t.Embedded.CAFile) &&
    (Unmentioned(block, CertFileKey) ==> r.Embedded.CertFile == t.Embedded.CertFile) &&
    (Unmentioned(block, KeyFileKey) ==> r.Embedded.KeyFile == t.Embedded.KeyFile) &&
    (Unmentioned(block, ServerNameKey) ==> r.Embedded.ServerName == t.Embedded.ServerName) &&
    (Unmentioned(block, InsecureSkipVerifyKey) ==> r.Embedded.InsecureSkipVerify == t.Embedded.InsecureSkipVerify)
  }

  /** Agreement over all but the last line, and a last line that kept all but its own field. */
  lemma TlsAgreeStep(r: TLSConfig, q: TLSConfig, t: TLSConfig, block: seq<Directive>, k: Keyword)
    requires block != [] && k == KeywordOf(block[|block| - 1].name)
    requires TlsAgree(q, t, block[..|block| - 1])
    requires r.Key == q.Key && r.Embedded.Key == q.Embedded.Key
    requires k != CaFileKey ==> r.Embedded.CAFile == q.Embedded.CAFile
    requires k != CertFileKey ==> r.Embedded.CertFile == q.Embedded.CertFile
    requires k != KeyFileKey ==> r.Embedded.KeyFile == q.Embedded.KeyFile
    requires k != ServerNameKey ==> r.Embedded.ServerName == q.Embedded.ServerName
    requires k != InsecureSkipVerifyKey ==> r.Embedded.InsecureSkipVerify == q.Embedded.InsecureSkipVerify
    ensures TlsAgree(r, t, block)
  {
    if Unmentioned(block, CaFileKey) { UnmentionedSplit(block, CaFileKey); }
    if Unmentioned(block, CertFileKey) { UnmentionedSplit(block, CertFileKey); }
    if Unmentioned(block, KeyFileKey) { UnmentionedSplit(block, KeyFileKey); }
    if Unmentioned(block, ServerNameKey) { UnmentionedSplit(block, ServerNameKey); }
    if Unmentioned(block, InsecureSkipVerifyKey) { UnmentionedSplit(block, InsecureSkipVerifyKey); }
  }

  /**
   * tls_config keeps every field that no line of the block names; the
   * shadowing Key has no line at all, so it is always kept.
   */
  lemma {:induction false} TlsFieldsKept(t: TLSConfig, block: seq<Directive>)
    ensures TlsAgree(Fold(t, block, TlsStep).value, t, block)
    decreases |block|
  {
    if block != [] {
      var n := |block| - 1;
      TlsFieldsKept(t, block[..n]);
      var q := Fold(t, block[..n], TlsStep);
      var r := if q.err.Some? then q.value else TlsStep(q.value, block[n]).value;
      assert Fold(t, block, TlsStep).value == r;
      TlsStepKeeps(q.value, block[n]);
      TlsAgreeStep(r, q.value, t, block, KeywordOf(block[n].name));
    }
  }

  /** One backoff_config line changes at most the field it names. */
  lemma BackoffStepKeeps(b: BackoffSettings, d: Directive)
    ensures var r := BackoffStep(b, d).value;
      (KeywordOf(d.name) != MinPeriodKey ==> r.MinPeriod == b.MinPeriod) &&
      (KeywordOf(d.name) != MaxPeriodKey ==> r.MaxPeriod == b.MaxPeriod) &&
      (KeywordOf(d.name) != MaxRetriesKey ==> r.MaxRetries == b.MaxRetries)
  {
  }

  predicate BackoffAgree(r: BackoffSettings, b: BackoffSettings, block: seq<Directive>) {
    (Unmentioned(block, MinPeriodKey) ==> r.MinPeriod == b.MinPeriod) &&
    (Unmentioned(block, MaxPeriodKey) ==> r.MaxPeriod == b.MaxPeriod) &&
    (Unmentioned(block, MaxRetriesKey) ==> r.MaxRetries == b.MaxRetries)
  }

  lemma BackoffAgreeStep(r: BackoffSettings, q: BackoffSettings, b: BackoffSettings, block: seq<Directive>, k: Keyword)
    requires block != [] && k == KeywordOf(block[|block| - 1].name)
    requires BackoffAgree(q, b, block[..|block| - 1])
    requires k != MinPeriodKey ==> r.MinPeriod == q.MinPeriod
    requires k != MaxPeriodKey ==> r.MaxPeriod == q.MaxPeriod
    requires k != MaxRetriesKey ==> r.MaxRetries == q.MaxRetries
    ensures BackoffAgree(r, b, block)
  {
    if Unmentioned(block, MinPeriodKey) { UnmentionedSplit(block, MinPeriodKey); }
    if Unmentioned(block, MaxPeriodKey) { UnmentionedSplit(block, MaxPeriodKey); }
    if Unmentioned(block, MaxRetriesKey) { UnmentionedSplit(block, MaxRetriesKey); }
  }

  /** backoff_config keeps every field that no line of the block names. */
  lemma {:induction false} BackoffFieldsKept(b: BackoffSettings, block: seq<Directive>)
    ensures BackoffAgree(Fold(b, block, BackoffStep).value, b, block)
    decreases |block|
  {
    if block != [] {
      var n := |block| - 1;
      BackoffFieldsKept(b, block[..n]);
      var q := Fold(b, block[..n], BackoffStep);
      var r := if q.err.Some? then q.value else BackoffStep(q.value, block[n]).value;
      assert Fold(b, block, BackoffStep).value == r;
      BackoffStepKeeps(q.value, block[n]);
      BackoffAgreeStep(r, q.value, b, block, KeywordOf(block[n].name));
    }
  }

  /** `scopes a b c` gives two empty scopes followed by b and c. */
  lemma ScopesExample()
    ensures Scopes(["a", "b", "c"]) == ["", "", "b", "c"]
  {
  }

  // ---- Validate ----

  /** After a successful Validate each defaulted field holds its default exactly when it was zero. */
  lemma ValidationDefaults(s: Settings, parses: string -> bool)
    requires Validation(s, parses).err.None?
    ensures var v := Validation(s, parses).settings;
      (s.BatchWait == 0 ==> v.BatchWait == DefaultBatchWait) && (s.BatchWait != 0 ==> v.BatchWait == s.BatchWait) &&
      (s.BatchSize == 0 ==> v.BatchSize == DefaultBatchSize) && (s.BatchSize != 0 ==> v.BatchSize == s.BatchSize) &&
      (s.TimeOut == 0 ==> v.TimeOut == DefaultTimeOut) && (s.TimeOut != 0 ==> v.TimeOut == s.TimeOut) &&
      (s.Backoff.MinPeriod == 0 ==> v.Backoff.MinPeriod == DefaultMinPeriod) &&
      (s.Backoff.MinPeriod != 0 ==> v.Backoff.MinPeriod == s.Backoff.MinPeriod) &&
      (s.Backoff.MaxPeriod == 0 ==> v.Backoff.MaxPeriod == DefaultMaxPeriod) &&
      (s.Backoff.MaxPeriod != 0 ==> v.Backoff.MaxPeriod == s.Backoff.MaxPeriod) &&
      (s.Backoff.MaxRetries == 0 ==> v.Backoff.MaxRetries == DefaultMaxRetries) &&
      (s.Backoff.MaxRetries != 0 ==> v.Backoff.MaxRetries == s.Backoff.MaxRetries)
  {
  }

  /** A successful Validate leaves none of the six defaulted fields at zero. */
  lemma ValidatedNonZero(s: Settings, parses: string -> bool)
    requires Validation(s, parses).err.None?
    ensures var v := Validation(s, parses).settings;
      v.BatchWait != 0 && v.BatchSize != 0 && v.TimeOut != 0 &&
      v.Backoff.MinPeriod != 0 && v.Backoff.MaxPeriod != 0 && v.Backoff.MaxRetries != 0
  {
  }

  /** Validate changes the defaulted fields and clientConfig, and nothing else. */
  lemma ValidationChangesOnlyDefaults(s: Settings, parses: string -> bool)
    ensures var v := Validation(s, parses).settings;
      v.(BatchWait := s.BatchWait, BatchSize := s.BatchSize, TimeOut := s.TimeOut,
         Backoff := s.Backoff, ClientConfig := s.ClientConfig) == s
  {
  }

  /**
   * An unparsable proxy URL fails after the batch and timeout defaults
   * were applied, with the backoff fields and clientConfig untouched.
   */
  lemma ProxyFailure(s: Settings, parses: string -> bool)
    requires s.Url != "" && parses(s.Url) && |s.Labels| != 0
    requires s.ProxyURL != "" && !parses(s.ProxyURL)
    ensures Validation(s, parses) == Validated(BatchDefaults(s), Some(ProxyUrlInvalid))
    ensures var v := Validation(s, parses).settings;
      v.Backoff == s.Backoff && v.ClientConfig == s.ClientConfig &&
      v.BatchWait != 0 && v.BatchSize != 0 && v.TimeOut != 0
  {
  }

  /**
   * The client configuration of a successful Validate: the fixed name, the
   * URL, the defaulted values, the fields passed through, the secrets
   * taken from the shadowing fields, and nil auth blocks kept nil.
   */
  lemma ClientConfigContents(s: Settings, parses: string -> bool)
    requires Validation(s, parses).err.None?
    ensures var v := Validation(s, parses).settings;
      v.ClientConfig.Some? &&
      var c := v.ClientConfig.value;
      c.Name == ClientName && c.URL == s.Url &&
      c.BatchWait == v.BatchWait && c.BatchSize == v.BatchSize && c.Timeout == v.TimeOut &&
      c.BackoffConfig == Backoff(v.Backoff.MinPeriod, v.Backoff.MaxPeriod, v.Backoff.MaxRetries) &&
      c.Headers == s.Headers && c.TenantID == s.TenantId && c.DropRateLimitedBatches == s.DropRateLimitedBatches &&
      (c.Client.BasicAuth.None? <==> s.BasicAuth.None?) &&
      (s.BasicAuth.Some? ==> c.Client.BasicAuth == Some(ToPrometheusBasicAuth(s.BasicAuth.value))) &&
      (s.BasicAuth.Some? ==> c.Client.BasicAuth.value.Password == s.BasicAuth.value.Password) &&
      (c.Client.OAuth2.None? <==> s.Oauth2.None?) &&
      (s.Oauth2.Some? ==> c.Client.OAuth2 == Some(ToPrometheusOAuth2(s.Oauth2.value))) &&
      (s.Oauth2.Some? ==> c.Client.OAuth2.value.ClientSecret == s.Oauth2.value.ClientSecret) &&
      c.Client.TLSConfig == ToPrometheusTLSConfig(s.TlsConfig) &&
      c.Client.TLSConfig == s.TlsConfig.Embedded.(Key := s.TlsConfig.Key) &&
      c.Client.BearerToken == s.BearerToken && c.Client.BearerTokenFile == s.BearTokenFile &&
      (c.Client.ProxyURL.None? <==> s.ProxyURL == "") &&
      (s.ProxyURL != "" ==> c.Client.ProxyURL == Some(s.ProxyURL))
  {
  }

  /** Validating the outcome of a successful Validate once more gives the same outcome. */
  lemma ValidationIdempotent(s: Settings, parses: string -> bool)
    requires Validation(s, parses).err.None?
    ensures var r := Validation(s, parses); Validation(r.settings, parses) == r
  {
    var r := Validation(s, parses);
    var v := r.settings;
    var d := BatchDefaults(v);
    assert d == v;
    assert d.(Backoff := BackoffDefaults(d.Backoff)) == v;
    assert Assemble(v) == Assemble(v.(ClientConfig := s.ClientConfig));
  }

  // ---- End to end ----

  const ScenarioUrl := "http://example.com/loki/api/v1/push"

  /** `url <u>` and `labels { app svc }`: the configuration of the first end-to-end scenario. */
  const ScenarioA := Directive("loki", [], [
    Directive("url", [ScenarioUrl], []),
    Directive("labels", [], [Directive("app", ["svc"], [])])])

  /** The scenario decodes, and validates with every default applied. */
  lemma ScenarioADefaults(parses: string -> bool)
    requires parses(ScenarioUrl)
    ensures Unmarshal(ZeroSettings, ScenarioA).err.None?
    ensures var s := Unmarshal(ZeroSettings, ScenarioA).value;
      var r := Validation(s, parses);
      r.err.None? && r.settings.BatchWait == Second && r.settings.BatchSize == 1048576 &&
      r.settings.TimeOut == 10 * Second && r.settings.Backoff == BackoffSettings(500 * Millisecond, 5 * Minute, 10)
  {
    var url := ScenarioA.block[0];
    var labels := ScenarioA.block[1];
    assert KeywordOf(url.name) == UrlKey;
    assert KeywordOf(labels.name) == LabelsKey;
    FoldConcat(ZeroSettings, [url], [labels], DirectiveStep);
    assert [url] + [labels] == ScenarioA.block;
    FoldOne(ZeroSettings, url, DirectiveStep);
    var s1 := ZeroSettings.(Url := ScenarioUrl);
    FoldOne(s1, labels, DirectiveStep);
    FoldOne(map[], labels.block[0], PairStep);
    var s := Unmarshal(ZeroSettings, ScenarioA).value;
    assert s == s1.(Labels := map["app" := "svc"]);
    assert |s.Labels| == 1;
  }

  /** Without a labels block a configuration with a valid URL fails with the labels error, changing nothing. */
  lemma ScenarioBLabelsRequired(parses: string -> bool)
    requires parses(ScenarioUrl)
    ensures var s := Unmarshal(ZeroSettings, Directive("loki", [], [Directive("url", [ScenarioUrl], [])])).value;
      Validation(s, parses) == Validated(s, Some(LabelsRequired))
  {
    var url := Directive("url", [ScenarioUrl], []);
    assert KeywordOf(url.name) == UrlKey;
    FoldOne(ZeroSettings, url, DirectiveStep);
  }
}
