/**
 * The secret un-shadowing of overwrite.go. The configuration structs of
 * the Prometheus client library hold secrets in a type that always
 * serialises as "<secret>", so each struct here embeds the library's
 * struct and shadows its secret with a plain-string field; converting
 * back copies the shadow into the library's field.
 *
 * Go's value receivers copy the struct, so a conversion leaves its
 * argument as it was: here every conversion is a function on values.
 */
module Overwrite {

  /** A secret carried as its plain text. */
  type Secret = string

  // ---- The library's structs, with the fields this module can set ----

  datatype PromBasicAuth = PromBasicAuth(
    Username: string,
    UsernameFile: string,
    Password: Secret,
    PasswordFile: string)

  datatype PromTLSConfig = PromTLSConfig(
    CAFile: string,
    CertFile: string,
    KeyFile: string,
    Key: Secret,
    ServerName: string,
    InsecureSkipVerify: bool)

  datatype PromOAuth2 = PromOAuth2(
    ClientID: string,
    ClientSecret: Secret,
    Scopes: seq<string>,
    TokenURL: string,
    EndpointParams: map<string, string>,
    TLSConfig: PromTLSConfig)

  // ---- The shadowing structs: the embedded struct and the plain secret ----

  datatype BasicAuth = BasicAuth(Embedded: PromBasicAuth, Password: Secret)

  datatype TLSConfig = TLSConfig(Embedded: PromTLSConfig, Key: Secret)

  datatype OAuth2 = OAuth2(Embedded: PromOAuth2, TlsConfig: TLSConfig, ClientSecret: Secret)

  const EmptyPromBasicAuth := PromBasicAuth("", "", "", "")
  const EmptyPromTLSConfig := PromTLSConfig("", "", "", "", "", false)
  const EmptyPromOAuth2 := PromOAuth2("", "", [], "", map[], EmptyPromTLSConfig)

  /** The zero values, as `&BasicAuth{}`, `TLSConfig{}` and `&OAuth2{}` make them. */
  const EmptyBasicAuth := BasicAuth(EmptyPromBasicAuth, "")
  const EmptyTLSConfig := TLSConfig(EmptyPromTLSConfig, "")
  const EmptyOAuth2 := OAuth2(EmptyPromOAuth2, EmptyTLSConfig, "")

  /** The embedded struct with its password taken from the shadow; nothing else changes. */
  function ToPrometheusBasicAuth(b: BasicAuth): (r: PromBasicAuth)
    ensures r.Password == b.Password
    ensures r.Username == b.Embedded.Username && r.UsernameFile == b.Embedded.UsernameFile
    ensures r.PasswordFile == b.Embedded.PasswordFile
  {
    b.Embedded.(Password := b.Password)
  }

  /** The embedded struct with its key taken from the shadow; nothing else changes. */
  function ToPrometheusTLSConfig(t: TLSConfig): (r: PromTLSConfig)
    ensures r.Key == t.Key
    ensures r.CAFile == t.Embedded.CAFile && r.CertFile == t.Embedded.CertFile
    ensures r.KeyFile == t.Embedded.KeyFile && r.ServerName == t.Embedded.ServerName
    ensures r.InsecureSkipVerify == t.Embedded.InsecureSkipVerify
  {
    t.Embedded.(Key := t.Key)
  }

  /**
   * The embedded struct with its client secret taken from the shadow and
   * its TLS settings replaced by the conversion of the shadowing TlsConfig.
   */
  function ToPrometheusOAuth2(o: OAuth2): (r: PromOAuth2)
    ensures r.ClientSecret == o.ClientSecret
    ensures r.TLSConfig == ToPrometheusTLSConfig(o.TlsConfig)
    ensures r.ClientID == o.Embedded.ClientID && r.Scopes == o.Embedded.Scopes
    ensures r.TokenURL == o.Embedded.TokenURL && r.EndpointParams == o.Embedded.EndpointParams
  {
    o.Embedded.(ClientSecret := o.ClientSecret, TLSConfig := ToPrometheusTLSConfig(o.TlsConfig))
  }

  // ---- Shadowing a library struct, the inverse direction ----

  function ShadowBasicAuth(p: PromBasicAuth): BasicAuth {
    BasicAuth(p, p.Password)
  }

  function ShadowTLSConfig(p: PromTLSConfig): TLSConfig {
    TLSConfig(p, p.Key)
  }

  function ShadowOAuth2(p: PromOAuth2): OAuth2 {
    OAuth2(p, ShadowTLSConfig(p.TLSConfig), p.ClientSecret)
  }

  /** Shadowing a library struct and converting it back gives the same struct. */
  lemma BasicAuthRoundTrip(p: PromBasicAuth)
    ensures ToPrometheusBasicAuth(ShadowBasicAuth(p)) == p
  {
  }

  lemma TLSConfigRoundTrip(p: PromTLSConfig)
    ensures ToPrometheusTLSConfig(ShadowTLSConfig(p)) == p
  {
  }

  lemma OAuth2RoundTrip(p: PromOAuth2)
    ensures ToPrometheusOAuth2(ShadowOAuth2(p)) == p
  {
  }

  /**
   * The secret held in the embedded struct never reaches the result: the
   * shadow wins, even when it is empty and the embedded one is not.
   */
  lemma EmbeddedSecretsIgnored(b: BasicAuth, t: TLSConfig, o: OAuth2, s: Secret, s': Secret)
    ensures ToPrometheusBasicAuth(b.(Embedded := b.Embedded.(Password := s))) == ToPrometheusBasicAuth(b)
    ensures ToPrometheusTLSConfig(t.(Embedded := t.Embedded.(Key := s))) == ToPrometheusTLSConfig(t)
    ensures ToPrometheusOAuth2(o.(Embedded := o.Embedded.(ClientSecret := s, TLSConfig := o.Embedded.TLSConfig.(Key := s'))))
      == ToPrometheusOAuth2(o)
    ensures ToPrometheusOAuth2(o.(TlsConfig := o.TlsConfig.(Embedded := o.TlsConfig.Embedded.(Key := s'))))
      == ToPrometheusOAuth2(o)
  {
  }

  /** OAuth2's own embedded TLS settings are discarded in favour of the shadowing TlsConfig. */
  lemma OAuth2EmbeddedTLSReplaced(o: OAuth2, p: PromTLSConfig)
    ensures ToPrometheusOAuth2(o.(Embedded := o.Embedded.(TLSConfig := p))) == ToPrometheusOAuth2(o)
  {
  }
}
