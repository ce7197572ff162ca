/** celery_app.py: the Redis broker URL the Celery app is created with, built from the optional
  * Redis credentials unless the environment names a broker. */
module CeleryApp {
  import opened Wrappers
  import opened UrlQuote

  /** The settings read; a credential is None when it is not configured. `port` is the port as
    * an f-string renders it. */
  datatype RedisConfig = RedisConfig(username: Option<string>, password: Option<string>, host: string, port: string)

  /** `quote_plus(v) if v else ""`: a missing or empty credential encodes to nothing. */
  function Encoded(cred: Option<string>): string {
    if cred.Some? && cred.value != "" then QuotePlus(cred.value) else ""
  }

  /** `auth_part`: "user:pass@", ":pass@" without a user name, otherwise nothing. */
  function AuthPart(userEnc: string, passEnc: string): string {
    if userEnc != "" && passEnc != "" then userEnc + ":" + passEnc + "@"
    else if passEnc != "" then ":" + passEnc + "@"
    else ""
  }

  function ConfigAuthPart(cfg: RedisConfig): string {
    AuthPart(Encoded(cfg.username), Encoded(cfg.password))
  }

  /** The broker URL built from the settings. */
  function DefaultBrokerUrl(cfg: RedisConfig): string {
    "redis://" + ConfigAuthPart(cfg) + cfg.host + ":" + cfg.port + "/0"
  }

  /** `BROKER_URL`: `CELERY_BROKER_URL` when the environment sets it, even to "". */
  function BrokerUrl(env: Option<string>, cfg: RedisConfig): string {
    if env.Some? then env.value else DefaultBrokerUrl(cfg)
  }

  predicate Given(cred: Option<string>) {
    cred.Some? && cred.value != ""
  }

  /** A credential encodes to nothing exactly when it is missing or empty. */
  lemma EncodedEmptyIff(cred: Option<string>)
    ensures Encoded(cred) == "" <==> !Given(cred)
  {
    if cred.Some? {
      QuotePlusEmptyIff(cred.value);
    }
  }

  /** The auth part, case by case over which credentials are configured: a user name without a
    * password is dropped. */
  lemma AuthPartCases(cfg: RedisConfig)
    ensures Given(cfg.username) && Given(cfg.password) ==>
      ConfigAuthPart(cfg) == QuotePlus(cfg.username.value) + ":" + QuotePlus(cfg.password.value) + "@"
    ensures !Given(cfg.username) && Given(cfg.password) ==>
      ConfigAuthPart(cfg) == ":" + QuotePlus(cfg.password.value) + "@"
    ensures !Given(cfg.password) ==> ConfigAuthPart(cfg) == ""
  {
    EncodedEmptyIff(cfg.username);
    EncodedEmptyIff(cfg.password);
  }

  /** The environment's broker wins; otherwise the URL is built from the settings. */
  lemma BrokerUrlCases(env: Option<string>, cfg: RedisConfig)
    ensures env.Some? ==> BrokerUrl(env, cfg) == env.value
    ensures env.None? ==> BrokerUrl(env, cfg) == "redis://" + ConfigAuthPart(cfg) + cfg.host + ":" + cfg.port + "/0"
  {
  }

  /** The broker URL after its scheme: the auth part and the location. */
  lemma AfterScheme(cfg: RedisConfig)
    ensures DefaultBrokerUrl(cfg)[8..] == ConfigAuthPart(cfg) + (cfg.host + ":" + cfg.port + "/0")
  {
    SchemeSplit(ConfigAuthPart(cfg), cfg.host, cfg.port);
  }

  lemma SchemeSplit(a: string, host: string, port: string)
    ensures ("redis://" + a + host + ":" + port + "/0")[8..] == a + (host + ":" + port + "/0")
  {
    var y := a + (host + ":" + port + "/0");
    assert "redis://" + a + host + ":" + port + "/0" == "redis://" + y;
    assert ("redis://" + y)[8..] == y;
  }

  lemma FullAuthority(u: string, p: string, rest: string)
    ensures (u + ":" + p + "@") + rest == u + [':'] + p + ['@'] + rest
  {
  }

  lemma PasswordAuthority(p: string, rest: string)
    ensures (":" + p + "@") + rest == [] + [':'] + p + ['@'] + rest
  {
  }

  /** With both credentials the URL reads back as that user name and password. */
  lemma CredentialsBoth(cfg: RedisConfig)
    requires Given(cfg.username) && Given(cfg.password)
    ensures Credentials(DefaultBrokerUrl(cfg)[8..]) == Some((cfg.username.value, cfg.password.value))
  {
    var u, p := QuotePlus(cfg.username.value), QuotePlus(cfg.password.value);
    var rest := cfg.host + ":" + cfg.port + "/0";
    AfterScheme(cfg);
    AuthPartCases(cfg);
    FullAuthority(u, p, rest);
    QuotePlusHasNoDelimiters(cfg.username.value);
    QuotePlusHasNoDelimiters(cfg.password.value);
    CredentialsSplit(u, p, rest);
    QuotePlusRoundTrip(cfg.username.value);
    QuotePlusRoundTrip(cfg.password.value);
  }

  /** With a password only the URL reads back as an empty user name and that password. */
  lemma CredentialsPasswordOnly(cfg: RedisConfig)
    requires !Given(cfg.username) && Given(cfg.password)
    ensures Credentials(DefaultBrokerUrl(cfg)[8..]) == Some(("", cfg.password.value))
  {
    var p := QuotePlus(cfg.password.value);
    var rest := cfg.host + ":" + cfg.port + "/0";
    AfterScheme(cfg);
    AuthPartCases(cfg);
    PasswordAuthority(p, rest);
    QuotePlusHasNoDelimiters(cfg.password.value);
    CredentialsSplit([], p, rest);
    QuotePlusRoundTrip(cfg.password.value);
    assert UnquotePlus([]) == Some([]);
  }

  /** When a password is configured, the built URL carries the credentials in a form that reads
    * back: the user name (empty when none is configured) and the password. */
  lemma CredentialsRecoverable(cfg: RedisConfig)
    requires Given(cfg.password)
    ensures Credentials(DefaultBrokerUrl(cfg)[8..])
      == Some((if Given(cfg.username) then cfg.username.value else "", cfg.password.value))
  {
    if Given(cfg.username) {
      CredentialsBoth(cfg);
    } else {
      CredentialsPasswordOnly(cfg);
    }
  }
}
