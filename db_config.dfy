/** configs/db/__init__.py: the settings of the database connection and the SQLAlchemy URI
  * `DATABASE_URI` computes from them. */
module DbConfig {
  import opened Wrappers
  import opened Text
  import opened UrlQuote

  /** The settings `DATABASE_URI` reads. */
  datatype DbConfig = DbConfig(
    driver: string, host: string, port: int, username: string, password: string,
    database: string, charset: string, extras: string)

  /** The declared defaults. */
  function DefaultDbConfig(): DbConfig {
    DbConfig("", "", -1, "", "", "", "utf8mb4", "")
  }

  /** The extras before stripping: the charset is appended as `client_encoding` when set. */
  function RawExtras(c: DbConfig): string {
    if c.charset != "" then c.extras + "&client_encoding=" + c.charset else c.extras
  }

  /** The query built from raw extras: stripped of '&' at both ends, after a '?', or nothing. */
  function Query(raw: string): string {
    var e := Strip(raw, '&');
    if e != "" then "?" + e else ""
  }

  /** The query part of the URI. */
  function QueryPart(c: DbConfig): string {
    Query(RawExtras(c))
  }

  /** What follows the credentials: `host:port/database` and the query. */
  function Location(c: DbConfig): string {
    c.host + ":" + IntToString(c.port) + "/" + c.database + QueryPart(c)
  }

  /** `DATABASE_URI`. */
  function DatabaseUri(c: DbConfig): string {
    c.driver + "://" + QuotePlus(c.username) + ":" + QuotePlus(c.password) + "@" + Location(c)
  }

  /** The query is empty exactly when the raw extras are nothing but '&'. */
  lemma QueryEmptyIff(raw: string)
    ensures Query(raw) == "" <==> forall k :: 0 <= k < |raw| ==> raw[k] == '&'
  {
    StripEmptyIff(raw, '&');
  }

  /** A non-empty query is '?' followed by the raw extras without the '&'s around them, which
    * neither begins nor ends with '&'. */
  lemma QueryNonEmpty(raw: string)
    requires Query(raw) != ""
    ensures Query(raw) == "?" + Strip(raw, '&')
    ensures Query(raw)[1] != '&' && Query(raw)[|Query(raw)| - 1] != '&'
  {
    var e := Strip(raw, '&');
    StripEnds(raw, '&');
    assert ("?" + e)[1] == e[0] && ("?" + e)[|e|] == e[|e| - 1];
  }

  /** The charset is appended only when it is set. */
  lemma RawExtrasCases(c: DbConfig)
    ensures c.charset != "" ==> RawExtras(c) == c.extras + "&client_encoding=" + c.charset
    ensures c.charset == "" ==> RawExtras(c) == c.extras
  {
  }

  /** Extras that need no stripping, with a charset that does not end in '&', reach the query
    * whole: '?', the extras, then the encoding. */
  lemma QueryWithCharset(c: DbConfig)
    requires c.charset != "" && c.charset[|c.charset| - 1] != '&'
    requires c.extras != "" && c.extras[0] != '&'
    ensures QueryPart(c) == "?" + c.extras + "&client_encoding=" + c.charset
  {
    var raw := RawExtras(c);
    assert raw[0] == c.extras[0] && raw[|raw| - 1] == c.charset[|c.charset| - 1];
    StripNoop(raw, '&');
  }

  /** With empty extras the leading '&' goes and the query is just the encoding. */
  lemma QueryCharsetOnly(c: DbConfig)
    requires c.extras == "" && c.charset != "" && c.charset[|c.charset| - 1] != '&'
    ensures QueryPart(c) == "?client_encoding=" + c.charset
  {
    var tail := "client_encoding=" + c.charset;
    EncodingText(c.charset);
    assert RawExtras(c) == ['&'] + tail;
    StripLeading(tail, '&');
  }

  /** How the literal pieces of the encoding member join up. */
  lemma EncodingText(cs: string)
    requires cs != []
    ensures var tail := "client_encoding=" + cs;
      && "" + "&client_encoding=" + cs == ['&'] + tail
      && "?" + tail == "?client_encoding=" + cs
      && tail[0] == 'c' && tail[|tail| - 1] == cs[|cs| - 1]
  {
    assert "&client_encoding=" == ['&'] + "client_encoding=";
    assert "?client_encoding=" == "?" + "client_encoding=";
  }

  /** With the declared defaults the query is exactly "?client_encoding=utf8mb4". */
  lemma DefaultQuery()
    ensures QueryPart(DefaultDbConfig()) == "?client_encoding=utf8mb4"
  {
    QueryCharsetOnly(DefaultDbConfig());
  }

  /** With no charset and no extras there is no query at all. */
  lemma NoQuery(c: DbConfig)
    requires c.charset == "" && c.extras == ""
    ensures QueryPart(c) == ""
  {
  }

  lemma UriSplit(d: string, u: string, p: string, rest: string)
    ensures d + "://" + u + ":" + p + "@" + rest == (d + "://") + (u + [':'] + p + ['@'] + rest)
  {
  }

  /** Only the user name and password are escaped, and escaping keeps ':', '@' and '/' out of
    * them, so the first '@' after the scheme ends the credentials, the first ':' before it
    * separates them, and both decode back to the configured values. */
  lemma CredentialsRecoverable(c: DbConfig)
    ensures StartsWith(DatabaseUri(c), c.driver + "://")
    ensures Credentials(DatabaseUri(c)[|c.driver| + 3..]) == Some((c.username, c.password))
  {
    var u, p := QuotePlus(c.username), QuotePlus(c.password);
    var rest := Location(c);
    var authority := u + [':'] + p + ['@'] + rest;
    UriSplit(c.driver, u, p, rest);
    QuotePlusHasNoDelimiters(c.username);
    QuotePlusHasNoDelimiters(c.password);
    CredentialsSplit(u, p, rest);
    QuotePlusRoundTrip(c.username);
    QuotePlusRoundTrip(c.password);
  }
}
