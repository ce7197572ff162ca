/** component/halo/aduib_ai.py: the AduibAI API client (a base HTTP client with a bearer-token
  * step) and the process-wide instance `get_aduib_ai_client` builds on first use. */
module AduibAi {
  import opened Text
  import opened BaseHttp
  import opened BearerAuth

  /** The settings the client reads (configs/aduib_ai.py). */
  datatype AduibAiConfig = AduibAiConfig(serviceUrl: string, serviceToken: string, timeout: int)

  function DefaultAduibAiConfig(): AduibAiConfig {
    AduibAiConfig("https://aduib.ai", "", 300)
  }

  class AduibAiClient {
    const config: AduibAiConfig
    const http: BaseHttpClient
    var authenticated: bool

    ghost predicate Valid()
      reads this, http
    {
      http.Valid()
    }

    ghost function View(): AuthView
      reads this, http
    {
      AuthView(authenticated, http.headers)
    }

    /** A new client talks to the configured URL with the configured timeout and is not
      * authenticated. */
    constructor (cfg: AduibAiConfig, network: nat -> Outcome)
      ensures Valid() && fresh(http)
      ensures config == cfg && !authenticated
      ensures http.baseUrl == RStrip(cfg.serviceUrl, '/') && http.timeout == cfg.timeout
      ensures http.respond == network
      ensures http.headers == DefaultHeaders() && http.live.None?
      ensures http.sent == [] && http.sleptSeconds == 0
    {
      config := cfg;
      http := new BaseHttpClient(cfg.serviceUrl, cfg.timeout, network);
      authenticated := false;
    }

    method Authenticate()
      requires Valid()
      modifies this, http
      ensures Valid()
      ensures View() == BearerAuth.Authenticate(old(View()), config.serviceToken)
      ensures http.live.Some? == old(http.live).Some?
      ensures http.sent == old(http.sent) && http.sleptSeconds == old(http.sleptSeconds)
    {
      var token := config.serviceToken;
      if token != "" {
        http.SetAuthToken(token);
        authenticated := true;
      }
    }

    method EnsureAuthenticated()
      requires Valid()
      modifies this, http
      ensures Valid()
      ensures View() == BearerAuth.EnsureAuthenticated(old(View()), config.serviceToken)
      ensures http.live.Some? == old(http.live).Some?
      ensures http.sent == old(http.sent) && http.sleptSeconds == old(http.sleptSeconds)
    {
      if !authenticated {
        Authenticate();
      }
    }
  }

  /** The module-global `aduib_ai_client`, with the configuration and network it is built from. */
  class AduibAiGlobals {
    const config: AduibAiConfig
    const network: nat -> Outcome
    var aduibAiClient: AduibAiClient?

    ghost predicate Valid()
      reads this, if aduibAiClient != null then {aduibAiClient, aduibAiClient.http} else {}
    {
      aduibAiClient != null ==>
        aduibAiClient.Valid() && aduibAiClient.config == config && aduibAiClient.http.respond == network
    }

    constructor (cfg: AduibAiConfig, net: nat -> Outcome)
      ensures Valid() && config == cfg && network == net && aduibAiClient == null
    {
      config := cfg;
      network := net;
      aduibAiClient := null;
    }

    /** `get_aduib_ai_client()`: the first call builds, connects and authenticates the client; every
      * later call returns that same instance and changes nothing. */
    method GetAduibAiClient() returns (c: AduibAiClient)
      requires Valid()
      modifies this
      ensures Valid() && aduibAiClient == c && c.Valid()
      ensures old(aduibAiClient) != null ==> c == old(aduibAiClient)
      ensures old(aduibAiClient) == null ==>
        && fresh(c) && fresh(c.http) && c.config == config
        && c.http.live.Some? && c.http.sent == [] && c.http.sleptSeconds == 0
        && c.View() == BearerAuth.Authenticate(AuthView(false, DefaultHeaders()), config.serviceToken)
    {
      if aduibAiClient == null {
        c := new AduibAiClient(config, network);
        c.http.Connect();
        c.Authenticate();
        aduibAiClient := c;
      } else {
        c := aduibAiClient;
      }
    }
  }
}
