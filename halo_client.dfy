/** component/halo/halo_client.py: the Halo API client (a base HTTP client with a bearer-token
  * step) and the process-wide instance `get_halo_client` builds on first use. */
module Halo {
  import opened Text
  import opened BaseHttp
  import opened BearerAuth

  /** The settings the client reads (configs/halo/__init__.py). */
  datatype HaloConfig = HaloConfig(baseUrl: string, apiKey: string, timeout: int)

  function DefaultHaloConfig(): HaloConfig {
    HaloConfig("http://localhost:8080", "", 30)
  }

  class HaloClient {
    const config: HaloConfig
    const http: BaseHttpClient
    var authenticated: bool

    ghost predicate Valid()
      reads this, http
    {
      http.Valid()
    }

    ghost function View(): AuthView
      reads this, http
    {
      AuthView(authenticated, http.headers)
    }

    /** A new client talks to the configured URL with the configured timeout and is not
      * authenticated. */
    constructor (cfg: HaloConfig, network: nat -> Outcome)
      ensures Valid() && fresh(http)
      ensures config == cfg && !authenticated
      ensures http.baseUrl == RStrip(cfg.baseUrl, '/') && http.timeout == cfg.timeout
      ensures http.respond == network
      ensures http.headers == DefaultHeaders() && http.live.None?
      ensures http.sent == [] && http.sleptSeconds == 0
    {
      config := cfg;
      http := new BaseHttpClient(cfg.baseUrl, cfg.timeout, network);
      authenticated := false;
    }

    method Authenticate()
      requires Valid()
      modifies this, http
      ensures Valid()
      ensures View() == BearerAuth.Authenticate(old(View()), config.apiKey)
      ensures http.live.Some? == old(http.live).Some?
      ensures http.sent == old(http.sent) && http.sleptSeconds == old(http.sleptSeconds)
    {
      var token := config.apiKey;
      if token != "" {
        http.SetAuthToken(token);
        authenticated := true;
      }
    }

    method EnsureAuthenticated()
      requires Valid()
      modifies this, http
      ensures Valid()
      ensures View() == BearerAuth.EnsureAuthenticated(old(View()), config.apiKey)
      ensures http.live.Some? == old(http.live).Some?
      ensures http.sent == old(http.sent) && http.sleptSeconds == old(http.sleptSeconds)
    {
      if !authenticated {
        Authenticate();
      }
    }
  }

  /** The module-global `halo_client`, with the configuration and network it is built from. */
  class HaloGlobals {
    const config: HaloConfig
    const network: nat -> Outcome
    var haloClient: HaloClient?

    ghost predicate Valid()
      reads this, if haloClient != null then {haloClient, haloClient.http} else {}
    {
      haloClient != null ==>
        haloClient.Valid() && haloClient.config == config && haloClient.http.respond == network
    }

    constructor (cfg: HaloConfig, net: nat -> Outcome)
      ensures Valid() && config == cfg && network == net && haloClient == null
    {
      config := cfg;
      network := net;
      haloClient := null;
    }

    /** `get_halo_client()`: the first call builds, connects and authenticates the client; every
      * later call returns that same instance and changes nothing. */
    method GetHaloClient() returns (c: HaloClient)
      requires Valid()
      modifies this
      ensures Valid() && haloClient == c && c.Valid()
      ensures old(haloClient) != null ==> c == old(haloClient)
      ensures old(haloClient) == null ==>
        && fresh(c) && fresh(c.http) && c.config == config
        && c.http.live.Some? && c.http.sent == [] && c.http.sleptSeconds == 0
        && c.View() == BearerAuth.Authenticate(AuthView(false, DefaultHeaders()), config.apiKey)
    {
      if haloClient == null {
        c := new HaloClient(config, network);
        c.http.Connect();
        c.Authenticate();
        haloClient := c;
      } else {
        c := haloClient;
      }
    }
  }
}
