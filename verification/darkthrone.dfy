/**
 * The client session: the process-wide singleton (first `New` wins), the bearer token,
 * the authentication headers derived from it, and the reachability probe `Ping`.
 */
module DarkThrone {
  import opened Results
  import opened Values
  import opened Http
  import opened ApiRequests

  const BaseUrl := "https://api.darkthronereborn.com"
  const LoginEndpoint := "auth/login"
  const CurrentUserEndpoint := "auth/current-user"
  const PlayersListEndpoint := "auth/current-user/players"
  const AssumePlayerEndpoint := "auth/assume-player"
  const MinAttackTurns := 10

  const Accept := "Accept"
  const Authorization := "Authorization"
  const NotInitialized: Error := "DarkThroneApi instance is not initialized. Call New() first."

  /** The caller's configuration: only its logger is used. */
  datatype Config = Config(logger: Option<Logger>)

  /**
   * The headers of every authenticated call: Content-Type and Accept, both
   * "application/json", and "Authorization: Bearer <token>" exactly when a token is set.
   */
  function AuthHeaders(token: string): (h: map<string, string>)
    ensures ContentType in h && h[ContentType] == ApplicationJson
    ensures Accept in h && h[Accept] == ApplicationJson
    ensures Authorization in h <==> token != ""
    ensures Authorization in h ==> h[Authorization] == "Bearer " + token
    ensures forall k :: k in h ==> k == ContentType || k == Accept || k == Authorization
  {
    var base := map[ContentType := ApplicationJson, Accept := ApplicationJson];
    if token != "" then base[Authorization := "Bearer " + token] else base
  }

  /** The headers give the token back: two tokens with the same headers are the same token. */
  lemma AuthHeadersDetermineToken(t1: string, t2: string)
    requires AuthHeaders(t1) == AuthHeaders(t2)
    ensures t1 == t2
  {
    if t1 != "" {
      var h := AuthHeaders(t1);
      assert ("Bearer " + t1)[7..] == t1;
      assert ("Bearer " + t2)[7..] == t2;
      assert h[Authorization] == "Bearer " + t2;
    }
  }

  /** What every authenticated endpoint hands to the executor: the token's headers and the client's config. */
  function AuthedSpec(config: ApiRequestConfig, token: string, verb: string, endpoint: string, body: Value): RequestSpec
  {
    RequestSpec(verb, endpoint, Some(AuthHeaders(token)), body, Some(config))
  }

  /** Ping's verdict on what the transport gave back: success iff the status is in [200, 400). */
  function PingVerdict(reply: Reply): (err: Option<Error>)
    ensures err.None? <==> reply.Response? && 200 <= reply.statusCode < 400
    ensures reply.TransportError? ==> err == Some(reply.error)
    ensures reply.Response? && err.Some? ==> err.value == "ping failed with status: " + reply.status
  {
    match reply
    case TransportError(e) => Some(e)
    case Response(code, status, _) =>
      if code < 200 || code >= 400 then Some("ping failed with status: " + status) else None
  }

  /** DarkThroneApi: the client. Its configuration is fixed at creation; only the token changes. */
  class Client {
    const config: Config
    const apiConfig: ApiRequestConfig
    var token: string

    constructor (config: Config)
      ensures this.config == config
      ensures apiConfig == ApiRequestConfig(BaseUrl, config.logger)
      ensures token == ""
    {
      this.config := config;
      apiConfig := ApiRequestConfig(BaseUrl, config.logger);
      token := "";
    }

    /** `getAuthHeaders`: a fresh map on every call, built from the token alone; the client is not changed. */
    method GetAuthHeaders() returns (headers: HeaderMap)
      ensures fresh(headers)
      ensures headers.entries == AuthHeaders(token)
    {
      headers := new HeaderMap(map[ContentType := ApplicationJson, Accept := ApplicationJson]);
      if token != "" {
        headers.entries := headers.entries[Authorization := "Bearer " + token];
      }
    }

    /**
     * `Ping`: a HEAD request with no headers and no body to the base URL itself. `elapsed`
     * is the measured round-trip time, which is returned whenever the request was sent.
     */
    method Ping(wire: Network, elapsed: int) returns (latencyMs: int, err: Option<Error>)
      modifies wire
      ensures var url := apiConfig.baseURL;
        var head := Request("HEAD", url, map[], None);
        if wire.net.newRequestError("HEAD", url).Some? then
          latencyMs == 0 && err == wire.net.newRequestError("HEAD", url) && wire.sent == old(wire.sent)
        else
          && latencyMs == elapsed
          && wire.sent == old(wire.sent) + [head]
          && err == PingVerdict(wire.net.respond(|old(wire.sent)|, head))
    {
      var url := apiConfig.baseURL;
      var requestError := wire.net.newRequestError("HEAD", url);
      if requestError.Some? {
        return 0, requestError;
      }
      var reply := wire.Do(Request("HEAD", url, map[], None));
      latencyMs := elapsed;
      if reply.TransportError? {
        return latencyMs, Some(reply.error);
      }
      if reply.statusCode < 200 || reply.statusCode >= 400 {
        return latencyMs, Some("ping failed with status: " + reply.status);
      }
      return latencyMs, None;
    }
  }

  /**
   * An authenticated call as every endpoint in player.go and user.go makes it: fresh auth
   * headers, the client's config, then the executor.
   */
  method AuthedRequest(d: Client, verb: string, endpoint: string, body: Value, respType: ValueType, json: Json, wire: Network)
    returns (resp: Value, err: Option<Error>)
    modifies wire
    ensures var x := Execute(AuthedSpec(d.apiConfig, d.token, verb, endpoint, body), respType, json, wire.net, |old(wire.sent)|);
      resp == x.resp && err == x.err && wire.sent == old(wire.sent) + SentList(x)
  {
    var headers := d.GetAuthHeaders();
    resp, err := DoRequest(ApiRequest(verb, endpoint, headers, body, Some(d.apiConfig)), respType, json, wire);
  }

  /** The package-level `instance` and `once`: `once` records that the first `New` has run. */
  class Globals {
    var instance: Client?
    var once: bool

    ghost predicate Valid()
      reads this
    {
      once <==> instance != null
    }

    constructor ()
      ensures Valid() && instance == null
    {
      instance := null;
      once := false;
    }

    /**
     * `New`: the first call creates the client with the fixed base URL, the caller's logger and
     * no token; every later call returns that same client and ignores its argument.
     */
    method New(config: Config) returns (c: Client)
      requires Valid()
      modifies this
      ensures Valid() && instance == c
      ensures old(once) ==> c == old(instance)
      ensures !old(once) ==> fresh(c) && c.config == config && c.apiConfig == ApiRequestConfig(BaseUrl, config.logger) && c.token == ""
    {
      if !once {
        instance := new Client(config);
        once := true;
      }
      c := instance;
    }

    /** `GetInstance`: the client `New` created; the panic before any `New` is the Failure outcome. */
    method GetInstance() returns (r: Result<Client>)
      requires Valid()
      ensures r.Failure? <==> !once
      ensures r.Failure? ==> r.error == NotInitialized
      ensures r.Success? ==> r.value == instance
    {
      if instance == null {
        return Failure(NotInitialized);
      }
      return Success(instance);
    }
  }

  /** Two `New` calls in a fresh process: both return the first client, which keeps the first config. */
  method FirstNewWins(first: Config, second: Config) returns (c1: Client, c2: Client, got: Result<Client>)
    ensures c1 == c2 && c2.config == first && c2.apiConfig == ApiRequestConfig(BaseUrl, first.logger)
    ensures got == Success(c1)
  {
    var g := new Globals();
    var before := g.GetInstance();
    assert before == Failure(NotInitialized);
    c1 := g.New(first);
    c2 := g.New(second);
    got := g.GetInstance();
  }
}
