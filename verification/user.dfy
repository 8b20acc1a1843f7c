/**
 * The account endpoints: login and registration with their input checks, the token
 * lifecycle (only `Login` sets it, only a successful `Logout` clears it), and the calls
 * that leave the token alone.
 */
module Users {
  import opened Results
  import opened Values
  import opened Http
  import opened ApiRequests
  import opened DarkThrone
  import opened Schema

  const EmailNotSet: Error := "email not set"
  const PasswordNotSet: Error := "password not set"
  const ConfirmPasswordNotSet: Error := "confirm password not set"
  const UsernameNotSet: Error := "username not set"
  const PasswordsDoNotMatch: Error := "passwords do not match"

  /** Login's input checks: the email first, then the password. */
  function LoginGuard(lr: LoginRequest): (e: Option<Error>)
    ensures e.None? <==> lr.email != "" && lr.password != ""
    ensures lr.email == "" ==> e == Some(EmailNotSet)
    ensures lr.email != "" && lr.password == "" ==> e == Some(PasswordNotSet)
  {
    if lr.email == "" then Some(EmailNotSet)
    else if lr.password == "" then Some(PasswordNotSet)
    else None
  }

  /** The login call: an empty header map (so never an Authorization header) and the request as body. */
  function LoginSpec(config: ApiRequestConfig, lr: LoginRequest): RequestSpec
  {
    RequestSpec("POST", LoginEndpoint, Some(map[]), lr.ToValue(), Some(config))
  }

  /**
   * Whatever the token, a login request that reaches the network carries only the default
   * Content-Type header, and it carries the marshalled credentials.
   */
  lemma LoginSendsNoAuthorization(config: ApiRequestConfig, lr: LoginRequest, json: Json, net: Net, n: nat)
    requires LoginGuard(lr).None?
    ensures forall r | r in SentList(Execute(LoginSpec(config, lr), LoginResponseType, json, net, n)) ::
      && Authorization !in r.headers
      && r.headers == map[ContentType := ApplicationJson]
      && r.body.Some? && json.marshal(lr.ToValue()) == Success(r.body.value)
  {
    var x := Execute(LoginSpec(config, lr), LoginResponseType, json, net, n);
    if x.sent.Some? {
      assert x.sent.value.headers.Keys == {ContentType};
    }
  }

  /**
   * `Login`: the checks fail before anything is sent; on success the response token becomes
   * the client token and is returned; on a failed request the token is left as it was.
   */
  method Login(d: Client, lr: LoginRequest, json: Json, wire: Network) returns (token: string, err: Option<Error>)
    modifies d`token, wire
    ensures LoginGuard(lr).Some? ==>
      token == "" && err == LoginGuard(lr) && d.token == old(d.token) && wire.sent == old(wire.sent)
    ensures LoginGuard(lr).None? ==>
      var x := Execute(LoginSpec(d.apiConfig, lr), LoginResponseType, json, wire.net, |old(wire.sent)|);
      && wire.sent == old(wire.sent) + SentList(x)
      && (x.err.Some? ==> token == "" && err == x.err && d.token == old(d.token))
      && (x.err.None? ==> token == TokenOf(x.resp) && err.None? && d.token == token)
  {
    if lr.email == "" {
      return "", Some(EmailNotSet);
    }
    if lr.password == "" {
      return "", Some(PasswordNotSet);
    }
    var headers := new HeaderMap(map[]);
    var response, requestErr := DoRequest(ApiRequest("POST", LoginEndpoint, headers, lr.ToValue(), Some(d.apiConfig)),
                                          LoginResponseType, json, wire);
    if requestErr.Some? {
      return "", requestErr;
    }
    token := TokenOf(response);
    d.token := token;
    err := None;
  }

  /** Register's input checks, in order: email, password, confirmation, username, then that the two passwords agree. */
  function RegisterGuard(rr: RegisterRequest): (e: Option<Error>)
    ensures e.None? <==>
      rr.email != "" && rr.password != "" && rr.confirmPassword != "" && rr.username != "" && rr.password == rr.confirmPassword
    ensures rr.email == "" ==> e == Some(EmailNotSet)
    ensures rr.email != "" && rr.password == "" ==> e == Some(PasswordNotSet)
    ensures rr.email != "" && rr.password != "" && rr.confirmPassword == "" ==> e == Some(ConfirmPasswordNotSet)
    ensures rr.email != "" && rr.password != "" && rr.confirmPassword != "" && rr.username == "" ==> e == Some(UsernameNotSet)
    ensures rr.email != "" && rr.password != "" && rr.confirmPassword != "" && rr.username != "" && rr.password != rr.confirmPassword ==>
      e == Some(PasswordsDoNotMatch)
  {
    if rr.email == "" then Some(EmailNotSet)
    else if rr.password == "" then Some(PasswordNotSet)
    else if rr.confirmPassword == "" then Some(ConfirmPasswordNotSet)
    else if rr.username == "" then Some(UsernameNotSet)
    else if rr.password != rr.confirmPassword then Some(PasswordsDoNotMatch)
    else None
  }

  /** The registration call: an explicit Content-Type header and the request as body. */
  function RegisterSpec(config: ApiRequestConfig, rr: RegisterRequest): RequestSpec
  {
    RequestSpec("POST", "auth/register", Some(map[ContentType := ApplicationJson]), rr.ToValue(), Some(config))
  }

  /** `Register`: the first failing check decides the error and nothing is sent; a failed request gives the empty response. */
  method Register(d: Client, rr: RegisterRequest, json: Json, wire: Network) returns (resp: Value, err: Option<Error>)
    modifies wire
    ensures RegisterGuard(rr).Some? ==>
      resp == ZeroOf(RegisterResponseType) && err == RegisterGuard(rr) && wire.sent == old(wire.sent)
    ensures RegisterGuard(rr).None? ==>
      var x := Execute(RegisterSpec(d.apiConfig, rr), RegisterResponseType, json, wire.net, |old(wire.sent)|);
      && wire.sent == old(wire.sent) + SentList(x)
      && (x.err.Some? ==> resp == ZeroOf(RegisterResponseType) && err == x.err)
      && (x.err.None? ==> resp == x.resp && err.None?)
  {
    var zero := ZeroOf(RegisterResponseType);
    if rr.email == "" {
      return zero, Some(EmailNotSet);
    }
    if rr.password == "" {
      return zero, Some(PasswordNotSet);
    }
    if rr.confirmPassword == "" {
      return zero, Some(ConfirmPasswordNotSet);
    }
    if rr.username == "" {
      return zero, Some(UsernameNotSet);
    }
    if rr.password != rr.confirmPassword {
      return zero, Some(PasswordsDoNotMatch);
    }
    var headers := new HeaderMap(map[ContentType := ApplicationJson]);
    var response, requestErr := DoRequest(ApiRequest("POST", "auth/register", headers, rr.ToValue(), Some(d.apiConfig)),
                                          RegisterResponseType, json, wire);
    if requestErr.Some? {
      return zero, requestErr;
    }
    return response, None;
  }

  /**
   * `GetCurrentUserAPI`: an empty header map (so only the Content-Type default is sent), no body,
   * and the executor's result passed through as it is.
   */
  method GetCurrentUserApi(d: Client, json: Json, wire: Network) returns (resp: Value, err: Option<Error>)
    modifies wire
    ensures d.token == old(d.token)
    ensures var x := Execute(RequestSpec("GET", CurrentUserEndpoint, Some(map[]), EmptyBody, Some(d.apiConfig)),
                             CurrentUserResponseType, json, wire.net, |old(wire.sent)|);
      resp == x.resp && err == x.err && wire.sent == old(wire.sent) + SentList(x)
  {
    var headers := new HeaderMap(map[]);
    resp, err := DoRequest(ApiRequest("GET", CurrentUserEndpoint, headers, EmptyBody, Some(d.apiConfig)),
                           CurrentUserResponseType, json, wire);
  }

  /** `GetCurrentUser`: authenticated; the empty response on any error. */
  method GetCurrentUser(d: Client, json: Json, wire: Network) returns (resp: Value, err: Option<Error>)
    modifies wire
    ensures d.token == old(d.token)
    ensures var x := Execute(AuthedSpec(d.apiConfig, d.token, "GET", CurrentUserEndpoint, EmptyBody),
                             CurrentUserResponseType, json, wire.net, |old(wire.sent)|);
      && wire.sent == old(wire.sent) + SentList(x)
      && (resp, err) == (if x.err.Some? then (ZeroOf(CurrentUserResponseType), x.err) else (x.resp, None))
  {
    var response, requestErr := AuthedRequest(d, "GET", CurrentUserEndpoint, EmptyBody, CurrentUserResponseType, json, wire);
    if requestErr.Some? {
      return ZeroOf(CurrentUserResponseType), requestErr;
    }
    return response, None;
  }

  /** `GetPlayersForCurrentUser`: authenticated; a nil slice on any error. */
  method GetPlayersForCurrentUser(d: Client, json: Json, wire: Network) returns (players: Value, err: Option<Error>)
    modifies wire
    ensures d.token == old(d.token)
    ensures var x := Execute(AuthedSpec(d.apiConfig, d.token, "GET", PlayersListEndpoint, EmptyBody),
                             UserPlayersListResponseType, json, wire.net, |old(wire.sent)|);
      && wire.sent == old(wire.sent) + SentList(x)
      && (players, err) == (if x.err.Some? then (NilSlice, x.err) else (x.resp, None))
  {
    var response, requestErr := AuthedRequest(d, "GET", PlayersListEndpoint, EmptyBody, UserPlayersListResponseType, json, wire);
    if requestErr.Some? {
      return NilSlice, requestErr;
    }
    return response, None;
  }

  /** `Logout`: the token is cleared only after the logout request succeeds; otherwise it is kept and the error returned. */
  method Logout(d: Client, json: Json, wire: Network) returns (err: Option<Error>)
    modifies d`token, wire
    ensures var x := Execute(AuthedSpec(d.apiConfig, old(d.token), "POST", "auth/logout", EmptyBody),
                             EmptyStructType, json, wire.net, |old(wire.sent)|);
      && wire.sent == old(wire.sent) + SentList(x)
      && err == x.err
      && d.token == (if x.err.Some? then old(d.token) else "")
  {
    var _, requestErr := AuthedRequest(d, "POST", "auth/logout", EmptyBody, EmptyStructType, json, wire);
    if requestErr.Some? {
      return requestErr;
    }
    d.token := "";
    return None;
  }

  /** The body of an assume request: a non-nil map holding the player ID, so it is always sent. */
  function AssumePayload(playerID: string): (v: Value)
    ensures !IsZero(v)
    ensures v.Map? && v.entries.Keys == {"playerID"} && v.entries["playerID"] == Str(playerID)
  {
    Map(map["playerID" := Str(playerID)])
  }

  /** `AssumePlayer`: authenticated; the assumed Player, or the empty Player with the error. */
  method AssumePlayer(d: Client, playerID: string, json: Json, wire: Network) returns (player: Value, err: Option<Error>)
    modifies wire
    ensures d.token == old(d.token)
    ensures var x := Execute(AuthedSpec(d.apiConfig, d.token, "POST", AssumePlayerEndpoint, AssumePayload(playerID)),
                             CurrentUserResponseType, json, wire.net, |old(wire.sent)|);
      && wire.sent == old(wire.sent) + SentList(x)
      && (player, err) == (if x.err.Some? then (ZeroOf(PlayerType), x.err) else (PlayerOf(x.resp), None))
  {
    var response, requestErr := AuthedRequest(d, "POST", AssumePlayerEndpoint, AssumePayload(playerID),
                                              CurrentUserResponseType, json, wire);
    if requestErr.Some? {
      return ZeroOf(PlayerType), requestErr;
    }
    return PlayerOf(response), None;
  }

  /** `UnassumePlayer`: authenticated, no body; only the error is returned. */
  method UnassumePlayer(d: Client, json: Json, wire: Network) returns (err: Option<Error>)
    modifies wire
    ensures d.token == old(d.token)
    ensures var x := Execute(AuthedSpec(d.apiConfig, d.token, "POST", "auth/unassume-player", EmptyBody),
                             EmptyStructType, json, wire.net, |old(wire.sent)|);
      wire.sent == old(wire.sent) + SentList(x) && err == x.err
  {
    var _, requestErr := AuthedRequest(d, "POST", "auth/unassume-player", EmptyBody, EmptyStructType, json, wire);
    err := requestErr;
  }
}
