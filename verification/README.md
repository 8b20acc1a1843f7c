# DarkThroneApi client core, modelled in Dafny

This project models the Go client library for the DarkThrone Reborn game service. The
centre of the library is a generic request executor, `ApiRequest.DoRequest`. It performs
these steps:

- it checks the configuration;
- it encodes a request body only when the body is not its type's zero value;
- it adds a default `Content-Type` header to the caller's header map;
- it sends the request;
- it accepts only status 200;
- it decodes the body into a target chosen by the declared response type.

On top of the executor sits the client session (`DarkThroneApi`). It has these parts:

- a process-wide singleton, where the first `New` wins;
- a bearer token that only `Login` sets and only a successful `Logout` clears;
- the authentication headers derived from the token;
- a reachability probe, `Ping`;
- the user and player endpoints, which hand (method, path, headers, body, response type)
  to the executor.

Modules, one per source file plus shared value types:

- `Results` holds `Option` and `Result`.
- `Values` holds the part of Go's value model that the executor inspects through
  reflection: declared types, values with nil maps, slices and pointers kept distinct from
  non-nil ones, `ZeroOf` and `reflect.Value.IsZero`.
- `Http` holds the transport as the client sees it. `http.NewRequest` and `client.Do` are
  oracles (`Net`). The class `Network` keeps a log of every request sent, so "nothing is
  sent" is stated as an unchanged log.
- `ApiRequests` (api_request.go) holds the executor:
  - the pure function `Execute` specifies it;
  - the imperative method `DoRequest` is proved equal to it, including the header default
    written back into the caller's map (`HeaderMap` is a class because Go maps are shared
    references).
- `DarkThrone` (darkthrone.api.go) holds the client class, the singleton `Globals`, the
  auth headers and `Ping`.
- `Users` (user.go) and `Players` (player.go) hold the endpoints. Each endpoint method is
  proved to send exactly what `Execute` of its request sends and to return the documented
  value on success and on failure.
- `Schema` holds the request and response structs as `Value` layouts, and the field reads
  the endpoints make.
- `Format` holds `fmt`'s `%d`, with a proved round trip.

## Model

| member | source | states |
|---|---|---|
| Values.ZeroOfIsZero | api_request.go:29-31 | The zero value of every declared type has that type, and `isZeroValue` is true of it. |
| Values.IsZeroIffZeroOf | api_request.go:29-31 | For a value of a declared type, `isZeroValue` holds exactly when the value equals that type's zero value, so a struct is zero iff every field is zero. |
| Values.IsZeroExamples | api_request_test.go:9-26 | 0 is zero, 1 is not, a struct whose one int field is 0 is zero, and an allocated empty map is not. |
| Http.Network.Do | api_request.go:111-112 | One transport call appends exactly that request to the log, and the reply is the network's answer to the n-th request. |
| ApiRequests.GetUrl | api_request.go:68-73 | The URL is empty iff there is no config or its base URL is empty. Otherwise it is the base URL, one '/', then the endpoint, with nothing added or dropped. |
| ApiRequests.GetUrlJoinsBaseAndEndpoint | api_request_test.go:28-37 | "http://localhost" and "foo/bar" give "http://localhost/foo/bar". |
| ApiRequests.EncodeBody | api_request.go:85-92 | No payload iff the body is zero. A marshal failure is passed on. Otherwise the payload is exactly the marshalled bytes. |
| ApiRequests.ZeroBodyHasNoPayload | api_request.go:85-92 | The zero value of any request type produces no payload, whatever the codec. |
| ApiRequests.WithDefaultContentType | api_request.go:99-105 | The outgoing keys are the caller's keys plus "Content-Type". Every caller value is kept. "application/json" is supplied iff the key is absent; a nil map counts as empty. |
| ApiRequests.CopyHeaders | api_request.go:107-109 | The header-copy loop leaves the outgoing header map equal to the source map. |
| ApiRequests.MakeTarget | api_request.go:129-147 | The target has the declared type. A map type gives a fresh empty map. A pointer to a map gives a pointer to a fresh empty map. Any other type gives its zero value. |
| ApiRequests.MapTargetsHoldExactlyTheObject | api_request.go:133-148 | For a map or pointer-to-map response type, decoding a JSON object never meets a nil target, and the result holds exactly the object's pairs. |
| ApiRequests.PointerToMapResponseHoldsTheObject | api_request_test.go:39-58 | An empty-struct GET answered with 200 and {"foo":"bar"}, decoded into a pointer to a map, gives a pointer to exactly that map and no error, and sends no payload. |
| ApiRequests.Execute | api_request.go:76-150 | The configuration guard comes first and sends nothing. A marshal failure sends nothing. A `http.NewRequest` failure gives the zero response and that error, with nothing sent. Otherwise exactly one request is sent: the verb, the joined URL, the defaulted headers, and a payload iff the body is not zero. Success happens only after a 200 reply. A transport error, any other status, or a 200 whose body cannot be read gives the zero response and the error. After a 200 with a readable body, the decoder's result is returned. |
| ApiRequests.Dispatch | api_request.go:94-112 | Nothing is sent iff `http.NewRequest` refuses the verb and URL, and then its error comes back with the zero response. Otherwise the one request sent carries the verb, the joined URL, the defaulted headers and the payload, and the outcome is `Receive` of its reply. |
| ApiRequests.Receive | api_request.go:113-149 | No error only after a 200 with a readable body. A transport error, a non-200 status or a read failure gives the zero response and the matching error. A readable 200 gives the decoder's result for the prepared target. |
| ApiRequests.NonOkStatus | api_request.go:120-122 | The status error is a fixed prefix followed by the status line unchanged. |
| ApiRequests.DoRequest | api_request.go:76-150 | The result and the transport log are those `Execute` gives on the request's state at entry. When a request is built, the caller's non-nil header map ends up holding the defaulted headers. |
| ApiRequests.Transmit | api_request.go:94-150 | For a configured request whose body encoded to a payload: the result and log agree with building, sending and receiving that payload. The caller's header map gets the default once a request is built. |
| ApiRequests.PrepareHeaders | api_request.go:99-109 | The outgoing headers are the caller's headers with the Content-Type default. A non-nil caller map is updated to that same content. |
| ApiRequests.ReadReply | api_request.go:111-149 | Exactly one request is sent. The result is the executor's verdict on that request's reply: transport error, non-200 status, unreadable body, or the decoder's result. |
| DarkThrone.AuthHeaders | darkthrone.api.go:61-70 | Content-Type and Accept are always "application/json". "Authorization: Bearer <token>" is present iff a token is set. There are no other keys. |
| DarkThrone.AuthHeadersDetermineToken | darkthrone.api.go:61-70 | Equal auth headers come from equal tokens. |
| DarkThrone.Client.GetAuthHeaders | darkthrone.api.go:61-70 | Returns a fresh map whose contents are `AuthHeaders` of the current token. |
| DarkThrone.PingVerdict | darkthrone.api.go:87-100 | The probe succeeds iff a response arrived with a status in [200, 400). A transport error is passed on. Any other status gives "ping failed with status: <status>". |
| DarkThrone.Client.Ping | darkthrone.api.go:74-105 | A request-construction failure gives latency 0 and sends nothing. Otherwise exactly one HEAD request with no headers and no body goes to the base URL; the measured latency is returned, with `PingVerdict` of the reply. |
| DarkThrone.Client.constructor | darkthrone.api.go:39-47 | A new client keeps the caller's config, uses the fixed base URL and the caller's logger, and has no token. |
| DarkThrone.AuthedRequest | user.go:144-155 | An authenticated call sends what `Execute` sends for the token's headers and the client's config, and returns its result. |
| DarkThrone.Globals.constructor | darkthrone.api.go:21-24 | A process starts with no instance and `once` not yet run. |
| DarkThrone.Globals.New | darkthrone.api.go:39-50 | The first call creates and records a client built from its config. Every later call returns that same client and ignores its argument. |
| DarkThrone.Globals.GetInstance | darkthrone.api.go:53-58 | Fails with the "not initialized" message exactly when `New` has not run; otherwise returns the recorded client. |
| DarkThrone.FirstNewWins | darkthrone.api.go:39-58 | Two `New` calls return the same client, which keeps the first config, and `GetInstance` then returns it. |
| Users.LoginGuard | user.go:39-47 | Passes iff both email and password are set. An empty email is reported first, then an empty password. |
| Users.LoginSendsNoAuthorization | user.go:49-55 | A login request that reaches the network carries only the default Content-Type header, never Authorization, and carries the marshalled credentials. |
| Users.Login | user.go:35-65 | A failing check sends nothing and keeps the token. A failed request returns "" and the error and keeps the token. On success the response token becomes the client's token and is returned. |
| Users.RegisterGuard | user.go:92-111 | Passes iff all four fields are set and the passwords agree. The checks are ordered: email, password, confirmation, username, mismatch. |
| Users.Register | user.go:88-127 | A failing check sends nothing and gives the empty response. Otherwise the request is sent with explicit JSON headers. Any error gives the empty response. |
| Users.GetCurrentUserApi | user.go:131-140 | Passes an empty header map, so only the Content-Type default is sent, and no body; the executor's result is passed through unchanged. |
| Users.GetCurrentUser | user.go:144-160 | An authenticated GET. It returns the response, or the empty response with the error. The token is unchanged. |
| Users.GetPlayersForCurrentUser | user.go:164-180 | An authenticated GET of the player list. It returns the list, or a nil slice with the error. |
| Users.Logout | user.go:184-202 | The token is cleared iff the logout request succeeds; otherwise it is kept and the error is returned. |
| Users.AssumePayload | user.go:209 | The assume body is a non-nil map with exactly the key "playerID", so it is always sent. |
| Users.AssumePlayer | user.go:206-224 | An authenticated POST. It returns the response's Player, or the empty Player with the error. |
| Users.UnassumePlayer | user.go:228-245 | An authenticated POST with no body, returning only the executor's error. |
| Players.IndexOutOfRange | player.go:100 | The out-of-range message starts with "player index " and the index in decimal, so it is never the "no players found" error. |
| Players.AssumeFailed | player.go:112 | The wrapped assume error is a fixed prefix followed by the cause's text unchanged. |
| Players.SelectPlayer | player.go:91-107 | A failed list fetch and an empty list both give "no players found". Then the index must be in range (the error names the index and count). Then the chosen player must have an ID, otherwise the error is "failed to set player_id from the players list". It succeeds iff all of these hold, with that player's ID. |
| Players.FailedFetchLooksLikeNoPlayers | player.go:92-95 | A failed fetch gives the same outcome as an empty or nil list, for every index. |
| Players.GetPlayersListApi | player.go:119-128 | Passes through the executor's result for the authenticated player list. |
| Players.AssumePlayerApi | player.go:132-146 | An authenticated assume request. It returns the response's Player, or the empty Player with the error. |
| Players.GetPlayerByIndex | player.go:83-115 | Without a token, returns "token is not set" and sends nothing. Otherwise it sends the list request and runs the selection checks; it sends the assume request only for a selected ID and wraps an assume error. The token is never changed. |
| Players.SelectFromList | player.go:88-107 | Sends the list request once, and the outcome is `SelectPlayer` of its result. |
| Players.AssumeSelected | player.go:103-114 | A failed selection is returned unchanged with nothing sent. A selected ID is assumed, and a failure there is wrapped as "failed to assume player". |
| Players.FetchAllPlayersEndpoint | player.go:150 | The page endpoint is "players?page=", the page in decimal, "&pageSize=", then the page size in decimal. |
| Players.FetchAllPlayersEndpointInjective | player.go:150 | The page endpoint determines both numbers: different (page, pageSize) pairs give different endpoints. |
| Players.PlayerEndpoint | player.go:199 | "players/" followed by the ID, verbatim. |
| Players.WarHistoryEndpoint | player.go:233 | "war-history/" followed by the ID, verbatim. |
| Players.FetchAllPlayers | player.go:149-162 | An authenticated GET of the page endpoint. It returns the page's items, or a nil slice with the error. |
| Players.CreatePlayer | player.go:165-177 | An authenticated POST with the request as body. It returns the Player, or the empty Player with the error. |
| Players.ValidatePlayerName | player.go:180-195 | An authenticated POST of {"name": name}. It returns the response's Valid flag, or false with the error. |
| Players.FetchPlayerById | player.go:198-211 | An authenticated GET of "players/<id>". It returns the Player, or the empty Player with the error. |
| Players.MatchingIdsPayload | player.go:215 | The matching-IDs body is a non-nil map with exactly the key "ids", holding a nil slice for nil IDs and otherwise the IDs in order, so it is sent even for a nil ID slice. |
| Players.FetchAllMatchingIds | player.go:214-229 | An authenticated POST of the IDs. It returns the matched players, or a nil slice with the error. |
| Players.FetchWarHistoryById | player.go:232-245 | An authenticated GET of "war-history/<id>". It returns the record, or the empty record with the error. |
| Players.FetchAllWarHistory | player.go:248-262 | An authenticated GET. It returns the items, or a nil slice with the error. |
| Players.TrainUnits | player.go:265-277 | An authenticated POST to "training/train" with the request as body. It returns the response, or the empty response with the error. |
| Players.UntrainUnits | player.go:280-292 | The same as `TrainUnits`, for "training/untrain". |
| Players.AttackPayload | player.go:299-302 | The attack body is a non-nil map holding exactly the target ID and 10 attack turns. |
| Players.AttackAlwaysSendsItsPayload | player.go:299-309 | Every attack request that reaches the network carries the marshalled attack body and exactly the token's auth headers. |
| Players.AttackPlayer | player.go:296-320 | Returns the response's IsAttackerVictor, or false with the error. |
| Schema.FieldReadsAreExact | user.go:61 | On a value of its declared struct type, each field read the endpoints make is that field itself, of its declared type. |
| Schema.LoginRequest.ToValue | user.go:16-19 | The login body is zero, and so not sent, iff email and password are both empty. |
| Schema.RegisterRequest.ToValue | user.go:68-73 | The registration body is zero iff all four fields are empty. |
| Schema.CreatePlayerRequest.ToValue | player.go:36-40 | The body is zero iff name, race and password are all empty. |
| Schema.TrainUnitsRequest.ToValue | player.go:43-46 | The body is zero iff the player ID is empty and the unit slice is nil; an empty non-nil slice is not zero. |
| Format.IntToString | player.go:150 | `%d` output is never empty, with a '-' exactly in front of a negative number, digits elsewhere, and no leading zero. |
| Format.IntToStringRoundTrip | player.go:150 | The number can be read back from its `%d` text. |
| Format.IntToStringInjective | player.go:150 | Different numbers print differently. |

## Left out

- Logging: every `slog` call is left out. Logging never affects a result here. The Go methods dereference `d.config.Logger` without a nil check, so a client built with a nil logger panics on its first logging call; the model does not capture that panic.
- `http.NewRequest` and `client.Do` are oracles. URL parsing, the TLS stack, timeouts and `Header.Set`'s key canonicalisation are not modelled. Headers are compared by their exact key, which is how the executor's own presence test works.
- `encoding/json` is an oracle pair (`Json.marshal`, `Json.unmarshal`). Only map-shaped targets are given a concrete decoder (`DecodeObjectInto`), in order to state the test's success case.
- `Ping`'s latency comes from the clock, so it is an input (`elapsed`).
- `sync.Once` is modelled as a flag in `Globals`; concurrent first calls to `New` are not modelled. A nil `*Config` passed to `New` is not modelled, because `Config` is a value.
- DarkThrone.Globals.GetInstance: Go panics when `New` has not run; the model returns that panic message as a `Failure`.
- An interface-typed response type (where `reflect.TypeOf` sees nil) is not modelled; every response type has a concrete `ValueType`.
- Values.HasType: map entries and slice elements are not type-checked. The response views in `Schema` return a field's zero value when given a value of the wrong shape.
- Schema.UnitRequest.ToValue: has no contract of its own. It only serves as an element of the `TrainUnitsRequest` body, and that body's zero test does not depend on it.
- The `page_size` constant (darkthrone.api.go:18) is declared but used nowhere, so it is not modelled.
- banking.go, structures.go and godocs.go are not part of this model.
- Errors are modelled by their message only. The `%w` wrapping in `GetPlayerByIndex` (player.go:112) keeps the cause's text, but the error chain that `errors.Is` and `errors.Unwrap` follow is not modelled.
- Concurrent reads and writes of the client's token are not modelled; every operation runs alone.
- Integers are unbounded. Go's `int` page numbers and `int64` latency do not overflow in any path the model covers.
