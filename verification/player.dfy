/**
 * The player endpoints: choosing and assuming a player by index, the endpoint strings
 * built from page numbers and IDs, and the attack call.
 */
module Players {
  import opened Results
  import opened Values
  import opened Http
  import opened ApiRequests
  import opened DarkThrone
  import opened Schema
  import opened Format
  import Users

  const TokenNotSet: Error := "token is not set"
  const NoPlayersFound: Error := "no players found"
  const PlayerIdNotSet: Error := "failed to set player_id from the players list"

  const IndexPrefix := "player index "

  /** The out-of-range message starts by naming the index, so it cannot be mistaken for "no players found". */
  function IndexOutOfRange(index: int, count: nat): (e: Error)
    ensures IndexPrefix + IntToString(index) <= e
    ensures e != NoPlayersFound
  {
    var e := IndexPrefix + IntToString(index) + " out of range (found " + IntToString(count) + " players)";
    assert e[0] == 'p';
    assert NoPlayersFound[0] == 'n';
    e
  }

  const AssumeFailedPrefix := "failed to assume player: "

  /** `%w`-wrapping of an assume failure: a fixed prefix, then the cause's text unchanged. */
  function AssumeFailed(e: Error): (w: Error)
    ensures AssumeFailedPrefix <= w && w[|AssumeFailedPrefix|..] == e
  {
    AssumeFailedPrefix + e
  }

  /**
   * The checks `GetPlayerByIndex` makes once the list has been fetched: a failed fetch and an
   * empty list give the same error, then the index must be in range, then the chosen player
   * must have an ID. The result is the ID to assume.
   */
  function SelectPlayer(players: Value, listErr: Option<Error>, index: int): (r: Result<string>)
    ensures listErr.Some? || ElementsOf(players) == [] ==> r == Failure(NoPlayersFound)
    ensures listErr.None? && ElementsOf(players) != [] && !(0 <= index < |ElementsOf(players)|) ==>
      r == Failure(IndexOutOfRange(index, |ElementsOf(players)|))
    ensures r.Success? <==>
      listErr.None? && 0 <= index < |ElementsOf(players)| && PlayerId(ElementsOf(players)[index]) != ""
    ensures listErr.None? && 0 <= index < |ElementsOf(players)| && PlayerId(ElementsOf(players)[index]) == "" ==>
      r == Failure(PlayerIdNotSet)
    ensures r.Success? ==> 0 <= index < |ElementsOf(players)| && r.value == PlayerId(ElementsOf(players)[index])
  {
    var list := ElementsOf(players);
    if listErr.Some? || |list| == 0 then Failure(NoPlayersFound)
    else if index < 0 || index >= |list| then Failure(IndexOutOfRange(index, |list|))
    else if PlayerId(list[index]) == "" then Failure(PlayerIdNotSet)
    else Success(PlayerId(list[index]))
  }

  /** `getPlayersListAPI`: the executor's result for the authenticated player list, passed through. */
  method GetPlayersListApi(d: Client, json: Json, wire: Network) returns (players: Value, err: Option<Error>)
    modifies wire
    ensures var x := Execute(AuthedSpec(d.apiConfig, d.token, "GET", PlayersListEndpoint, EmptyBody),
                             UserPlayersListResponseType, json, wire.net, |old(wire.sent)|);
      players == x.resp && err == x.err && wire.sent == old(wire.sent) + SentList(x)
  {
    players, err := AuthedRequest(d, "GET", PlayersListEndpoint, EmptyBody, UserPlayersListResponseType, json, wire);
  }

  /** `assumePlayerAPI`: the assumed Player, or the empty Player with the error. */
  method AssumePlayerApi(d: Client, playerID: string, json: Json, wire: Network) returns (player: Value, err: Option<Error>)
    modifies wire
    ensures var x := Execute(AuthedSpec(d.apiConfig, d.token, "POST", AssumePlayerEndpoint, Users.AssumePayload(playerID)),
                             CurrentUserResponseType, json, wire.net, |old(wire.sent)|);
      && wire.sent == old(wire.sent) + SentList(x)
      && (player, err) == (if x.err.Some? then (ZeroOf(PlayerType), x.err) else (PlayerOf(x.resp), None))
  {
    var response, requestErr := AuthedRequest(d, "POST", AssumePlayerEndpoint, Users.AssumePayload(playerID),
                                              CurrentUserResponseType, json, wire);
    if requestErr.Some? {
      return ZeroOf(PlayerType), requestErr;
    }
    return PlayerOf(response), None;
  }

  /**
   * `GetPlayerByIndex`: without a token nothing is sent; otherwise the list is fetched, the
   * selection checks run, and only a selected player with an ID is assumed. An assume
   * failure is wrapped. The token is never changed.
   */
  method GetPlayerByIndex(d: Client, index: int, json: Json, wire: Network) returns (player: Value, err: Option<Error>)
    modifies wire
    ensures d.token == old(d.token)
    ensures d.token == "" ==>
      player == ZeroOf(PlayerType) && err == Some(TokenNotSet) && wire.sent == old(wire.sent)
    ensures d.token != "" ==>
      var listed := Execute(AuthedSpec(d.apiConfig, d.token, "GET", PlayersListEndpoint, EmptyBody),
                            UserPlayersListResponseType, json, wire.net, |old(wire.sent)|);
      match SelectPlayer(listed.resp, listed.err, index)
      case Failure(e) =>
        player == ZeroOf(PlayerType) && err == Some(e) && wire.sent == old(wire.sent) + SentList(listed)
      case Success(id) =>
        var assumed := Execute(AuthedSpec(d.apiConfig, d.token, "POST", AssumePlayerEndpoint, Users.AssumePayload(id)),
                               CurrentUserResponseType, json, wire.net, |old(wire.sent)| + |SentList(listed)|);
        && wire.sent == old(wire.sent) + SentList(listed) + SentList(assumed)
        && (assumed.err.Some? ==> player == ZeroOf(PlayerType) && err == Some(AssumeFailed(assumed.err.value)))
        && (assumed.err.None? ==> player == PlayerOf(assumed.resp) && err.None?)
  {
    if d.token == "" {
      return ZeroOf(PlayerType), Some(TokenNotSet);
    }
    var selected := SelectFromList(d, index, json, wire);
    player, err := AssumeSelected(d, selected, json, wire);
  }

  /** The first steps of `GetPlayerByIndex`: fetch the list, then run the selection checks on it. */
  method SelectFromList(d: Client, index: int, json: Json, wire: Network) returns (selected: Result<string>)
    modifies wire
    ensures var listed := Execute(AuthedSpec(d.apiConfig, d.token, "GET", PlayersListEndpoint, EmptyBody),
                                  UserPlayersListResponseType, json, wire.net, |old(wire.sent)|);
      selected == SelectPlayer(listed.resp, listed.err, index) && wire.sent == old(wire.sent) + SentList(listed)
  {
    var players, listErr := GetPlayersListApi(d, json, wire);
    selected := SelectPlayer(players, listErr, index);
  }

  /** The last step of `GetPlayerByIndex`: a failed selection is returned as it is, a selected ID is assumed. */
  method AssumeSelected(d: Client, selected: Result<string>, json: Json, wire: Network) returns (player: Value, err: Option<Error>)
    modifies wire
    ensures selected.Failure? ==>
      player == ZeroOf(PlayerType) && err == Some(selected.error) && wire.sent == old(wire.sent)
    ensures selected.Success? ==>
      var assumed := Execute(AuthedSpec(d.apiConfig, d.token, "POST", AssumePlayerEndpoint, Users.AssumePayload(selected.value)),
                             CurrentUserResponseType, json, wire.net, |old(wire.sent)|);
      && wire.sent == old(wire.sent) + SentList(assumed)
      && (assumed.err.Some? ==> player == ZeroOf(PlayerType) && err == Some(AssumeFailed(assumed.err.value)))
      && (assumed.err.None? ==> player == PlayerOf(assumed.resp) && err.None?)
  {
    if selected.Failure? {
      return ZeroOf(PlayerType), Some(selected.error);
    }
    var assumed, assumeErr := AssumePlayerApi(d, selected.value, json, wire);
    if assumeErr.Some? {
      return ZeroOf(PlayerType), Some(AssumeFailed(assumeErr.value));
    }
    return assumed, None;
  }

  /** A failed list fetch cannot be told apart from an empty list. */
  lemma FailedFetchLooksLikeNoPlayers(players: Value, e: Error, index: int)
    ensures SelectPlayer(players, Some(e), index) == SelectPlayer(Slice([]), None, index)
    ensures SelectPlayer(players, Some(e), index) == SelectPlayer(NilSlice, None, index)
  {
  }

  /** "players?page=<page>&pageSize=<pageSize>", both numbers in decimal. */
  const PageParam := "players?page="
  const PageSizeParam := "&pageSize="

  function FetchAllPlayersEndpoint(page: int, pageSize: int): (endpoint: string)
    ensures var head := PageParam + IntToString(page) + PageSizeParam;
      head <= endpoint && endpoint[|head|..] == IntToString(pageSize)
  {
    var head := PageParam + IntToString(page) + PageSizeParam;
    head + IntToString(pageSize)
  }

  /** Concatenation regrouped to the right, so the page endpoint can be peeled from the front. */
  lemma Regroup(a: string, b: string, c: string, d: string)
    ensures a + b + c + d == a + (b + (c + d))
  {
    assert a + b + c == a + (b + c);
    assert a + (b + c) + d == a + (b + c + d);
  }

  /** "players/<id>", the ID verbatim. */
  function PlayerEndpoint(id: string): (endpoint: string)
    ensures |endpoint| == 8 + |id| && endpoint[..8] == "players/" && endpoint[8..] == id
  {
    "players/" + id
  }

  /** "war-history/<id>", the ID verbatim. */
  function WarHistoryEndpoint(id: string): (endpoint: string)
    ensures |endpoint| == 12 + |id| && endpoint[..12] == "war-history/" && endpoint[12..] == id
  {
    "war-history/" + id
  }

  predicate NoAmpersand(s: string)
  {
    forall k :: 0 <= k < |s| ==> s[k] != '&'
  }

  lemma IntToStringHasNoAmpersand(n: int)
    ensures NoAmpersand(IntToString(n))
  {
    var s := IntToString(n);
    forall k | 0 <= k < |s|
      ensures s[k] != '&'
    {
      if k > 0 && n < 0 {
        assert s[k] == s[1..][k - 1];
      }
    }
  }

  /** The index of the first '&' in `s`, or `|s|` when there is none. */
  function FirstAmpersand(s: string): (i: nat)
    ensures i <= |s|
    ensures i < |s| ==> s[i] == '&'
    ensures forall k :: 0 <= k < i ==> s[k] != '&'
  {
    if s == [] || s[0] == '&' then 0 else 1 + FirstAmpersand(s[1..])
  }

  lemma {:induction false} FirstAmpersandAfter(a: string, r: string)
    requires NoAmpersand(a) && |r| > 0 && r[0] == '&'
    ensures FirstAmpersand(a + r) == |a|
  {
    if a == [] {
      assert a + r == r;
    } else {
      assert (a + r)[0] == a[0];
      assert (a + r)[1..] == a[1..] + r;
      FirstAmpersandAfter(a[1..], r);
    }
  }

  /** A text split at its first '&' splits in one way only. */
  lemma SplitAtFirstAmpersand(a1: string, r1: string, a2: string, r2: string)
    requires NoAmpersand(a1) && NoAmpersand(a2)
    requires |r1| > 0 && r1[0] == '&' && |r2| > 0 && r2[0] == '&'
    requires a1 + r1 == a2 + r2
    ensures a1 == a2 && r1 == r2
  {
    FirstAmpersandAfter(a1, r1);
    FirstAmpersandAfter(a2, r2);
    assert a1 == (a1 + r1)[..|a1|];
    assert a2 == (a2 + r2)[..|a2|];
    assert r1 == (a1 + r1)[|a1|..];
    assert r2 == (a2 + r2)[|a2|..];
  }

  /** Equal texts with the same prefix agree after it. */
  lemma StripPrefix(prefix: string, t1: string, t2: string)
    requires prefix + t1 == prefix + t2
    ensures t1 == t2
  {
    assert t1 == (prefix + t1)[|prefix|..];
    assert t2 == (prefix + t2)[|prefix|..];
  }

  /** Different page requests give different endpoints: the page and page size can be read back. */
  lemma FetchAllPlayersEndpointInjective(p1: int, s1: int, p2: int, s2: int)
    requires FetchAllPlayersEndpoint(p1, s1) == FetchAllPlayersEndpoint(p2, s2)
    ensures p1 == p2 && s1 == s2
  {
    Regroup(PageParam, IntToString(p1), PageSizeParam, IntToString(s1));
    Regroup(PageParam, IntToString(p2), PageSizeParam, IntToString(s2));
    var r1, r2 := PageSizeParam + IntToString(s1), PageSizeParam + IntToString(s2);
    StripPrefix(PageParam, IntToString(p1) + r1, IntToString(p2) + r2);
    IntToStringHasNoAmpersand(p1);
    IntToStringHasNoAmpersand(p2);
    SplitAtFirstAmpersand(IntToString(p1), r1, IntToString(p2), r2);
    StripPrefix(PageSizeParam, IntToString(s1), IntToString(s2));
    IntToStringInjective(p1, p2);
    IntToStringInjective(s1, s2);
  }

  /** `FetchAllPlayers`: the `Items` of the page, or a nil slice with the error. */
  method FetchAllPlayers(d: Client, page: int, pageSize: int, json: Json, wire: Network) returns (items: Value, err: Option<Error>)
    modifies wire
    ensures var x := Execute(AuthedSpec(d.apiConfig, d.token, "GET", FetchAllPlayersEndpoint(page, pageSize), EmptyBody),
                             PlayersListResponseType, json, wire.net, |old(wire.sent)|);
      && wire.sent == old(wire.sent) + SentList(x)
      && (items, err) == (if x.err.Some? then (NilSlice, x.err) else (ListOf(x.resp), None))
  {
    var response, requestErr := AuthedRequest(d, "GET", FetchAllPlayersEndpoint(page, pageSize), EmptyBody,
                                              PlayersListResponseType, json, wire);
    if requestErr.Some? {
      return NilSlice, requestErr;
    }
    return ListOf(response), None;
  }

  /** `CreatePlayer`: the request as body (no body at all when all its fields are empty). */
  method CreatePlayer(d: Client, req: CreatePlayerRequest, json: Json, wire: Network) returns (player: Value, err: Option<Error>)
    modifies wire
    ensures var x := Execute(AuthedSpec(d.apiConfig, d.token, "POST", "players", req.ToValue()),
                             PlayerType, json, wire.net, |old(wire.sent)|);
      && wire.sent == old(wire.sent) + SentList(x)
      && (player, err) == (if x.err.Some? then (ZeroOf(PlayerType), x.err) else (x.resp, None))
  {
    var response, requestErr := AuthedRequest(d, "POST", "players", req.ToValue(), PlayerType, json, wire);
    if requestErr.Some? {
      return ZeroOf(PlayerType), requestErr;
    }
    return response, None;
  }

  /** `ValidatePlayerName`: the `Valid` flag of the response, or false with the error. */
  method ValidatePlayerName(d: Client, name: string, json: Json, wire: Network) returns (valid: bool, err: Option<Error>)
    modifies wire
    ensures var x := Execute(AuthedSpec(d.apiConfig, d.token, "POST", "players/validate-name", Map(map["name" := Str(name)])),
                             ValidNameResponseType, json, wire.net, |old(wire.sent)|);
      && wire.sent == old(wire.sent) + SentList(x)
      && (valid, err) == (if x.err.Some? then (false, x.err) else (BoolOf(FieldOf(x.resp, 0, BoolType)), None))
  {
    var response, requestErr := AuthedRequest(d, "POST", "players/validate-name", Map(map["name" := Str(name)]),
                                              ValidNameResponseType, json, wire);
    if requestErr.Some? {
      return false, requestErr;
    }
    return BoolOf(FieldOf(response, 0, BoolType)), None;
  }

  /** `FetchPlayerByID`: GET "players/<id>". */
  method FetchPlayerById(d: Client, id: string, json: Json, wire: Network) returns (player: Value, err: Option<Error>)
    modifies wire
    ensures var x := Execute(AuthedSpec(d.apiConfig, d.token, "GET", PlayerEndpoint(id), EmptyBody),
                             PlayerType, json, wire.net, |old(wire.sent)|);
      && wire.sent == old(wire.sent) + SentList(x)
      && (player, err) == (if x.err.Some? then (ZeroOf(PlayerType), x.err) else (x.resp, None))
  {
    var response, requestErr := AuthedRequest(d, "GET", PlayerEndpoint(id), EmptyBody, PlayerType, json, wire);
    if requestErr.Some? {
      return ZeroOf(PlayerType), requestErr;
    }
    return response, None;
  }

  /** The body of FetchAllMatchingIDs: a non-nil map whose "ids" entry is the ID slice (nil when `ids` is None). */
  function MatchingIdsPayload(ids: Option<seq<string>>): (v: Value)
    ensures !IsZero(v)
    ensures v.Map? && v.entries.Keys == {"ids"}
    ensures ids.None? ==> v.entries["ids"] == NilSlice
    ensures ids.Some? ==>
      && v.entries["ids"].Slice?
      && |v.entries["ids"].elems| == |ids.value|
      && forall k :: 0 <= k < |ids.value| ==> v.entries["ids"].elems[k] == Str(ids.value[k])
  {
    Map(map["ids" := match ids
                     case None => NilSlice
                     case Some(s) => Slice(seq(|s|, k requires 0 <= k < |s| => Str(s[k])))])
  }

  /** `FetchAllMatchingIDs`: the `Players` of the response, or a nil slice with the error. */
  method FetchAllMatchingIds(d: Client, ids: Option<seq<string>>, json: Json, wire: Network) returns (players: Value, err: Option<Error>)
    modifies wire
    ensures var x := Execute(AuthedSpec(d.apiConfig, d.token, "POST", "players/matching-ids", MatchingIdsPayload(ids)),
                             MatchingPlayersResponseType, json, wire.net, |old(wire.sent)|);
      && wire.sent == old(wire.sent) + SentList(x)
      && (players, err) == (if x.err.Some? then (NilSlice, x.err) else (ListOf(x.resp), None))
  {
    var response, requestErr := AuthedRequest(d, "POST", "players/matching-ids", MatchingIdsPayload(ids),
                                              MatchingPlayersResponseType, json, wire);
    if requestErr.Some? {
      return NilSlice, requestErr;
    }
    return ListOf(response), None;
  }

  /** `FetchWarHistoryByID`: GET "war-history/<id>". */
  method FetchWarHistoryById(d: Client, id: string, json: Json, wire: Network) returns (history: Value, err: Option<Error>)
    modifies wire
    ensures var x := Execute(AuthedSpec(d.apiConfig, d.token, "GET", WarHistoryEndpoint(id), EmptyBody),
                             WarHistoryType, json, wire.net, |old(wire.sent)|);
      && wire.sent == old(wire.sent) + SentList(x)
      && (history, err) == (if x.err.Some? then (ZeroOf(WarHistoryType), x.err) else (x.resp, None))
  {
    var response, requestErr := AuthedRequest(d, "GET", WarHistoryEndpoint(id), EmptyBody, WarHistoryType, json, wire);
    if requestErr.Some? {
      return ZeroOf(WarHistoryType), requestErr;
    }
    return response, None;
  }

  /** `FetchAllWarHistory`: the `Items` of the response, or a nil slice with the error. */
  method FetchAllWarHistory(d: Client, json: Json, wire: Network) returns (items: Value, err: Option<Error>)
    modifies wire
    ensures var x := Execute(AuthedSpec(d.apiConfig, d.token, "GET", "war-history", EmptyBody),
                             WarHistoryListResponseType, json, wire.net, |old(wire.sent)|);
      && wire.sent == old(wire.sent) + SentList(x)
      && (items, err) == (if x.err.Some? then (NilSlice, x.err) else (ListOf(x.resp), None))
  {
    var response, requestErr := AuthedRequest(d, "GET", "war-history", EmptyBody, WarHistoryListResponseType, json, wire);
    if requestErr.Some? {
      return NilSlice, requestErr;
    }
    return ListOf(response), None;
  }

  /** `TrainUnits`: POST "training/train" with the request as body. */
  method TrainUnits(d: Client, req: TrainUnitsRequest, json: Json, wire: Network) returns (resp: Value, err: Option<Error>)
    modifies wire
    ensures var x := Execute(AuthedSpec(d.apiConfig, d.token, "POST", "training/train", req.ToValue()),
                             TrainUnitsResponseType, json, wire.net, |old(wire.sent)|);
      && wire.sent == old(wire.sent) + SentList(x)
      && (resp, err) == (if x.err.Some? then (ZeroOf(TrainUnitsResponseType), x.err) else (x.resp, None))
  {
    var response, requestErr := AuthedRequest(d, "POST", "training/train", req.ToValue(), TrainUnitsResponseType, json, wire);
    if requestErr.Some? {
      return ZeroOf(TrainUnitsResponseType), requestErr;
    }
    return response, None;
  }

  /** `UntrainUnits`: POST "training/untrain" with the request as body. */
  method UntrainUnits(d: Client, req: UntrainUnitsRequest, json: Json, wire: Network) returns (resp: Value, err: Option<Error>)
    modifies wire
    ensures var x := Execute(AuthedSpec(d.apiConfig, d.token, "POST", "training/untrain", req.ToValue()),
                             TrainUnitsResponseType, json, wire.net, |old(wire.sent)|);
      && wire.sent == old(wire.sent) + SentList(x)
      && (resp, err) == (if x.err.Some? then (ZeroOf(TrainUnitsResponseType), x.err) else (x.resp, None))
  {
    var response, requestErr := AuthedRequest(d, "POST", "training/untrain", req.ToValue(), TrainUnitsResponseType, json, wire);
    if requestErr.Some? {
      return ZeroOf(TrainUnitsResponseType), requestErr;
    }
    return response, None;
  }

  /** The attack body: the target and `MinAttackTurns` turns, in a non-nil map, so it is always sent. */
  function AttackPayload(targetID: string): (v: Value)
    ensures !IsZero(v)
    ensures v.Map? && v.entries.Keys == {"targetID", "attackTurns"}
    ensures v.entries["targetID"] == Str(targetID) && v.entries["attackTurns"] == Int(10)
  {
    Map(map["targetID" := Str(targetID), "attackTurns" := Int(MinAttackTurns)])
  }

  function AttackSpec(config: ApiRequestConfig, token: string, targetID: string): RequestSpec
  {
    AuthedSpec(config, token, "POST", "attack", AttackPayload(targetID))
  }

  /** Every attack request that reaches the network carries the marshalled attack body, with the token's headers. */
  lemma AttackAlwaysSendsItsPayload(config: ApiRequestConfig, token: string, targetID: string, json: Json, net: Net, n: nat)
    ensures forall r | r in SentList(Execute(AttackSpec(config, token, targetID), AttackResponseType, json, net, n)) ::
      && r.body.Some? && json.marshal(AttackPayload(targetID)) == Success(r.body.value)
      && r.headers == AuthHeaders(token)
  {
    var x := Execute(AttackSpec(config, token, targetID), AttackResponseType, json, net, n);
    if x.sent.Some? {
      assert ContentType in AuthHeaders(token);
      assert WithDefaultContentType(Some(AuthHeaders(token))) == AuthHeaders(token);
    }
  }

  /** `AttackPlayer`: exactly `IsAttackerVictor` of the response, or false with the error. */
  method AttackPlayer(d: Client, targetID: string, json: Json, wire: Network) returns (victory: bool, err: Option<Error>)
    modifies wire
    ensures var x := Execute(AttackSpec(d.apiConfig, d.token, targetID), AttackResponseType, json, wire.net, |old(wire.sent)|);
      && wire.sent == old(wire.sent) + SentList(x)
      && (victory, err) == (if x.err.Some? then (false, x.err) else (IsAttackerVictor(x.resp), None))
  {
    var response, requestErr := AuthedRequest(d, "POST", "attack", AttackPayload(targetID), AttackResponseType, json, wire);
    if requestErr.Some? {
      return false, requestErr;
    }
    return IsAttackerVictor(response), None;
  }
}
