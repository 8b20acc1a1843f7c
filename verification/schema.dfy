/**
 * The record types the endpoints exchange (user.go and player.go), as declared types and
 * as request values, with the field reads the endpoints make on decoded responses.
 */
module Schema {
  import opened Results
  import opened Values

  /** `struct{}`: the body of every request that sends nothing, and the response of calls that ignore it. */
  const EmptyStructType := StructType([])
  const EmptyBody := Struct([])

  /** Player: ID, Name, Gold, Level, ArmySize, Units, AttackTurns. */
  const PlayerType := StructType([StringType, StringType, IntType, IntType, IntType, SliceType, IntType])
  /** CurrentUserResponse: Player. */
  const CurrentUserResponseType := StructType([PlayerType])
  /** UserPlayersListResponse: a slice of Player. */
  const UserPlayersListResponseType := SliceType
  /** The session record inside LoginResponse/RegisterResponse: Id, Email, Player_id, Has_confirmed_email, Server_time. */
  const SessionType := StructType([StringType, StringType, PointerType(StringType), BoolType, StringType])
  /** LoginResponse: Session, Token. */
  const LoginResponseType := StructType([SessionType, StringType])
  /** RegisterResponse has the same layout as LoginResponse. */
  const RegisterResponseType := StructType([SessionType, StringType])
  /** PlayersListResponse: Items. */
  const PlayersListResponseType := StructType([SliceType])
  /** AttackResponse: IsAttackerVictor. */
  const AttackResponseType := StructType([BoolType])
  /** WarHistory: ID, PlayerID, Opponent, Result, Timestamp. */
  const WarHistoryType := StructType([StringType, StringType, StringType, StringType, StringType])
  /** TrainUnitsResponse and UntrainUnitsResponse: Success, Message. */
  const TrainUnitsResponseType := StructType([BoolType, StringType])
  /** The anonymous responses of ValidatePlayerName (Valid), FetchAllMatchingIDs (Players) and FetchAllWarHistory (Items). */
  const ValidNameResponseType := StructType([BoolType])
  const MatchingPlayersResponseType := StructType([SliceType])
  const WarHistoryListResponseType := StructType([SliceType])

  /** Field `k` of a struct value; a value of another shape reads as the zero of the field's type. */
  function FieldOf(v: Value, k: nat, t: ValueType): Value
  {
    if v.Struct? && k < |v.fields| then v.fields[k] else ZeroOf(t)
  }

  function StringOf(v: Value): string
  {
    if v.Str? then v.s else ""
  }

  function BoolOf(v: Value): bool
  {
    v.Bool? && v.b
  }

  /** The elements of a slice; `len` of a nil slice is 0. */
  function ElementsOf(v: Value): seq<Value>
  {
    if v.Slice? then v.elems else []
  }

  /** `player.ID` */
  function PlayerId(player: Value): string
  {
    StringOf(FieldOf(player, 0, StringType))
  }

  /** `response.Player` of a CurrentUserResponse */
  function PlayerOf(response: Value): Value
  {
    FieldOf(response, 0, PlayerType)
  }

  /** `response.Token` of a LoginResponse */
  function TokenOf(response: Value): string
  {
    StringOf(FieldOf(response, 1, StringType))
  }

  /** `response.IsAttackerVictor` of an AttackResponse */
  function IsAttackerVictor(response: Value): bool
  {
    BoolOf(FieldOf(response, 0, BoolType))
  }

  /** The one slice field of PlayersListResponse and the other single-list responses */
  function ListOf(response: Value): Value
  {
    FieldOf(response, 0, SliceType)
  }

  /** On a value of its declared type, each read above is the named field itself. */
  lemma FieldReadsAreExact(v: Value, ts: seq<ValueType>, k: nat)
    requires HasType(v, StructType(ts)) && k < |ts|
    ensures FieldOf(v, k, ts[k]) == v.fields[k]
    ensures HasType(FieldOf(v, k, ts[k]), ts[k])
  {
  }

  datatype LoginRequest = LoginRequest(email: string, password: string)
  {
    /** The struct value sent as the body; it is zero only when both fields are empty. */
    function ToValue(): (v: Value)
      ensures HasType(v, StructType([StringType, StringType]))
      ensures IsZero(v) <==> email == "" && password == ""
    {
      var v := Struct([Str(email), Str(password)]);
      assert IsZero(v) <==> IsZero(v.fields[0]) && IsZero(v.fields[1]);
      v
    }
  }

  datatype RegisterRequest = RegisterRequest(email: string, password: string, confirmPassword: string, username: string)
  {
    function ToValue(): (v: Value)
      ensures HasType(v, StructType([StringType, StringType, StringType, StringType]))
      ensures IsZero(v) <==> email == "" && password == "" && confirmPassword == "" && username == ""
    {
      var v := Struct([Str(email), Str(password), Str(confirmPassword), Str(username)]);
      assert IsZero(v) <==> IsZero(v.fields[0]) && IsZero(v.fields[1]) && IsZero(v.fields[2]) && IsZero(v.fields[3]);
      v
    }
  }

  datatype CreatePlayerRequest = CreatePlayerRequest(name: string, race: string, password: string)
  {
    /** Zero, so sent without any body, exactly when name, race and password are all empty. */
    function ToValue(): (v: Value)
      ensures HasType(v, StructType([StringType, StringType, StringType]))
      ensures IsZero(v) <==> name == "" && race == "" && password == ""
    {
      var v := Struct([Str(name), Str(race), Str(password)]);
      assert IsZero(v) <==> IsZero(v.fields[0]) && IsZero(v.fields[1]) && IsZero(v.fields[2]);
      v
    }
  }

  datatype UnitRequest = UnitRequest(unitType: string, quantity: int)
  {
    function ToValue(): Value
    {
      Struct([Str(unitType), Int(quantity)])
    }
  }

  /** TrainUnitsRequest and UntrainUnitsRequest share this layout; `units == None` is a nil slice. */
  datatype TrainUnitsRequest = TrainUnitsRequest(playerID: string, units: Option<seq<UnitRequest>>)
  {
    /** Zero exactly when the player ID is empty and the unit slice is nil (an empty non-nil slice is not zero). */
    function ToValue(): (v: Value)
      ensures HasType(v, StructType([StringType, SliceType]))
      ensures IsZero(v) <==> playerID == "" && units.None?
    {
      var unitSlice := match units
        case None => NilSlice
        case Some(us) => Slice(seq(|us|, k requires 0 <= k < |us| => us[k].ToValue()));
      var v := Struct([Str(playerID), unitSlice]);
      assert IsZero(v) <==> IsZero(v.fields[0]) && IsZero(v.fields[1]);
      v
    }
  }

  type UntrainUnitsRequest = TrainUnitsRequest
}
