// src/handlers/app/auth.rs: `MethodAccessTokenConnect`, the access-token
// connect that grants the single role stored for the token's owner.
module AppAuth {
  import opened Wrappers
  import opened Entities
  import opened JsonValue
  import opened Errors
  import opened TokenManagement
  import opened Server

  /** `AccessTokenConnectRequest`: its access token is already a UUID. */
  datatype AccessTokenConnectRequest = AccessTokenConnectRequest(accessToken: Uuid)

  /** `MethodAccessTokenConnect::auth`: deserialize, look up the owner, get its role, set it. */
  function AccessTokenConnectOutcome(param: Json, decode: Json -> Result<AccessTokenConnectRequest, string>,
                                     tokens: TableState, users: UserDirectory): (o: AuthOutcome)
    ensures o.roles.Some? <==> o.result.Ok?
    // success: a stored token, and the owner's role as the only role
    ensures o.result.Ok? <==>
      decode(param).Ok? && decode(param).value.accessToken in Owners(tokens)
      && users.roleByPubId(Owners(tokens)[decode(param).value.accessToken]).Ok?
    ensures o.result.Ok? ==>
      o.roles == Some([users.roleByPubId(Owners(tokens)[decode(param).value.accessToken]).value])
      && o.result.value == EMPTY_OBJECT
    ensures decode(param).Err? ==> o.result == Err(InvalidRequest(decode(param).error))
    ensures decode(param).Ok? && decode(param).value.accessToken !in Owners(tokens) ==> o.result == Err(WRONG_ACCESS_TOKEN)
    // a failed role lookup is passed on as it is
    ensures (decode(param).Ok? && decode(param).value.accessToken in Owners(tokens)
             && users.roleByPubId(Owners(tokens)[decode(param).value.accessToken]).Err?) ==>
      o.result == Err(users.roleByPubId(Owners(tokens)[decode(param).value.accessToken]).error)
  {
    match decode(param)
    case Err(x) => AuthOutcome(None, Err(InvalidRequest(x)))
    case Ok(req) =>
      ValidateIsOwners(tokens, req.accessToken);
      match Validate(tokens, req.accessToken)
      case Err(_) => AuthOutcome(None, Err(WRONG_ACCESS_TOKEN))
      case Ok(user) =>
        match users.roleByPubId(user)
        case Err(e) => AuthOutcome(None, Err(e))
        case Ok(role) => AuthOutcome(Some([role]), Ok(EMPTY_OBJECT))
  }

  /**
   * Once ReceiveToken-style storage has accepted (u, t), connecting with t
   * grants u's role, provided the role lookup succeeds.
   */
  lemma StoredTokenConnects(param: Json, decode: Json -> Result<AccessTokenConnectRequest, string>,
                            s: TableState, users: UserDirectory, u: UserPublicId, t: Uuid)
    requires Inv(s) && Store(s, u, t).result.Ok?
    requires decode(param) == Ok(AccessTokenConnectRequest(t)) && users.roleByPubId(u).Ok?
    ensures AccessTokenConnectOutcome(param, decode, Store(s, u, t).state, users).roles == Some([users.roleByPubId(u).value])
  {
    StoreAcceptedMaps(s, u, t);
  }

  class MethodAccessTokenConnect {
    const tokenStorage: TokenWorkTableStorage
    const users: UserDirectory
    const decode: Json -> Result<AccessTokenConnectRequest, string>

    constructor (tokenStorage: TokenWorkTableStorage, users: UserDirectory,
                 decode: Json -> Result<AccessTokenConnectRequest, string>)
      ensures this.tokenStorage == tokenStorage && this.users == users && this.decode == decode
    {
      this.tokenStorage := tokenStorage;
      this.users := users;
      this.decode := decode;
    }

    /** `auth(param, conn)`: the token storage is only read. */
    method Auth(param: Json, conn: WsConnection) returns (r: Result<Json, Report>)
      modifies conn
      ensures conn.roles == RolesAfter(old(conn.roles), AccessTokenConnectOutcome(param, decode, tokenStorage.State(), users))
      ensures r == AccessTokenConnectOutcome(param, decode, tokenStorage.State(), users).result
    {
      var req := decode(param);
      if req.Err? {
        return Err(InvalidRequest(req.error));
      }
      var user := tokenStorage.ValidateToken(req.value.accessToken);
      if user.Err? {
        return Err(WRONG_ACCESS_TOKEN);
      }
      var role := users.roleByPubId(user.value);
      if role.Err? {
        return Err(role.error);
      }
      conn.SetRoles([role.value]);
      r := Ok(EMPTY_OBJECT);
    }
  }
}
