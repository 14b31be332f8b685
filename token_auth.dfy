// src/handlers/token/auth.rs: the earlier `MethodApiKeyConnect`, whose key
// check has two outcomes only (no "not configured" case).
module TokenAuth {
  import opened Wrappers
  import opened Entities
  import opened JsonValue
  import opened Errors
  import opened Server

  /** `ApiKeyConnectRequest`, by the fields it carries. */
  datatype ApiKeyConnectRequest = ApiKeyConnectRequest(appPublicId: Uuid, appApiKey: string)

  /** `MethodApiKeyConnect::auth` with a `bool` validator. */
  function ApiKeyConnectOutcome(param: Json, decode: Json -> Result<ApiKeyConnectRequest, string>,
                                validate: string -> bool, users: UserDirectory): (o: AuthOutcome)
    ensures o.roles.Some? <==> o.result.Ok?
    ensures o.result.Ok? <==> decode(param).Ok? && validate(decode(param).value.appApiKey)
    ensures o.result.Ok? ==> o.roles == Some([users.honeyAuthRole]) && o.result.value == EMPTY_OBJECT
    // exactly two ways to fail
    ensures o.result.Err? ==>
      o.result == (if decode(param).Err? then Err(InvalidRequest(decode(param).error)) else Err(WRONG_AUTH_API_KEY))
  {
    match decode(param)
    case Err(x) => AuthOutcome(None, Err(InvalidRequest(x)))
    case Ok(req) =>
      if !validate(req.appApiKey) then AuthOutcome(None, Err(WRONG_AUTH_API_KEY))
      else AuthOutcome(Some([users.honeyAuthRole]), Ok(EMPTY_OBJECT))
  }

  class MethodApiKeyConnect {
    /** `honey_id_client.validate_auth_api_key`. */
    const validateAuthApiKey: string -> bool
    const users: UserDirectory
    const decode: Json -> Result<ApiKeyConnectRequest, string>

    constructor (validateAuthApiKey: string -> bool, users: UserDirectory, decode: Json -> Result<ApiKeyConnectRequest, string>)
      ensures this.validateAuthApiKey == validateAuthApiKey && this.users == users && this.decode == decode
    {
      this.validateAuthApiKey := validateAuthApiKey;
      this.users := users;
      this.decode := decode;
    }

    /** `auth(param, conn)`. */
    method Auth(param: Json, conn: WsConnection) returns (r: Result<Json, Report>)
      modifies conn
      ensures conn.roles == RolesAfter(old(conn.roles), ApiKeyConnectOutcome(param, decode, validateAuthApiKey, users))
      ensures r == ApiKeyConnectOutcome(param, decode, validateAuthApiKey, users).result
    {
      var req := decode(param);
      if req.Err? {
        return Err(InvalidRequest(req.error));
      }
      if !validateAuthApiKey(req.value.appApiKey) {
        return Err(WRONG_AUTH_API_KEY);
      }
      conn.SetRoles([users.honeyAuthRole]);
      r := Ok(EMPTY_OBJECT);
    }
  }
}
