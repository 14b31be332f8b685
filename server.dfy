// What the connect and callback handlers see of the server side: the
// WebSocket connection whose role list they set, and the user storage they
// consult. Both are implemented outside this crate (endpoint_libs and the
// embedding app); only the parts the handlers use are modelled.
module Server {
  import opened Wrappers
  import opened Entities
  import opened JsonValue
  import opened Errors

  /** endpoint_libs' `WsConnection`, reduced to the role list that `set_roles` replaces. */
  class WsConnection {
    var roles: seq<Role>

    /** A connection that has not been authorized yet holds no role. */
    constructor ()
      ensures roles == []
    {
      roles := [];
    }

    /** `set_roles(Arc::new(rs))`. */
    method SetRoles(rs: seq<Role>)
      modifies this
      ensures roles == rs
    {
      roles := rs;
    }
  }

  /** `CustomError::new(BadRequest, format!("Invalid request: {x}"))`, raised when a payload does not deserialize. */
  function InvalidRequest(x: string): Report
  {
    Custom(BadRequest, "Invalid request: " + x)
  }

  /** The answer of the access-token connects to a token nobody holds. */
  const WRONG_ACCESS_TOKEN: Report := Custom(BadRequest, "Wrong `accessToken`")

  /** The answer of the API-key connects to a key that does not validate. */
  const WRONG_AUTH_API_KEY: Report := Custom(BadRequest, "Wrong `authApiKey`")

  /** `ReceiveTokenRequest`, the payload of both `receive_token` callbacks. */
  datatype ReceiveTokenRequest = ReceiveTokenRequest(token: string, userPubId: int)

  /**
   * What a connect handler does: the role list it hands to `set_roles`
   * (None when it never calls it) and the value it answers with.
   */
  datatype AuthOutcome = AuthOutcome(roles: Option<seq<Role>>, result: Result<Json, Report>)

  /** The connection's roles after a handler with outcome `o` ran on a connection holding `before`. */
  function RolesAfter(before: seq<Role>, o: AuthOutcome): seq<Role>
  {
    if o.roles.Some? then o.roles.value else before
  }

  /** The user record an upsert carries (`CreateUserInfo`). */
  datatype CreateUserInfo = CreateUserInfo(username: string, userPubId: int, appPubId: Option<Uuid>)

  /**
   * The role lookups of the `UserStorage` revisions:
   * - apiRolesByPubId: `get_api_roles_by_pub_id` (generic handler);
   * - roleByPubId: `get_role_by_pub_id` (app access-token connect);
   * - publicRole / publicRoles: `get_public_role` / `get_public_roles`;
   * - honeyAuthRole: `get_honey_auth_role`.
   */
  datatype UserDirectory = UserDirectory(
    apiRolesByPubId: UserPublicId -> Result<seq<Role>, Report>,
    roleByPubId: UserPublicId -> Result<Role, Report>,
    publicRole: Role,
    publicRoles: seq<Role>,
    honeyAuthRole: Role)

  /**
   * The app's `UserStorage` as the callbacks use it: role lookups and
   * `create_or_update_user`, whose calls are logged in order. `upsertFailure`
   * is the app's answer to an upsert (None: it succeeded).
   */
  class UserStorage {
    const directory: UserDirectory
    const upsertFailure: CreateUserInfo -> Option<Report>
    var upserts: seq<CreateUserInfo>

    constructor (directory: UserDirectory, upsertFailure: CreateUserInfo -> Option<Report>)
      ensures this.directory == directory && this.upsertFailure == upsertFailure
      ensures upserts == []
    {
      this.directory := directory;
      this.upsertFailure := upsertFailure;
      upserts := [];
    }

    /** `create_or_update_user(info)`: recorded, then answered by the app. */
    method CreateOrUpdateUser(info: CreateUserInfo) returns (r: Result<(), Report>)
      modifies this
      ensures upserts == old(upserts) + [info]
      ensures upsertFailure(info).None? ==> r == Ok(())
      ensures upsertFailure(info).Some? ==> r == Err(upsertFailure(info).value)
    {
      upserts := upserts + [info];
      r := if upsertFailure(info).Some? then Err(upsertFailure(info).value) else Ok(());
    }
  }
}
