// src/handlers/public.rs: `MethodPublicConnect`, which accepts any payload
// that deserializes and grants the public role.
module PublicHandler {
  import opened Wrappers
  import opened Entities
  import opened JsonValue
  import opened Errors
  import opened Server

  /** `PublicConnectRequest {}`: deserializing it either succeeds or fails with a message. */
  datatype PublicConnectRequest = PublicConnectRequest

  /** `MethodPublicConnect::auth`. */
  function PublicConnectOutcome(param: Json, decode: Json -> Result<PublicConnectRequest, string>,
                                users: UserDirectory): (o: AuthOutcome)
    ensures o.roles.Some? <==> o.result.Ok?
    // the only failure is a payload that does not deserialize
    ensures o.result.Ok? <==> decode(param).Ok?
    ensures o.result.Err? ==> o.result.error == InvalidRequest(decode(param).error)
    ensures o.result.Ok? ==> o.roles == Some([users.publicRole]) && o.result.value == EMPTY_OBJECT
  {
    match decode(param)
    case Err(x) => AuthOutcome(None, Err(InvalidRequest(x)))
    case Ok(_) => AuthOutcome(Some([users.publicRole]), Ok(EMPTY_OBJECT))
  }

  /** The roles granted do not depend on what the payload says, once it deserializes. */
  lemma PublicRoleIndependentOfPayload(p: Json, q: Json, decode: Json -> Result<PublicConnectRequest, string>,
                                       users: UserDirectory)
    requires decode(p).Ok? && decode(q).Ok?
    ensures PublicConnectOutcome(p, decode, users) == PublicConnectOutcome(q, decode, users)
  {
  }

  class MethodPublicConnect {
    const users: UserDirectory
    const decode: Json -> Result<PublicConnectRequest, string>

    constructor (users: UserDirectory, decode: Json -> Result<PublicConnectRequest, string>)
      ensures this.users == users && this.decode == decode
    {
      this.users := users;
      this.decode := decode;
    }

    /** `auth(param, conn)`. */
    method Auth(param: Json, conn: WsConnection) returns (r: Result<Json, Report>)
      modifies conn
      ensures conn.roles == RolesAfter(old(conn.roles), PublicConnectOutcome(param, decode, users))
      ensures r == PublicConnectOutcome(param, decode, users).result
    {
      var req := decode(param);
      if req.Err? {
        return Err(InvalidRequest(req.error));
      }
      conn.SetRoles([users.publicRole]);
      r := Ok(EMPTY_OBJECT);
    }
  }
}
