// src/handlers/convenience_utils/generic_auth_handler.rs: connect handlers
// that check the credential, set the connection's roles and then hand over
// to an app callback. The app's request and response types are type
// parameters; their serde conversions are function values.
module GenericAuthHandler {
  import opened Wrappers
  import opened Entities
  import opened JsonValue
  import opened Errors
  import opened TokenManagement
  import opened Server

  /** `AuthorizedConnectContext` without its `conn` handle. */
  datatype AuthorizedConnectContext = AuthorizedConnectContext(userPubId: UserPublicId, userApiRoles: seq<Role>)

  /**
   * One run of `GenericAuthorizedConnect::auth`: the roles it sets, the
   * context the callback is invoked with (None: the callback never ran),
   * and its answer.
   */
  datatype AuthorizedRun = AuthorizedRun(roles: Option<seq<Role>>, invoked: Option<AuthorizedConnectContext>,
                                         result: Result<Json, Report>)

  /** The credential checks of the authorized connect, in order, all passed. */
  predicate CredentialAccepted<Req>(param: Json, decode: Json -> Result<Req, string>, accessToken: Req -> string,
                                    parseUuid: string -> Result<Uuid, string>, tokens: TableState, users: UserDirectory)
  {
    && decode(param).Ok?
    && parseUuid(accessToken(decode(param).value)).Ok?
    && Validate(tokens, parseUuid(accessToken(decode(param).value)).value).Ok?
    && users.apiRolesByPubId(Validate(tokens, parseUuid(accessToken(decode(param).value)).value).value).Ok?
  }

  /**
   * `GenericAuthorizedConnect::auth`: deserialize the request, parse its
   * access token as a UUID (section 4 of RFC 9562), look up its owner, get
   * the owner's API roles, set them, run the callback, serialize its answer.
   */
  function AuthorizedOutcome<Req, Res>(param: Json, decode: Json -> Result<Req, string>, accessToken: Req -> string,
                                       parseUuid: string -> Result<Uuid, string>, tokens: TableState, users: UserDirectory,
                                       onConnect: (Req, AuthorizedConnectContext) -> Result<Res, Report>,
                                       toValue: Res -> Result<Json, string>): (o: AuthorizedRun)
    // roles are set exactly when every credential check passed, and then the callback runs with them
    ensures o.roles.Some? <==> CredentialAccepted(param, decode, accessToken, parseUuid, tokens, users)
    ensures o.invoked.Some? <==> o.roles.Some?
    ensures o.invoked.Some? ==> o.roles == Some(o.invoked.value.userApiRoles)
    // the callback sees the owner of the presented token and that owner's API roles
    ensures o.invoked.Some? ==>
      var t := parseUuid(accessToken(decode(param).value)).value;
      t in Owners(tokens) && o.invoked.value.userPubId == Owners(tokens)[t]
      && users.apiRolesByPubId(o.invoked.value.userPubId) == Ok(o.invoked.value.userApiRoles)
    ensures o.result.Ok? ==> o.roles.Some?
    // the failures before any role is set
    ensures decode(param).Err? ==> o.result == Err(InvalidRequest(decode(param).error))
    ensures decode(param).Ok? && parseUuid(accessToken(decode(param).value)).Err? ==>
      o.result == Err(InvalidRequest(parseUuid(accessToken(decode(param).value)).error))
    ensures (decode(param).Ok? && parseUuid(accessToken(decode(param).value)).Ok?
             && parseUuid(accessToken(decode(param).value)).value !in Owners(tokens)) ==>
      o.result == Err(WRONG_ACCESS_TOKEN)
    ensures (decode(param).Ok? && parseUuid(accessToken(decode(param).value)).Ok?
             && parseUuid(accessToken(decode(param).value)).value in Owners(tokens)) ==>
      var user := Owners(tokens)[parseUuid(accessToken(decode(param).value)).value];
      users.apiRolesByPubId(user).Err? ==> o.result == Err(users.apiRolesByPubId(user).error)
    // after the roles are set: the callback's error, or its serialized answer
    ensures o.invoked.Some? ==>
      var req := decode(param).value;
      match onConnect(req, o.invoked.value)
      case Err(e) => o.result == Err(e)
      case Ok(res) => o.result == (if toValue(res).Ok? then Ok(toValue(res).value) else Err(Message(toValue(res).error)))
  {
    match decode(param)
    case Err(x) => AuthorizedRun(None, None, Err(InvalidRequest(x)))
    case Ok(req) =>
      match parseUuid(accessToken(req))
      case Err(x) => AuthorizedRun(None, None, Err(InvalidRequest(x)))
      case Ok(token) =>
        ValidateIsOwners(tokens, token);
        match Validate(tokens, token)
        case Err(_) => AuthorizedRun(None, None, Err(WRONG_ACCESS_TOKEN))
        case Ok(user) =>
          match users.apiRolesByPubId(user)
          case Err(e) => AuthorizedRun(None, None, Err(e))
          case Ok(roles) =>
            var ctx := AuthorizedConnectContext(user, roles);
            match onConnect(req, ctx)
            case Err(e) => AuthorizedRun(Some(roles), Some(ctx), Err(e))
            case Ok(res) =>
              match toValue(res)
              case Err(e) => AuthorizedRun(Some(roles), Some(ctx), Err(Message(e)))
              case Ok(v) => AuthorizedRun(Some(roles), Some(ctx), Ok(v))
  }

  /**
   * One run of `GenericPublicConnect::auth`: whether the callback ran, the
   * roles set, the answer.
   */
  datatype PublicRun = PublicRun(roles: Option<seq<Role>>, invoked: bool, result: Result<Json, Report>)

  /** `GenericPublicConnect::auth`: deserialize, set the public roles, run the callback, serialize. */
  function PublicOutcome<Req, Res>(param: Json, decode: Json -> Result<Req, string>, users: UserDirectory,
                                   onConnect: Req -> Result<Res, Report>, toValue: Res -> Result<Json, string>): (o: PublicRun)
    ensures o.roles.Some? <==> decode(param).Ok?
    ensures o.invoked <==> o.roles.Some?
    ensures o.roles.Some? ==> o.roles.value == users.publicRoles
    ensures decode(param).Err? ==> o.result == Err(InvalidRequest(decode(param).error))
    ensures decode(param).Ok? && onConnect(decode(param).value).Err? ==> o.result == Err(onConnect(decode(param).value).error)
    ensures o.result.Ok? ==> o.invoked && toValue(onConnect(decode(param).value).value) == Ok(o.result.value)
    ensures decode(param).Ok? && onConnect(decode(param).value).Ok? ==>
      var out := toValue(onConnect(decode(param).value).value);
      o.result == (if out.Ok? then Ok(out.value) else Err(Message(out.error)))
  {
    match decode(param)
    case Err(x) => PublicRun(None, false, Err(InvalidRequest(x)))
    case Ok(req) =>
      match onConnect(req)
      case Err(e) => PublicRun(Some(users.publicRoles), true, Err(e))
      case Ok(res) =>
        match toValue(res)
        case Err(e) => PublicRun(Some(users.publicRoles), true, Err(Message(e)))
        case Ok(v) => PublicRun(Some(users.publicRoles), true, Ok(v))
  }

  /** `GenericAuthorizedConnect<Req, Res>` over the in-memory token storage. */
  class GenericAuthorizedConnect<Req, Res> {
    const tokenStorage: TokenWorkTableStorage
    const users: UserDirectory
    /** `serde_json::from_value::<Req>`. */
    const decode: Json -> Result<Req, string>
    /** `AuthorizedConnectRequest::get_access_token`. */
    const accessToken: Req -> string
    /** `Uuid::parse_str`. */
    const parseUuid: string -> Result<Uuid, string>
    /** The app's `on_connect` callback. */
    const onConnect: (Req, AuthorizedConnectContext) -> Result<Res, Report>
    /** `serde_json::to_value::<Res>`. */
    const toValue: Res -> Result<Json, string>

    /** `GenericAuthorizedConnect::new(token_storage, user_storage, on_connect)`. */
    constructor (tokenStorage: TokenWorkTableStorage, users: UserDirectory, decode: Json -> Result<Req, string>,
                 accessToken: Req -> string, parseUuid: string -> Result<Uuid, string>,
                 onConnect: (Req, AuthorizedConnectContext) -> Result<Res, Report>, toValue: Res -> Result<Json, string>)
      ensures this.tokenStorage == tokenStorage && this.users == users && this.decode == decode
      ensures this.accessToken == accessToken && this.parseUuid == parseUuid
      ensures this.onConnect == onConnect && this.toValue == toValue
    {
      this.tokenStorage := tokenStorage;
      this.users := users;
      this.decode := decode;
      this.accessToken := accessToken;
      this.parseUuid := parseUuid;
      this.onConnect := onConnect;
      this.toValue := toValue;
    }

    /** `auth(param, conn)`: the token storage is only read. */
    method Auth(param: Json, conn: WsConnection) returns (r: Result<Json, Report>)
      modifies conn
      ensures var o := AuthorizedOutcome(param, decode, accessToken, parseUuid, tokenStorage.State(), users, onConnect, toValue);
        conn.roles == (if o.roles.Some? then o.roles.value else old(conn.roles)) && r == o.result
    {
      var req := decode(param);
      if req.Err? {
        return Err(InvalidRequest(req.error));
      }
      var token := parseUuid(accessToken(req.value));
      if token.Err? {
        return Err(InvalidRequest(token.error));
      }
      var user := tokenStorage.ValidateToken(token.value);
      if user.Err? {
        return Err(WRONG_ACCESS_TOKEN);
      }
      var roles := users.apiRolesByPubId(user.value);
      if roles.Err? {
        return Err(roles.error);
      }
      conn.SetRoles(roles.value);
      var res := onConnect(req.value, AuthorizedConnectContext(user.value, roles.value));
      if res.Err? {
        return Err(res.error);
      }
      var v := toValue(res.value);
      r := if v.Ok? then Ok(v.value) else Err(Message(v.error));
    }
  }

  /** `GenericPublicConnect<Req, Res>`. */
  class GenericPublicConnect<Req, Res> {
    const users: UserDirectory
    const decode: Json -> Result<Req, string>
    const onConnect: Req -> Result<Res, Report>
    const toValue: Res -> Result<Json, string>

    /** `GenericPublicConnect::new(user_storage, on_connect)`. */
    constructor (users: UserDirectory, decode: Json -> Result<Req, string>, onConnect: Req -> Result<Res, Report>,
                 toValue: Res -> Result<Json, string>)
      ensures this.users == users && this.decode == decode && this.onConnect == onConnect && this.toValue == toValue
    {
      this.users := users;
      this.decode := decode;
      this.onConnect := onConnect;
      this.toValue := toValue;
    }

    /** `auth(param, conn)`. */
    method Auth(param: Json, conn: WsConnection) returns (r: Result<Json, Report>)
      modifies conn
      ensures var o := PublicOutcome(param, decode, users, onConnect, toValue);
        conn.roles == (if o.roles.Some? then o.roles.value else old(conn.roles)) && r == o.result
    {
      var req := decode(param);
      if req.Err? {
        return Err(InvalidRequest(req.error));
      }
      conn.SetRoles(users.publicRoles);
      var res := onConnect(req.value);
      if res.Err? {
        return Err(res.error);
      }
      var v := toValue(res.value);
      r := if v.Ok? then Ok(v.value) else Err(Message(v.error));
    }
  }

  /**
   * `GenericConnectHandler` around a `CustomConnectHandler` (a
   * `ClosureHandler` included): the custom handler decides the roles it
   * sets and the answer.
   */
  class GenericConnectHandler {
    const customHandler: Json -> AuthOutcome

    constructor (customHandler: Json -> AuthOutcome)
      ensures this.customHandler == customHandler
    {
      this.customHandler := customHandler;
    }

    /** `auth(param, conn)`: exactly what the custom handler does with `param`. */
    method Auth(param: Json, conn: WsConnection) returns (r: Result<Json, Report>)
      modifies conn
      ensures conn.roles == RolesAfter(old(conn.roles), customHandler(param))
      ensures r == customHandler(param).result
    {
      var o := customHandler(param);
      if o.roles.Some? {
        conn.SetRoles(o.roles.value);
      }
      r := o.result;
    }
  }
}
