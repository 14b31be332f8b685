// src/handlers/auth_to_app.rs: the handlers the honey.id auth backend calls
// on the app backend. ApiKeyConnect authorizes the auth backend's
// connection with the three-state key check; ReceiveToken and
// ReceiveUserInfo record a user and then the user's token.
module AuthToApp {
  import opened Wrappers
  import opened Entities
  import opened JsonValue
  import opened Errors
  import opened TokenManagement
  import opened Server

  const AUTH_API_KEY_NOT_CONFIGURED: Report :=
    Custom(InternalError, "authApiKey has not been configured within Honey API app. App needs to be configured and restarted")
  const TOKEN_NOT_UUID: Report := Message("Error parsing given token as UUID")

  /** `HoneyApiKeyConnectRequest`, by the field the handler reads. */
  datatype HoneyApiKeyConnectRequest = HoneyApiKeyConnectRequest(appApiKey: string)

  /**
   * `MethodApiKeyConnect::auth`. `validate` is the client's
   * `validate_auth_api_key`: None when no key is configured, otherwise
   * whether the presented key matches it.
   */
  function ApiKeyConnectOutcome(param: Json, decode: Json -> Result<HoneyApiKeyConnectRequest, string>,
                                validate: string -> Option<bool>, users: UserDirectory): (o: AuthOutcome)
    // roles change exactly on success, and only to the auth role
    ensures o.roles.Some? <==> o.result.Ok?
    ensures o.result.Ok? <==> decode(param).Ok? && validate(decode(param).value.appApiKey) == Some(true)
    ensures o.result.Ok? ==> o.roles == Some([users.honeyAuthRole]) && o.result.value == EMPTY_OBJECT
    // three distinct failures
    ensures decode(param).Err? ==> o.result == Err(InvalidRequest(decode(param).error))
    ensures decode(param).Ok? && validate(decode(param).value.appApiKey) == Some(false) ==>
      o.result == Err(WRONG_AUTH_API_KEY)
    ensures decode(param).Ok? && validate(decode(param).value.appApiKey).None? ==>
      o.result == Err(AUTH_API_KEY_NOT_CONFIGURED)
  {
    match decode(param)
    case Err(x) => AuthOutcome(None, Err(InvalidRequest(x)))
    case Ok(req) =>
      match validate(req.appApiKey)
      case Some(false) => AuthOutcome(None, Err(WRONG_AUTH_API_KEY))
      case None => AuthOutcome(None, Err(AUTH_API_KEY_NOT_CONFIGURED))
      case Some(true) => AuthOutcome(Some([users.honeyAuthRole]), Ok(EMPTY_OBJECT))
  }

  /** A wrong key and a missing key are told apart: one is the caller's fault, the other the app's. */
  lemma WrongAndUnconfiguredKeyDiffer(param: Json, param': Json, decode: Json -> Result<HoneyApiKeyConnectRequest, string>,
                                      validate: string -> Option<bool>, users: UserDirectory)
    requires decode(param).Ok? && validate(decode(param).value.appApiKey) == Some(false)
    requires decode(param').Ok? && validate(decode(param').value.appApiKey).None?
    ensures ApiKeyConnectOutcome(param, decode, validate, users).result.error.kind == BadRequest
    ensures ApiKeyConnectOutcome(param', decode, validate, users).result.error.kind == InternalError
  {
  }

  class MethodApiKeyConnect {
    /** `honey_id_client.validate_auth_api_key`. */
    const validateAuthApiKey: string -> Option<bool>
    const users: UserDirectory
    const decode: Json -> Result<HoneyApiKeyConnectRequest, string>

    constructor (validateAuthApiKey: string -> Option<bool>, users: UserDirectory,
                 decode: Json -> Result<HoneyApiKeyConnectRequest, string>)
      ensures this.validateAuthApiKey == validateAuthApiKey && this.users == users && this.decode == decode
    {
      this.validateAuthApiKey := validateAuthApiKey;
      this.users := users;
      this.decode := decode;
    }

    /** `auth(param, conn)`. */
    method Auth(param: Json, conn: WsConnection) returns (r: Result<Json, Report>)
      modifies conn
      ensures conn.roles == RolesAfter(old(conn.roles), ApiKeyConnectOutcome(param, decode, validateAuthApiKey, users))
      ensures r == ApiKeyConnectOutcome(param, decode, validateAuthApiKey, users).result
    {
      var req := decode(param);
      if req.Err? {
        return Err(InvalidRequest(req.error));
      }
      var valid := validateAuthApiKey(req.value.appApiKey);
      if valid == Some(false) {
        return Err(WRONG_AUTH_API_KEY);
      } else if valid.None? {
        return Err(AUTH_API_KEY_NOT_CONFIGURED);
      }
      conn.SetRoles([users.honeyAuthRole]);
      r := Ok(EMPTY_OBJECT);
    }
  }

  /** `HoneyReceiveTokenRequest`. */
  datatype HoneyReceiveTokenRequest = HoneyReceiveTokenRequest(token: string, userPubId: int, username: string)

  /** `HoneyReceiveUserInfoRequest`. */
  datatype HoneyReceiveUserInfoRequest =
    HoneyReceiveUserInfoRequest(userPubId: int, username: string, appPubId: Option<Uuid>, token: Option<string>)

  /**
   * One run of a callback handler: the upsert it made (None: user storage
   * was not called), the token table afterwards, and its answer (`Ok(())`
   * stands for the empty response).
   */
  datatype CallbackRun = CallbackRun(upserted: Option<CreateUserInfo>, table: TableState, result: Result<(), Report>)

  /** The user storage's answer to one upsert. */
  function Upsert(upsertFailure: CreateUserInfo -> Option<Report>, info: CreateUserInfo): Result<(), Report>
  {
    if upsertFailure(info).Some? then Err(upsertFailure(info).value) else Ok(())
  }

  /**
   * `MethodReceiveToken::handle`: parse the token, upsert the user with no
   * app id, then store the token.
   */
  function ReceiveTokenRun(req: HoneyReceiveTokenRequest, parseUuid: string -> Result<Uuid, string>,
                           upsertFailure: CreateUserInfo -> Option<Report>, s: TableState): (o: CallbackRun)
    // a malformed token fails before either storage is touched
    ensures o.upserted.Some? <==> parseUuid(req.token).Ok?
    ensures parseUuid(req.token).Err? ==> o.table == s && o.result == Err(Message(parseUuid(req.token).error))
    ensures o.upserted.Some? ==> o.upserted.value == CreateUserInfo(req.username, req.userPubId, None)
    // a failed upsert stores no token
    ensures o.upserted.Some? && Upsert(upsertFailure, o.upserted.value).Err? ==>
      o.table == s && o.result == Upsert(upsertFailure, o.upserted.value)
    // otherwise the answer and the table are those of store_token(user, token)
    ensures o.upserted.Some? && Upsert(upsertFailure, o.upserted.value).Ok? ==>
      Step(o.result, o.table) == Store(s, UserPublicId(req.userPubId), parseUuid(req.token).value)
  {
    match parseUuid(req.token)
    case Err(x) => CallbackRun(None, s, Err(Message(x)))
    case Ok(token) =>
      var info := CreateUserInfo(req.username, req.userPubId, None);
      match Upsert(upsertFailure, info)
      case Err(e) => CallbackRun(Some(info), s, Err(e))
      case Ok(_) =>
        var step := Store(s, UserPublicId(req.userPubId), token);
        CallbackRun(Some(info), step.state, step.result)
  }

  /**
   * `MethodReceiveUserInfo::handle`: upsert the user with the given app id;
   * then, if a token came along, parse it and store it.
   */
  function ReceiveUserInfoRun(req: HoneyReceiveUserInfoRequest, parseUuid: string -> Result<Uuid, string>,
                              upsertFailure: CreateUserInfo -> Option<Report>, s: TableState): (o: CallbackRun)
    // the upsert always runs first
    ensures o.upserted == Some(CreateUserInfo(req.username, req.userPubId, req.appPubId))
    ensures Upsert(upsertFailure, o.upserted.value).Err? ==> o.table == s && o.result == Upsert(upsertFailure, o.upserted.value)
    ensures Upsert(upsertFailure, o.upserted.value).Ok? && req.token.None? ==> o.table == s && o.result == Ok(())
    // an unparsable token fails after the upsert, which stays
    ensures Upsert(upsertFailure, o.upserted.value).Ok? && req.token.Some? && parseUuid(req.token.value).Err? ==>
      o.table == s && o.result == Err(TOKEN_NOT_UUID)
    ensures Upsert(upsertFailure, o.upserted.value).Ok? && req.token.Some? && parseUuid(req.token.value).Ok? ==>
      Step(o.result, o.table) == Store(s, UserPublicId(req.userPubId), parseUuid(req.token.value).value)
  {
    var info := CreateUserInfo(req.username, req.userPubId, req.appPubId);
    match Upsert(upsertFailure, info)
    case Err(e) => CallbackRun(Some(info), s, Err(e))
    case Ok(_) =>
      if req.token.None? then CallbackRun(Some(info), s, Ok(()))
      else
        match parseUuid(req.token.value)
        case Err(_) => CallbackRun(Some(info), s, Err(TOKEN_NOT_UUID))
        case Ok(token) =>
          var step := Store(s, UserPublicId(req.userPubId), token);
          CallbackRun(Some(info), step.state, step.result)
  }

  /**
   * A successful ReceiveToken leaves the token valid for the user it was
   * sent for, and either callback keeps the table's invariant.
   */
  lemma ReceiveTokenValidates(req: HoneyReceiveTokenRequest, parseUuid: string -> Result<Uuid, string>,
                              upsertFailure: CreateUserInfo -> Option<Report>, s: TableState)
    requires Inv(s)
    ensures Inv(ReceiveTokenRun(req, parseUuid, upsertFailure, s).table)
    ensures ReceiveTokenRun(req, parseUuid, upsertFailure, s).result.Ok? ==>
      Validate(ReceiveTokenRun(req, parseUuid, upsertFailure, s).table, parseUuid(req.token).value) == Ok(UserPublicId(req.userPubId))
  {
    var o := ReceiveTokenRun(req, parseUuid, upsertFailure, s);
    if o.upserted.Some? && Upsert(upsertFailure, o.upserted.value).Ok? {
      var u, t := UserPublicId(req.userPubId), parseUuid(req.token).value;
      StorePreservesInv(s, u, t);
      if o.result.Ok? {
        StoreThenValidate(s, u, t, t);
      }
    }
  }

  /** The same for ReceiveUserInfo carrying a token. */
  lemma ReceiveUserInfoValidates(req: HoneyReceiveUserInfoRequest, parseUuid: string -> Result<Uuid, string>,
                                 upsertFailure: CreateUserInfo -> Option<Report>, s: TableState)
    requires Inv(s)
    ensures Inv(ReceiveUserInfoRun(req, parseUuid, upsertFailure, s).table)
    ensures ReceiveUserInfoRun(req, parseUuid, upsertFailure, s).result.Ok? && req.token.Some? ==>
      parseUuid(req.token.value).Ok? &&
      Validate(ReceiveUserInfoRun(req, parseUuid, upsertFailure, s).table, parseUuid(req.token.value).value) == Ok(UserPublicId(req.userPubId))
  {
    var o := ReceiveUserInfoRun(req, parseUuid, upsertFailure, s);
    if Upsert(upsertFailure, o.upserted.value).Ok? && req.token.Some? && parseUuid(req.token.value).Ok? {
      var u, t := UserPublicId(req.userPubId), parseUuid(req.token.value).value;
      StorePreservesInv(s, u, t);
      if o.result.Ok? {
        StoreThenValidate(s, u, t, t);
      }
    }
  }

  class MethodReceiveToken {
    const tokenStorage: TokenWorkTableStorage
    const userStorage: UserStorage
    /** `uuid::Uuid::parse_str`. */
    const parseUuid: string -> Result<Uuid, string>

    constructor (tokenStorage: TokenWorkTableStorage, userStorage: UserStorage, parseUuid: string -> Result<Uuid, string>)
      ensures this.tokenStorage == tokenStorage && this.userStorage == userStorage && this.parseUuid == parseUuid
    {
      this.tokenStorage := tokenStorage;
      this.userStorage := userStorage;
      this.parseUuid := parseUuid;
    }

    /** `handle(ctx, req)`. */
    method Handle(req: HoneyReceiveTokenRequest) returns (r: Result<(), Report>)
      requires tokenStorage.Valid()
      modifies tokenStorage, userStorage
      ensures tokenStorage.Valid()
      ensures var o := ReceiveTokenRun(req, parseUuid, userStorage.upsertFailure, old(tokenStorage.State()));
        && r == o.result
        && tokenStorage.State() == o.table
        && userStorage.upserts == old(userStorage.upserts) + (if o.upserted.Some? then [o.upserted.value] else [])
    {
      var token := parseUuid(req.token);
      if token.Err? {
        return Err(Message(token.error));
      }
      var upserted := userStorage.CreateOrUpdateUser(CreateUserInfo(req.username, req.userPubId, None));
      if upserted.Err? {
        return Err(upserted.error);
      }
      r := tokenStorage.StoreToken(UserPublicId(req.userPubId), token.value);
    }
  }

  class MethodReceiveUserInfo {
    const tokenStorage: TokenWorkTableStorage
    const userStorage: UserStorage
    /** `Uuid::try_parse`. */
    const parseUuid: string -> Result<Uuid, string>

    constructor (tokenStorage: TokenWorkTableStorage, userStorage: UserStorage, parseUuid: string -> Result<Uuid, string>)
      ensures this.tokenStorage == tokenStorage && this.userStorage == userStorage && this.parseUuid == parseUuid
    {
      this.tokenStorage := tokenStorage;
      this.userStorage := userStorage;
      this.parseUuid := parseUuid;
    }

    /** `handle(ctx, req)`. */
    method Handle(req: HoneyReceiveUserInfoRequest) returns (r: Result<(), Report>)
      requires tokenStorage.Valid()
      modifies tokenStorage, userStorage
      ensures tokenStorage.Valid()
      ensures var o := ReceiveUserInfoRun(req, parseUuid, userStorage.upsertFailure, old(tokenStorage.State()));
        && r == o.result
        && tokenStorage.State() == o.table
        && userStorage.upserts == old(userStorage.upserts) + [o.upserted.value]
    {
      var upserted := userStorage.CreateOrUpdateUser(CreateUserInfo(req.username, req.userPubId, req.appPubId));
      if upserted.Err? {
        return Err(upserted.error);
      }
      if req.token.Some? {
        var token := parseUuid(req.token.value);
        if token.Err? {
          return Err(TOKEN_NOT_UUID);
        }
        r := tokenStorage.StoreToken(UserPublicId(req.userPubId), token.value);
        return;
      }
      r := Ok(());
    }
  }
}
