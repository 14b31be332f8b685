// src/types/generated.rs: the endpoint and role enums, the constant
// METHOD_ID / ROLES / SCHEMA of every request type, `EnumEndpoint::schema`
// and the status enums. The JSON text of each SCHEMA is reduced to the three
// fields the rest of the crate reads: name, code and roles.
module Generated {
  import opened Wrappers
  import opened Entities
  import opened Errors

  datatype EnumEndpoint =
    | PublicConnect
    | StartAuth
    | Signup
    | SubmitUsername
    | SubmitPassword
    | RefreshTokenExchange
    | TokenRevoke
    | AddWaitlistLead
    | KardAddWaitlistLead
    | ApiKeyConnect
    | TokenIntrospect
    | SubscribeTokenRevocations

  /** The explicit discriminant of each variant (`method as u32`). */
  function Discriminant(e: EnumEndpoint): u32
  {
    match e
    case PublicConnect => 0
    case StartAuth => 10
    case Signup => 11
    case SubmitUsername => 12
    case SubmitPassword => 13
    case RefreshTokenExchange => 14
    case TokenRevoke => 15
    case AddWaitlistLead => 20
    case KardAddWaitlistLead => 30
    case ApiKeyConnect => 100
    case TokenIntrospect => 110
    case SubscribeTokenRevocations => 111
  }

  /** `FromPrimitive::from_u32`: the variant with discriminant n, if any. */
  function FromDiscriminant(n: int): (r: Option<EnumEndpoint>)
    ensures r.Some? ==> Discriminant(r.value) as int == n
  {
    if n == 0 then Some(PublicConnect)
    else if n == 10 then Some(StartAuth)
    else if n == 11 then Some(Signup)
    else if n == 12 then Some(SubmitUsername)
    else if n == 13 then Some(SubmitPassword)
    else if n == 14 then Some(RefreshTokenExchange)
    else if n == 15 then Some(TokenRevoke)
    else if n == 20 then Some(AddWaitlistLead)
    else if n == 30 then Some(KardAddWaitlistLead)
    else if n == 100 then Some(ApiKeyConnect)
    else if n == 110 then Some(TokenIntrospect)
    else if n == 111 then Some(SubscribeTokenRevocations)
    else None
  }

  lemma DiscriminantRoundTrip(e: EnumEndpoint)
    ensures FromDiscriminant(Discriminant(e) as int) == Some(e)
  {
  }

  /** The discriminants are pairwise distinct, so a method code names one endpoint. */
  lemma DiscriminantsDistinct(e1: EnumEndpoint, e2: EnumEndpoint)
    requires e1 != e2
    ensures Discriminant(e1) != Discriminant(e2)
  {
    DiscriminantRoundTrip(e1);
    DiscriminantRoundTrip(e2);
  }

  /** strum's `Display`: the variant name. */
  function EndpointName(e: EnumEndpoint): string
  {
    match e
    case PublicConnect => "PublicConnect"
    case StartAuth => "StartAuth"
    case Signup => "Signup"
    case SubmitUsername => "SubmitUsername"
    case SubmitPassword => "SubmitPassword"
    case RefreshTokenExchange => "RefreshTokenExchange"
    case TokenRevoke => "TokenRevoke"
    case AddWaitlistLead => "AddWaitlistLead"
    case KardAddWaitlistLead => "KardAddWaitlistLead"
    case ApiKeyConnect => "ApiKeyConnect"
    case TokenIntrospect => "TokenIntrospect"
    case SubscribeTokenRevocations => "SubscribeTokenRevocations"
  }

  datatype EnumUserRole =
    | Public
    | PlatformAdmin
    | PlatformSupport
    | AppNewUser
    | AppAdmin
    | AppSupport
    | AppApiKey

  function RoleId(r: EnumUserRole): u32
  {
    match r
    case Public => 0
    case PlatformAdmin => 1
    case PlatformSupport => 2
    case AppNewUser => 3
    case AppAdmin => 4
    case AppSupport => 5
    case AppApiKey => 6
  }

  /** `FromPrimitive` for `EnumUserRole`. */
  function RoleFromId(n: int): (r: Option<EnumUserRole>)
    ensures r.Some? ==> RoleId(r.value) as int == n
    ensures r.Some? <==> 0 <= n <= 6
  {
    if n == 0 then Some(Public)
    else if n == 1 then Some(PlatformAdmin)
    else if n == 2 then Some(PlatformSupport)
    else if n == 3 then Some(AppNewUser)
    else if n == 4 then Some(AppAdmin)
    else if n == 5 then Some(AppSupport)
    else if n == 6 then Some(AppApiKey)
    else None
  }

  /** How a role is written in a SCHEMA's "roles" list. */
  function RoleSchemaName(r: EnumUserRole): string
  {
    match r
    case Public => "UserRole::Public"
    case PlatformAdmin => "UserRole::PlatformAdmin"
    case PlatformSupport => "UserRole::PlatformSupport"
    case AppNewUser => "UserRole::AppNewUser"
    case AppAdmin => "UserRole::AppAdmin"
    case AppSupport => "UserRole::AppSupport"
    case AppApiKey => "UserRole::AppApiKey"
  }

  /** endpoint_libs' `EndpointSchema`, reduced to the fields the crate reads. */
  datatype EndpointSchema = EndpointSchema(name: string, code: u32, roles: seq<string>)

  /** The constants of one `impl WsRequest for <X>Request`. */
  datatype WsRequestMeta = WsRequestMeta(methodId: u32, roles: seq<Role>, schema: EndpointSchema)

  /** `impl WsRequest` of the request type belonging to each endpoint. */
  function RequestMeta(e: EnumEndpoint): WsRequestMeta
  {
    match e
    case PublicConnect =>
      WsRequestMeta(0, [0], EndpointSchema("PublicConnect", 0, ["UserRole::Public"]))
    case StartAuth =>
      WsRequestMeta(10, [0], EndpointSchema("StartAuth", 10, ["UserRole::Public"]))
    case Signup =>
      WsRequestMeta(11, [0], EndpointSchema("Signup", 11, ["UserRole::Public"]))
    case SubmitUsername =>
      WsRequestMeta(12, [0], EndpointSchema("SubmitUsername", 12, ["UserRole::Public"]))
    case SubmitPassword =>
      WsRequestMeta(13, [0], EndpointSchema("SubmitPassword", 13, ["UserRole::Public"]))
    case RefreshTokenExchange =>
      WsRequestMeta(14, [0], EndpointSchema("RefreshTokenExchange", 14, ["UserRole::Public"]))
    case TokenRevoke =>
      WsRequestMeta(15, [0], EndpointSchema("TokenRevoke", 15, ["UserRole::Public"]))
    case AddWaitlistLead =>
      WsRequestMeta(20, [0], EndpointSchema("AddWaitlistLead", 20, ["UserRole::Public"]))
    case KardAddWaitlistLead =>
      WsRequestMeta(30, [0], EndpointSchema("KardAddWaitlistLead", 30, ["UserRole::Public"]))
    case ApiKeyConnect =>
      WsRequestMeta(100, [0], EndpointSchema("ApiKeyConnect", 100, ["UserRole::Public"]))
    case TokenIntrospect =>
      WsRequestMeta(110, [6], EndpointSchema("TokenIntrospect", 110, ["UserRole::AppApiKey"]))
    case SubscribeTokenRevocations =>
      WsRequestMeta(111, [6], EndpointSchema("SubscribeTokenRevocations", 111, ["UserRole::AppApiKey"]))
  }

  /**
   * `EnumEndpoint::schema`: every endpoint maps to its own request type's
   * SCHEMA, whose name is the variant name and whose code is the discriminant.
   */
  function Schema(e: EnumEndpoint): (s: EndpointSchema)
    ensures s.name == EndpointName(e)
    ensures s.code == Discriminant(e)
  {
    RequestMeta(e).schema
  }

  /** METHOD_ID agrees with the discriminant; ROLES agrees with the SCHEMA's role names. */
  lemma RequestMetaConsistent(e: EnumEndpoint)
    ensures RequestMeta(e).methodId == Discriminant(e)
    ensures |RequestMeta(e).roles| == |RequestMeta(e).schema.roles|
    ensures forall i :: 0 <= i < |RequestMeta(e).roles| ==>
      RoleFromId(RequestMeta(e).roles[i] as int).Some? &&
      RequestMeta(e).schema.roles[i] == RoleSchemaName(RoleFromId(RequestMeta(e).roles[i] as int).value)
  {
  }

  /** ROLES is [AppApiKey] for the two API-key endpoints and [Public] for all others. */
  lemma RolesTable(e: EnumEndpoint)
    ensures RequestMeta(e).roles ==
      if e == TokenIntrospect || e == SubscribeTokenRevocations then [RoleId(AppApiKey)] else [RoleId(Public)]
  {
  }

  datatype EnumErrorCode = Xxx

  /** `impl From<EnumErrorCode> for ErrorCode`: the discriminant as the code. */
  function ErrorCodeOf(e: EnumErrorCode): (c: ErrorCode)
    ensures c == ErrorCode(0)
  {
    match e
    case Xxx => ErrorCode(0)
  }

  /** `EnumExternalUserStatus` and `EnumInternalUserStatus` share their numbering. */
  datatype EnumUserStatus = Enabled | Disabled | Banned

  function UserStatusValue(s: EnumUserStatus): (v: u32)
    ensures 1 <= v <= 3
    ensures UserStatusFromValue(v as int) == Some(s)
  {
    match s
    case Enabled => 1
    case Disabled => 2
    case Banned => 3
  }

  function UserStatusFromValue(n: int): (r: Option<EnumUserStatus>)
    ensures r.Some? <==> 1 <= n <= 3
  {
    if n == 1 then Some(Enabled)
    else if n == 2 then Some(Disabled)
    else if n == 3 then Some(Banned)
    else None
  }

  datatype EnumAppStatus = AppEnabled | AppDisabled

  function AppStatusValue(s: EnumAppStatus): (v: u32)
    ensures 1 <= v <= 2
    ensures AppStatusFromValue(v as int) == Some(s)
  {
    match s
    case AppEnabled => 1
    case AppDisabled => 2
  }

  function AppStatusFromValue(n: int): (r: Option<EnumAppStatus>)
    ensures r.Some? <==> 1 <= n <= 2
  {
    if n == 1 then Some(AppEnabled)
    else if n == 2 then Some(AppDisabled)
    else None
  }
}
