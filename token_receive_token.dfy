// src/handlers/token/receive_token.rs: `MethodReceiveToken` storing a
// received token through the two-index `TokenStorage`.
module TokenReceiveToken {
  import opened Wrappers
  import opened Entities
  import opened Errors
  import opened TokenManagement
  import opened Server

  /** `handle(ctx, req)`: parse the token, then `store_token(user, token)`. */
  function ReceiveTokenStep(req: ReceiveTokenRequest, parseUuid: string -> Result<Uuid, string>, s: TableState): (o: Step)
    // an unparsable token leaves the table untouched
    ensures parseUuid(req.token).Err? ==> o == Step(Err(Message(parseUuid(req.token).error)), s)
    ensures parseUuid(req.token).Ok? ==> o == Store(s, UserPublicId(req.userPubId), parseUuid(req.token).value)
  {
    match parseUuid(req.token)
    case Err(x) => Step(Err(Message(x)), s)
    case Ok(token) => Store(s, UserPublicId(req.userPubId), token)
  }

  /**
   * Over a consistent table the handler succeeds exactly when the token
   * parses, the user has no token and the token is new; success makes the
   * token validate to the user, and a duplicate is rejected as AlreadyExists.
   */
  lemma ReceiveTokenAcceptance(req: ReceiveTokenRequest, parseUuid: string -> Result<Uuid, string>, s: TableState)
    requires Inv(s)
    ensures Inv(ReceiveTokenStep(req, parseUuid, s).state)
    ensures ReceiveTokenStep(req, parseUuid, s).result.Ok? <==>
      parseUuid(req.token).Ok? && UserPublicId(req.userPubId) !in TokensOf(s) && parseUuid(req.token).value !in Owners(s)
    ensures ReceiveTokenStep(req, parseUuid, s).result.Ok? ==>
      Validate(ReceiveTokenStep(req, parseUuid, s).state, parseUuid(req.token).value) == Ok(UserPublicId(req.userPubId))
    ensures parseUuid(req.token).Ok? && ReceiveTokenStep(req, parseUuid, s).result.Err? ==>
      ReceiveTokenStep(req, parseUuid, s).result == Err(AlreadyExists)
  {
    if parseUuid(req.token).Ok? {
      var u, t := UserPublicId(req.userPubId), parseUuid(req.token).value;
      StoreAcceptance(s, u, t);
      StorePreservesInv(s, u, t);
      if Store(s, u, t).result.Ok? {
        StoreThenValidate(s, u, t, t);
      }
    }
  }

  class MethodReceiveToken {
    const tokenStorage: TokenWorkTableStorage
    /** `uuid::Uuid::parse_str`. */
    const parseUuid: string -> Result<Uuid, string>

    constructor (tokenStorage: TokenWorkTableStorage, parseUuid: string -> Result<Uuid, string>)
      ensures this.tokenStorage == tokenStorage && this.parseUuid == parseUuid
    {
      this.tokenStorage := tokenStorage;
      this.parseUuid := parseUuid;
    }

    /** `handle(ctx, req)`; `Ok(())` stands for the empty `ReceiveTokenResponse`. */
    method Handle(req: ReceiveTokenRequest) returns (r: Result<(), Report>)
      requires tokenStorage.Valid()
      modifies tokenStorage
      ensures tokenStorage.Valid()
      ensures Step(r, tokenStorage.State()) == ReceiveTokenStep(req, parseUuid, old(tokenStorage.State()))
    {
      var token := parseUuid(req.token);
      if token.Err? {
        return Err(Message(token.error));
      }
      r := tokenStorage.StoreToken(UserPublicId(req.userPubId), token.value);
    }
  }
}
