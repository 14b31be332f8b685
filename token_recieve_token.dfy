// src/handlers/token/recieve_token.rs: the `MethodReceiveToken` revision
// that stores through `HoneyIdClient::store_token` into the client's
// one-index token table.
module TokenRecieveToken {
  import opened Wrappers
  import opened Entities
  import opened Errors
  import ClientTokenTable
  import opened Client
  import opened Server

  /** `handle(ctx, req)` over the client table: parse, then `store_token(token, user)`. */
  function RecieveTokenStep(req: ReceiveTokenRequest, parseUuid: string -> Result<Uuid, string>,
                            s: ClientTokenTable.TableState): (o: ClientTokenTable.Step)
    ensures parseUuid(req.token).Err? ==> o == ClientTokenTable.Step(Err(Message(parseUuid(req.token).error)), s)
    ensures parseUuid(req.token).Ok? ==>
      var (id, s1) := ClientTokenTable.NextPk(s);
      o == ClientTokenTable.InsertRow(s1, ClientTokenTable.TokenRow(id, UserPublicId(req.userPubId), parseUuid(req.token).value))
  {
    match parseUuid(req.token)
    case Err(x) => ClientTokenTable.Step(Err(Message(x)), s)
    case Ok(token) =>
      var (id, s1) := ClientTokenTable.NextPk(s);
      ClientTokenTable.InsertRow(s1, ClientTokenTable.TokenRow(id, UserPublicId(req.userPubId), token))
  }

  /**
   * Over a consistent client table: success exactly when the token parses
   * and the user has no row yet; the new row carries the user and the token
   * in their own columns; a user already present is rejected.
   */
  lemma RecieveTokenAcceptance(req: ReceiveTokenRequest, parseUuid: string -> Result<Uuid, string>,
                               s: ClientTokenTable.TableState)
    requires ClientTokenTable.Inv(s)
    ensures ClientTokenTable.Inv(RecieveTokenStep(req, parseUuid, s).state)
    ensures RecieveTokenStep(req, parseUuid, s).result.Ok? <==>
      parseUuid(req.token).Ok? && UserPublicId(req.userPubId) !in s.publicIdIdx
    ensures RecieveTokenStep(req, parseUuid, s).result.Ok? ==>
      RecieveTokenStep(req, parseUuid, s).state.rows ==
        s.rows[s.nextPk := ClientTokenTable.TokenRow(s.nextPk, UserPublicId(req.userPubId), parseUuid(req.token).value)]
    ensures parseUuid(req.token).Ok? && UserPublicId(req.userPubId) in s.publicIdIdx ==>
      RecieveTokenStep(req, parseUuid, s).result == Err(AlreadyExists)
  {
    if parseUuid(req.token).Ok? {
      ClientTokenTable.InsertNextRow(s, UserPublicId(req.userPubId), parseUuid(req.token).value);
    }
  }

  class MethodReceiveToken {
    const honeyIdClient: HoneyIdClient
    /** `uuid::Uuid::parse_str`. */
    const parseUuid: string -> Result<Uuid, string>

    constructor (honeyIdClient: HoneyIdClient, parseUuid: string -> Result<Uuid, string>)
      ensures this.honeyIdClient == honeyIdClient && this.parseUuid == parseUuid
    {
      this.honeyIdClient := honeyIdClient;
      this.parseUuid := parseUuid;
    }

    /** `handle(ctx, req)`; `Ok(())` stands for the empty `ReceiveTokenResponse`. */
    method Handle(req: ReceiveTokenRequest) returns (r: Result<(), Report>)
      requires honeyIdClient.tokenTable.Valid()
      modifies honeyIdClient.tokenTable
      ensures honeyIdClient.tokenTable.Valid()
      ensures ClientTokenTable.Step(r, honeyIdClient.tokenTable.State()) ==
        RecieveTokenStep(req, parseUuid, old(honeyIdClient.tokenTable.State()))
    {
      var token := parseUuid(req.token);
      if token.Err? {
        return Err(Message(token.error));
      }
      r := honeyIdClient.StoreToken(token.value, UserPublicId(req.userPubId));
    }
  }
}
