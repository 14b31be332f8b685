// src/client.rs and src/client/*.rs: `HoneyIdClient`, the application side
// of honey.id. It holds its configuration and the token table, and sends
// requests over a `HoneyIdConnection` it is handed.
module Client {
  import opened Wrappers
  import opened Entities
  import opened JsonValue
  import opened Errors
  import opened Generated
  import opened Config
  import opened Ws
  import ClientTokenTable

  /** ASCII case mapping; every other character is left as it is. */
  function ToLowerAscii(c: char): (l: char)
    ensures 'A' <= c <= 'Z' ==> l as int == c as int + 32
    ensures !('A' <= c <= 'Z') ==> l == c
  {
    if 'A' <= c <= 'Z' then (c as int + 32) as char else c
  }

  /** `str::to_lowercase`, restricted to ASCII letters. */
  function Lowercase(s: string): (r: string)
    ensures |r| == |s|
    ensures forall i :: 0 <= i < |s| ==> r[i] == ToLowerAscii(s[i])
    ensures forall i :: 0 <= i < |r| ==> !('A' <= r[i] <= 'Z')
  {
    seq(|s|, i requires 0 <= i < |s| => ToLowerAscii(s[i]))
  }

  /** Lowercasing an already lower-cased name changes nothing. */
  lemma LowercaseIdempotent(s: string)
    ensures Lowercase(Lowercase(s)) == Lowercase(s)
  {
    var l := Lowercase(s);
    forall i | 0 <= i < |l| ensures Lowercase(l)[i] == l[i] {
      assert !('A' <= l[i] <= 'Z');
    }
  }

  /** `get_auth_method_from_schema`: the schema name in lower case. */
  function AuthMethodFromSchema(schema: EndpointSchema): (m: string)
    ensures |m| == |schema.name|
    ensures forall i :: 0 <= i < |m| ==> m[i] == ToLowerAscii(schema.name[i])
  {
    Lowercase(schema.name)
  }

  /** The PublicConnect schema name in lower case, character by character. */
  lemma LowercasePublicConnect()
    ensures Lowercase("PublicConnect") == "publicconnect"
  {
    var l := Lowercase("PublicConnect");
    assert |l| == 13;
    assert l[0] == ToLowerAscii('P') == 'p';
    assert l[1] == ToLowerAscii('u') == 'u';
    assert l[2] == ToLowerAscii('b') == 'b';
    assert l[3] == ToLowerAscii('l') == 'l';
    assert l[4] == ToLowerAscii('i') == 'i';
    assert l[5] == ToLowerAscii('c') == 'c';
    assert l[6] == ToLowerAscii('C') == 'c';
    assert l[7] == ToLowerAscii('o') == 'o';
    assert l[8] == ToLowerAscii('n') == 'n';
    assert l[9] == ToLowerAscii('n') == 'n';
    assert l[10] == ToLowerAscii('e') == 'e';
    assert l[11] == ToLowerAscii('c') == 'c';
    assert l[12] == ToLowerAscii('t') == 't';
  }

  /** The subprotocol header `connect_public` offers: "0" and the lower-cased PublicConnect name. */
  function PublicConnectHeader(): (h: string)
    ensures h == "0publicconnect"
  {
    assert Schema(EnumEndpoint.PublicConnect).name == "PublicConnect";
    LowercasePublicConnect();
    "0" + AuthMethodFromSchema(Schema(EnumEndpoint.PublicConnect))
  }

  /** The opening handshake `connect_public` performs against the configured address. */
  function PublicConnectHandshake(config: HoneyIdConfig): (r: HandshakeRequest)
    ensures r.uri == config.addr.serialization
    ensures Header(PROTOCOL_HEADER, "0publicconnect") in r.headers
    ensures Header("Sec-WebSocket-Version", "13") in r.headers
  {
    OpeningHandshake(config.addr, Some(PublicConnectHeader()))
  }

  /** The `StartAuthRequest` params: the configured app id. */
  function StartAuthParams(codec: Codec, appPublicId: Uuid): (p: Json)
    ensures p.Object? && p.fields.Keys == {"appPublicId"}
    ensures Get(p, "appPublicId") == Some(codec.uuidToJson(appPublicId))
  {
    Object(map["appPublicId" := codec.uuidToJson(appPublicId)])
  }

  /** The `SubmitUsernameRequest` params: the configured app id and the username. */
  function SubmitUsernameParams(codec: Codec, appPublicId: Uuid, username: string): (p: Json)
    ensures p.Object? && p.fields.Keys == {"appPublicId", "username"}
    ensures Get(p, "appPublicId") == Some(codec.uuidToJson(appPublicId))
    ensures Get(p, "username") == Some(Str(username))
  {
    Object(map["appPublicId" := codec.uuidToJson(appPublicId), "username" := Str(username)])
  }

  /** The frame a sender writes for `endpoint`, with the method code the server dispatches on. */
  lemma SenderFrames(codec: Codec, appPublicId: Uuid, username: string)
    ensures Get(Envelope(Discriminant(EnumEndpoint.StartAuth), StartAuthParams(codec, appPublicId)), "method") == Some(Number(10))
    ensures Get(Envelope(Discriminant(EnumEndpoint.SubmitUsername), SubmitUsernameParams(codec, appPublicId, username)), "method") == Some(Number(12))
  {
  }

  class HoneyIdClient {
    const config: HoneyIdConfig
    const codec: Codec
    /** The client-side token table of `src/tables/token.rs`. */
    const tokenTable: ClientTokenTable.TokenWorkTable

    /** `HoneyIdClient::new(config)`, with an empty token table. */
    constructor (config: HoneyIdConfig, codec: Codec)
      ensures this.config == config && this.codec == codec
      ensures fresh(tokenTable) && tokenTable.Valid() && tokenTable.State() == ClientTokenTable.EMPTY
    {
      this.config := config;
      this.codec := codec;
      this.tokenTable := new ClientTokenTable.TokenWorkTable();
    }

    /**
     * `store_token(token, user_pub_id)`: take the next primary key, then
     * insert the row; a user that already has a row is rejected.
     */
    method StoreToken(token: Uuid, userPubId: UserPublicId) returns (r: Result<(), Report>)
      requires tokenTable.Valid()
      modifies tokenTable
      ensures tokenTable.Valid()
      ensures var (id, s1) := ClientTokenTable.NextPk(old(tokenTable.State()));
        ClientTokenTable.Step(r, tokenTable.State()) == ClientTokenTable.InsertRow(s1, ClientTokenTable.TokenRow(id, userPubId, token))
      ensures r.Ok? <==> userPubId !in old(tokenTable.publicIdIdx)
      ensures r.Err? ==> r.error == AlreadyExists
    {
      ClientTokenTable.InsertNextRow(tokenTable.State(), userPubId, token);
      var id := tokenTable.GetNextPk();
      r := tokenTable.Insert(ClientTokenTable.TokenRow(id, userPubId, token));
    }

    /** `start_auth(conn)`: send StartAuth with the configured app id. */
    method StartAuth(conn: HoneyIdConnection) returns (r: Result<(), HoneyIdError>)
      modifies conn
      ensures conn.incoming == old(conn.incoming) && conn.sinkFault == old(conn.sinkFault)
      ensures old(conn.sinkFault).None? ==>
        r == Ok(()) && conn.sent == old(conn.sent) + [Envelope(Discriminant(EnumEndpoint.StartAuth), StartAuthParams(codec, config.appPublicId))]
      ensures old(conn.sinkFault).Some? ==>
        r == Err(HoneyIdError(INTERNAL_ERROR, old(conn.sinkFault).value)) && conn.sent == old(conn.sent)
    {
      var sent := conn.SendRequest(EnumEndpoint.StartAuth, StartAuthParams(codec, config.appPublicId));
      if sent.Err? {
        r := Err(FromReport(sent.error));
        return;
      }
      r := Ok(());
    }

    /** `submit_username(conn, username)`: send SubmitUsername with the app id and the username. */
    method SubmitUsername(conn: HoneyIdConnection, username: string) returns (r: Result<(), HoneyIdError>)
      modifies conn
      ensures conn.incoming == old(conn.incoming) && conn.sinkFault == old(conn.sinkFault)
      ensures old(conn.sinkFault).None? ==>
        r == Ok(()) && conn.sent == old(conn.sent) + [Envelope(Discriminant(EnumEndpoint.SubmitUsername), SubmitUsernameParams(codec, config.appPublicId, username))]
      ensures old(conn.sinkFault).Some? ==>
        r == Err(HoneyIdError(INTERNAL_ERROR, old(conn.sinkFault).value)) && conn.sent == old(conn.sent)
    {
      var sent := conn.SendRequest(EnumEndpoint.SubmitUsername, SubmitUsernameParams(codec, config.appPublicId, username));
      if sent.Err? {
        r := Err(FromReport(sent.error));
        return;
      }
      r := Ok(());
    }
  }
}
