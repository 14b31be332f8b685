# honey_id-types in Dafny

A model of the authorization and credential bookkeeping of the honey.id
types crate, written in Rust. The crate is shared by the honey.id auth
backend and the apps that use it. The model covers five parts:

- **Token stores.** The in-memory token table comes in three revisions:
  - `TokenManagement` models the two revisions with unique indexes on both
    `public_id` and `token`. They are `convenience_utils/token_management.rs`
    and `types/traits/token_storage.rs`, which are textually the same table.
  - `ClientTokenTable` models `tables/token.rs`, which indexes only
    `public_id`.
  - Each is a class whose fields are the primary index, the unique indexes
    and the autoincrement counter. Each method is tied to a pure function of
    the table state. Lemmas over those functions prove:
    - the indexes stay consistent;
    - users and tokens form a partial bijection in the two-index revision;
    - a stored token validates to its owner;
    - duplicates are rejected with `AlreadyExists`;
    - in the one-index revision, two users may share a token.
- **Connect and callback handlers** (module `Server` plus one module per
  handler file). `WsConnection` is a class whose `roles` field is replaced by
  `SetRoles`. Each connect handler has two parts:
  - a pure outcome function: the roles it sets (if any) and its answer;
  - a class whose `Auth` method is proved to set exactly those roles and
    return exactly that answer.

  The ReceiveToken and ReceiveUserInfo callbacks record the user upsert and
  then the token insert. Their partial-failure order is stated.
- **Client RPC framing** (`Ws`, `Errors`, `Client`). This covers:
  - the opening handshake headers;
  - the `{"seq": "1", method, params}` envelope;
  - the three-way classification of a received message;
  - the conversion of an `eyre::Report` into `HoneyIdError`;
  - the senders `start_auth` and `submit_username`, which append one frame to
    the connection's sent log;
  - `store_token` into the client's table;
  - the `"0publicconnect"` sub-protocol header.
- **Base-URL normalisation** (`Config`): strip every trailing `/`, append one.
  It is proved idempotent and blind to the number of trailing slashes.
- **Endpoint and role tables** (`Generated`): discriminants, `METHOD_ID`,
  `ROLES`, `schema()`, and the role and status enums.

The library functions the crate calls are parameters or function-valued
fields. These are: `serde_json` (`from_str`, `from_value`, `to_value`,
`Display`), UTF-8 decoding, `Uuid::parse_str`, `Url::parse`, the app's
`UserStorage`, `validate_auth_api_key` and the app callbacks. JSON values are
a small datatype (`JsonValue.Json`).

The source is a snapshot in which some files are not wired into the crate,
and the model follows each file as written:
- `client.rs` declares no `token_table` field, but `client/token.rs` uses
  one. `Client.HoneyIdClient` carries it as `tokenTable`.
- `connect_public` has no return expression. Only the handshake it performs
  is modelled.
- The generated `SubmitUsernameRequest` has only `username`, but
  `client/submit_username.rs` also sends `appPublicId`. The sender follows
  `client/submit_username.rs`.

## Model

| member | source | states |
|---|---|---|
| Errors.FromReport | src/error.rs:23-28 | a report wrapping a `HoneyIdError` converts back to exactly that error; any other report becomes INTERNAL_ERROR; the message displayed is the report's text |
| Errors.Display | src/error.rs:7-8 | defines the display text of a `HoneyIdError` as its `msg` alone; `FromReportRoundTrip` is stated with it |
| Errors.FromReportRoundTrip | src/error.rs:15-28 | wrapping an error in a report and converting back is the identity, and `Display` shows only `msg` |
| Generated.Discriminant | src/types/generated.rs:237-262 | defines each endpoint's method code; `DiscriminantRoundTrip`, `DiscriminantsDistinct` and `FromDiscriminant` are its properties |
| Generated.EndpointName | src/types/generated.rs:230-262 | defines strum's `Display` of an endpoint, its variant name; `Schema` ties it to the schema name |
| Generated.FromDiscriminant | src/types/generated.rs:237-262 | a method code decodes only to the endpoint that has it as its discriminant |
| Generated.DiscriminantRoundTrip | src/types/generated.rs:237-262 | every endpoint's discriminant decodes back to that endpoint |
| Generated.DiscriminantsDistinct | src/types/generated.rs:237-262 | distinct endpoints have distinct method codes |
| Generated.RoleFromId | src/types/generated.rs:137-152 | role ids are exactly 0..6, each decoding to the role with that id |
| Generated.Schema | src/types/generated.rs:264-281 | `schema()` gives every endpoint a schema named after the endpoint, with the endpoint's own code |
| Generated.RequestMeta | src/types/generated.rs:473-989 | defines the METHOD_ID, ROLES and SCHEMA constants of each `impl WsRequest`; `RequestMetaConsistent` and `RolesTable` are its properties |
| Generated.RequestMetaConsistent | src/types/generated.rs:473-989 | each request type's METHOD_ID equals its endpoint's discriminant, and its ROLES ids name the roles listed in its SCHEMA |
| Generated.RolesTable | src/types/generated.rs:473-989 | ROLES is [AppApiKey] for TokenIntrospect and SubscribeTokenRevocations and [Public] for every other endpoint |
| Generated.ErrorCodeOf | src/types/generated.rs:302-311 | `EnumErrorCode::Xxx` converts to error code 0 |
| Generated.UserStatusValue | src/types/generated.rs:91-121 | user statuses are numbered 1..3 and each number decodes back to its status |
| Generated.UserStatusFromValue | src/types/generated.rs:91-121 | only 1..3 decode to a user status; there is no 0 |
| Generated.AppStatusValue | src/types/generated.rs:168-173 | app statuses are numbered 1..2 and each number decodes back to its status |
| Generated.AppStatusFromValue | src/types/generated.rs:168-173 | only 1..2 decode to an app status |
| Config.DefaultConfig | src/config.rs:14-37 | the default address is `wss://api.honey.id:443` and both API keys are absent |
| Config.TrimEndSlashes | src/config.rs:54 | trimming keeps a prefix of the input that does not end in `/`, and removes only slashes |
| Config.NormaliseBaseUrl | src/config.rs:54 | defines the text handed to `Url::parse`: the trimmed address plus one `/`; the lemmas below are its properties |
| Config.NormalisedEndsWithOneSlash | src/config.rs:53-54 | the text handed to `Url::parse` ends with exactly one `/`, after the input minus all its trailing slashes |
| Config.TrimWithoutTrailingSlash | src/config.rs:54 | an address without a trailing `/` is left unchanged by trimming |
| Config.TrimIgnoresTrailingSlashes | src/config.rs:54 | appending any number of slashes does not change the trimmed text |
| Config.NormaliseIdempotent | src/config.rs:54 | normalising a normalised address changes nothing |
| Config.NormaliseIgnoresTrailingSlashes | src/config.rs:54 | addresses differing only in trailing slashes normalise alike |
| Config.DeserializeBaseUrl | src/config.rs:50-56 | the result is `Url::parse` of the normalised text; a parse failure is reported as "Invalid `Url`: " and the parser's message |
| Config.DeserializeIgnoresTrailingSlashes | src/config.rs:50-56 | trailing slashes in the configured address never change the deserialised URL or error |
| Config.DeserializeSecretString | src/config.rs:58-63 | a secret always deserialises to `Some`, holding the text unchanged |
| TokenManagement.Insert | src/handlers/convenience_utils/token_management.rs:35-38 | defines worktable's insert with unique `public_id` and `token` indexes: rejected with AlreadyExists and nothing changed on a clash, else added to all three indexes |
| TokenManagement.Store | src/handlers/convenience_utils/token_management.rs:46-53 | defines `store_token`: take the next key, then `Insert`; `StoreAcceptance` and the lemmas after it are its properties |
| TokenManagement.Validate | src/handlers/convenience_utils/token_management.rs:55-61 | defines `validate_token`: the owner through the token index, or "token not found"; `ValidateIsOwners` is its property |
| TokenManagement.EmptyTable | src/handlers/convenience_utils/token_management.rs:27-43 | the default table satisfies the invariant and holds no token and no user |
| TokenManagement.OwnersAndTokensAreInverse | src/handlers/convenience_utils/token_management.rs:35-38 | with both indexes unique, the owner-of-token and token-of-user maps are mutual inverses |
| TokenManagement.ValidateIsOwners | src/handlers/convenience_utils/token_management.rs:55-61 | `validate_token` finds exactly the stored tokens, with their owners, and fails with "token not found" otherwise |
| TokenManagement.StoreAcceptance | src/handlers/convenience_utils/token_management.rs:46-53 | `store_token(u, t)` succeeds iff u has no token and t has no owner; otherwise it fails with AlreadyExists |
| TokenManagement.StoreRejectedKeepsRows | src/types/traits/token_storage.rs:36-43 | a rejected store changes nothing but the consumed primary key |
| TokenManagement.StoreAcceptedAddsRow | src/types/traits/token_storage.rs:36-43 | an accepted store adds one row under a fresh autoincrement key and keeps the invariant |
| TokenManagement.StorePreservesInv | src/handlers/convenience_utils/token_management.rs:46-53 | every store, accepted or not, keeps the indexes consistent |
| TokenManagement.StoreAcceptedMaps | src/handlers/convenience_utils/token_management.rs:46-53 | an accepted store adds exactly the pair (t, u) to the user/token bijection |
| TokenManagement.StoreThenValidate | src/handlers/convenience_utils/token_management.rs:46-61 | after `store_token(u, t)` succeeds, `validate_token(t)` returns u and every other token keeps its answer |
| TokenManagement.SecondStoreRejected | src/types/traits/token_storage.rs:26-27 | after a store of (u, t), a second store for u or reusing t is rejected with AlreadyExists |
| TokenManagement.TokenWorkTableStorage.constructor | src/types/traits/token_storage.rs:17-33 | a new storage is empty and consistent |
| TokenManagement.TokenWorkTableStorage.StoreToken | src/handlers/convenience_utils/token_management.rs:46-53 | takes the next key, inserts the row in place, keeps the invariant; result and new table are those of `Store` |
| TokenManagement.TokenWorkTableStorage.ValidateToken | src/types/traits/token_storage.rs:45-51 | returns the owner of a stored token and "token not found" otherwise, without changing the table |
| ClientTokenTable.InsertRow | src/tables/token.rs:14-25 | defines worktable's insert with only `public_id` unique; `InsertNextRow` and `SharedTokenAccepted` are its properties |
| ClientTokenTable.NextPk | src/tables/token.rs:18 | defines `get_next_pk`: the counter's value, with the counter advanced |
| ClientTokenTable.EmptyTable | src/tables/token.rs:14-25 | the table starts empty and consistent |
| ClientTokenTable.InsertPreservesInv | src/tables/token.rs:14-25 | an insert of a row keyed by the counter keeps the primary and `public_id` indexes consistent |
| ClientTokenTable.InsertNextRow | src/tables/token.rs:18-24 | inserting under the next key succeeds iff the user has no row, and then adds exactly that row |
| ClientTokenTable.SharedTokenAccepted | src/tables/token.rs:22-24 | with only `public_id` indexed, two users can store the same token under distinct ids |
| ClientTokenTable.TokenWorkTable.GetNextPk | src/tables/token.rs:18 | hands out the counter's value and advances it |
| ClientTokenTable.TokenWorkTable.Insert | src/tables/token.rs:14-25 | inserts in place as `InsertRow` says, keeping the invariant when the id came from the counter |
| Ws.OpeningHandshake | src/ws.rs:20-30 | the request is a GET to the address with the upgrade headers and version 13, plus `Sec-WebSocket-Protocol` iff an auth value is given, and no other header (section 4.1 of RFC 6455) |
| Ws.Envelope | src/ws.rs:41-51 | the frame is an object with exactly `seq` = "1", `method` = the code and `params` |
| Ws.ConvertCode | src/ws.rs:79-82 | a server code that fits in u32 is kept; any other becomes INTERNAL_ERROR |
| Ws.Classify | src/ws.rs:71-87 | decodable `params` win; otherwise an error-shaped message becomes a `HoneyIdError` with converted code and params text; otherwise "Invalid response received from server: " with the raw response |
| Ws.IntoText | src/ws.rs:63-64 | text frames are taken as is; a data or ping/pong payload is its UTF-8 decoding, which is the only way to fail; a close frame gives its reason, or "" without one |
| Ws.Receive | src/ws.rs:58-88 | end of stream and stream errors give their fixed messages; a frame whose payload is not UTF-8, or whose text is not JSON, fails with the decoder's message; a parsed frame is answered as `Classify` says |
| Ws.ServerErrorReachesCaller | src/ws.rs:77-84 | a server error reaches the caller of a client operation with its converted code and params text |
| Ws.LoopbackRoundTrip | src/ws.rs:36-88 | a sent envelope, received back as text, yields its decoded params |
| Ws.HoneyIdConnection.Established | src/ws.rs:32-33 | a new connection records its handshake, has sent nothing and reads the given stream |
| Ws.HoneyIdConnection.SendRequest | src/ws.rs:36-56 | appends exactly one envelope with the endpoint's code, or returns the sink's error and appends nothing |
| Ws.HoneyIdConnection.ReceiveResponse | src/ws.rs:58-88 | consumes one inbound event and answers as `Receive`; nothing is sent |
| Ws.Connect | src/ws.rs:20-34 | a failed dial gives an INTERNAL_ERROR `HoneyIdError` with the failure text; a successful one gives a fresh connection with that handshake, the dialled stream and sink, and nothing sent |
| Client.ToLowerAscii | src/client/connect.rs:8-10 | an upper-case ASCII letter maps to its lower-case letter; every other character is unchanged |
| Client.Lowercase | src/client/connect.rs:8-10 | each character is lower-cased in place, the length is kept, and no upper-case ASCII letter remains |
| Client.LowercaseIdempotent | src/client/connect.rs:8-10 | lower-casing twice is lower-casing once |
| Client.AuthMethodFromSchema | src/client/connect.rs:8-10 | the auth method is the schema name, character by character in lower case |
| Client.LowercasePublicConnect | src/client/connect.rs:14 | the PublicConnect name lower-cases to "publicconnect" |
| Client.PublicConnectHeader | src/client/connect.rs:14-15 | the sub-protocol header is "0publicconnect" |
| Client.PublicConnectHandshake | src/client/connect.rs:17 | `connect_public` dials the configured address and always offers "0publicconnect" as sub-protocol |
| Client.StartAuthParams | src/client/start_auth.rs:20-22 | StartAuth params carry only the app id |
| Client.SubmitUsernameParams | src/client/submit_username.rs:24-27 | SubmitUsername params carry the app id and the username unchanged |
| Client.SenderFrames | src/client/start_auth.rs:18-19 | the senders' frames carry method codes 10 and 12 |
| Client.HoneyIdClient.constructor | src/client.rs:16-18 | a new client holds its configuration and an empty, consistent token table |
| Client.HoneyIdClient.StoreToken | src/client/token.rs:8-17 | the row is (next key, user, token); success iff the user has no row; otherwise AlreadyExists is propagated |
| Client.HoneyIdClient.StartAuth | src/client/start_auth.rs:17-27 | sends exactly one StartAuth frame with the configured app id and reads nothing, or returns the send error as INTERNAL_ERROR |
| Client.HoneyIdClient.SubmitUsername | src/client/submit_username.rs:17-32 | sends exactly one SubmitUsername frame with the app id and username and reads nothing, or returns the send error |
| Server.InvalidRequest | src/handlers/convenience_utils/generic_auth_handler.rs:172-178 | defines the BadRequest report "Invalid request: " and the serde message, the answer to every payload that does not deserialise |
| Server.RolesAfter | src/handlers/convenience_utils/generic_auth_handler.rs:191 | defines a connection's roles after a handler: what it passed to `set_roles`, or the old roles when it never called it; each `Auth` method is stated with it |
| Server.WsConnection.SetRoles | src/handlers/public.rs:38 | `set_roles` replaces the role list |
| Server.UserStorage.CreateOrUpdateUser | src/handlers/auth_to_app.rs:84-90 | each upsert is recorded in call order and answered by the app |
| GenericAuthHandler.AuthorizedOutcome | src/handlers/convenience_utils/generic_auth_handler.rs:164-203 | roles are set iff decode, UUID parse, token lookup and role lookup all pass; the callback runs then, with the token's owner and the roles set; each earlier failure has its own error, and a role-lookup error is passed on unchanged; a callback error is passed on with the roles already set |
| GenericAuthHandler.PublicOutcome | src/handlers/convenience_utils/generic_auth_handler.rs:271-292 | any payload that deserialises gets the public roles before the callback runs; the only failures are decoding, the callback and serialisation, and a successful callback is answered with its serialised value |
| GenericAuthHandler.GenericAuthorizedConnect.Auth | src/handlers/convenience_utils/generic_auth_handler.rs:164-203 | sets the connection's roles and answers exactly as `AuthorizedOutcome`, reading the token storage only |
| GenericAuthHandler.GenericPublicConnect.Auth | src/handlers/convenience_utils/generic_auth_handler.rs:271-292 | sets the connection's roles and answers exactly as `PublicOutcome` |
| GenericAuthHandler.GenericConnectHandler.Auth | src/handlers/convenience_utils/generic_auth_handler.rs:76-85 | does exactly what the custom handler decides |
| AuthToApp.ApiKeyConnectOutcome | src/handlers/auth_to_app.rs:31-68 | roles become [honey auth role] iff the key validates to `Some(true)`; a wrong key is BadRequest, an unconfigured one InternalError, a bad payload BadRequest, and none of them sets a role |
| AuthToApp.WrongAndUnconfiguredKeyDiffer | src/handlers/auth_to_app.rs:43-60 | a wrong key and a missing key are distinct outcomes |
| AuthToApp.MethodApiKeyConnect.Auth | src/handlers/auth_to_app.rs:31-68 | sets roles and answers as `ApiKeyConnectOutcome` |
| AuthToApp.ReceiveTokenRun | src/handlers/auth_to_app.rs:80-95 | a malformed token touches neither storage; the upsert (without app id) runs before the store; a failed upsert stores nothing; otherwise the result is `store_token`'s |
| AuthToApp.ReceiveUserInfoRun | src/handlers/auth_to_app.rs:106-125 | the upsert always runs first; with no token nothing else happens; an unparsable token fails after the upsert, which stays; otherwise the token is stored |
| AuthToApp.ReceiveTokenValidates | src/handlers/auth_to_app.rs:80-95 | the table stays consistent, and after success the received token validates to the user it was sent for |
| AuthToApp.ReceiveUserInfoValidates | src/handlers/auth_to_app.rs:106-125 | the table stays consistent, and after success any token sent validates to the user |
| AuthToApp.MethodReceiveToken.Handle | src/handlers/auth_to_app.rs:80-95 | updates the upsert log, the token table and the answer as `ReceiveTokenRun` |
| AuthToApp.MethodReceiveUserInfo.Handle | src/handlers/auth_to_app.rs:106-125 | updates the upsert log, the token table and the answer as `ReceiveUserInfoRun` |
| AppAuth.AccessTokenConnectOutcome | src/handlers/app/auth.rs:22-52 | roles become [the owner's role] iff the payload decodes, the token is stored and the role lookup succeeds; an unknown token is "Wrong `accessToken`"; a lookup error is passed on; no failure sets roles |
| AppAuth.StoredTokenConnects | src/handlers/app/auth.rs:34-47 | once (u, t) is stored, connecting with t grants u's role |
| AppAuth.MethodAccessTokenConnect.Auth | src/handlers/app/auth.rs:22-52 | sets roles and answers as `AccessTokenConnectOutcome`, reading the token storage only |
| TokenAuth.ApiKeyConnectOutcome | src/handlers/token/auth.rs:23-52 | roles become [honey auth role] iff the payload decodes and the key validates; the only failures are a bad payload and "Wrong `authApiKey`" |
| TokenAuth.MethodApiKeyConnect.Auth | src/handlers/token/auth.rs:23-52 | sets roles and answers as `ApiKeyConnectOutcome` |
| PublicHandler.PublicConnectOutcome | src/handlers/public.rs:23-43 | succeeds iff the payload deserialises, and then sets exactly [public role] and answers `{}` |
| PublicHandler.PublicRoleIndependentOfPayload | src/handlers/public.rs:32-38 | any two payloads that deserialise get the same outcome |
| PublicHandler.MethodPublicConnect.Auth | src/handlers/public.rs:23-43 | sets roles and answers as `PublicConnectOutcome` |
| TokenReceiveToken.ReceiveTokenStep | src/handlers/token/receive_token.rs:18-25 | an unparsable token leaves the table untouched; otherwise the step is `store_token(user, token)` |
| TokenReceiveToken.ReceiveTokenAcceptance | src/handlers/token/receive_token.rs:18-25 | succeeds iff the token parses, the user has no token and the token is new; then the token validates to the user; a parsed duplicate fails with AlreadyExists |
| TokenReceiveToken.MethodReceiveToken.Handle | src/handlers/token/receive_token.rs:18-25 | updates the table and answers as `ReceiveTokenStep` |
| TokenRecieveToken.RecieveTokenStep | src/handlers/token/recieve_token.rs:18-25 | an unparsable token leaves the client table untouched; otherwise the row (next key, user, token) is inserted |
| TokenRecieveToken.RecieveTokenAcceptance | src/handlers/token/recieve_token.rs:18-25 | succeeds iff the token parses and the user has no row; the new row keeps user and token in their own columns; a present user is rejected |
| TokenRecieveToken.MethodReceiveToken.Handle | src/handlers/token/recieve_token.rs:18-25 | updates the client's table and answers as `RecieveTokenStep`, through `HoneyIdClient.StoreToken` |

## Left out

- I/O and async. The socket, TLS, `connect_async` and the futures are not
  modelled. A connection is an inbound event queue plus a log of sent JSON
  values; a send failure is a fixed sink error.
- Concurrency. The worktable's lock-free indexes and the `Arc` sharing are
  modelled sequentially, as maps and a counter.
- JSON text syntax and serde internals. These are function values in
  `JsonValue.Codec` and in the handler classes.
- `Uuid::parse_str`, `Uuid::try_parse` and `Url::parse` are parameters. The
  UUID text format (section 4 of RFC 9562) is therefore not checked by the
  model.
- The `expect("headers should be valid")` panic in `connect` is not modelled.
  It fires when an auth value is not a valid header value.
- `send_request` with params that fail to serialise is not modelled, because
  params are already JSON values.
- Ws.Frame: tungstenite's raw `Frame` message variant is not modelled.
- Ws.HoneyIdConnection.SendRequest: does not model a send that fails after
  part of the frame was written.
- Errors.ReportText: the text of `AlreadyExists` stands for the `Display` of
  worktable's insert error, which is defined outside this crate.
- Errors.INTERNAL_ERROR: the value 100500 stands for endpoint_libs'
  `ErrorCode::INTERNAL_ERROR`, which is defined outside this crate.
- Client.Lowercase: only ASCII letters are lowered, not the full Unicode
  `to_lowercase`. All schema names are ASCII.
- Token table ids are unbounded naturals. The u64 wrap of the autoincrement
  counter is not modelled.
- The app callbacks of the generic handlers cannot see the connection, so a
  callback that changes roles itself is not modelled. The same holds for
  `GenericAuthHandler.GenericConnectHandler`: its `CustomConnectHandler` is a
  pure function of the payload that sets roles at most once, and it does not
  read the connection or call `set_roles` several times.
- A connection's roles before any handler ran belong to endpoint_libs'
  `WsConnection`, which is defined outside this crate. `Server.WsConnection`
  assumes it starts with no roles.
- Ws.HoneyIdConnection.SendRequest takes the endpoint enum where the source
  takes `EndpointMethodCode` from the enums module, which is not part of this
  model. The two are treated as the same type, with the same discriminants.
- The handlers take any `Arc<dyn TokenStorage>`, and `TokenStorage` is a
  public trait. `GenericAuthHandler.GenericAuthorizedConnect`,
  `AuthToApp.MethodReceiveToken`, `AuthToApp.MethodReceiveUserInfo`,
  `AppAuth.MethodAccessTokenConnect` and `TokenReceiveToken.MethodReceiveToken`
  hold the crate's own `TokenWorkTableStorage` instead. Their outcomes, and
  the lemmas `AuthToApp.ReceiveTokenValidates`,
  `AuthToApp.ReceiveUserInfoValidates` and `AppAuth.StoredTokenConnects`,
  are therefore proved for that table only. A storage written by an app is
  not covered.
- `UserStorage` implementations are abstract. Role lookups are fixed
  functions, and an upsert's answer is a fixed function of the user record.
- `tracing` calls are dropped; they have no effect on results.
- `EnumEndpoint::schema` is a table lookup. The `unwrap` of the SCHEMA JSON
  text is not modelled, and only its name, code and roles are kept.
- Generated.RequestMeta: the other SCHEMA fields (parameters, returns,
  description) and the generated enums the core does not use are not
  modelled. These are billing, subscription, severity, payment and
  role-in-app.
- A submit-password step, a sign-in flow, token expiry, and reading any
  response in the senders or `connect_public` are not modelled, because the
  code does not have them.
- The wiring files (`lib.rs`, `types.rs`, `handlers.rs`, the endpoint
  re-export modules) and the derive-only newtypes are not modelled, because
  they carry no behaviour.
