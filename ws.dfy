// src/ws.rs: `HoneyIdConnection`, one WebSocket stream to the identity
// service. The stream is a queue of inbound events and a log of the JSON
// values written as text frames; the socket itself is not modelled.
module Ws {
  import opened Wrappers
  import opened Entities
  import opened JsonValue
  import opened Errors
  import opened Generated
  import opened Config

  /** A tungstenite `Message` (a WebSocket frame) as the client sees it. */
  datatype Frame =
    | Text(text: string)
    | Binary(data: seq<bv8>)
    | Ping(payload: seq<bv8>)
    | Pong(payload: seq<bv8>)
    | Close(reason: Option<string>)

  /** What `stream.next()` yields: a message, or a stream error with its text. End of stream is an empty queue. */
  datatype Incoming = Received(frame: Frame) | StreamFault(reason: string)

  /**
   * A connection as `connect_async` hands it over: the inbound events the
   * stream will yield, and the error text with which the sink rejects
   * writes (None: writes succeed).
   */
  datatype Dialled = Dialled(incoming: seq<Incoming>, sinkFault: Option<string>)

  datatype Header = Header(name: string, value: string)

  /** The HTTP request of the client opening handshake. */
  datatype HandshakeRequest = HandshakeRequest(uri: string, verb: string, headers: seq<Header>)

  /** endpoint_libs' `WsResponseError`, reduced to the two fields the client reads. */
  datatype WsResponseError = WsResponseError(code: int, params: Json)

  const PROTOCOL_HEADER: string := "Sec-WebSocket-Protocol"

  /**
   * The request built by `connect(addr, auth)`: a GET upgrade to `addr`
   * with `Sec-WebSocket-Version: 13` (section 4.1 of RFC 6455), plus a
   * `Sec-WebSocket-Protocol` header exactly when `auth` is given.
   */
  function OpeningHandshake(addr: Url, auth: Option<string>): (r: HandshakeRequest)
    ensures r.uri == addr.serialization && r.verb == "GET"
    ensures Header("Connection", "Upgrade") in r.headers
    ensures Header("Upgrade", "websocket") in r.headers
    ensures Header("Sec-WebSocket-Version", "13") in r.headers
    ensures (exists h :: h in r.headers && h.name == PROTOCOL_HEADER) <==> auth.Some?
    ensures auth.Some? ==> Header(PROTOCOL_HEADER, auth.value) in r.headers
    // exactly the three upgrade headers, plus the protocol header
    ensures |r.headers| == (if auth.Some? then 4 else 3)
  {
    var base := [Header("Connection", "Upgrade"), Header("Upgrade", "websocket"), Header("Sec-WebSocket-Version", "13")];
    var headers := if auth.Some? then base + [Header(PROTOCOL_HEADER, auth.value)] else base;
    HandshakeRequest(addr.serialization, "GET", headers)
  }

  /** The `ApiMessage` written by `send_request`: tag `"seq": "1"`, the method code and the params. */
  function Envelope(methodId: u32, params: Json): (j: Json)
    ensures j.Object? && j.fields.Keys == {"seq", "method", "params"}
    ensures Get(j, "seq") == Some(Str("1"))
    ensures Get(j, "method") == Some(Number(methodId as int))
    ensures Get(j, "params") == Some(params)
  {
    Object(map["seq" := Str("1"), "method" := Number(methodId as int), "params" := params])
  }

  /** `err.code.try_into().map(ErrorCode::new).unwrap_or(ErrorCode::INTERNAL_ERROR)`. */
  function ConvertCode(code: int): (c: ErrorCode)
    ensures 0 <= code < 0x1_0000_0000 ==> c == ErrorCode(code as u32)
    ensures !(0 <= code < 0x1_0000_0000) ==> c == INTERNAL_ERROR
  {
    if 0 <= code < 0x1_0000_0000 then ErrorCode(code as u32) else INTERNAL_ERROR
  }

  /** Whether the response's `params` field decodes as the expected type. */
  predicate HasTypedParams<T>(response: Json, decode: Json -> Option<T>)
  {
    Get(response, "params").Some? && decode(Get(response, "params").value).Some?
  }

  /**
   * The three-way reading of one inbound JSON value by `receive_response`:
   * typed params first, then the error shape, otherwise an invalid response.
   */
  function Classify<T>(response: Json, decode: Json -> Option<T>,
                       errorShape: Json -> Option<WsResponseError>, toText: Json -> string): (r: Result<T, Report>)
    ensures HasTypedParams(response, decode) ==> r == Ok(decode(Get(response, "params").value).value)
    ensures r.Ok? ==> HasTypedParams(response, decode)
    ensures !HasTypedParams(response, decode) && errorShape(response).Some? ==>
      r == Err(HoneyId(HoneyIdError(ConvertCode(errorShape(response).value.code), toText(errorShape(response).value.params))))
    ensures !HasTypedParams(response, decode) && errorShape(response).None? ==>
      r == Err(Message("Invalid response received from server: " + toText(response)))
  {
    if HasTypedParams(response, decode) then
      Ok(decode(Get(response, "params").value).value)
    else if errorShape(response).Some? then
      var err := errorShape(response).value;
      Err(HoneyId(HoneyIdError(ConvertCode(err.code), toText(err.params))))
    else
      Err(Message("Invalid response received from server: " + toText(response)))
  }

  /**
   * `msg.into_text()`: a text frame as is, a data or ping/pong payload
   * through UTF-8 decoding, a close frame as its reason (empty if none).
   */
  function IntoText(m: Frame, codec: Codec): (r: Result<string, string>)
    ensures m.Text? ==> r == Ok(m.text)
    ensures m.Close? ==> r.Ok? && (m.reason.None? ==> r.value == "")
    ensures r.Err? ==> m.Binary? || m.Ping? || m.Pong?
    // a data or ping/pong payload is taken as text exactly when it is UTF-8
    ensures m.Binary? ==> r == codec.utf8(m.data)
    ensures m.Ping? || m.Pong? ==> r == codec.utf8(m.payload)
    ensures m.Close? && m.reason.Some? ==> r == Ok(m.reason.value)
  {
    match m
    case Text(s) => Ok(s)
    case Binary(b) => codec.utf8(b)
    case Ping(b) => codec.utf8(b)
    case Pong(b) => codec.utf8(b)
    case Close(reason) => Ok(if reason.Some? then reason.value else "")
  }

  /** What `receive_response` returns given the inbound queue. */
  function Receive<T>(queue: seq<Incoming>, codec: Codec, errorShape: Json -> Option<WsResponseError>,
                      decode: Json -> Option<T>): (r: Result<T, Report>)
    ensures queue == [] ==> r == Err(Message("WebSocket stream closed unexpectedly"))
    ensures queue != [] && queue[0].StreamFault? ==> r == Err(Message("WebSocket error: " + queue[0].reason))
    ensures r.Ok? ==> queue != [] && queue[0].Received?
    // a frame whose payload is not UTF-8, or whose text is not JSON, fails with the decoder's message
    ensures queue != [] && queue[0].Received? && IntoText(queue[0].frame, codec).Err? ==>
      r == Err(Message(IntoText(queue[0].frame, codec).error))
    ensures queue != [] && queue[0].Received? && IntoText(queue[0].frame, codec).Ok? ==>
      var parsed := codec.fromStr(IntoText(queue[0].frame, codec).value);
      && (parsed.Err? ==> r == Err(Message(parsed.error)))
      && (parsed.Ok? ==> r == Classify(parsed.value, decode, errorShape, codec.toText))
  {
    if queue == [] then Err(Message("WebSocket stream closed unexpectedly"))
    else match queue[0]
      case StreamFault(e) => Err(Message("WebSocket error: " + e))
      case Received(m) =>
        match IntoText(m, codec)
        case Err(e) => Err(Message(e))
        case Ok(text) =>
          match codec.fromStr(text)
          case Err(e) => Err(Message(e))
          case Ok(response) => Classify(response, decode, errorShape, codec.toText)
  }

  /**
   * A server error that arrives in place of the expected response reaches
   * the caller of a client operation (through `From<eyre::Report>`) with its
   * converted code and its params as the message.
   */
  lemma ServerErrorReachesCaller<T>(response: Json, decode: Json -> Option<T>,
                                    errorShape: Json -> Option<WsResponseError>, toText: Json -> string)
    requires !HasTypedParams(response, decode) && errorShape(response).Some?
    ensures var r := Classify(response, decode, errorShape, toText);
      r.Err? && FromReport(r.error) ==
        HoneyIdError(ConvertCode(errorShape(response).value.code), toText(errorShape(response).value.params))
  {
  }

  /**
   * Loopback: if the JSON text of a sent envelope parses back to the
   * envelope and its params decode as v, receiving that text yields v.
   */
  lemma LoopbackRoundTrip<T>(codec: Codec, errorShape: Json -> Option<WsResponseError>,
                             decode: Json -> Option<T>, methodId: u32, params: Json, v: T)
    requires codec.fromStr(codec.toText(Envelope(methodId, params))) == Ok(Envelope(methodId, params))
    requires decode(params) == Some(v)
    ensures Receive([Received(Text(codec.toText(Envelope(methodId, params))))], codec, errorShape, decode) == Ok(v)
  {
    assert HasTypedParams(Envelope(methodId, params), decode);
  }

  class HoneyIdConnection {
    /** The opening handshake this connection was made with. */
    const handshake: HandshakeRequest
    const codec: Codec
    /** `serde_json::from_value::<WsResponseError>`. */
    const errorShape: Json -> Option<WsResponseError>
    /** Inbound events not yet read. */
    var incoming: seq<Incoming>
    /** JSON values of the text frames written so far. */
    var sent: seq<Json>
    /** When present, the sink rejects writes with this error text. */
    var sinkFault: Option<string>

    /** The connection `connect(addr, auth)` holds once the handshake has completed. */
    constructor Established(addr: Url, auth: Option<string>, codec: Codec,
                        errorShape: Json -> Option<WsResponseError>, incoming: seq<Incoming>, sinkFault: Option<string>)
      ensures this.handshake == OpeningHandshake(addr, auth)
      ensures this.codec == codec && this.errorShape == errorShape
      ensures this.incoming == incoming && this.sent == [] && this.sinkFault == sinkFault
    {
      this.handshake := OpeningHandshake(addr, auth);
      this.codec := codec;
      this.errorShape := errorShape;
      this.incoming := incoming;
      this.sent := [];
      this.sinkFault := sinkFault;
    }

    /** `send_request(method, params)`: write one text frame, or propagate the send error. */
    method SendRequest(endpoint: EnumEndpoint, params: Json) returns (r: Result<(), Report>)
      modifies this
      ensures sinkFault == old(sinkFault) && incoming == old(incoming)
      ensures old(sinkFault).None? ==> r == Ok(()) && sent == old(sent) + [Envelope(Discriminant(endpoint), params)]
      ensures old(sinkFault).Some? ==> r == Err(Message(old(sinkFault).value)) && sent == old(sent)
    {
      var json := Envelope(Discriminant(endpoint), params);
      if sinkFault.Some? {
        r := Err(Message(sinkFault.value));
      } else {
        sent := sent + [json];
        r := Ok(());
      }
    }

    /** `receive_response::<T>()`: consume one inbound event and classify it. */
    method ReceiveResponse<T>(decode: Json -> Option<T>) returns (r: Result<T, Report>)
      modifies this
      ensures r == Receive(old(incoming), codec, errorShape, decode)
      ensures incoming == if old(incoming) == [] then [] else old(incoming)[1..]
      ensures sent == old(sent) && sinkFault == old(sinkFault)
    {
      if incoming == [] {
        r := Err(Message("WebSocket stream closed unexpectedly"));
        return;
      }
      var next := incoming[0];
      incoming := incoming[1..];
      match next {
        case StreamFault(e) =>
          r := Err(Message("WebSocket error: " + e));
        case Received(m) =>
          var text := IntoText(m, codec);
          if text.Err? {
            r := Err(Message(text.error));
            return;
          }
          var response := codec.fromStr(text.value);
          if response.Err? {
            r := Err(Message(response.error));
            return;
          }
          r := Classify(response.value, decode, errorShape, codec.toText);
      }
    }
  }

  /**
   * `HoneyIdConnection::connect(addr, auth)`. `dial` stands for what
   * `connect_async` does with the handshake: the stream and sink of the new
   * connection, or the text of the failure, which reaches the caller as an
   * `INTERNAL_ERROR` through `From<eyre::Report>`.
   */
  method Connect(addr: Url, auth: Option<string>, codec: Codec, errorShape: Json -> Option<WsResponseError>,
                 dial: Result<Dialled, string>) returns (r: Result<HoneyIdConnection, HoneyIdError>)
    ensures r.Ok? <==> dial.Ok?
    ensures dial.Err? ==> r.error == HoneyIdError(INTERNAL_ERROR, dial.error)
    ensures r.Ok? ==> fresh(r.value)
    ensures r.Ok? ==> r.value.handshake == OpeningHandshake(addr, auth)
    ensures r.Ok? ==> r.value.incoming == dial.value.incoming && r.value.sent == [] && r.value.sinkFault == dial.value.sinkFault
    ensures r.Ok? ==> r.value.codec == codec && r.value.errorShape == errorShape
  {
    if dial.Err? {
      r := Err(FromReport(Message(dial.error)));
      return;
    }
    var conn := new HoneyIdConnection.Established(addr, auth, codec, errorShape, dial.value.incoming, dial.value.sinkFault);
    r := Ok(conn);
  }
}
