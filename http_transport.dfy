/** The streamable HTTP transport: the `/mcp` POST endpoint's decisions (origin check, request
    decoding, session handling, dispatch, and the mapping of outcomes to JSON-RPC error codes and
    HTTP statuses), the session table and its expiry, and the Server-Sent Events framing.
    The clock, uuid4, urlparse's hostname and json.dumps are parameters. */
module HttpTransport {
  import opened Values
  import opened Text
  import opened TransportBase

  // ---------------------------------------------------------------- sessions

  /** One entry of `_sessions`: `created_at`, `requests` and (once set) `last_seen`. */
  datatype Session = Session(createdAt: real, requests: int, lastSeen: Option<real>)

  /** Sessions idle for longer than this many seconds are removed. */
  const SessionTimeout: real := 3600.0

  /** `current_time - session_data.get("last_seen", 0) > session_timeout` */
  predicate Expired(s: Session, now: real) {
    now - s.lastSeen.GetOr(0.0) > SessionTimeout
  }

  /** The table that `_cleanup_sessions` leaves behind. */
  function Survivors(sessions: map<string, Session>, now: real): map<string, Session> {
    map id | id in sessions && !Expired(sessions[id], now) :: sessions[id]
  }

  /** The result of `_handle_session` and the table afterwards, for header `header` ("" when the
      header is absent or empty), clock reading `now` and the id uuid4 would produce. */
  function SessionStep(sessions: map<string, Session>, header: string, now: real, freshId: string): (map<string, Session>, Option<string>) {
    if header != "" then
      if header !in sessions then (sessions, None)
      else (sessions[header := sessions[header].(requests := sessions[header].requests + 1, lastSeen := Some(now))], Some(header))
    else (sessions[freshId := Session(now, 1, Some(now))], Some(freshId))
  }

  /** With no session header exactly one session is added, under the fresh id that is returned,
      with one request seen now; every other session is left as it was. */
  lemma NewSessionCreated(sessions: map<string, Session>, now: real, freshId: string)
    requires freshId !in sessions
    ensures var (after, id) := SessionStep(sessions, "", now, freshId);
      && id == Some(freshId)
      && after.Keys == sessions.Keys + {freshId}
      && |after| == |sessions| + 1
      && after[freshId] == Session(now, 1, Some(now))
      && forall other | other in sessions :: after[other] == sessions[other]
  {
    var (after, id) := SessionStep(sessions, "", now, freshId);
    assert after.Keys == sessions.Keys + {freshId};
  }

  /** A known session id is returned as it is; its request count rises by one and its last-seen
      time becomes now; no session is added or removed. */
  lemma KnownSessionTouched(sessions: map<string, Session>, header: string, now: real, freshId: string)
    requires header != "" && header in sessions
    ensures var (after, id) := SessionStep(sessions, header, now, freshId);
      && id == Some(header)
      && after.Keys == sessions.Keys
      && after[header].requests == sessions[header].requests + 1
      && after[header].lastSeen == Some(now)
      && after[header].createdAt == sessions[header].createdAt
      && forall other | other in sessions && other != header :: after[other] == sessions[other]
  {
  }

  /** An unknown session id gives no session at all, and the table is left exactly as it was. */
  lemma UnknownSessionIgnored(sessions: map<string, Session>, header: string, now: real, freshId: string)
    requires header != "" && header !in sessions
    ensures SessionStep(sessions, header, now, freshId) == (sessions, None)
  {
  }

  /** Cleanup removes exactly the expired sessions and leaves the others unchanged. */
  lemma SurvivorsExact(sessions: map<string, Session>, now: real, id: string)
    ensures id in Survivors(sessions, now) <==> id in sessions && !Expired(sessions[id], now)
    ensures id in Survivors(sessions, now) ==> Survivors(sessions, now)[id] == sessions[id]
  {
  }

  /** A session idle for exactly the timeout is kept; a moment more and it goes; a session that
      was never seen counts as last seen at time 0. */
  lemma TimeoutBoundary(s: Session, t: real)
    ensures s.lastSeen == Some(t) ==> !Expired(s, t + SessionTimeout) && Expired(s, t + SessionTimeout + 0.5)
    ensures s.lastSeen == None ==> (Expired(s, t) <==> t > SessionTimeout)
  {
  }

  /** Cleaning up twice at the same time changes nothing the second time, and a later cleanup
      keeps no session that an earlier one removed. */
  lemma CleanupIdempotentAndMonotone(sessions: map<string, Session>, now: real, later: real)
    requires now <= later
    ensures Survivors(Survivors(sessions, now), now) == Survivors(sessions, now)
    ensures Survivors(sessions, later).Keys <= Survivors(sessions, now).Keys
  {
  }

  /** A session created by a request survives any cleanup within the timeout after it. */
  lemma FreshSessionSurvivesTimeout(sessions: map<string, Session>, now: real, freshId: string, later: real)
    requires freshId !in sessions && now <= later <= now + SessionTimeout
    ensures freshId in Survivors(SessionStep(sessions, "", now, freshId).0, later)
  {
  }

  // ---------------------------------------------------------------- origins and streaming

  /** The default for `cors_origins` when it is None or empty. */
  const DefaultCorsOrigins: seq<string> := ["http://localhost:3000"]

  /** `cors_origins or ["http://localhost:3000"]` */
  function EffectiveCorsOrigins(configured: Option<seq<string>>): (r: seq<string>)
    ensures |r| > 0
    ensures configured.Some? && |configured.value| > 0 ==> r == configured.value
  {
    if configured.Some? && |configured.value| > 0 then configured.value else DefaultCorsOrigins
  }

  /** What `urlparse(origin).hostname` gives: a host name or none, or an exception. */
  datatype UrlParse = Parsed(hostname: Option<string>) | ParseRaised

  /** `_is_valid_origin(origin)` */
  function IsValidOrigin(origin: string, corsOrigins: seq<string>, parse: string -> UrlParse): bool {
    if origin == "" then true
    else match parse(origin)
      case ParseRaised => false
      case Parsed(host) => host == Some("localhost") || host == Some("127.0.0.1") || origin in corsOrigins
  }

  /** An origin is accepted exactly when it is empty, or it parses and either names a local host or
      is one of the configured origins, spelled exactly. */
  lemma OriginAcceptedIff(origin: string, corsOrigins: seq<string>, parse: string -> UrlParse)
    ensures IsValidOrigin(origin, corsOrigins, parse) <==>
      || origin == ""
      || (parse(origin).Parsed? && parse(origin).hostname in {Some("localhost"), Some("127.0.0.1")})
      || (parse(origin).Parsed? && exists k | 0 <= k < |corsOrigins| :: corsOrigins[k] == origin)
  {
  }

  /** With the default configuration, a non-empty origin is accepted only for a local host name or
      for exactly `http://localhost:3000`. */
  lemma DefaultOriginsOnlyLocal(origin: string, parse: string -> UrlParse)
    requires origin != "" && parse(origin).Parsed?
    requires parse(origin).hostname !in {Some("localhost"), Some("127.0.0.1")}
    ensures IsValidOrigin(origin, EffectiveCorsOrigins(None), parse) <==> origin == "http://localhost:3000"
  {
  }

  /** The tools whose answers are always streamed. */
  const StreamingMethods: set<string> := {"query_table", "list_tables", "describe_table"}

  const StreamThreshold := 5000

  /** `_should_stream(method, result)` */
  predicate ShouldStream(toolName: string, result: Value) {
    (result.Str? && |result.s| > StreamThreshold) || toolName in StreamingMethods
  }

  /** The boundary: 5000 characters is not streamed for a tool outside the three, 5001 is; the
      three tools are streamed whatever they return. */
  lemma StreamThresholdBoundary(at: string, over: string, result: Value)
    requires |at| == StreamThreshold && |over| == StreamThreshold + 1
    ensures !ShouldStream("insert_record", Str(at))
    ensures ShouldStream("insert_record", Str(over))
    ensures ShouldStream("query_table", result) && ShouldStream("describe_table", result) && ShouldStream("list_tables", result)
    ensures !ShouldStream("update_record", Int(100000))
  {
  }

  // ---------------------------------------------------------------- JSON-RPC messages

  /** The fields of `JsonRpcRequest` that pydantic refuses. */
  datatype RequestDefect = JsonrpcNotString | MethodMissing | MethodNotString | ParamsNotObject

  /** `JsonRpcError(code, message, data)`; `data` carries the validation defects for -32600. */
  datatype RpcError = RpcError(code: int, message: string, data: Option<seq<RequestDefect>>)

  /** `JsonRpcResponse(...).model_dump()` */
  datatype RpcResponse = RpcResponse(jsonrpc: string, id: Value, result: Value, error: Option<RpcError>)

  /** A decoded and validated `JsonRpcRequest`; a `None` or empty `params` is the empty dictionary. */
  datatype RpcRequest = RpcRequest(jsonrpc: string, toolName: string, params: Entries, id: Value)

  /** What `JsonRpcRequest(**body)` does with a decoded body. */
  datatype RequestParse =
    | NotAMapping                              // `**` on a non-dict raises TypeError
    | Defective(defects: seq<RequestDefect>)   // pydantic ValidationError
    | Decoded(request: RpcRequest)

  /** The request body: not JSON at all, or a JSON value (an object's keys are distinct). */
  datatype Body = NotJson | Json(value: Value)

  const ParseError := -32700
  const InvalidRequest := -32600
  const MethodNotFound := -32601
  const InternalError := -32603

  function JsonrpcDefects(fields: Entries): seq<RequestDefect> {
    match Lookup(fields, "jsonrpc")
    case None => []
    case Some(v) => if v.Str? then [] else [JsonrpcNotString]
  }

  function MethodDefects(fields: Entries): seq<RequestDefect> {
    match Lookup(fields, "method")
    case None => [MethodMissing]
    case Some(v) => if v.Str? then [] else [MethodNotString]
  }

  function ParamsDefects(fields: Entries): seq<RequestDefect> {
    match Lookup(fields, "params")
    case None => []
    case Some(v) => if v.Null? || v.Obj? then [] else [ParamsNotObject]
  }

  /** `JsonRpcRequest(**body)`: `jsonrpc` any string (default "2.0"), `method` a string, `params` a
      dictionary or null, `id` anything (default null). */
  function DecodeRequest(body: Value): (r: RequestParse)
    ensures r.Decoded? ==> body.Obj? && Lookup(body.fields, "method") == Some(Str(r.request.toolName))
    ensures r.Defective? ==> |r.defects| > 0
  {
    match body
    case Obj(fields) =>
      var defects := JsonrpcDefects(fields) + MethodDefects(fields) + ParamsDefects(fields);
      if defects != [] then Defective(defects)
      else
        var jsonrpc := match Lookup(fields, "jsonrpc") case Some(Str(s)) => s case _ => "2.0";
        var params := match Lookup(fields, "params") case Some(Obj(p)) => p case _ => [];
        Decoded(RpcRequest(jsonrpc, Lookup(fields, "method").value.s, params, Get(fields, "id", Null)))
    case _ => NotAMapping
  }

  /** A request object is decoded exactly when `method` is a string, `jsonrpc` is absent or a
      string and `params` is absent, null or a dictionary. */
  lemma DecodeRequestIff(fields: Entries)
    ensures DecodeRequest(Obj(fields)).Decoded? <==>
      && (HasKey(fields, "method") && Lookup(fields, "method").value.Str?)
      && (HasKey(fields, "jsonrpc") ==> Lookup(fields, "jsonrpc").value.Str?)
      && (HasKey(fields, "params") ==> Lookup(fields, "params").value.Null? || Lookup(fields, "params").value.Obj?)
  {
  }

  // ---------------------------------------------------------------- replies

  /** The HTTP answer of the `/mcp` POST endpoint. */
  datatype HttpReply =
    | Forbidden                                                            // HTTPException(403, "Invalid origin")
    | JsonReply(status: int, body: RpcResponse, sessionHeader: Option<string>)
    | StreamReply(headers: seq<(string, string)>, events: seq<string>)     // text/event-stream
    | ServerError                                                          // an exception the endpoint does not catch: 500

  function Success(id: Value, result: Value): RpcResponse {
    RpcResponse("2.0", id, result, None)
  }

  function Failure(id: Value, code: int, message: string, data: Option<seq<RequestDefect>>): RpcResponse {
    RpcResponse("2.0", id, Null, Some(RpcError(code, message, data)))
  }

  /** `Mcp-Session-Id` is sent only for a non-empty session id. */
  function SessionHeader(sessionId: Option<string>): Option<string> {
    if sessionId.Some? && sessionId.value != "" then sessionId else None
  }

  const SseBaseHeaders: seq<(string, string)> := [
    ("Cache-Control", "no-cache"),
    ("Connection", "keep-alive"),
    ("Content-Type", "text/event-stream"),
    ("Access-Control-Allow-Origin", "*"),
    ("Access-Control-Allow-Headers", "Content-Type")
  ]

  function SseHeaders(sessionId: Option<string>): seq<(string, string)> {
    SseBaseHeaders + if SessionHeader(sessionId).Some? then [("Mcp-Session-Id", sessionId.value)] else []
  }

  predicate HasHeader(headers: seq<(string, string)>, name: string) {
    exists i | 0 <= i < |headers| :: headers[i].0 == name
  }

  /** One Server-Sent Event carrying `payload`. */
  function SseEvent(payload: string): string {
    "data: " + payload + "\n\n"
  }

  /** How an event-stream reader takes one event apart. */
  function ReadSseEvent(event: string): Option<string> {
    if |event| >= 8 && event[..6] == "data: " && event[|event| - 2..] == "\n\n" then Some(event[6..|event| - 2])
    else None
  }

  /** `_create_sse_response(result, id, session_id)`, with `dumps` in place of json.dumps. */
  function SseResponse(result: Value, id: Value, sessionId: Option<string>, dumps: RpcResponse -> string): HttpReply {
    StreamReply(SseHeaders(sessionId), [SseEvent(dumps(Success(id, result)))])
  }

  /** A reader gets the payload back from the event. */
  lemma SseRoundTrip(payload: string)
    ensures ReadSseEvent(SseEvent(payload)) == Some(payload)
  {
    var e := SseEvent(payload);
    assert e[..6] == "data: ";
    assert e[|e| - 2..] == "\n\n";
    assert e[6..|e| - 2] == payload;
  }

  /** A payload without a raw newline (json.dumps escapes them) forms exactly one event: the only
      blank line of the event is the one that ends it. */
  lemma SseSingleEvent(payload: string, i: int)
    requires forall k | 0 <= k < |payload| :: payload[k] != '\n'
    requires OccursAt(SseEvent(payload), i, "\n\n")
    ensures i == |SseEvent(payload)| - 2
  {
    var e := SseEvent(payload);
    forall k | 0 <= k < |e| - 2 ensures e[k] != '\n' {
      if k < 6 {
        assert e[k] == "data: "[k];
      } else {
        assert e[k] == payload[k - 6];
      }
    }
    assert e[i] == e[i..i + 2][0];
  }

  /** The stream carries the caching, connection and content-type headers, and a session header
      exactly when the session id is non-empty. */
  lemma SseHeadersShape(sessionId: Option<string>)
    ensures var h := SseHeaders(sessionId);
      && h[0] == ("Cache-Control", "no-cache")
      && h[1] == ("Connection", "keep-alive")
      && h[2] == ("Content-Type", "text/event-stream")
      && (HasHeader(h, "Mcp-Session-Id") <==> sessionId.Some? && sessionId.value != "")
  {
    var h := SseHeaders(sessionId);
    forall k | 0 <= k < 5 ensures h[k].0 != "Mcp-Session-Id" {
      assert h[k] == SseBaseHeaders[k];
    }
    if sessionId.Some? && sessionId.value != "" {
      assert h[5].0 == "Mcp-Session-Id";
    }
  }

  /** The reply once the request has been decoded and the session handled, from what the tool did. */
  function ToolReply(request: RpcRequest, sessionId: Option<string>, outcome: Invocation, dumps: RpcResponse -> string): HttpReply {
    match outcome
    case Returned(result) =>
      if ShouldStream(request.toolName, result) then SseResponse(result, request.id, sessionId, dumps)
      else JsonReply(200, Success(request.id, result), SessionHeader(sessionId))
    case RaisedValueError(m) => JsonReply(404, Failure(request.id, MethodNotFound, m, None), None)
    case RaisedError(m) => JsonReply(500, Failure(request.id, InternalError, "Tool execution failed: " + m, None), None)
  }

  /** After a decoded request, a plain success carries the session header and no error; an error
      carries the request id, no result and no session header, and is a 404 or a 500. */
  lemma ToolReplyShape(request: RpcRequest, sessionId: Option<string>, outcome: Invocation, dumps: RpcResponse -> string)
    ensures var reply := ToolReply(request, sessionId, outcome, dumps);
      && (reply.JsonReply? && reply.status == 200 ==> reply.sessionHeader == SessionHeader(sessionId) && reply.body.error.None?)
      && (reply.JsonReply? && reply.body.error.Some? ==>
            && reply.body.result == Null && reply.sessionHeader == None && reply.body.id == request.id
            && ((reply.body.error.value.code == MethodNotFound && reply.status == 404)
                || (reply.body.error.value.code == InternalError && reply.status == 500)))
  {
  }

  /** The session that `_handle_session` returns has a header exactly when no header was sent or
      the one sent is known; an unknown one leaves the table alone. */
  lemma SessionStepHeader(sessions: map<string, Session>, header: string, now: real, freshId: string)
    requires freshId != ""
    ensures var (after, id) := SessionStep(sessions, header, now, freshId);
      && (SessionHeader(id).Some? <==> header == "" || header in sessions)
      && (header != "" && header !in sessions ==> after == sessions)
  {
  }

  /** The fixed parts of a transport: its server, its allowed origins, and the library behaviour it
      depends on. */
  datatype EndpointConfig = EndpointConfig(
    server: McpServer,
    corsOrigins: seq<string>,
    parse: string -> UrlParse,
    dumps: RpcResponse -> string)

  /** The `/mcp` POST endpoint: the reply, and the session table afterwards. */
  function Endpoint(config: EndpointConfig, sessions: map<string, Session>, origin: string, header: string,
                    body: Body, now: real, freshId: string): (map<string, Session>, HttpReply) {
    if origin != "" && !IsValidOrigin(origin, config.corsOrigins, config.parse) then (sessions, Forbidden)
    else match body
      case NotJson => (sessions, JsonReply(400, Failure(Null, ParseError, "Invalid JSON", None), None))
      case Json(v) =>
        match DecodeRequest(v)
        case NotAMapping => (sessions, ServerError)
        case Defective(ds) => (sessions, JsonReply(400, Failure(Null, InvalidRequest, "Invalid JSON-RPC request", Some(ds)), None))
        case Decoded(request) =>
          var (sessions', sessionId) := SessionStep(sessions, header, now, freshId);
          (sessions', ToolReply(request, sessionId, InvokeTool(config.server, request.toolName, request.params), config.dumps))
  }

  /** The error codes and statuses: parse error 400, invalid request 400, method not found 404,
      internal error 500. An error never carries a result; it carries the request id once the
      request has been decoded, and null before. */
  lemma EndpointErrorTable(config: EndpointConfig, sessions: map<string, Session>, origin: string, header: string,
                           body: Body, now: real, freshId: string)
    ensures var reply := Endpoint(config, sessions, origin, header, body, now, freshId).1;
      reply.JsonReply? && reply.body.error.Some? ==>
        && reply.body.result == Null
        && reply.sessionHeader == None
        && (reply.body.error.value.code, reply.status) in {(ParseError, 400), (InvalidRequest, 400), (MethodNotFound, 404), (InternalError, 500)}
        && (reply.body.error.value.code in {ParseError, InvalidRequest} <==> reply.body.id == Null && !(body.Json? && DecodeRequest(body.value).Decoded?))
        && (reply.body.error.value.code in {MethodNotFound, InternalError} ==> body.Json? && DecodeRequest(body.value).Decoded? && reply.body.id == DecodeRequest(body.value).request.id)
  {
    if !(origin != "" && !IsValidOrigin(origin, config.corsOrigins, config.parse)) && body.Json? && DecodeRequest(body.value).Decoded? {
      var request := DecodeRequest(body.value).request;
      var (after, id) := SessionStep(sessions, header, now, freshId);
      ToolReplyShape(request, id, InvokeTool(config.server, request.toolName, request.params), config.dumps);
    }
  }

  /** A refused origin is answered with 403 before the body is read or a session touched. */
  lemma BadOriginRejectedFirst(config: EndpointConfig, sessions: map<string, Session>, origin: string, header: string,
                              body: Body, now: real, freshId: string)
    requires origin != "" && !IsValidOrigin(origin, config.corsOrigins, config.parse)
    ensures Endpoint(config, sessions, origin, header, body, now, freshId) == (sessions, Forbidden)
  {
  }

  /** The session table changes only for a request that decoded; an unknown session id is still
      served, without a session header. */
  lemma SessionsOnlyForDecodedRequests(config: EndpointConfig, sessions: map<string, Session>, origin: string, header: string,
                                       body: Body, now: real, freshId: string)
    requires freshId != ""
    ensures var (after, reply) := Endpoint(config, sessions, origin, header, body, now, freshId);
      && (after != sessions ==> body.Json? && DecodeRequest(body.value).Decoded?)
      && (header != "" && header !in sessions ==> after == sessions && (reply.JsonReply? && reply.status == 200 ==> reply.sessionHeader == None))
      && (reply.JsonReply? && reply.status == 200 ==> (reply.sessionHeader.Some? <==> header == "" || header in sessions))
  {
    if !(origin != "" && !IsValidOrigin(origin, config.corsOrigins, config.parse)) && body.Json? && DecodeRequest(body.value).Decoded? {
      var request := DecodeRequest(body.value).request;
      var (after, id) := SessionStep(sessions, header, now, freshId);
      SessionStepHeader(sessions, header, now, freshId);
      ToolReplyShape(request, id, InvokeTool(config.server, request.toolName, request.params), config.dumps);
    }
  }

  /** A not-found tool is answered 404 with the invoke error's message. */
  lemma UnknownToolIs404(config: EndpointConfig, sessions: map<string, Session>, header: string, fields: Entries,
                         now: real, freshId: string)
    requires DecodeRequest(Obj(fields)).Decoded?
    requires !Registered(config.server.tools, DecodeRequest(Obj(fields)).request.toolName)
    ensures var reply := Endpoint(config, sessions, "", header, Json(Obj(fields)), now, freshId).1;
      reply.JsonReply? && reply.status == 404 && reply.body.error.Some? && reply.body.error.value.code == MethodNotFound
  {
  }

  // ---------------------------------------------------------------- the transport object

  /** `HttpTransport`: its configuration and its session table. */
  class HttpTransport {
    const config: EndpointConfig
    var sessions: map<string, Session>

    /** `HttpTransport(mcp_server, host, port, cors_origins)`; host and port only matter to uvicorn. */
    constructor (server: McpServer, corsOrigins: Option<seq<string>>, parse: string -> UrlParse, dumps: RpcResponse -> string)
      ensures config == EndpointConfig(server, EffectiveCorsOrigins(corsOrigins), parse, dumps)
      ensures sessions == map[]
    {
      config := EndpointConfig(server, EffectiveCorsOrigins(corsOrigins), parse, dumps);
      sessions := map[];
    }

    /** `_handle_session`: `freshId` stands for `str(uuid.uuid4())` and `now` for the event loop's
        clock. */
    method HandleSession(header: string, now: real, freshId: string) returns (sessionId: Option<string>)
      modifies this`sessions
      ensures (sessions, sessionId) == SessionStep(old(sessions), header, now, freshId)
    {
      var id := header;
      if id != "" {
        if id !in sessions {
          return None;
        }
      } else {
        id := freshId;
        sessions := sessions[id := Session(now, 0, None)];
      }
      if id in sessions {
        var s := sessions[id];
        sessions := sessions[id := s.(requests := s.requests + 1, lastSeen := Some(now))];
      }
      assert header == "" ==> sessions == old(sessions)[freshId := Session(now, 1, Some(now))];
      return Some(id);
    }

    /** `_cleanup_sessions`: collect the expired ids, then delete them one by one. */
    method CleanupSessions(now: real)
      modifies this`sessions
      ensures sessions == Survivors(old(sessions), now)
    {
      var expired := set id | id in sessions && Expired(sessions[id], now);
      ghost var all := expired;
      while expired != {}
        invariant expired <= all
        invariant sessions == old(sessions) - (all - expired)
        decreases |expired|
      {
        var id :| id in expired;
        sessions := sessions - {id};
        expired := expired - {id};
      }
      assert sessions == old(sessions) - all;
    }

    /** The part of `stop` that concerns the model: the session table is emptied. */
    method Stop()
      modifies this`sessions
      ensures sessions == map[]
    {
      sessions := map[];
    }

    /** The `/mcp` POST endpoint. */
    method McpEndpoint(origin: string, header: string, body: Body, now: real, freshId: string) returns (reply: HttpReply)
      modifies this`sessions
      ensures (sessions, reply) == Endpoint(config, old(sessions), origin, header, body, now, freshId)
    {
      if origin != "" && !IsValidOrigin(origin, config.corsOrigins, config.parse) {
        return Forbidden;
      }
      if body.NotJson? {
        return JsonReply(400, Failure(Null, ParseError, "Invalid JSON", None), None);
      }
      var parsed := DecodeRequest(body.value);
      if parsed.NotAMapping? {
        return ServerError;
      }
      if parsed.Defective? {
        return JsonReply(400, Failure(Null, InvalidRequest, "Invalid JSON-RPC request", Some(parsed.defects)), None);
      }
      var request := parsed.request;
      var sessionId := HandleSession(header, now, freshId);
      var outcome := InvokeTool(config.server, request.toolName, request.params);
      reply := ToolReply(request, sessionId, outcome, config.dumps);
    }
  }
}
