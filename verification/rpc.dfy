/** The JSON-RPC 2.0 request dispatcher: envelope validation, routing by
    method, the `tools/call` path into the tools, session termination, and
    the session-deletion endpoint. Every JSON-RPC outcome, errors included,
    travels in a well-formed response envelope. */
module Rpc {
  import opened Wrappers
  import opened Json
  import opened Text
  import opened Sessions
  import opened Registry
  import opened ToolErrors
  import opened Tools
  import opened Http

  const PARSE_ERROR: int := -32700
  const INVALID_REQUEST: int := -32600
  const METHOD_NOT_FOUND: int := -32601
  const INVALID_PARAMS: int := -32602
  const INTERNAL_ERROR: int := -32603

  /** A decoded request envelope. Decoding maps a JSON `null` id or params
      to `None`, as serde does for optional fields. */
  datatype Request = Request(jsonrpc: string, id: Option<Json>, name: string, params: Option<Json>)

  /** The request body as the dispatcher receives it: unreadable, empty,
      not decodable into an envelope (malformed JSON or a missing
      `jsonrpc`/`method` field), or decoded. */
  datatype Body = Unreadable(reason: string) | EmptyBody | Undecodable(reason: string) | Decoded(request: Request)

  /** Success payloads. Timestamps and the fixed descriptive texts of
      `initialize` and `ping` are not modelled. */
  datatype Payload =
    | Initialized
    | ToolList(tools: seq<ToolDefinition>)
    | ToolResult(output: ToolOutput)
    | Pong
    | Terminated(sessionId: string)
    | Acknowledged

  datatype RpcError = RpcError(code: int, message: string, data: Option<string>)

  datatype Response = Response(jsonrpc: string, id: Option<Json>, result: Option<Payload>, error: Option<RpcError>)

  /** Version "2.0" and exactly one of `result` and `error`. */
  predicate WellFormed(r: Response) {
    r.jsonrpc == "2.0" && (r.result.Some? <==> r.error.None?)
  }

  /** The error code of a response, if it is an error. */
  function Code(r: Response): Option<int> {
    if r.error.Some? then Some(r.error.value.code) else None
  }

  predicate KnownCode(code: int) {
    code == PARSE_ERROR || code == INVALID_REQUEST || code == METHOD_NOT_FOUND
    || code == INVALID_PARAMS || code == INTERNAL_ERROR
  }

  function SuccessResponse(id: Option<Json>, result: Payload): (r: Response)
    ensures WellFormed(r) && r.id == id && r.result == Some(result)
  {
    Response("2.0", id, Some(result), None)
  }

  function ErrorResponse(id: Option<Json>, code: int, message: string, data: Option<string>): (r: Response)
    ensures WellFormed(r) && r.id == id && r.error == Some(RpcError(code, message, data))
  {
    Response("2.0", id, None, Some(RpcError(code, message, data)))
  }

  /** `params.name` of a `tools/call`, when it is a string. */
  function ToolNameArg(params: Json): Option<string> {
    AsStr(Get(params, "name"))
  }

  /** `params.arguments` of a `tools/call`, `{}` when absent. */
  function Arguments(params: Json): Json {
    Get(params, "arguments").GetOr(JObj(map[]))
  }

  /** The `open` arguments of a `tools/call` keep `num_lines` at -1 or above. */
  predicate CallInDomain(params: Option<Json>) {
    params.Some? && ToolNameArg(params.value) == Some("open") ==> SpanInRange(Arguments(params.value))
  }

  /** The bodies the model covers: every body except a `tools/call` of
      `open` whose `num_lines` is below -1. */
  predicate InDomain(body: Body) {
    body.Decoded? && body.request.jsonrpc == "2.0" && body.request.name == "tools/call" ==>
      CallInDomain(body.request.params)
  }

  /** `tools/call`: validates `params` and the tool name, runs the tool and
      wraps its text or its failure. */
  function ToolsCall(req: Request, sid: string, store: Store, env: Env): (out: (Response, Store))
    requires CallInDomain(req.params)
    ensures WellFormed(out.0) && out.0.id == req.id
    ensures Code(out.0).Some? ==> Code(out.0).value in {INVALID_PARAMS, METHOD_NOT_FOUND, INTERNAL_ERROR}
    ensures Code(out.0) == Some(INVALID_PARAMS) <==> req.params.None? || ToolNameArg(req.params.value).None?
    ensures Code(out.0) == Some(METHOD_NOT_FOUND) <==>
              req.params.Some? && ToolNameArg(req.params.value).Some? && Lookup(ToolNameArg(req.params.value).value).None?
    ensures Code(out.0) == Some(METHOD_NOT_FOUND) ==>
              out.0.error.value.data == Some("Unknown tool: " + ToolNameArg(req.params.value).value)
    ensures Code(out.0).Some? && Code(out.0).value != INTERNAL_ERROR ==> out.1 == store
    ensures Code(out.0) == Some(INTERNAL_ERROR) || out.0.result.Some? ==>
              && req.params.Some? && ToolNameArg(req.params.value).Some?
              && Lookup(ToolNameArg(req.params.value).value).Some?
              && var tool := Lookup(ToolNameArg(req.params.value).value).value;
                 var run := Execute(tool, Arguments(req.params.value), sid, store, env);
                 && out.1 == run.1
                 && (run.0.Err? <==> Code(out.0) == Some(INTERNAL_ERROR))
                 && (run.0.Err? ==> out.0.error.value.data == Some(Message(run.0.error)))
                 && (run.0.Ok? ==> out.0.result == Some(ToolResult(run.0.value)))
  {
    match req.params
    case None => (ErrorResponse(req.id, INVALID_PARAMS, "Invalid params", Some("Missing parameters")), store)
    case Some(params) =>
      match ToolNameArg(params)
      case None => (ErrorResponse(req.id, INVALID_PARAMS, "Invalid params", Some("Missing tool name")), store)
      case Some(name) =>
        match Lookup(name)
        case None => (ErrorResponse(req.id, METHOD_NOT_FOUND, "Method not found", Some("Unknown tool: " + name)), store)
        case Some(tool) =>
          var (r, store') := Execute(tool, Arguments(params), sid, store, env);
          match r
          case Ok(output) => (SuccessResponse(req.id, ToolResult(output)), store')
          case Err(e) => (ErrorResponse(req.id, INTERNAL_ERROR, "Internal error", Some(Message(e))), store')
  }

  /** The session `session/terminate` removes: `params.sessionId` when it is
      a string, otherwise "unknown". It is not the caller's header session. */
  function TerminateTarget(req: Request): (target: string)
    ensures req.params.Some? && AsStr(Get(req.params.value, "sessionId")).Some? ==>
              target == AsStr(Get(req.params.value, "sessionId")).value
    ensures req.params.None? || AsStr(Get(req.params.value, "sessionId")).None? ==> target == "unknown"
  {
    match req.params
    case None => "unknown"
    case Some(params) => AsStr(Get(params, "sessionId")).GetOr("unknown")
  }

  /** `session/terminate`. */
  function Terminate(req: Request, store: Store): (out: (Response, Store))
    ensures out.0 == SuccessResponse(req.id, Terminated(TerminateTarget(req)))
    ensures out.1.Keys == store.Keys - {TerminateTarget(req)}
    ensures forall other :: other in store && other != TerminateTarget(req) ==> other in out.1 && out.1[other] == store[other]
  {
    var target := TerminateTarget(req);
    (SuccessResponse(req.id, Terminated(target)), Remove(store, target))
  }

  /** Terminating is idempotent: a second termination of the same session
      succeeds as well and changes nothing further. */
  lemma TerminateIdempotent(req: Request, store: Store)
    ensures var first := Terminate(req, store);
            var second := Terminate(req, first.1);
            second.1 == first.1 && second.0 == first.0
  {
    RemoveIdempotent(store, TerminateTarget(req));
  }

  /** `handle_mcp_request` after the session id has been read from the
      headers: validates the envelope and routes by method. */
  function Dispatch(store: Store, sid: string, body: Body, env: Env): (out: (Response, Store))
    requires InDomain(body)
    ensures WellFormed(out.0)
    ensures body.Decoded? ==> out.0.id == body.request.id
    ensures !body.Decoded? ==> out.0.id.None? && out.0.error.Some?
    ensures Code(out.0).Some? ==> KnownCode(Code(out.0).value)
    ensures Code(out.0) == Some(PARSE_ERROR) <==> body.Undecodable?
    ensures Code(out.0) == Some(INVALID_REQUEST) <==>
              body.Unreadable? || body.EmptyBody? || (body.Decoded? && body.request.jsonrpc != "2.0")
    ensures out.1 != store ==>
              body.Decoded? && body.request.jsonrpc == "2.0"
              && (body.request.name == "tools/call" || body.request.name == "session/terminate")
    ensures Invariant(store) ==> Invariant(out.1)
    ensures body.Decoded? && body.request.jsonrpc == "2.0" ==>
              var req := body.request;
              && (req.name == "tools/call" ==> out == ToolsCall(req, sid, store, env))
              && (req.name == "session/terminate" ==> out == Terminate(req, store))
              && (req.name == "initialize" ==> out == (SuccessResponse(req.id, Initialized), store))
              && (req.name == "tools/list" ==> out == (SuccessResponse(req.id, ToolList(TOOLS)), store))
              && (req.name == "ping" ==> out == (SuccessResponse(req.id, Pong), store))
              && (req.name == "notifications/cancelled" ==> out == (SuccessResponse(req.id, Acknowledged), store))
  {
    match body
    case Unreadable(reason) =>
      (ErrorResponse(None, INVALID_REQUEST, "Invalid Request", Some("Failed to read request body: " + reason)), store)
    case EmptyBody =>
      (ErrorResponse(None, INVALID_REQUEST, "Invalid Request", Some("Empty request body")), store)
    case Undecodable(reason) =>
      (ErrorResponse(None, PARSE_ERROR, "Parse error", Some("Invalid JSON: " + reason)), store)
    case Decoded(req) =>
      if req.jsonrpc != "2.0" then
        (ErrorResponse(req.id, INVALID_REQUEST, "Invalid Request", Some("JSON-RPC version must be 2.0")), store)
      else if req.name == "initialize" then (SuccessResponse(req.id, Initialized), store)
      else if req.name == "tools/list" then (SuccessResponse(req.id, ToolList(TOOLS)), store)
      else if req.name == "tools/call" then ToolsCall(req, sid, store, env)
      else if req.name == "ping" then (SuccessResponse(req.id, Pong), store)
      else if req.name == "session/terminate" then
        Terminate(req, store)
      else if req.name == "notifications/cancelled" then (SuccessResponse(req.id, Acknowledged), store)
      else
        (ErrorResponse(req.id, METHOD_NOT_FOUND, "Method not found", Some("Unknown method: " + req.name)), store)
  }

  predicate KnownMethod(m: string) {
    m == "initialize" || m == "tools/list" || m == "tools/call" || m == "ping"
    || m == "session/terminate" || m == "notifications/cancelled"
  }

  /** An unrecognised method is answered with "method not found", naming
      the method, echoing the id, and leaving the store alone. */
  lemma UnknownMethodRejected(store: Store, sid: string, req: Request, env: Env)
    requires req.jsonrpc == "2.0" && !KnownMethod(req.name)
    ensures var out := Dispatch(store, sid, Decoded(req), env);
            && out.0 == ErrorResponse(req.id, METHOD_NOT_FOUND, "Method not found", Some("Unknown method: " + req.name))
            && out.1 == store
  {
  }

  /** `find` never changes the store, whichever way it ends. */
  lemma FindLeavesStore(store: Store, sid: string, req: Request, env: Env)
    requires req.jsonrpc == "2.0" && req.name == "tools/call"
    requires req.params.Some? && ToolNameArg(req.params.value) == Some("find")
    ensures Dispatch(store, sid, Decoded(req), env).1 == store
  {
  }

  /** Once `session/terminate` has named the caller's session, a `find`
      in that session fails with "no active session" as an internal error. */
  lemma TerminateThenFind(store: Store, sid: string, term: Request, call: Request, env: Env)
    requires term.jsonrpc == "2.0" && term.name == "session/terminate" && TerminateTarget(term) == sid
    requires call.jsonrpc == "2.0" && call.name == "tools/call"
    requires call.params.Some? && ToolNameArg(call.params.value) == Some("find")
    requires var pattern := AsStr(Get(Arguments(call.params.value), "pattern"));
             pattern.Some? && !IsBlank(pattern.value)
    ensures var after := Dispatch(store, sid, Decoded(term), env).1;
            Dispatch(after, sid, Decoded(call), env)
              == (ErrorResponse(call.id, INTERNAL_ERROR, "Internal error", Some(Message(NoActiveSession))), after)
  {
  }

  /** The request handler: the request runs in the session named by the
      `Mcp-Session-Id` header (any letter case), or in "default" when that
      header is absent or not readable text. */
  function HandleMcp(store: Store, headers: Headers, body: Body, env: Env): (out: (Response, Store))
    requires InDomain(body)
    ensures WellFormed(out.0)
    ensures Invariant(store) ==> Invariant(out.1)
    ensures HeaderGet(headers, "mcp-session-id").None? ==> out == Dispatch(store, "default", body, env)
    ensures HeaderGet(headers, "mcp-session-id").Some? ==>
              match ToStr(HeaderGet(headers, "mcp-session-id").value)
              case Some(id) => out == Dispatch(store, id, body, env)
              case None => out == Dispatch(store, "default", body, env)
  {
    Dispatch(store, SessionIdOf(headers), body, env)
  }

  // ----- session deletion endpoint -----

  const MAX_SESSION_ID_BYTES: nat := 100

  /** The HTTP reply of the deletion endpoint: status 400, or a JSON
      status payload naming the session (its timestamp is not modelled). */
  datatype DeleteReply = BadRequest | SessionDeleted(sessionId: string)

  /** `DELETE /sessions/{id}`: rejects an empty id or one longer than 100
      bytes before touching the store; otherwise removes the session,
      whether or not it existed. */
  function DeleteSession(store: Store, id: string): (out: (DeleteReply, Store))
    ensures out.0.BadRequest? <==> id == [] || Utf8Len(id) > MAX_SESSION_ID_BYTES
    ensures out.0.BadRequest? ==> out.1 == store
    ensures out.0.SessionDeleted? ==> out.0.sessionId == id && out.1 == Remove(store, id)
  {
    if id == [] || Utf8Len(id) > MAX_SESSION_ID_BYTES then (BadRequest, store)
    else (SessionDeleted(id), Remove(store, id))
  }

  /** Whatever the characters, an id of 1 to 25 characters is accepted and
      one of more than 100 characters is rejected. */
  lemma DeleteLengthBounds(store: Store, id: string)
    ensures 1 <= |id| <= 25 ==> DeleteSession(store, id).0.SessionDeleted?
    ensures |id| > 100 ==> DeleteSession(store, id).0.BadRequest?
  {
  }
}
