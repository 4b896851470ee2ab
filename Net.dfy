/** The request pipeline of `McpHttpServer`: verb, Origin and Bearer checks,
    decoding, and routing of the MCP methods. Sockets, stream reading and
    JSON text are outside the model: a request arrives as already decoded
    values and the reply is returned as a value. */
module Net {
  import opened Wrappers
  import opened Json
  import opened Abstractions
  import opened Protocol
  import Core

  /** `McpServerOptions`. */
  datatype Options = Options(
    prefixes: seq<string>,
    allowedOrigins: seq<string>,
    supportedProtocolVersions: seq<string>,
    serverName: string,
    serverVersion: string,
    requireBearerToken: bool,
    staticBearerToken: Option<string>)

  /** The property initialisers of `McpServerOptions`. */
  const DefaultOptions := Options(
    ["http://127.0.0.1:5174/mcp/"],
    ["null", "file://", "app://"],
    [V20250618, V20250326],
    "RimBridgeServer",
    "0.1.0",
    false,
    None)

  type Header = (string, string)

  /** Set on every response before any check runs. */
  const NoStore: Header := ("Cache-Control", "no-store")

  /** The challenge of section 3 of RFC 6750 that goes with a 401. */
  const BearerChallenge: Header := ("WWW-Authenticate", "Bearer realm=\"RimBridgeServer\"")

  /** The result of a guard: let the request through, or reject it with a
      status and the headers added to the response. */
  datatype Guard = Pass | Reject(status: int, headers: seq<Header>)

  // ---------------------------------------------------------------------
  // Origin check
  // ---------------------------------------------------------------------

  /** Upper-case mapping used by the ordinal case-insensitive comparison
      (ASCII letters only in this model). */
  function Upper(c: char): char
  {
    if 'a' <= c <= 'z' then (c as int - 32) as char else c
  }

  /** `s.StartsWith(prefix, StringComparison.OrdinalIgnoreCase)`. */
  predicate StartsWithIgnoreCase(s: string, prefix: string)
  {
    |prefix| <= |s| && forall i :: 0 <= i < |prefix| ==> Upper(s[i]) == Upper(prefix[i])
  }

  /** The Origin policy: no Origin, or an empty one, passes; otherwise some
      allowlist entry must be a case-insensitive prefix of it. */
  ghost predicate OriginAllowed(allowed: seq<string>, origin: Option<string>)
  {
    origin.None? || origin.value == "" || exists a :: a in allowed && StartsWithIgnoreCase(origin.value, a)
  }

  /** The allowlist scan: true at the first entry that prefixes `origin`. */
  function MatchesAllowlist(allowed: seq<string>, origin: string): (b: bool)
    ensures b <==> exists a :: a in allowed && StartsWithIgnoreCase(origin, a)
  {
    if allowed == [] then false
    else if StartsWithIgnoreCase(origin, allowed[0]) then true
    else
      assert forall a :: a in allowed && a != allowed[0] ==> a in allowed[1..];
      MatchesAllowlist(allowed[1..], origin)
  }

  /** `CheckOrigin`: passes exactly under the Origin policy; otherwise 403
      with no further header. */
  function CheckOrigin(allowed: seq<string>, origin: Option<string>): (g: Guard)
    ensures g.Pass? <==> OriginAllowed(allowed, origin)
    ensures g.Reject? ==> g == Reject(403, [])
  {
    if origin.None? || origin.value == "" then Pass
    else if MatchesAllowlist(allowed, origin.value) then Pass
    else Reject(403, [])
  }

  // ---------------------------------------------------------------------
  // Bearer check
  // ---------------------------------------------------------------------

  const BearerPrefix := "Bearer "

  /** The authentication policy: with enforcement off every request passes;
      with it on, the Authorization header must be exactly "Bearer " followed
      by the configured token, so no request passes when no token is set. */
  ghost predicate Authorized(opts: Options, authorization: Option<string>)
  {
    !opts.requireBearerToken
    || (opts.staticBearerToken.Some? && authorization == Some(BearerPrefix + opts.staticBearerToken.value))
  }

  /** `CheckAuth`: passes exactly under the authentication policy; otherwise
      401 with the Bearer challenge. */
  function CheckAuth(opts: Options, authorization: Option<string>): (g: Guard)
    ensures g.Pass? <==> Authorized(opts, authorization)
    ensures g.Reject? ==> g == Reject(401, [BearerChallenge])
  {
    BearerHeaderMatches(authorization, opts.staticBearerToken);
    if !opts.requireBearerToken then Pass
    else if authorization.None? || !(BearerPrefix <= authorization.value)
            || Some(authorization.value[|BearerPrefix|..]) != opts.staticBearerToken
    then Reject(401, [BearerChallenge])
    else Pass
  }

  /** Checking the prefix and then comparing the rest is the same as
      comparing the whole header with "Bearer " + token. */
  lemma BearerHeaderMatches(authorization: Option<string>, token: Option<string>)
    ensures (token.Some? && authorization == Some(BearerPrefix + token.value)) <==>
            (authorization.Some? && BearerPrefix <= authorization.value
             && Some(authorization.value[|BearerPrefix|..]) == token)
  {
    if authorization.Some? && BearerPrefix <= authorization.value {
      assert authorization.value == BearerPrefix + authorization.value[|BearerPrefix|..];
    }
    if token.Some? {
      assert (BearerPrefix + token.value)[|BearerPrefix|..] == token.value;
    }
  }

  // ---------------------------------------------------------------------
  // Decoded requests and replies
  // ---------------------------------------------------------------------

  /** What deserializing the body gives: a failure (malformed JSON or a
      member of the wrong type), a null request (an empty body), or a request. */
  datatype Body = Malformed | NullRequest | Parsed(rpc: RpcRequest)

  /** The parts of an HTTP exchange the handler reads. */
  datatype HttpRequest = HttpRequest(
    verb: string,
    origin: Option<string>,
    authorization: Option<string>,
    protocolVersionHeader: Option<string>,   // "MCP-Protocol-Version"
    remoteEndPoint: Option<string>,
    body: Body)

  /** What the handler does with the exchange: close it with a status and no
      body, write a JSON-RPC response, or let an exception escape so that
      nothing is written and the response is never closed. */
  datatype HttpOutcome =
    | Closed(status: int, headers: seq<Header>)
    | Replied(status: int, headers: seq<Header>, response: RpcResponse)
    | Abandoned

  // ---------------------------------------------------------------------
  // Routing
  // ---------------------------------------------------------------------

  const Instructions := "RimBridge MCP server; tools: ping only."

  /** `params?[key]?.Value<string>()`: no string, a string, or the
      InvalidCastException of an object, an array or an integer beyond 64
      bits. */
  function ParamString(params: Option<Object>, key: string): (r: Result<Option<string>, Fault>)
    ensures r.Failure? <==> StringValueOf(Member(params, key)).CastFails?
    ensures r.Failure? ==> r.error == InvalidCast
    ensures r == Success(None) <==> StringValueOf(Member(params, key)).NoString?
    ensures StringValueOf(Member(params, key)).Text? ==> r == Success(Some(StringValueOf(Member(params, key)).s))
  {
    match StringValueOf(Member(params, key))
    case NoString => Success(None)
    case Text(s) => Success(Some(s))
    case CastFails => Failure(InvalidCast)
  }

  /** `(JObject)(params?["arguments"] ?? new JObject())`: an absent member
      gives an empty object; any present value that is not an object,
      JSON null included, fails the cast. */
  function ParamArguments(params: Option<Object>): (r: Result<Object, Fault>)
    ensures Member(params, "arguments").None? ==> r == Success(map[])
    ensures r.Failure? <==> Member(params, "arguments").Some? && !Member(params, "arguments").value.JObj?
    ensures r.Failure? ==> r.error == InvalidCast
    ensures Member(params, "arguments").Some? && Member(params, "arguments").value.JObj? ==>
      r == Success(Member(params, "arguments").value.fields)
  {
    match Member(params, "arguments")
    case None => Success(map[])
    case Some(JObj(m)) => Success(m)
    case Some(_) => Failure(InvalidCast)
  }

  /** Version negotiation: the requested version when it is supported,
      otherwise the first supported one (an empty list makes that index
      throw). */
  function Negotiate(supported: seq<string>, requested: Option<string>): (r: Result<string, Fault>)
    ensures r.Success? ==> r.value in supported
    ensures requested.Some? && requested.value in supported ==> r == Success(requested.value)
    ensures !(requested.Some? && requested.value in supported) && |supported| > 0 ==> r == Success(supported[0])
    ensures r.Failure? <==> |supported| == 0
  {
    if requested.Some? && requested.value in supported then Success(requested.value)
    else if |supported| == 0 then Failure(IndexOutOfRange)
    else Success(supported[0])
  }

  /** The text before the first '/' (all of `s` when there is none). */
  function BeforeSlash(s: string): (r: string)
    ensures r <= s && '/' !in r
    ensures |r| < |s| ==> s[|r|] == '/'
    ensures '/' in s ==> |r| < |s|
  {
    if s == [] || s[0] == '/' then []
    else [s[0]] + BeforeSlash(s[1..])
  }

  /** `annotations.pluginId` of a listed tool: the name's text before its
      first '/', or "unknown" when it has none. */
  function PluginIdOf(name: string): (id: string)
    ensures '/' in name ==> id + "/" <= name && '/' !in id
    ensures '/' !in name ==> id == "unknown"
  {
    if '/' in name then
      var id := BeforeSlash(name);
      assert (id + "/")[..|id|] == id;
      id
    else "unknown"
  }

  /** One `tools/list` entry. */
  function ListEntry(t: Tool): Json
  {
    JObj(ToolDef(t.name, t.description, t.inputSchema, Some(map["pluginId" := JStr(PluginIdOf(t.name))])))
  }

  /** The `tools/list` array: one entry per registered tool, in registry
      order, carrying its name, description and schema and annotated with the
      plugin id its name starts with. */
  function ToolsListing(tools: seq<Tool>): (entries: seq<Json>)
    ensures |entries| == |tools|
    ensures forall i :: 0 <= i < |tools| ==>
      && entries[i].JObj?
      && entries[i].fields.Keys == {"name", "description", "inputSchema", "annotations"}
      && entries[i].fields["name"] == JStr(tools[i].name)
      && entries[i].fields["description"] == JStr(tools[i].description)
      && entries[i].fields["inputSchema"] == JObj(tools[i].inputSchema)
      && entries[i].fields["annotations"] == JObj(map["pluginId" := JStr(PluginIdOf(tools[i].name))])
  {
    seq(|tools|, i requires 0 <= i < |tools| => ListEntry(tools[i]))
  }

  /** The `content` array of a call result: one {type, text} object per
      item, in order. */
  function ContentJson(content: seq<ToolContent>): (items: seq<Json>)
    ensures |items| == |content|
    ensures forall i :: 0 <= i < |content| ==>
      items[i] == JObj(map["type" := JStr(content[i].kind), "text" := JStr(content[i].text)])
  {
    seq(|content|, i requires 0 <= i < |content| =>
      JObj(map["type" := JStr(content[i].kind), "text" := JStr(content[i].text)]))
  }

  /** The context a tool is called with: the remote endpoint, and the
      MCP-Protocol-Version header or, without one, 2025-03-26. */
  function CallContext(req: HttpRequest): ToolContext
  {
    ToolContext(req.remoteEndPoint, req.protocolVersionHeader.GetOr(V20250326))
  }

  /** `tools/call`, up to the exceptions it lets escape: the name is read
      first, then arguments are cast, and only then is a missing name
      reported. */
  function CallTool(tools: seq<Tool>, ctx: ToolContext, rpc: RpcRequest): Result<RpcResponse, Fault>
  {
    match ParamString(rpc.params, "name")
    case Failure(f) => Failure(f)
    case Success(name) =>
      match ParamArguments(rpc.params)
      case Failure(f) => Failure(f)
      case Success(args) =>
        if name.None? then Success(Err(rpc.id, InvalidParams, "Missing tool name"))
        else
          match Core.Lookup(tools, name.value)
          case None => Success(Err(rpc.id, InvalidParams, "Unknown tool: " + name.value))
          case Some(tool) =>
            match tool.call(args, ctx)
            case Threw(f) => Failure(f)
            case Returned(res) => Success(Ok(rpc.id, CallToolResult(res.isError, ContentJson(res.content))))
  }

  /** The method switch, up to the exceptions it lets escape. */
  function Route(opts: Options, tools: seq<Tool>, req: HttpRequest, rpc: RpcRequest): Result<RpcResponse, Fault>
  {
    if rpc.methodName == Some("initialize") then
      match ParamString(rpc.params, "protocolVersion")
      case Failure(f) => Failure(f)
      case Success(requested) =>
        match Negotiate(opts.supportedProtocolVersions, requested)
        case Failure(f) => Failure(f)
        case Success(negotiated) =>
          Success(Ok(rpc.id, InitializeResult(negotiated, false)["instructions" := JStr(Instructions)]))
    else if rpc.methodName == Some("notifications/initialized") then Success(Ok(rpc.id, map[]))
    else if rpc.methodName == Some("ping") then Success(Ok(rpc.id, map[]))
    else if rpc.methodName == Some("tools/list") then Success(Ok(rpc.id, ToolsListResult(ToolsListing(tools))))
    else if rpc.methodName == Some("tools/call") then CallTool(tools, CallContext(req), rpc)
    else Success(Err(rpc.id, MethodNotFound, "Method not found: " + rpc.methodName.GetOr("")))
  }

  /** The methods the switch names. */
  predicate KnownMethod(m: Option<string>)
  {
    m.Some? && m.value in {"initialize", "notifications/initialized", "ping", "tools/list", "tools/call"}
  }

  /** The internal-error response for an exception caught around the switch. */
  function InternalErrorFor(id: Json, f: Fault): RpcResponse
  {
    Err(id, InternalError, "Internal error", Some(map["detail" := JStr(f.Detail())]))
  }

  /** The method switch inside its catch-all: every outcome is a response
      that echoes the request id and carries a result or an error, never
      both; errors use only the codes of section 5.1 of the JSON-RPC 2.0
      specification that apply after decoding. */
  function Dispatch(opts: Options, tools: seq<Tool>, req: HttpRequest, rpc: RpcRequest): (r: RpcResponse)
    ensures r.id == rpc.id
    ensures r.result.Some? != r.error.Some?
    ensures r.error.Some? ==> r.error.value.code in {MethodNotFound, InvalidParams, InternalError}
    ensures r.error.Some? && r.error.value.code == InternalError ==>
      r.error.value.message == "Internal error" && r.error.value.data.Some? && "detail" in r.error.value.data.value
    ensures r.error.Some? && r.error.value.code == InvalidParams ==> rpc.methodName == Some("tools/call")
    ensures rpc.methodName == Some("ping") || rpc.methodName == Some("notifications/initialized") ==>
      r == Ok(rpc.id, map[])
    ensures !KnownMethod(rpc.methodName) ==>
      r == Err(rpc.id, MethodNotFound, "Method not found: " + rpc.methodName.GetOr(""))
    ensures r.error.Some? && r.error.value.code == MethodNotFound ==> !KnownMethod(rpc.methodName)
  {
    match Route(opts, tools, req, rpc)
    case Success(resp) => resp
    case Failure(f) => InternalErrorFor(rpc.id, f)
  }

  /** `Handle`: the checks run in a fixed order, verb, Origin, Bearer token,
      decoding, and each rejection ends the request before the next check.
      A guard rejection closes with its status and no JSON-RPC body; a
      malformed body gets a parse error with a null id and status 400; a
      decoded request always gets its dispatched response with status 200. */
  function Handle(opts: Options, tools: seq<Tool>, req: HttpRequest): (out: HttpOutcome)
    ensures req.verb != "POST" ==> out == Closed(405, [NoStore])
    ensures req.verb == "POST" && !OriginAllowed(opts.allowedOrigins, req.origin) ==>
      out == Closed(403, [NoStore])
    ensures req.verb == "POST" && OriginAllowed(opts.allowedOrigins, req.origin)
            && !Authorized(opts, req.authorization) ==>
      out == Closed(401, [NoStore, BearerChallenge])
    ensures out.Closed? <==>
      req.verb != "POST" || !OriginAllowed(opts.allowedOrigins, req.origin) || !Authorized(opts, req.authorization)
    ensures !out.Closed? && req.body.Malformed? ==>
      out == Replied(400, [NoStore], Err(JNull, ParseError, "Parse error"))
    ensures !out.Closed? && req.body.Parsed? ==>
      out == Replied(200, [NoStore], Dispatch(opts, tools, req, req.body.rpc))
    ensures out.Abandoned? <==> !out.Closed? && req.body.NullRequest?
    ensures out.Replied? && req.body.Parsed? ==> out.response.id == req.body.rpc.id
  {
    if req.verb == "GET" then Closed(405, [NoStore])
    else if req.verb != "POST" then Closed(405, [NoStore])
    else
      match CheckOrigin(opts.allowedOrigins, req.origin)
      case Reject(status, headers) =>
        assert [NoStore] + headers == [NoStore];
        Closed(status, [NoStore] + headers)
      case Pass =>
        match CheckAuth(opts, req.authorization)
        case Reject(status, headers) =>
          assert [NoStore] + headers == [NoStore, BearerChallenge];
          Closed(status, [NoStore] + headers)
        case Pass =>
          match req.body
          case Malformed => Replied(400, [NoStore], Err(JNull, ParseError, "Parse error"))
          case NullRequest => Abandoned
          case Parsed(rpc) => Replied(200, [NoStore], Dispatch(opts, tools, req, rpc))
  }


  /** `initialize`: unless reading the requested version throws or the
      supported list is empty (both internal errors), the result reports a
      supported version, the requested one when supported and otherwise the
      first, with `listChanged` false, the fixed server identity and the
      instructions text. */
  lemma InitializeNegotiates(opts: Options, tools: seq<Tool>, req: HttpRequest, rpc: RpcRequest)
    requires rpc.methodName == Some("initialize")
    ensures var r := Dispatch(opts, tools, req, rpc);
      var requested := ParamString(rpc.params, "protocolVersion");
      var supported := opts.supportedProtocolVersions;
      if requested.Failure? || (supported == [] && !(requested.value.Some? && requested.value.value in supported)) then
        r.error.Some? && r.error.value.code == InternalError
      else
        && r.result.Some?
        && ReadProtocolVersion(r.result.value).Some?
        && ReadProtocolVersion(r.result.value).value in supported
        && (requested.value.Some? && requested.value.value in supported ==>
              ReadProtocolVersion(r.result.value).value == requested.value.value)
        && (!(requested.value.Some? && requested.value.value in supported) ==>
              ReadProtocolVersion(r.result.value).value == supported[0])
        && ReadListChanged(r.result.value) == Some(false)
        && r.result.value.Keys == {"protocolVersion", "capabilities", "serverInfo", "instructions"}
        && r.result.value["serverInfo"] == JObj(map["name" := JStr("RimBridgeServer"), "version" := JStr("0.1.0")])
        && r.result.value["instructions"] == JStr(Instructions)
  {
    var requested := ParamString(rpc.params, "protocolVersion");
    if requested.Success? {
      var n := Negotiate(opts.supportedProtocolVersions, requested.value);
      if n.Success? {
        var base := InitializeResult(n.value, false);
        var res := base["instructions" := JStr(Instructions)];
        assert res["protocolVersion"] == base["protocolVersion"];
        assert res["capabilities"] == base["capabilities"];
        assert ReadProtocolVersion(res) == ReadProtocolVersion(base);
        assert ReadListChanged(res) == ReadListChanged(base);
      }
    }
  }

  /** `tools/list`: the result is exactly {"tools": [...]} with one entry per
      registered tool in registry order, and no cursor. */
  lemma ToolsListMatchesRegistry(opts: Options, tools: seq<Tool>, req: HttpRequest, rpc: RpcRequest)
    requires rpc.methodName == Some("tools/list")
    ensures var r := Dispatch(opts, tools, req, rpc);
      && r.error.None? && r.result.Some?
      && r.result.value.Keys == {"tools"}
      && r.result.value["tools"] == JArr(ToolsListing(tools))
  {
  }

  /** `tools/call`: the error cases and the success case. A name that is an
      object, an array or an integer beyond 64 bits, or arguments that are present but not an object, give
      an internal error, even when the name is missing; a missing name and an
      unknown name give invalid-params errors; a found tool's exception gives
      an internal error carrying its detail; a found tool's result is copied. */
  lemma CallToolOutcomes(opts: Options, tools: seq<Tool>, req: HttpRequest, rpc: RpcRequest)
    requires rpc.methodName == Some("tools/call")
    ensures var r := Dispatch(opts, tools, req, rpc);
      var name := StringValueOf(Member(rpc.params, "name"));
      var args := ParamArguments(rpc.params);
      && (name.CastFails? || args.Failure? ==> r == InternalErrorFor(rpc.id, InvalidCast))
      && (name.NoString? && args.Success? ==> r == Err(rpc.id, InvalidParams, "Missing tool name"))
      && (name.Text? && args.Success? && !Core.HasName(tools, name.s) ==>
            r == Err(rpc.id, InvalidParams, "Unknown tool: " + name.s))
      && (name.Text? && args.Success? && Core.HasName(tools, name.s) ==>
            var tool := Core.Lookup(tools, name.s).value;
            && tool.name == name.s
            && match tool.call(args.value, CallContext(req))
               case Threw(f) => r == InternalErrorFor(rpc.id, f)
               case Returned(res) =>
                 && r.error.None? && r.result.Some?
                 && r.result.value.Keys == {"isError", "content"}
                 && r.result.value["isError"] == JBool(res.isError)
                 && r.result.value["content"] == JArr(ContentJson(res.content)))
  {
  }

  /** `FindTool`: a linear scan for the first tool whose name is ordinally
      equal to `name`. */
  method FindTool(tools: seq<Tool>, name: string) returns (tool: Option<Tool>)
    ensures tool == Core.Lookup(tools, name)
    ensures tool.Some? ==> tool.value in tools && tool.value.name == name
    ensures tool.None? <==> forall t :: t in tools ==> t.name != name
    ensures tool.Some? ==> exists i :: (0 <= i < |tools| && tools[i] == tool.value
      && forall j :: 0 <= j < i ==> tools[j].name != name)
  {
    Core.LookupFirst(tools, name);
    for i := 0 to |tools|
      invariant Core.Lookup(tools[i..], name) == Core.Lookup(tools, name)
    {
      assert tools[i..][0] == tools[i] && tools[i..][1..] == tools[i + 1..];
      if tools[i].name == name {
        return Some(tools[i]);
      }
    }
    assert tools[|tools|..] == [];
    tool := None;
  }
}
