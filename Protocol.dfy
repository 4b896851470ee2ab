/** JSON-RPC 2.0 envelopes and the MCP result objects the server builds. */
module Protocol {
  import opened Wrappers
  import opened Json

  /** A decoded request. Its "jsonrpc" member is a constant getter, so the
      value a client sends there is never looked at. */
  datatype RpcRequest = RpcRequest(id: Json, methodName: Option<string>, params: Option<Object>) {
    function JsonRpc(): string { "2.0" }
  }

  /** The "error" member of a failed response. */
  datatype RpcError = RpcError(code: int, message: string, data: Option<Object>)

  /** A response: the echoed id and either a result or an error. */
  datatype RpcResponse = RpcResponse(id: Json, result: Option<Object>, error: Option<RpcError>) {
    function JsonRpc(): string { "2.0" }
  }

  // Error codes of section 5.1 of the JSON-RPC 2.0 specification.
  const ParseError := -32700
  const MethodNotFound := -32601
  const InvalidParams := -32602
  const InternalError := -32603

  /** A JSON null for an absent object. */
  function OptObject(o: Option<Object>): Json {
    match o
    case Some(m) => JObj(m)
    case None => JNull
  }

  /** The serialized "error" member. */
  function ErrorJson(e: RpcError): Json {
    JObj(map["code" := JInt(e.code), "message" := JStr(e.message), "data" := OptObject(e.data)])
  }

  /** The response as the serializer writes it: every property, with a null
      reference written as JSON null. */
  function ResponseJson(r: RpcResponse): Json {
    JObj(map[
      "jsonrpc" := JStr(r.JsonRpc()),
      "id" := r.id,
      "result" := OptObject(r.result),
      "error" := match r.error case Some(e) => ErrorJson(e) case None => JNull])
  }

  /** `JsonRpcResponse.Ok`: on the wire, the id and result with a null error. */
  function Ok(id: Json, result: Object): (r: RpcResponse)
    ensures r.id == id && r.result == Some(result) && r.error.None?
    ensures ResponseJson(r) == JObj(map["jsonrpc" := JStr("2.0"), "id" := id,
                                        "result" := JObj(result), "error" := JNull])
  {
    RpcResponse(id, Some(result), None)
  }

  /** `JsonRpcResponse.Err`: on the wire, the id, a null result and an error
      object carrying exactly the given code, message and data. */
  function Err(id: Json, code: int, message: string, data: Option<Object> := None): (r: RpcResponse)
    ensures r.id == id && r.result.None? && r.error == Some(RpcError(code, message, data))
    ensures ResponseJson(r) == JObj(map["jsonrpc" := JStr("2.0"), "id" := id, "result" := JNull,
                                        "error" := JObj(map["code" := JInt(code), "message" := JStr(message),
                                                            "data" := OptObject(data)])])
  {
    RpcResponse(id, None, Some(RpcError(code, message, data)))
  }

  const V20250326 := "2025-03-26"
  const V20250618 := "2025-06-18"

  /** `Mcp.Supported`: the protocol versions, most preferred first. */
  const Supported: seq<string> := [V20250618, V20250326]

  const ServerInfoName := "RimBridgeServer"
  const ServerInfoVersion := "0.1.0"

  /** The negotiated version a client reads from an initialize result. */
  function ReadProtocolVersion(o: Object): Option<string> {
    if "protocolVersion" in o && o["protocolVersion"].JStr? then Some(o["protocolVersion"].s) else None
  }

  /** The `capabilities.tools.listChanged` flag a client reads from an
      initialize result. */
  function ReadListChanged(o: Object): Option<bool> {
    if "capabilities" in o && o["capabilities"].JObj?
       && "tools" in o["capabilities"].fields && o["capabilities"].fields["tools"].JObj?
       && "listChanged" in o["capabilities"].fields["tools"].fields
       && o["capabilities"].fields["tools"].fields["listChanged"].JBool?
    then Some(o["capabilities"].fields["tools"].fields["listChanged"].b)
    else None
  }

  /** `Mcp.InitializeResult`: a client reads back the negotiated version and
      the flag it was built from; the server identity is fixed. */
  function InitializeResult(negotiatedVersion: string, toolsListChanged: bool): (r: Object)
    ensures r.Keys == {"protocolVersion", "capabilities", "serverInfo"}
    ensures ReadProtocolVersion(r) == Some(negotiatedVersion)
    ensures ReadListChanged(r) == Some(toolsListChanged)
    ensures r["serverInfo"] == JObj(map["name" := JStr("RimBridgeServer"), "version" := JStr("0.1.0")])
  {
    map[
      "protocolVersion" := JStr(negotiatedVersion),
      "capabilities" := JObj(map["tools" := JObj(map["listChanged" := JBool(toolsListChanged)])]),
      "serverInfo" := JObj(map["name" := JStr(ServerInfoName), "version" := JStr(ServerInfoVersion)])]
  }

  /** `Mcp.ToolsListResult`: the tool array, and a "nextCursor" member only
      for a non-empty cursor. */
  function ToolsListResult(tools: seq<Json>, nextCursor: Option<string> := None): (r: Object)
    ensures "tools" in r && r["tools"] == JArr(tools)
    ensures "nextCursor" in r <==> nextCursor.Some? && nextCursor.value != ""
    ensures "nextCursor" in r ==> r["nextCursor"] == JStr(nextCursor.value)
    ensures r.Keys <= {"tools", "nextCursor"}
  {
    var res := map["tools" := JArr(tools)];
    if nextCursor.Some? && nextCursor.value != "" then res["nextCursor" := JStr(nextCursor.value)] else res
  }

  /** `Mcp.ToolDef`: name, description and schema as given, and an
      "annotations" member exactly when annotations are supplied. */
  function ToolDef(name: string, description: string, inputSchema: Object,
                   annotations: Option<Object> := None): (r: Object)
    ensures r.Keys == {"name", "description", "inputSchema"} + (if annotations.Some? then {"annotations"} else {})
    ensures r["name"] == JStr(name) && r["description"] == JStr(description)
    ensures r["inputSchema"] == JObj(inputSchema)
    ensures annotations.Some? ==> r["annotations"] == JObj(annotations.value)
  {
    var o := map["name" := JStr(name), "description" := JStr(description), "inputSchema" := JObj(inputSchema)];
    if annotations.Some? then o["annotations" := JObj(annotations.value)] else o
  }

  /** `Mcp.CallToolResult`: exactly "isError" and "content", as given. */
  function CallToolResult(isError: bool, content: seq<Json>): (r: Object)
    ensures r.Keys == {"isError", "content"}
    ensures r["isError"] == JBool(isError) && r["content"] == JArr(content)
  {
    map["isError" := JBool(isError), "content" := JArr(content)]
  }

  /** Both envelopes carry "jsonrpc": "2.0", and every response on the wire
      has exactly the four members jsonrpc, id, result and error. */
  lemma EnvelopeVersion(q: RpcRequest, r: RpcResponse)
    ensures q.JsonRpc() == "2.0"
    ensures ResponseJson(r).fields.Keys == {"jsonrpc", "id", "result", "error"}
    ensures ResponseJson(r).fields["jsonrpc"] == JStr("2.0")
  {
  }

  /** The supported list is non-empty and prefers 2025-06-18. */
  lemma SupportedVersions()
    ensures |Supported| == 2 && Supported[0] == "2025-06-18" && Supported[1] == "2025-03-26"
  {
  }
}
