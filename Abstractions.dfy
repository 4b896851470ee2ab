/** The tool and plugin shapes: what a tool returns, what it is called with,
    and what a plugin supplies when the loader instantiates it. */
module Abstractions {
  import opened Wrappers
  import opened Json

  /** One item of a tool's output; `kind` is the wire field "type". */
  datatype ToolContent = ToolContent(kind: string, text: string)

  /** `ToolContent.Create`: a text item. */
  function CreateContent(text: string): (c: ToolContent)
    ensures c.kind == "text" && c.text == text
  {
    ToolContent("text", text)
  }

  /** What a tool call returns: its content items, in order, and whether the
      call failed at the tool level. */
  datatype ToolResult = ToolResult(content: seq<ToolContent>, isError: bool)

  /** A freshly constructed ToolResult: the property initialisers give an
      empty content list and a false `IsError`. */
  function NewToolResult(): (r: ToolResult)
    ensures r.content == [] && !r.isError
  {
    ToolResult([], false)
  }

  /** `ToolResult.Text(text, isError = false)`: a single text item. */
  function TextResult(text: string, isError: bool := false): (r: ToolResult)
    ensures r.content == [CreateContent(text)] && r.isError == isError
  {
    ToolResult([CreateContent(text)], isError)
  }

  /** What the server hands a tool on each call: the client's endpoint text
      (absent when unknown) and the protocol version in force. The dispatcher
      and logger handles are not part of this model. */
  datatype ToolContext = ToolContext(clientId: Option<string>, protocolVersion: string)

  /** An exception, kept only as far as the server's reaction to it needs. */
  datatype Fault =
    | InvalidCast          // a JSON value of the wrong shape was cast or converted
    | IndexOutOfRange      // an empty array was indexed
    | Raised(typeName: string, message: string)  // anything a tool's call throws
  {
    /** The exception's type name and message, as `Exception.ToString()`
        begins (the stack trace that follows is not modelled). */
    function Detail(): string {
      match this
      case InvalidCast => "System.InvalidCastException"
      case IndexOutOfRange => "System.IndexOutOfRangeException"
      case Raised(t, m) => t + ": " + m
    }
  }

  /** How a tool's `CallAsync` completes: with a result or with an exception. */
  datatype CallOutcome = Returned(result: ToolResult) | Threw(fault: Fault)

  /** `IMcpTool`: a name (conventionally "<plugin id>/<tool id>"), a
      description, a JSON-Schema object, and the call itself. */
  datatype Tool = Tool(
    name: string,
    description: string,
    inputSchema: Object,
    call: (Object, ToolContext) -> CallOutcome)

  /** `IMcpPlugin` as a script of what its members do when the loader uses it:
      `Initialize` registers `initRegisters` through the server API one by one
      and then throws if `initThrows`; `GetTools` yields `tools` one by one and
      then throws if `toolsThrow`. */
  datatype Plugin = Plugin(
    id: string,
    version: string,
    initRegisters: seq<Tool>,
    initThrows: bool,
    tools: seq<Tool>,
    toolsThrow: bool)
}
