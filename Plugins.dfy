/** The built-in plugin `CorePlugin` and its single tool, `PingTool`. */
module Plugins {
  import opened Wrappers
  import opened Json
  import opened Abstractions
  import Core

  const CorePluginId := "rimbridge.core"
  const PingToolName := "rimbridge.core/ping"

  /** The ping tool's input schema: an object with no properties and nothing
      required. */
  function PingSchema(): (schema: Object)
    ensures schema.Keys == {"type", "properties", "required"}
    ensures schema["type"] == JStr("object")
    ensures schema["properties"] == JObj(map[]) && schema["required"] == JArr([])
  {
    map["type" := JStr("object"), "properties" := JObj(map[]), "required" := JArr([])]
  }

  /** `PingTool`: whatever the arguments and context, a call completes with
      a non-error result whose only content is the text "pong". */
  function PingTool(): (t: Tool)
    ensures t.name == PingToolName && t.inputSchema == PingSchema()
    ensures forall args, ctx :: t.call(args, ctx) == Returned(TextResult("pong"))
    ensures forall args, ctx ::
      (!t.call(args, ctx).result.isError && t.call(args, ctx).result.content == [ToolContent("text", "pong")])
  {
    Tool(PingToolName, "Connectivity test. Returns 'pong'.", PingSchema(),
         (args: Object, ctx: ToolContext) => Returned(TextResult("pong")))
  }

  /** `CorePlugin`: identity "rimbridge.core" 0.1.0; `Initialize` registers
      nothing and does not throw; `GetTools` yields the ping tool alone. */
  function CorePlugin(): (p: Plugin)
    ensures p.id == CorePluginId && p.version == "0.1.0"
    ensures p.initRegisters == [] && !p.initThrows
    ensures p.tools == [PingTool()] && !p.toolsThrow
  {
    Plugin(CorePluginId, "0.1.0", [], false, [PingTool()], false)
  }

  /** The class as the assembly scan finds it: concrete, implementing
      IMcpPlugin and marked [McpPlugin], with a parameterless constructor. */
  const CorePluginType := Core.PluginType("RimBridgeServer.CorePlugin", false, true, true, Some(CorePlugin()))
}
