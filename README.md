# RimBridgeServer protocol core in Dafny

RimBridgeServer is a RimWorld mod that exposes the running game to MCP
(Model Context Protocol) clients over HTTP. A client POSTs JSON-RPC 2.0
requests to a loopback endpoint. Each request goes through these steps:

- The verb is checked, then the Origin against an allowlist, then an
  optional static Bearer token.
- The request is decoded.
- It is routed to one of five methods: `initialize`,
  `notifications/initialized`, `ping`, `tools/list` and `tools/call`.

Tools come from plugins. At start-up the server scans assemblies for
classes marked `[McpPlugin]`. Each plugin is loaded in isolation, and its
tools go into a registry keyed by name. Work that must run on the game's
main thread is posted to a queue, and `Drain` runs what is queued. The
code says `Drain` is to be called from a game component's update, but no
code in the repository calls it. Source/Net.cs:47 calls an
`InstallDispatcher` that Source/Mod.cs does not define, and Mod.cs's
`RimBridgeGameComponent` no longer does any dispatching.

This project models that core and proves properties of it:

- `Wrappers.dfy`: `Option` and `Result`.
- `Json.dfy`: JSON values as the server manipulates them. This includes
  what `Value<string>()` yields for each kind of token.
- `Abstractions.dfy`: the plugin-facing records. These are tool results
  and contents, the tool context, tools, and plugins. A plugin is described
  by what its `Initialize` and `GetTools` do.
- `Protocol.dfy`: the JSON-RPC envelopes and their wire shape, the error
  codes, the protocol versions, and the MCP result builders.
- `Core.dfy`: covers three pieces.
  - The main-thread bridge is a class `GameThreadDispatcher` with a queue
    field. `Drain` is proved against a schedule function.
  - The tool registry is a class `PluginManager` whose field holds the
    tools in registration order.
  - The plugin loader is modelled as a function over an explicit list of
    assemblies.
- `Net.dfy`: the request handler. This covers the options with their
  defaults, the Origin and Bearer guards, and the method switch inside its
  catch-all (`Dispatch`). It also covers the whole handler (`Handle`) and
  the `FindTool` scan.
- `Plugins.dfy`: the built-in `CorePlugin` and its `rimbridge.core/ping`
  tool.
- `Scenarios.dfy`: the documented behaviours end to end.
  - Loading the built-in plugin and then calling ping.
  - A plugin whose `Initialize` throws does not stop the next plugin.
  - A duplicate registration.
  - Version negotiation with the default options.
  - The default access policy.
  - A drain that continues past an exception.

Where the code and its documentation disagree, the model follows the code:

- The initialize result's `serverInfo` is the fixed pair
  "RimBridgeServer"/"0.1.0". It is not read from the `ServerName` and
  `ServerVersion` options.
- The initialize result also carries an `instructions` member.
- A response on the wire always has all four members `jsonrpc`, `id`,
  `result` and `error`. The absent one is `null`.
- The request's `jsonrpc` member is never checked.
- An empty request body deserializes to a null request. The handler then
  throws outside its catch-all, so no response is written at all
  (`Abandoned`). The documentation promises a well-formed response to
  every request.
- A `tools/call` whose `arguments` is JSON `null`, or any other non-object,
  fails the cast. So does a `name` that is an object, an array, or an integer
  outside the 64-bit range (Newtonsoft reads such an integer as a
  BigInteger, which `Value<string>()` cannot convert). These become
  an internal error (-32603), reported before a missing name is.
- The built-in ping tool is not guaranteed to be registered, only its name.
  A plugin scanned earlier may register a tool with the same name. The
  built-in plugin's registration then throws as a duplicate, and that
  plugin is logged as failed.
- An empty `SupportedProtocolVersions` makes negotiation index an empty
  array. That is an internal error, not a fallback.
- The tool context's protocol version is the `MCP-Protocol-Version` header,
  or "2025-03-26" when the header is absent.

## Model

| member | source | states |
|---|---|---|
| Json.Member | Source/Net.cs:128 | `obj?[key]` yields a value exactly when the object exists and has the key, and that value is the member's |
| Json.StringValueOf | Source/Net.cs:164 | `Value<string>()` throws exactly for an object, an array or an integer outside the 64-bit range; yields no string exactly for a missing token or JSON null; yields a string token's own text and a 64-bit integer's decimal text (`Json.IntText`: a '-' exactly for a negative number, followed by decimal digits whose value `Json.DigitsValue` is the number's magnitude) |
| Abstractions.CreateContent | Source/Abstractions.cs:28 | `ToolContent.Create` has type "text" and the given text |
| Abstractions.NewToolResult | Source/Abstractions.cs:18-19 | a fresh `ToolResult` has no content and is not an error |
| Abstractions.TextResult | Source/Abstractions.cs:20-21 | `ToolResult.Text` holds exactly one text content with the given text, and the given error flag (false by default) |
| Protocol.Ok | Source/Protocol.cs:22 | a success response carries the id and the result, no error, and serializes with `"error": null` |
| Protocol.Err | Source/Protocol.cs:23-25 | an error response carries the id, no result, exactly the given code, message and data, and serializes with `"result": null` |
| Protocol.EnvelopeVersion | Source/Protocol.cs:9-20 | both envelopes say "2.0"; a response on the wire has exactly the members jsonrpc, id, result, error |
| Protocol.SupportedVersions | Source/Protocol.cs:38-41 | the supported list is 2025-06-18 then 2025-03-26 |
| Protocol.InitializeResult | Source/Protocol.cs:43-59 | exactly the members protocolVersion, capabilities, serverInfo; a client reads back the negotiated version and the listChanged flag; serverInfo is fixed |
| Protocol.ToolsListResult | Source/Protocol.cs:61-66 | holds the tool array; "nextCursor" is present exactly for a non-empty cursor and carries it; no other member |
| Protocol.ToolDef | Source/Protocol.cs:68-78 | exactly name, description and inputSchema as given, plus "annotations" exactly when supplied |
| Protocol.CallToolResult | Source/Protocol.cs:80-82 | exactly "isError" and "content", as given |
| Core.Schedule | Source/Core.cs:21-25 | definition; no contract (the order a drain runs actions in; its properties are the `Schedule*` lemmas) |
| Core.Failing | Source/Core.cs:24 | an action is reported as failed exactly when it ran and threw |
| Core.ScheduleLength | Source/Core.cs:21-25 | a drain runs exactly as many actions as were queued or transitively posted |
| Core.ScheduleRunsQueueFirst | Source/Core.cs:21-25 | a drain runs the actions already queued first, in FIFO order |
| Core.ScheduleRunsEachOnce | Source/Core.cs:21-25 | a drain runs every queued or posted action once, and nothing else |
| Core.GameThreadDispatcher.constructor | Source/Core.cs:18 | the queue starts empty |
| Core.GameThreadDispatcher.Post | Source/Core.cs:19 | `Post` appends the action at the tail and changes nothing else |
| Core.GameThreadDispatcher.Execute | Source/Core.cs:24 | running an action appends what it posts to the queue and reports whether it threw |
| Core.GameThreadDispatcher.Drain | Source/Core.cs:21-25 | the queue ends empty; the actions run in the schedule order, including those posted during the drain; the failed ones are exactly those that threw |
| Core.Lookup | Source/Core.cs:30-31 | finds a tool exactly when some registered tool has the name, and the tool found is registered under that name |
| Core.LookupFirst | Source/Net.cs:203-204 | the tool found is the first registered one with that name |
| Core.AsMapAgrees | Source/Core.cs:30-40 | with unique names, the registry as a sequence agrees with the dictionary: the same keys, the same lookups, one entry per tool |
| Core.RegisterAll | Source/Core.cs:60 | definition; no contract (`RegisterTool` over a batch, stopping at the first duplicate; see `RegisterAllEffect` and `RegisterAllSucceeds`) |
| Core.RegisterAllEffect | Source/Core.cs:36-41 | registering a batch appends a prefix of it in order, keeps names unique, and fails exactly at the first duplicate name |
| Core.RegisterAllFresh | Source/Core.cs:36-41 | a batch of fresh, distinct names is appended whole and succeeds |
| Core.LoadPlugin | Source/Core.cs:56-66 | one candidate logs either its plugin's id and version or a failure naming its type |
| Core.LoadPluginEffect | Source/Core.cs:56-66 | a candidate that cannot be constructed fails and registers nothing; otherwise a prefix, in order, of what `Initialize` and then `GetTools` register stays registered even on failure (no rollback); it is logged as loaded exactly when neither `Initialize` nor the enumeration throws and every registration finds a fresh name, and then all of it went in |
| Core.RegisterAllSucceeds | Source/Core.cs:36-41 | a batch of `RegisterTool` calls completes without a duplicate exactly when its names are distinct and none is already registered |
| Core.LoadTypesSkipsIneligible | Source/Core.cs:53-55 | scanning an assembly does exactly what scanning its eligible types alone does; an abstract type, or one without the interface or the attribute, is never instantiated, registers nothing and logs nothing |
| Core.Eligible | Source/Core.cs:53-55 | definition; no contract (not abstract, implements IMcpPlugin, carries [McpPlugin]) |
| Core.LoadTypes | Source/Core.cs:51-67 | definition; no contract (the loop over one assembly's types; see `LoadTypesEffect`) |
| Core.LoadAssemblies | Source/Core.cs:47-67 | definition; no contract (the loop over assemblies; see `LoadAssembliesGrows`) |
| Core.LoadPluginGrows | Source/Core.cs:56-66 | loading one candidate only adds tools, and names stay unique, also when it throws halfway |
| Core.LoadTypesEffect | Source/Core.cs:51-67 | one assembly's scan keeps names unique, only adds tools, and logs exactly one event per eligible type, in order, each about that type |
| Core.LoadTypesAppend | Source/Core.cs:51-67 | candidates are loaded one after another, each on the registry the previous ones left; no candidate's failure affects the next |
| Core.LoadAssembliesGrows | Source/Core.cs:43-69 | the whole scan keeps names unique and only adds tools |
| Core.PluginManager.constructor | Source/Core.cs:28-30 | the registry starts empty |
| Core.PluginManager.Tools | Source/Core.cs:31 | definition; no contract (the registered tools, in registration order) |
| Core.PluginManager.RegisterTool | Source/Core.cs:36-41 | a duplicate name fails and changes nothing; a fresh name appends the tool and adds exactly that dictionary entry |
| Core.PluginManager.RegisterEach | Source/Core.cs:60 | the `foreach RegisterTool` loop has the effect of `RegisterAll`, and stops at the first duplicate |
| Core.PluginManager.LoadCandidate | Source/Core.cs:54-66 | the guarded block for one type has the effect and log entry of `LoadPlugin` |
| Core.PluginManager.LoadAssembly | Source/Core.cs:51-67 | the loop over one assembly's types has the effect and log of `LoadTypes` |
| Core.PluginManager.DiscoverAndLoad | Source/Core.cs:43-69 | the loop over assemblies has the effect and log of `LoadAssemblies` |
| Net.DefaultOptions | Source/Net.cs:12-21 | definition; no contract (the option defaults; see `Scenarios.DefaultAccessPolicy`) |
| Net.MatchesAllowlist | Source/Net.cs:90-91 | true exactly when some allowlist entry is a case-insensitive prefix of the Origin |
| Net.CheckOrigin | Source/Net.cs:86-95 | passes exactly when the Origin is absent, empty or allow-listed; otherwise 403 with no other header |
| Net.CheckAuth | Source/Net.cs:66-84 | passes exactly when enforcement is off, or a token is configured and the header is "Bearer " followed by it; otherwise 401 with the RFC 6750 challenge |
| Net.BearerHeaderMatches | Source/Net.cs:76 | checking the "Bearer " prefix and then comparing the remainder is the same as comparing the whole header with "Bearer " + token |
| Net.ParamString | Source/Net.cs:164 | reading a string parameter fails with an invalid cast exactly when `Value<string>()` throws (an object, an array, an integer beyond 64 bits), gives no string exactly for a missing or null member, and otherwise gives the token's text |
| Net.ParamArguments | Source/Net.cs:165 | missing arguments are an empty object; an object is passed on unchanged; present arguments that are not an object fail the cast |
| Net.Negotiate | Source/Net.cs:129-130 | the chosen version is supported; a supported request is echoed, otherwise the first supported version is chosen; it fails exactly when nothing is supported |
| Net.BeforeSlash | Source/Net.cs:154 | the text before the first '/' is a '/'-free prefix, followed by '/' whenever the name has one |
| Net.PluginIdOf | Source/Net.cs:154 | a name with a '/' is annotated with its '/'-free part before the first '/'; otherwise with "unknown" |
| Net.ToolsListing | Source/Net.cs:149-157 | one entry per registered tool, in order, with exactly its name, description, schema and a pluginId annotation |
| Net.ContentJson | Source/Net.cs:180-182 | one {type, text} object per content item, in order |
| Net.CallContext | Source/Net.cs:171-177 | definition; no contract (the remote endpoint, and the MCP-Protocol-Version header or "2025-03-26") |
| Net.CallTool | Source/Net.cs:162-186 | definition; no contract (the `tools/call` branch; see `Net.CallToolOutcomes`) |
| Net.Route | Source/Net.cs:124-191 | definition; no contract (the method switch; see `Net.Dispatch`) |
| Net.InternalErrorFor | Source/Net.cs:195 | definition; no contract (-32603 "Internal error" with the exception's detail) |
| Net.Dispatch | Source/Net.cs:122-196 | echoes the id; exactly one of result and error; only codes -32601, -32602, -32603; -32602 only for tools/call; ping and notifications/initialized give an empty result; an unknown method gives -32601 naming it, and -32601 comes from nothing else; an internal error carries a detail |
| Net.Handle | Source/Net.cs:97-199 | every response gets `Cache-Control: no-store`; a non-POST gets 405, a refused Origin 403, a failed token 401 with the challenge, in that order, and these are the only closures; a malformed body gets 400 with -32700 and a null id; a decoded request gets 200 with its dispatched response; an empty body gets no response |
| Net.InitializeNegotiates | Source/Net.cs:126-136 | initialize reports a supported version: the requested one if supported, else the first; listChanged is false; the members are exactly protocolVersion, capabilities, serverInfo and instructions; a failed read or an empty list gives an internal error |
| Net.ToolsListMatchesRegistry | Source/Net.cs:147-160 | tools/list returns exactly {"tools": listing of the registry}, without a cursor |
| Net.CallToolOutcomes | Source/Net.cs:162-186 | tools/call: a bad name or arguments cast gives an internal error; a missing name or an unknown tool gives -32602 with its message; a tool's exception gives an internal error with its detail; a returned result is copied into isError and content |
| Net.FindTool | Source/Net.cs:201-206 | the scan returns the first tool with an ordinally equal name, or none exactly when no tool has that name |
| Plugins.PingSchema | Source/Plugins.cs:24-29 | the schema is an object type with no properties and nothing required |
| Plugins.PingTool | Source/Plugins.cs:20-32 | the tool is named "rimbridge.core/ping", and every call returns a non-error result whose only content is the text "pong" |
| Plugins.CorePlugin | Source/Plugins.cs:8-19 | id "rimbridge.core", version 0.1.0; `Initialize` registers nothing and does not throw; `GetTools` yields the ping tool alone |
| Scenarios.PingListedUnderCorePlugin | Source/Net.cs:152-155 | the ping tool is listed with pluginId "rimbridge.core" |
| Scenarios.BeforeSlashOf | Source/Net.cs:154 | the text before the first '/' of `a/b` is `a` when `a` has no '/' |
| Scenarios.CoreLoadsIntoEmptyRegistry | Source/Core.cs:56-61 | loading the built-in plugin into an empty registry registers exactly the ping tool and logs it as loaded |
| Scenarios.CoreLoadRegistersPing | Source/Core.cs:56-61 | after the built-in plugin's load attempt, a tool named "rimbridge.core/ping" is registered |
| Scenarios.AssemblyWithCoreRegistersPing | Source/Core.cs:51-67 | after scanning an assembly that contains the built-in plugin, some tool named "rimbridge.core/ping" is registered, whatever the other types do; it may be another plugin's tool of that name |
| Scenarios.PingAlwaysRegistered | Source/Core.cs:43-69 | when any scanned assembly contains the built-in plugin, some tool named "rimbridge.core/ping" is registered after the whole scan; it may be another plugin's tool of that name |
| Scenarios.CoreLoadFailsWhenPingNameTaken | Source/Core.cs:38-39 | when the ping tool's name is already taken, the built-in plugin's registration throws as a duplicate; the registry is unchanged and the plugin is logged as failed |
| Scenarios.FailingPluginDoesNotBlockNext | Source/Core.cs:56-66 | a plugin whose `Initialize` throws before registering anything is logged as failed, and a well-behaved next plugin (nothing registered in `Initialize`, no throw, distinct names not yet registered) still registers all its tools and is logged as loaded; the general case follows from `Core.LoadTypesAppend` and `Core.LoadPluginEffect` |
| Scenarios.PingCallAnswersPong | Source/Net.cs:162-186 | a ping call through the whole handler answers 200 with {isError: false, content: [{type: "text", text: "pong"}]} |
| Scenarios.HugeIntegerNameIsInternalError | Source/Net.cs:164 | a tool name given as an integer beyond 64 bits fails the string cast and is answered with an internal error, not as an unknown tool |
| Scenarios.UnknownToolIsInvalidParams | Source/Net.cs:168-169 | calling an unregistered tool answers -32602 "Unknown tool: no/such/tool" |
| Scenarios.DefaultNegotiationExamples | Source/Net.cs:128-130 | with the defaults, "2025-03-26" is echoed and "1999-01-01" falls back to "2025-06-18" |
| Scenarios.DefaultAccessPolicy | Source/Net.cs:14-20 | by default the supported list is `Mcp.Supported`, every request passes the token check, "FILE://…" passes the Origin check and a web origin gets 403 |
| Scenarios.RegisterTwice | Source/Core.cs:36-41 | registering a tool twice: the first succeeds, the second fails as a duplicate, and the tool is listed once |
| Scenarios.ServePingAfterLoad | Source/Net.cs:40-42 | start-up loads the built-in plugin, after which a ping call is answered with "pong" |
| Scenarios.DrainOrderExample | Source/Core.cs:21-25 | three queued actions run in order, followed by the one the first posted |
| Scenarios.FailingExample | Source/Core.cs:24 | of those, only the one that threw is reported |
| Scenarios.DrainAfterFailure | Source/Core.cs:21-25 | a drain continues past a throwing action, runs all four actions and reports only the thrower |

## Left out

- The HTTP listener, the accept loop, reading the request stream and
  `WriteJson` are I/O. A request arrives as decoded values, and the handler
  returns what it would write.
- Newtonsoft's JSON text parsing and serialization are left out. The
  decoded body, or the fact that decoding failed, is an input. Responses
  are values, and their wire shape is given by `Protocol.ResponseJson`.
- JSON numbers other than integers are not modelled.
- Json.StringValueOf: Newtonsoft's default settings read an ISO 8601
  date-time string as a date, and `Value<string>()` then renders it in the
  invariant culture (for example "06/18/2025 10:00:00" for
  "2025-06-18T10:00:00Z"). The model keeps every string token as its own text.
- Concurrency is left out. This covers `Task.Run` per request, the
  `ConcurrentQueue` shared between threads, `async`/`await` and the
  `CancellationToken`. Each handler call and each drain runs as a single
  step.
- Core.PluginManager.Tools: the registry lists tools in registration
  order. That is how .NET's `Dictionary` enumerates when nothing is ever
  removed, and nothing is. It is an implementation detail, not a documented
  guarantee.
- An exception from `asm.GetTypes()` other than
  `ReflectionTypeLoadException` escapes `DiscoverAndLoad` and ends the
  scan. The model's scan always completes.
- Reflection over `AppDomain` assemblies is left out. The scan gets an
  explicit list of assemblies of candidate types. Each type states whether
  it is eligible and what constructing, initializing and enumerating it
  does. A `ReflectionTypeLoadException` only shortens the type list.
- Logging (`SimpleLogger`, the Info/Warn/Error calls) has no observable
  effect here. The loader's log lines are returned as `LoadEvent`s: the
  plugin's id and version when loaded, the type's name when failed. The
  drain's error lines are returned as `failed`.
- Exception detail text is not the full `ex.ToString()`. For an exception a
  tool's call raises, it is the type name and message. For the server's
  own invalid cast and index-out-of-range, it is the type name alone.
  Stack traces are not modelled. A plugin's exception keeps no text at all:
  `LoadFailed` names only the type, while the source's error line also
  prints the exception.
- Core.LoadPluginEffect: plugins and tools are values, so a property getter
  that throws cannot be expressed. An example is `plugin.Id` or
  `plugin.Version` throwing in the log line after all tools are registered
  (Source/Core.cs:61). The source then logs the plugin as failed with its
  tools kept. The model's "loaded exactly when every stage succeeds"
  assumes the getters return.
- Security.cs (token lookup in a key file) is not part of this model. The
  token is an option value.
- Mod.cs is not part of this model. It holds the mod entry point, which
  starts a server from another library, and a `RimBridgeGameComponent`
  with no update method. No code in the repository calls `Drain`, and the
  `InstallDispatcher` called at Source/Net.cs:47 is not defined.
- Core.GameThreadDispatcher.Drain: an action is a finite value, so every
  chain of posts ends and the drain always returns with an empty queue. An
  action that keeps re-posting itself cannot be expressed. In the source,
  such an action keeps the loop at Source/Core.cs:23 running forever.
- Net.Upper: case-insensitive comparison folds ASCII letters only, not
  all of Unicode.
- Net.CheckAuth: models `StartsWith("Bearer ")` as an ordinal prefix test.
  The source's culture-sensitive comparison is not modelled.
- Tools posting to the bridge during a call are not connected to `Handle`.
  The bridge is modelled on its own, through actions that post actions.
- Null strings in the records (a tool or plugin with a null name or id) are
  not modelled. Every name is a string.
