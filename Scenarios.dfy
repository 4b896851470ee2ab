/** The server's documented behaviours, end to end: the built-in plugin
    through the loader and the request pipeline, loader isolation, version
    negotiation examples, the default access policy, and the bridge. */
module Scenarios {
  import opened Wrappers
  import opened Json
  import opened Abstractions
  import opened Protocol
  import opened Core
  import opened Net
  import opened Plugins

  /** The ping tool's name starts with its plugin's id, so `tools/list`
      annotates it with pluginId "rimbridge.core". */
  lemma PingListedUnderCorePlugin()
    ensures PluginIdOf(PingTool().name) == CorePlugin().id
  {
    assert PingToolName == CorePluginId + "/" + "ping";
    BeforeSlashOf(CorePluginId, "ping");
  }

  /** The text before the first '/' of `a/b` is `a`. */
  lemma {:induction false} BeforeSlashOf(a: string, b: string)
    requires '/' !in a
    ensures BeforeSlash(a + "/" + b) == a
  {
    if a == [] {
      assert (a + "/" + b)[0] == '/';
    } else {
      assert (a + "/" + b)[0] == a[0];
      assert (a + "/" + b)[1..] == a[1..] + "/" + b;
      BeforeSlashOf(a[1..], b);
      assert [a[0]] + a[1..] == a;
    }
  }

  /** Loading the built-in plugin into an empty registry registers exactly
      the ping tool and logs the plugin as loaded. */
  lemma CoreLoadsIntoEmptyRegistry()
    ensures LoadPlugin([], CorePluginType) == ([PingTool()], Loaded("rimbridge.core", "0.1.0"))
  {
    var p := CorePlugin();
    assert CorePluginType.instance == Some(p);
    assert RegisterAll([], p.initRegisters) == ([], true);
    RegisterAllFresh([], [PingTool()]);
    assert [] + [PingTool()] == [PingTool()];
    assert RegisterAll([], p.tools) == ([PingTool()], true);
  }

  /** After one load attempt of the built-in plugin a tool named
      "rimbridge.core/ping" is registered, whether the plugin added it or a
      tool of that name was already there. */
  lemma CoreLoadRegistersPing(tools: seq<Tool>)
    requires UniqueNames(tools)
    ensures HasName(LoadPlugin(tools, CorePluginType).0, PingToolName)
  {
    if !HasName(tools, PingToolName) {
      RegisterAllFresh(tools, [PingTool()]);
      assert (tools + [PingTool()])[|tools|].name == PingToolName;
    }
  }

  /** The guarantee above is about the name only: when a tool with the
      ping tool's name is already registered (another plugin, scanned
      earlier, may have registered one), the built-in plugin's registration
      throws as a duplicate and the plugin is logged as failed. */
  lemma CoreLoadFailsWhenPingNameTaken(tools: seq<Tool>)
    requires HasName(tools, PingToolName)
    ensures LoadPlugin(tools, CorePluginType) == (tools, LoadFailed("RimBridgeServer.CorePlugin"))
  {
    assert RegisterAll(tools, []) == (tools, true);
    assert RegisterAll(tools, [PingTool()]) == (tools, false);
  }

  lemma HasNameGrows(a: seq<Tool>, b: seq<Tool>, name: string)
    requires a <= b && HasName(a, name)
    ensures HasName(b, name)
  {
    var i :| 0 <= i < |a| && a[i].name == name;
    assert b[i] == a[i];
  }

  lemma {:induction false} AssemblyWithCoreRegistersPing(tools: seq<Tool>, types: seq<PluginType>)
    requires UniqueNames(tools)
    requires CorePluginType in types
    ensures HasName(LoadTypes(tools, types).0, PingToolName)
    decreases types
  {
    var t1 := if Eligible(types[0]) then LoadPlugin(tools, types[0]).0 else tools;
    if Eligible(types[0]) {
      LoadPluginGrows(tools, types[0]);
    }
    if types[0] == CorePluginType {
      CoreLoadRegistersPing(tools);
      LoadTypesEffect(t1, types[1..]);
      HasNameGrows(t1, LoadTypes(t1, types[1..]).0, PingToolName);
    } else {
      AssemblyWithCoreRegistersPing(t1, types[1..]);
    }
  }

  /** The connectivity tool is always registered when the scan finds the
      built-in plugin, whatever other plugins do before or after it. */
  lemma {:induction false} PingAlwaysRegistered(tools: seq<Tool>, assemblies: seq<seq<PluginType>>, i: nat)
    requires UniqueNames(tools)
    requires i < |assemblies| && CorePluginType in assemblies[i]
    ensures HasName(LoadAssemblies(tools, assemblies).0, PingToolName)
    decreases i
  {
    var t1 := LoadTypes(tools, assemblies[0]).0;
    LoadTypesEffect(tools, assemblies[0]);
    if i == 0 {
      AssemblyWithCoreRegistersPing(tools, assemblies[0]);
      LoadAssembliesGrows(t1, assemblies[1..]);
      HasNameGrows(t1, LoadAssemblies(t1, assemblies[1..]).0, PingToolName);
    } else {
      PingAlwaysRegistered(t1, assemblies[1..], i - 1);
    }
  }

  /** Loader isolation: a plugin whose `Initialize` throws is skipped and
      logged as failed, and a well-behaved plugin after it still has all of
      its tools registered. */
  lemma FailingPluginDoesNotBlockNext(tools: seq<Tool>, bad: PluginType, good: PluginType)
    requires UniqueNames(tools)
    requires Eligible(bad) && bad.instance.Some?
    requires bad.instance.value.initRegisters == [] && bad.instance.value.initThrows
    requires Eligible(good) && good.instance.Some?
    requires good.instance.value.initRegisters == [] && !good.instance.value.initThrows
    requires !good.instance.value.toolsThrow && UniqueNames(good.instance.value.tools)
    requires forall t :: t in good.instance.value.tools ==> !HasName(tools, t.name)
    ensures LoadTypes(tools, [bad, good]) ==
      (tools + good.instance.value.tools,
       [LoadFailed(bad.fullName), Loaded(good.instance.value.id, good.instance.value.version)])
  {
    var p := good.instance.value;
    RegisterAllFresh(tools, p.tools);
    assert LoadPlugin(tools, bad) == (tools, LoadFailed(bad.fullName));
    assert LoadPlugin(tools, good) == (tools + p.tools, Loaded(p.id, p.version));
    assert RegisterAll(tools, []) == (tools, true);
    assert LoadPlugin(tools, bad) == (tools, LoadFailed(bad.fullName));
    assert LoadPlugin(tools, good) == (tools + p.tools, Loaded(p.id, p.version));
    assert LoadTypes(tools + p.tools, []) == (tools + p.tools, []);
    assert [good][1..] == [];
    assert [Loaded(p.id, p.version)] + [] == [Loaded(p.id, p.version)];
    assert LoadTypes(tools, [good]) == (tools + p.tools, [Loaded(p.id, p.version)]);
    assert [bad, good][1..] == [good];
    assert [LoadFailed(bad.fullName)] + [Loaded(p.id, p.version)] == [LoadFailed(bad.fullName), Loaded(p.id, p.version)];
  }

  /** A request that passes the verb and both guards. */
  predicate Admitted(opts: Options, req: HttpRequest)
  {
    req.verb == "POST" && CheckOrigin(opts.allowedOrigins, req.origin).Pass? && CheckAuth(opts, req.authorization).Pass?
  }

  /** Calling the ping tool with empty arguments, through the whole handler,
      answers {isError: false, content: [{type: "text", text: "pong"}]}. */
  lemma PingCallAnswersPong(opts: Options, tools: seq<Tool>, req: HttpRequest, id: Json)
    requires Lookup(tools, PingToolName) == Some(PingTool())
    requires Admitted(opts, req)
    requires req.body == Parsed(RpcRequest(id, Some("tools/call"),
                                           Some(map["name" := JStr(PingToolName), "arguments" := JObj(map[])])))
    ensures Handle(opts, tools, req) ==
      Replied(200, [NoStore], Ok(id, map["isError" := JBool(false),
                                         "content" := JArr([JObj(map["type" := JStr("text"), "text" := JStr("pong")])])]))
  {
    var rpc := req.body.rpc;
    var params: Object := map["name" := JStr(PingToolName), "arguments" := JObj(map[])];
    assert rpc.params == Some(params);
    assert Member(rpc.params, "name") == Some(JStr(PingToolName));
    assert Member(rpc.params, "arguments") == Some(JObj(map[]));
    assert ParamString(rpc.params, "name") == Success(Some(PingToolName));
    assert ParamArguments(rpc.params) == Success(map[]);
    var res := TextResult("pong");
    assert PingTool().call(map[], CallContext(req)) == Returned(res);
    assert res.content == [ToolContent("text", "pong")] && !res.isError;
    var items := ContentJson(res.content);
    assert items == [JObj(map["type" := JStr("text"), "text" := JStr("pong")])];
    assert CallTool(tools, CallContext(req), rpc) == Success(Ok(id, CallToolResult(false, items)));
    assert Route(opts, tools, req, rpc) == Success(Ok(id, CallToolResult(false, items)));
  }

  /** A call naming a tool nobody registered is an invalid-params error that
      names it. */
  lemma UnknownToolIsInvalidParams(opts: Options, tools: seq<Tool>, req: HttpRequest, id: Json)
    requires !HasName(tools, "no/such/tool")
    requires Admitted(opts, req)
    requires req.body == Parsed(RpcRequest(id, Some("tools/call"), Some(map["name" := JStr("no/such/tool")])))
    ensures Handle(opts, tools, req) ==
      Replied(200, [NoStore], Err(id, InvalidParams, "Unknown tool: no/such/tool"))
  {
    var rpc := req.body.rpc;
    assert Member(rpc.params, "name") == Some(JStr("no/such/tool"));
    assert Member(rpc.params, "arguments") == None;
    assert ParamString(rpc.params, "name") == Success(Some("no/such/tool"));
    assert ParamArguments(rpc.params) == Success(map[]);
    assert Lookup(tools, "no/such/tool") == None;
    assert "Unknown tool: " + "no/such/tool" == "Unknown tool: no/such/tool";
    assert CallTool(tools, CallContext(req), rpc) == Success(Err(id, InvalidParams, "Unknown tool: no/such/tool"));
  }

  /** A tool name given as an integer beyond 64 bits fails the string cast,
      which the catch-all reports as an internal error, not as an unknown
      tool. */
  lemma HugeIntegerNameIsInternalError(opts: Options, tools: seq<Tool>, req: HttpRequest, id: Json)
    ensures var rpc := RpcRequest(id, Some("tools/call"), Some(map["name" := JInt(0x8000_0000_0000_0000)]));
      Dispatch(opts, tools, req, rpc) == InternalErrorFor(id, InvalidCast)
  {
    var rpc := RpcRequest(id, Some("tools/call"), Some(map["name" := JInt(0x8000_0000_0000_0000)]));
    CallToolOutcomes(opts, tools, req, rpc);
    assert Member(rpc.params, "name") == Some(JInt(0x8000_0000_0000_0000));
    assert StringValueOf(Member(rpc.params, "name")).CastFails?;
  }

  /** With the default options, a supported requested version is echoed and
      an unsupported one falls back to 2025-06-18. */
  lemma DefaultNegotiationExamples(tools: seq<Tool>, req: HttpRequest, id: Json)
    ensures var r := Dispatch(DefaultOptions, tools, req,
                              RpcRequest(id, Some("initialize"), Some(map["protocolVersion" := JStr("2025-03-26")])));
      r.result.Some? && ReadProtocolVersion(r.result.value) == Some("2025-03-26")
    ensures var r := Dispatch(DefaultOptions, tools, req,
                              RpcRequest(id, Some("initialize"), Some(map["protocolVersion" := JStr("1999-01-01")])));
      r.result.Some? && ReadProtocolVersion(r.result.value) == Some("2025-06-18")
  {
    InitializeNegotiates(DefaultOptions, tools, req,
                         RpcRequest(id, Some("initialize"), Some(map["protocolVersion" := JStr("2025-03-26")])));
    InitializeNegotiates(DefaultOptions, tools, req,
                         RpcRequest(id, Some("initialize"), Some(map["protocolVersion" := JStr("1999-01-01")])));
    assert "1999-01-01" !in DefaultOptions.supportedProtocolVersions;
  }

  /** The default options: the supported list is `Mcp.Supported`, every
      request passes the Bearer check, an Origin starting with "FILE://"
      passes (case-insensitively) and a web origin is refused. */
  lemma DefaultAccessPolicy(authorization: Option<string>)
    ensures DefaultOptions.supportedProtocolVersions == Supported
    ensures CheckAuth(DefaultOptions, authorization) == Pass
    ensures CheckOrigin(DefaultOptions.allowedOrigins, Some("FILE://notes.html")) == Pass
    ensures CheckOrigin(DefaultOptions.allowedOrigins, Some("https://example.org")) == Reject(403, [])
  {
    assert StartsWithIgnoreCase("FILE://notes.html", "file://");
    var web := "https://example.org";
    forall a | a in DefaultOptions.allowedOrigins ensures !StartsWithIgnoreCase(web, a) {
      assert Upper(web[0]) != Upper(a[0]);
    }
  }

  /** The registry scenario: registering the same tool twice, the second
      attempt fails and the registry lists the tool once. */
  method RegisterTwice(tool: Tool) returns (first: Registration, second: Registration, listed: seq<Tool>)
    ensures first == Registered && second == DuplicateName(tool.name)
    ensures listed == [tool]
  {
    var manager := new PluginManager();
    first := manager.RegisterTool(tool);
    assert manager.tools[0] == tool;
    second := manager.RegisterTool(tool);
    listed := manager.Tools();
  }

  /** Startup and one request: the scan finds the built-in plugin, and a
      ping call is then answered with "pong". */
  method ServePingAfterLoad(id: Json) returns (log: seq<LoadEvent>, outcome: HttpOutcome)
    ensures log == [Loaded("rimbridge.core", "0.1.0")]
    ensures outcome == Replied(200, [NoStore], Ok(id, map["isError" := JBool(false),
      "content" := JArr([JObj(map["type" := JStr("text"), "text" := JStr("pong")])])]))
  {
    var manager := new PluginManager();
    CoreLoadsIntoEmptyRegistry();
    assert [[CorePluginType]][1..] == [] && [CorePluginType][1..] == [];
    assert [Loaded("rimbridge.core", "0.1.0")] + [] == [Loaded("rimbridge.core", "0.1.0")];
    assert LoadTypes([], [CorePluginType]) == ([PingTool()], [Loaded("rimbridge.core", "0.1.0")]);
    assert LoadAssemblies([], [[CorePluginType]]) == ([PingTool()], [Loaded("rimbridge.core", "0.1.0")]);
    log := manager.DiscoverAndLoad([[CorePluginType]]);
    assert manager.Tools() == [PingTool()];
    assert Lookup([PingTool()], PingToolName) == Some(PingTool());
    var req := HttpRequest("POST", None, None, None, None,
      Parsed(RpcRequest(id, Some("tools/call"), Some(map["name" := JStr(PingToolName), "arguments" := JObj(map[])]))));
    assert OriginAllowed(DefaultOptions.allowedOrigins, req.origin);
    PingCallAnswersPong(DefaultOptions, manager.Tools(), req, id);
    outcome := Handle(DefaultOptions, manager.Tools(), req);
  }

  /** Three actions queued, the first posting a fourth while it runs: one
      drain runs the three in posting order and then the posted one. */
  lemma DrainOrderExample(a: Action, b: Action, c: Action, d: Action)
    requires a.posts == [d] && b.posts == [] && c.posts == [] && d.posts == []
    ensures Schedule([a, b, c]) == [a, b, c, d]
  {
    ScheduleStep([a, b, c]);
    assert [a, b, c][1..] + a.posts == [b, c, d];
    ScheduleStep([b, c, d]);
    assert [b, c, d][1..] + b.posts == [c, d];
    ScheduleStep([c, d]);
    assert [c, d][1..] + c.posts == [d];
    ScheduleStep([d]);
    assert [d][1..] + d.posts == [];
    assert Schedule([]) == [];
  }

  /** Of those, only the throwing one is reported. */
  lemma FailingExample(a: Action, b: Action, c: Action, d: Action)
    requires a.throws && !b.throws && !c.throws && !d.throws
    ensures Failing([a, b, c, d]) == [a]
  {
    FailingAppend([], a);
    assert [] + [a] == [a];
    FailingAppend([a], b);
    assert [a] + [b] == [a, b];
    FailingAppend([a, b], c);
    assert [a, b] + [c] == [a, b, c];
    FailingAppend([a, b, c], d);
    assert [a, b, c] + [d] == [a, b, c, d];
  }

  /** The bridge scenario: three actions posted, the first throwing and
      posting a fourth while it runs; one drain runs all four, keeps going
      past the exception and reports only the first as failed. */
  method DrainAfterFailure(a: Action, b: Action, c: Action, d: Action) returns (ran: seq<Action>, failed: seq<Action>)
    requires a.throws && !b.throws && !c.throws && !d.throws
    requires a.posts == [d] && b.posts == [] && c.posts == [] && d.posts == []
    ensures ran == [a, b, c, d] && failed == [a]
  {
    var bridge := new GameThreadDispatcher();
    bridge.Post(a);
    bridge.Post(b);
    bridge.Post(c);
    assert bridge.queue == [a, b, c];
    DrainOrderExample(a, b, c, d);
    FailingExample(a, b, c, d);
    ran, failed := bridge.Drain();
  }
}
