/** The execution bridge (`GameThreadDispatcher`) and the tool registry with
    its plugin loader (`PluginManager`). */
module Core {
  import opened Wrappers
  import opened Abstractions

  // ---------------------------------------------------------------------
  // Execution bridge
  // ---------------------------------------------------------------------

  /** A posted action, abstractly: an identity, whether running it throws,
      and the actions it posts to the bridge while it runs (before it throws,
      if it does). */
  datatype Action = Action(id: nat, throws: bool, posts: seq<Action>)

  /** How many actions running `q` executes, counting everything they post. */
  function Weight(q: seq<Action>): nat
  {
    if q == [] then 0 else 1 + Weight(q[0].posts) + Weight(q[1..])
  }

  lemma {:induction false} WeightAppend(a: seq<Action>, b: seq<Action>)
    ensures Weight(a + b) == Weight(a) + Weight(b)
  {
    if a == [] {
      assert a + b == b;
    } else {
      assert (a + b)[0] == a[0];
      assert (a + b)[1..] == a[1..] + b;
      WeightAppend(a[1..], b);
    }
  }

  /** The order in which draining a queue `q` runs actions: the head first,
      then the rest of the queue followed by whatever the head posted. */
  function Schedule(q: seq<Action>): seq<Action>
    decreases Weight(q)
  {
    if q == [] then []
    else
      WeightAppend(q[1..], q[0].posts);
      [q[0]] + Schedule(q[1..] + q[0].posts)
  }

  /** Every action of `q` and, after each, everything it posts, depth first:
      the actions a drain of `q` has to run, in another order. */
  function Flatten(q: seq<Action>): seq<Action>
  {
    if q == [] then [] else [q[0]] + Flatten(q[0].posts) + Flatten(q[1..])
  }

  lemma {:induction false} FlattenAppend(a: seq<Action>, b: seq<Action>)
    ensures Flatten(a + b) == Flatten(a) + Flatten(b)
  {
    if a == [] {
      assert a + b == b;
    } else {
      assert (a + b)[0] == a[0];
      assert (a + b)[1..] == a[1..] + b;
      FlattenAppend(a[1..], b);
    }
  }

  /** The actions of a run that threw, in the order they ran. */
  function Failing(ran: seq<Action>): (f: seq<Action>)
    ensures forall a :: a in f <==> a in ran && a.throws
  {
    if ran == [] then []
    else
      var last := ran[|ran| - 1];
      Failing(ran[..|ran| - 1]) + (if last.throws then [last] else [])
  }

  /** One dequeue-and-run step of a drain. */
  lemma ScheduleStep(q: seq<Action>)
    requires q != []
    ensures Schedule(q) == [q[0]] + Schedule(q[1..] + q[0].posts)
    ensures Weight(q[1..] + q[0].posts) < Weight(q)
  {
    WeightAppend(q[1..], q[0].posts);
  }

  /** What one iteration of `Drain` does to the run so far and to what is
      left to run. */
  lemma DrainStep(ran: seq<Action>, q: seq<Action>)
    requires q != []
    ensures (ran + [q[0]]) + Schedule(q[1..] + q[0].posts) == ran + Schedule(q)
    ensures Weight(q[1..] + q[0].posts) < Weight(q)
    ensures Failing(ran + [q[0]]) == Failing(ran) + (if q[0].throws then [q[0]] else [])
  {
    ScheduleStep(q);
    var next := q[1..] + q[0].posts;
    assert (ran + [q[0]]) + Schedule(next) == ran + ([q[0]] + Schedule(next));
    FailingAppend(ran, q[0]);
  }

  lemma FailingAppend(ran: seq<Action>, a: Action)
    ensures Failing(ran + [a]) == Failing(ran) + (if a.throws then [a] else [])
  {
    assert (ran + [a])[..|ran|] == ran;
  }

  /** A drain runs as many actions as the queue and its posts amount to. */
  lemma {:induction false} ScheduleLength(q: seq<Action>)
    ensures |Schedule(q)| == Weight(q)
    decreases Weight(q)
  {
    if q != [] {
      WeightAppend(q[1..], q[0].posts);
      ScheduleLength(q[1..] + q[0].posts);
    }
  }

  /** FIFO: the actions queued when a drain starts run first, in queue order,
      whether or not any of them throws. */
  lemma {:induction false} ScheduleRunsQueueFirst(q: seq<Action>)
    ensures |q| <= |Schedule(q)|
    ensures Schedule(q)[..|q|] == q
    decreases Weight(q)
  {
    if q != [] {
      var rest := q[1..] + q[0].posts;
      WeightAppend(q[1..], q[0].posts);
      ScheduleRunsQueueFirst(rest);
      assert Schedule(q) == [q[0]] + Schedule(rest);
      assert Schedule(rest)[..|q| - 1] == rest[..|q| - 1] == q[1..];
      assert Schedule(q)[..|q|] == [q[0]] + Schedule(rest)[..|q| - 1];
    }
  }

  /** Exactly once: a drain runs every queued action and every action posted
      along the way, each as many times as it was posted. */
  lemma {:induction false} ScheduleRunsEachOnce(q: seq<Action>)
    ensures multiset(Schedule(q)) == multiset(Flatten(q))
    decreases Weight(q)
  {
    if q != [] {
      var rest := q[1..] + q[0].posts;
      WeightAppend(q[1..], q[0].posts);
      ScheduleRunsEachOnce(rest);
      FlattenAppend(q[1..], q[0].posts);
      assert Schedule(q) == [q[0]] + Schedule(rest);
      assert Flatten(q) == [q[0]] + Flatten(q[0].posts) + Flatten(q[1..]);
    }
  }

  /** Work posted to the bridge from any thread, run later by the one thread
      that drains it. */
  class GameThreadDispatcher {
    /** The pending actions, oldest first. */
    var queue: seq<Action>

    constructor ()
      ensures queue == []
    {
      queue := [];
    }

    /** `Post`: enqueue at the tail; nothing else changes. */
    method Post(action: Action)
      modifies this
      ensures queue == old(queue) + [action]
    {
      queue := queue + [action];
    }

    /** Runs one action: it posts what it posts, then throws if it throws.
        Returns whether it threw. */
    method Execute(act: Action) returns (threw: bool)
      modifies this
      ensures queue == old(queue) + act.posts
      ensures threw == act.throws
    {
      var i := 0;
      while i < |act.posts|
        invariant 0 <= i <= |act.posts|
        invariant queue == old(queue) + act.posts[..i]
      {
        Post(act.posts[i]);
        i := i + 1;
      }
      threw := act.throws;
    }

    /** `Drain`: dequeue and run until the queue is empty, catching (and
        reporting in `failed`) each action that throws. `ran` lists the
        actions in the order they ran. */
    method Drain() returns (ran: seq<Action>, failed: seq<Action>)
      modifies this
      ensures queue == []
      ensures ran == Schedule(old(queue))
      ensures failed == Failing(ran)
    {
      ran, failed := [], [];
      while queue != []
        invariant ran + Schedule(queue) == Schedule(old(queue))
        invariant failed == Failing(ran)
        decreases Weight(queue)
      {
        var act := queue[0];
        DrainStep(ran, queue);
        queue := queue[1..];
        var threw := Execute(act);
        ran := ran + [act];
        if threw {
          failed := failed + [act];
        }
      }
    }
  }

  // ---------------------------------------------------------------------
  // Tool registry
  // ---------------------------------------------------------------------

  /** No two registered tools share a name (ordinal comparison). */
  ghost predicate UniqueNames(tools: seq<Tool>)
  {
    forall i, j :: 0 <= i < j < |tools| ==> tools[i].name != tools[j].name
  }

  /** Some registered tool has exactly this name (`ContainsKey`). */
  predicate HasName(tools: seq<Tool>, name: string)
  {
    exists i :: 0 <= i < |tools| && tools[i].name == name
  }

  /** The first tool with exactly this name, if any. */
  function Lookup(tools: seq<Tool>, name: string): (r: Option<Tool>)
    ensures r.Some? <==> HasName(tools, name)
    ensures r.Some? ==> r.value.name == name && r.value in tools
  {
    if tools == [] then None
    else if tools[0].name == name then Some(tools[0])
    else
      assert HasName(tools, name) ==> HasName(tools[1..], name) by {
        if HasName(tools, name) {
          var i :| 0 <= i < |tools| && tools[i].name == name;
          assert tools[1..][i - 1].name == name;
        }
      }
      Lookup(tools[1..], name)
  }

  /** The tool found is the first one with the name, in registration order. */
  lemma {:induction false} LookupFirst(tools: seq<Tool>, name: string)
    ensures Lookup(tools, name).Some? ==>
      exists i :: (0 <= i < |tools| && tools[i] == Lookup(tools, name).value
        && forall j :: 0 <= j < i ==> tools[j].name != name)
  {
    if tools != [] && tools[0].name == name {
      assert tools[0] == Lookup(tools, name).value;
    } else if tools != [] {
      LookupFirst(tools[1..], name);
      if Lookup(tools, name).Some? {
        var i :| 0 <= i < |tools[1..]| && tools[1..][i] == Lookup(tools[1..], name).value
          && forall j :: 0 <= j < i ==> tools[1..][j].name != name;
        assert tools[i + 1] == tools[1..][i];
        forall j | 0 <= j < i + 1 ensures tools[j].name != name {
          if j > 0 {
            assert tools[j] == tools[1..][j - 1];
          }
        }
      }
    }
  }

  /** The dictionary the registrations build: each one a keyed write. */
  ghost function AsMap(tools: seq<Tool>): map<string, Tool>
  {
    if tools == [] then map[]
    else AsMap(tools[..|tools| - 1])[tools[|tools| - 1].name := tools[|tools| - 1]]
  }

  lemma {:induction false} LookupAppend(tools: seq<Tool>, t: Tool, name: string)
    ensures Lookup(tools + [t], name) ==
      if HasName(tools, name) then Lookup(tools, name)
      else if t.name == name then Some(t) else None
  {
    if tools == [] {
      assert tools + [t] == [t];
    } else {
      assert (tools + [t])[1..] == tools[1..] + [t];
      LookupAppend(tools[1..], t, name);
      if tools[0].name != name && HasName(tools, name) {
        var i :| 0 <= i < |tools| && tools[i].name == name;
        assert tools[1..][i - 1].name == name;
      }
    }
  }

  /** The ordered registry and the dictionary agree: a name is a key exactly
      when a tool has it, the search finds the dictionary's entry, and there
      are as many keys as tools. */
  lemma {:induction false} AsMapAgrees(tools: seq<Tool>, name: string)
    requires UniqueNames(tools)
    ensures name in AsMap(tools) <==> HasName(tools, name)
    ensures name in AsMap(tools) ==> Lookup(tools, name) == Some(AsMap(tools)[name])
    ensures |AsMap(tools)| == |tools|
  {
    if tools != [] {
      var init, last := tools[..|tools| - 1], tools[|tools| - 1];
      assert tools == init + [last];
      assert UniqueNames(init) by {
        forall i, j | 0 <= i < j < |init| ensures init[i].name != init[j].name {
          assert tools[i].name != tools[j].name;
        }
      }
      assert !HasName(init, last.name) by {
        forall i | 0 <= i < |init| ensures init[i].name != last.name {
          assert tools[i].name != tools[|tools| - 1].name;
        }
      }
      AsMapAgrees(init, name);
      AsMapAgrees(init, last.name);
      LookupAppend(init, last, name);
      if HasName(tools, name) && !HasName(init, name) {
        var i :| 0 <= i < |tools| && tools[i].name == name;
        assert i == |tools| - 1;
      }
    }
  }

  /** The outcome of `RegisterTool`; the C# code signals a duplicate by
      throwing InvalidOperationException. */
  datatype Registration = Registered | DuplicateName(name: string)

  /** Registering a batch one tool at a time, stopping at the first duplicate
      (whose exception ends the batch); reports whether all went in. */
  function RegisterAll(tools: seq<Tool>, batch: seq<Tool>): (seq<Tool>, bool)
    decreases batch
  {
    if batch == [] then (tools, true)
    else if HasName(tools, batch[0].name) then (tools, false)
    else RegisterAll(tools + [batch[0]], batch[1..])
  }

  /** What a batch registration does: the first `k` tools of the batch are
      appended in order and stay registered; it succeeds iff all went in, and
      otherwise tool `k` was a duplicate. Names stay unique. */
  lemma {:induction false} RegisterAllEffect(tools: seq<Tool>, batch: seq<Tool>)
    requires UniqueNames(tools)
    ensures UniqueNames(RegisterAll(tools, batch).0)
    ensures exists k :: (0 <= k <= |batch|
      && RegisterAll(tools, batch).0 == tools + batch[..k]
      && (RegisterAll(tools, batch).1 <==> k == |batch|)
      && (k < |batch| ==> HasName(tools + batch[..k], batch[k].name)))
    decreases batch
  {
    if batch == [] {
      assert tools + batch[..0] == tools;
    } else if HasName(tools, batch[0].name) {
      assert tools + batch[..0] == tools;
    } else {
      var next := tools + [batch[0]];
      assert UniqueNames(next) by {
        forall i, j | 0 <= i < j < |next| ensures next[i].name != next[j].name {
          if j == |tools| {
            assert !(tools[i].name == batch[0].name);
          }
        }
      }
      RegisterAllEffect(next, batch[1..]);
      var k :| 0 <= k <= |batch[1..]|
        && RegisterAll(next, batch[1..]).0 == next + batch[1..][..k]
        && (RegisterAll(next, batch[1..]).1 <==> k == |batch[1..]|)
        && (k < |batch[1..]| ==> HasName(next + batch[1..][..k], batch[1..][k].name));
      assert next + batch[1..][..k] == tools + batch[..k + 1];
    }
  }

  /** A batch of distinct names, none already registered, goes in whole. */
  lemma {:induction false} RegisterAllFresh(tools: seq<Tool>, batch: seq<Tool>)
    requires UniqueNames(batch)
    requires forall t :: t in batch ==> !HasName(tools, t.name)
    ensures RegisterAll(tools, batch) == (tools + batch, true)
    decreases batch
  {
    if batch != [] {
      var next := tools + [batch[0]];
      forall t | t in batch[1..] ensures !HasName(next, t.name) {
        var j :| 1 <= j < |batch| && batch[j] == t;
        assert batch[0].name != batch[j].name;
        assert t in batch && !HasName(tools, t.name);
        forall i | 0 <= i < |next| ensures next[i].name != t.name {
          if i < |tools| {
            assert next[i] == tools[i];
          }
        }
      }
      assert UniqueNames(batch[1..]) by {
        forall i, j | 0 <= i < j < |batch[1..]| ensures batch[1..][i].name != batch[1..][j].name {
          assert batch[i + 1].name != batch[j + 1].name;
        }
      }
      assert !HasName(tools, batch[0].name);
      assert RegisterAll(tools, batch) == RegisterAll(next, batch[1..]);
      RegisterAllFresh(next, batch[1..]);
      assert next + batch[1..] == tools + batch;
    } else {
      assert tools + batch == tools;
    }
  }

  /** A batch that can go in whole on top of `tools`: its names are
      distinct and none is registered yet. */
  ghost predicate Fresh(tools: seq<Tool>, batch: seq<Tool>)
  {
    UniqueNames(batch) && forall t :: t in batch ==> !HasName(tools, t.name)
  }

  lemma FreshOfUnique(tools: seq<Tool>, batch: seq<Tool>)
    requires UniqueNames(tools + batch)
    ensures Fresh(tools, batch)
  {
    var s := tools + batch;
    forall i, j | 0 <= i < j < |batch| ensures batch[i].name != batch[j].name {
      assert s[|tools| + i] == batch[i] && s[|tools| + j] == batch[j];
    }
    forall t | t in batch ensures !HasName(tools, t.name) {
      var j :| 0 <= j < |batch| && batch[j] == t;
      forall i | 0 <= i < |tools| ensures tools[i].name != t.name {
        assert s[i] == tools[i] && s[|tools| + j] == t;
      }
    }
  }

  /** A batch registration succeeds exactly when the batch is fresh. */
  lemma RegisterAllSucceeds(tools: seq<Tool>, batch: seq<Tool>)
    requires UniqueNames(tools)
    ensures RegisterAll(tools, batch).1 <==> Fresh(tools, batch)
  {
    RegisterAllEffect(tools, batch);
    if Fresh(tools, batch) {
      RegisterAllFresh(tools, batch);
    }
    if RegisterAll(tools, batch).1 {
      var k :| 0 <= k <= |batch|
        && RegisterAll(tools, batch).0 == tools + batch[..k]
        && (RegisterAll(tools, batch).1 <==> k == |batch|);
      assert batch[..k] == batch;
      FreshOfUnique(tools, batch);
    }
  }

  // ---------------------------------------------------------------------
  // Plugin loader
  // ---------------------------------------------------------------------

  /** A type found while scanning an assembly: whether it is abstract,
      implements IMcpPlugin and carries [McpPlugin], and the instance that
      `Activator.CreateInstance` produces (None when construction throws). */
  datatype PluginType = PluginType(
    fullName: string,
    isAbstract: bool,
    implementsPlugin: bool,
    hasPluginAttribute: bool,
    instance: Option<Plugin>)

  /** Only these types are instantiated. */
  predicate Eligible(t: PluginType)
  {
    !t.isAbstract && t.implementsPlugin && t.hasPluginAttribute
  }

  /** What the loader logs for one candidate. */
  datatype LoadEvent = Loaded(id: string, version: string) | LoadFailed(typeName: string)

  /** The event a candidate can produce: the plugin's identity when it loaded,
      the type's name when it failed. */
  predicate EventFor(t: PluginType, ev: LoadEvent)
  {
    ev == LoadFailed(t.fullName) || (t.instance.Some? && ev == Loaded(t.instance.value.id, t.instance.value.version))
  }

  /** The guarded block for one candidate: construct, initialize (which may
      register tools itself), register every tool `GetTools` yields, log.
      Any exception ends the block; what was registered before it stays. */
  function LoadPlugin(tools: seq<Tool>, t: PluginType): (r: (seq<Tool>, LoadEvent))
    ensures EventFor(t, r.1)
  {
    match t.instance
    case None => (tools, LoadFailed(t.fullName))
    case Some(p) =>
      var (afterInit, initOk) := RegisterAll(tools, p.initRegisters);
      if !initOk || p.initThrows then (afterInit, LoadFailed(t.fullName))
      else
        var (afterTools, toolsOk) := RegisterAll(afterInit, p.tools);
        if !toolsOk || p.toolsThrow then (afterTools, LoadFailed(t.fullName))
        else (afterTools, Loaded(p.id, p.version))
  }

  /** The eligible types of an assembly, in scan order. */
  function EligibleTypes(types: seq<PluginType>): seq<PluginType>
  {
    if types == [] then []
    else (if Eligible(types[0]) then [types[0]] else []) + EligibleTypes(types[1..])
  }

  /** The inner loop of `DiscoverAndLoad`: every type of one assembly in
      turn, eligible ones loaded, each in isolation. */
  function LoadTypes(tools: seq<Tool>, types: seq<PluginType>): (seq<Tool>, seq<LoadEvent>)
    decreases types
  {
    if types == [] then (tools, [])
    else
      var (t1, e1) := if Eligible(types[0]) then (LoadPlugin(tools, types[0]).0, [LoadPlugin(tools, types[0]).1]) else (tools, []);
      var (t2, e2) := LoadTypes(t1, types[1..]);
      (t2, e1 + e2)
  }

  /** `DiscoverAndLoad` over the scanned assemblies, in order. */
  function LoadAssemblies(tools: seq<Tool>, assemblies: seq<seq<PluginType>>): (seq<Tool>, seq<LoadEvent>)
    decreases assemblies
  {
    if assemblies == [] then (tools, [])
    else
      var (t1, e1) := LoadTypes(tools, assemblies[0]);
      var (t2, e2) := LoadAssemblies(t1, assemblies[1..]);
      (t2, e1 + e2)
  }

  /** Loading one candidate only adds tools, and keeps names unique. */
  lemma LoadPluginGrows(tools: seq<Tool>, t: PluginType)
    requires UniqueNames(tools)
    ensures UniqueNames(LoadPlugin(tools, t).0) && tools <= LoadPlugin(tools, t).0
  {
    if t.instance.Some? {
      var p := t.instance.value;
      RegisterAllEffect(tools, p.initRegisters);
      var afterInit := RegisterAll(tools, p.initRegisters).0;
      RegisterAllEffect(afterInit, p.tools);
    }
  }

  /** One candidate in full. Without an instance (construction threw) it
      fails and registers nothing. Otherwise it registers, in order, a prefix
      of what `Initialize` and then `GetTools` register, and keeps it even
      when it fails: there is no rollback. It is logged as loaded exactly
      when neither `Initialize` nor the enumeration throws and every
      registration finds a fresh name, and then everything went in. */
  lemma LoadPluginEffect(tools: seq<Tool>, t: PluginType)
    requires UniqueNames(tools)
    ensures t.instance.None? ==> LoadPlugin(tools, t) == (tools, LoadFailed(t.fullName))
    ensures t.instance.Some? ==>
      var p := t.instance.value;
      exists k :: (0 <= k <= |p.initRegisters + p.tools|
        && LoadPlugin(tools, t).0 == tools + (p.initRegisters + p.tools)[..k])
    ensures LoadPlugin(tools, t).1.Loaded? <==>
      && t.instance.Some?
      && !t.instance.value.initThrows && !t.instance.value.toolsThrow
      && Fresh(tools, t.instance.value.initRegisters)
      && Fresh(tools + t.instance.value.initRegisters, t.instance.value.tools)
    ensures LoadPlugin(tools, t).1.Loaded? ==>
      LoadPlugin(tools, t).0 == tools + t.instance.value.initRegisters + t.instance.value.tools
  {
    if t.instance.Some? {
      var p := t.instance.value;
      RegisterAllSucceeds(tools, p.initRegisters);
      var k := PluginPrefix(tools, p);
      if RegisterAll(tools, p.initRegisters).1 && !p.initThrows {
        RegisterAllFresh(tools, p.initRegisters);
        RegisterAllSucceeds(tools + p.initRegisters, p.tools);
        if RegisterAll(tools + p.initRegisters, p.tools).1 {
          RegisterAllFresh(tools + p.initRegisters, p.tools);
        }
      }
    }
  }

  /** The `k` of `RegisterAllEffect`, as a value. */
  lemma RegisteredPrefix(tools: seq<Tool>, batch: seq<Tool>) returns (k: nat)
    requires UniqueNames(tools)
    ensures k <= |batch| && RegisterAll(tools, batch).0 == tools + batch[..k]
    ensures RegisterAll(tools, batch).1 <==> k == |batch|
    ensures UniqueNames(RegisterAll(tools, batch).0)
  {
    RegisterAllEffect(tools, batch);
    k :| 0 <= k <= |batch|
      && RegisterAll(tools, batch).0 == tools + batch[..k]
      && (RegisterAll(tools, batch).1 <==> k == |batch|);
  }

  /** The registrations of one plugin, both stages, leave a prefix of what
      it registers appended to the registry. */
  lemma PluginPrefix(tools: seq<Tool>, p: Plugin) returns (k: nat)
    requires UniqueNames(tools)
    ensures k <= |p.initRegisters + p.tools|
    ensures !RegisterAll(tools, p.initRegisters).1 || p.initThrows ==>
      RegisterAll(tools, p.initRegisters).0 == tools + (p.initRegisters + p.tools)[..k]
    ensures RegisterAll(tools, p.initRegisters).1 && !p.initThrows ==>
      RegisterAll(RegisterAll(tools, p.initRegisters).0, p.tools).0 == tools + (p.initRegisters + p.tools)[..k]
  {
    var init, all := p.initRegisters, p.initRegisters + p.tools;
    var k1 := RegisteredPrefix(tools, init);
    assert init[..k1] == all[..k1];
    k := k1;
    if RegisterAll(tools, init).1 && !p.initThrows {
      var afterInit := RegisterAll(tools, init).0;
      assert init[..k1] == init;
      var k2 := RegisteredPrefix(afterInit, p.tools);
      assert all[..|init| + k2] == init + p.tools[..k2];
      assert afterInit + p.tools[..k2] == tools + (init + p.tools[..k2]);
      k := |init| + k2;
    }
  }

  /** Ineligible types are skipped: the scan of an assembly does what the
      scan of its eligible types alone does, so an ineligible type is never
      instantiated, registers nothing and logs nothing. */
  lemma {:induction false} LoadTypesSkipsIneligible(tools: seq<Tool>, types: seq<PluginType>)
    ensures LoadTypes(tools, types) == LoadTypes(tools, EligibleTypes(types))
    decreases types
  {
    if types != [] {
      var t1 := if Eligible(types[0]) then LoadPlugin(tools, types[0]).0 else tools;
      LoadTypesSkipsIneligible(t1, types[1..]);
      var rest := EligibleTypes(types[1..]);
      if Eligible(types[0]) {
        assert EligibleTypes(types) == [types[0]] + rest;
        assert ([types[0]] + rest)[0] == types[0] && ([types[0]] + rest)[1..] == rest;
      } else {
        assert EligibleTypes(types) == rest;
        assert [] + LoadTypes(tools, types[1..]).1 == LoadTypes(tools, types[1..]).1;
      }
    }
  }

  /** Loading an assembly only adds tools and keeps names unique; there is
      one event per eligible type, for that type, in scan order. */
  lemma {:induction false} LoadTypesEffect(tools: seq<Tool>, types: seq<PluginType>)
    requires UniqueNames(tools)
    ensures UniqueNames(LoadTypes(tools, types).0) && tools <= LoadTypes(tools, types).0
    ensures |LoadTypes(tools, types).1| == |EligibleTypes(types)|
    ensures forall i :: 0 <= i < |EligibleTypes(types)| ==> EventFor(EligibleTypes(types)[i], LoadTypes(tools, types).1[i])
    decreases types
  {
    if types != [] {
      var t1 := if Eligible(types[0]) then LoadPlugin(tools, types[0]).0 else tools;
      if Eligible(types[0]) {
        LoadPluginGrows(tools, types[0]);
      }
      LoadTypesEffect(t1, types[1..]);
    }
  }

  /** Isolation: whatever the earlier types do, including failing, the later
      types are still loaded, from the registry the earlier ones left. */
  lemma {:induction false} LoadTypesAppend(tools: seq<Tool>, a: seq<PluginType>, b: seq<PluginType>)
    ensures LoadTypes(tools, a + b) ==
      (LoadTypes(LoadTypes(tools, a).0, b).0, LoadTypes(tools, a).1 + LoadTypes(LoadTypes(tools, a).0, b).1)
    decreases a
  {
    if a == [] {
      assert a + b == b;
      assert [] + LoadTypes(tools, b).1 == LoadTypes(tools, b).1;
    } else {
      assert (a + b)[0] == a[0];
      assert (a + b)[1..] == a[1..] + b;
      var t1 := if Eligible(a[0]) then LoadPlugin(tools, a[0]).0 else tools;
      var e1 := if Eligible(a[0]) then [LoadPlugin(tools, a[0]).1] else [];
      LoadTypesAppend(t1, a[1..], b);
      assert LoadTypes(tools, a) == (LoadTypes(t1, a[1..]).0, e1 + LoadTypes(t1, a[1..]).1);
      assert LoadTypes(tools, a + b) == (LoadTypes(t1, a[1..] + b).0, e1 + LoadTypes(t1, a[1..] + b).1);
      var mid := LoadTypes(t1, a[1..]);
      assert e1 + (mid.1 + LoadTypes(mid.0, b).1) == (e1 + mid.1) + LoadTypes(mid.0, b).1;
    }
  }

  /** Loading all assemblies only adds tools and keeps names unique. */
  lemma {:induction false} LoadAssembliesGrows(tools: seq<Tool>, assemblies: seq<seq<PluginType>>)
    requires UniqueNames(tools)
    ensures UniqueNames(LoadAssemblies(tools, assemblies).0) && tools <= LoadAssemblies(tools, assemblies).0
    decreases assemblies
  {
    if assemblies != [] {
      LoadTypesEffect(tools, assemblies[0]);
      LoadAssembliesGrows(LoadTypes(tools, assemblies[0]).0, assemblies[1..]);
    }
  }

  /** `PluginManager`: the registry, written during loading and read by the
      request handler. */
  class PluginManager {
    /** `_tools.Values`, in registration order. */
    var tools: seq<Tool>

    ghost predicate Valid()
      reads this
    {
      UniqueNames(tools)
    }

    constructor ()
      ensures Valid() && tools == []
    {
      tools := [];
    }

    /** `Tools`: the registered tools in registration order. */
    function Tools(): seq<Tool>
      reads this
    {
      tools
    }

    /** `RegisterTool`: a duplicate name fails and changes nothing; a fresh
        name adds exactly one dictionary entry and leaves the others alone. */
    method RegisterTool(tool: Tool) returns (r: Registration)
      requires Valid()
      modifies this
      ensures Valid()
      ensures HasName(old(tools), tool.name) ==> r == DuplicateName(tool.name) && tools == old(tools)
      ensures !HasName(old(tools), tool.name) ==> r == Registered && tools == old(tools) + [tool]
      ensures r.Registered? ==>
        tool.name !in AsMap(old(tools)) && AsMap(tools) == AsMap(old(tools))[tool.name := tool]
    {
      if HasName(tools, tool.name) {
        return DuplicateName(tool.name);
      }
      AsMapAgrees(tools, tool.name);
      assert (tools + [tool])[..|tools|] == tools;
      tools := tools + [tool];
      r := Registered;
    }

    /** Registers a batch through `RegisterTool`, stopping at the first
        duplicate, as the exception it throws would. */
    method RegisterEach(batch: seq<Tool>) returns (ok: bool)
      requires Valid()
      modifies this
      ensures Valid()
      ensures (tools, ok) == RegisterAll(old(tools), batch)
    {
      var i := 0;
      while i < |batch|
        invariant 0 <= i <= |batch|
        invariant Valid()
        invariant RegisterAll(tools, batch[i..]) == RegisterAll(old(tools), batch)
      {
        assert batch[i..][0] == batch[i] && batch[i..][1..] == batch[i + 1..];
        var r := RegisterTool(batch[i]);
        if r.DuplicateName? {
          return false;
        }
        i := i + 1;
      }
      assert batch[i..] == [];
      return true;
    }

    /** The try block for one candidate type. */
    method LoadCandidate(t: PluginType) returns (ev: LoadEvent)
      requires Valid()
      modifies this
      ensures Valid()
      ensures (tools, ev) == LoadPlugin(old(tools), t)
    {
      if t.instance.None? {
        return LoadFailed(t.fullName);
      }
      var plugin := t.instance.value;
      var ok := RegisterEach(plugin.initRegisters);
      if !ok || plugin.initThrows {
        return LoadFailed(t.fullName);
      }
      ok := RegisterEach(plugin.tools);
      if !ok || plugin.toolsThrow {
        return LoadFailed(t.fullName);
      }
      ev := Loaded(plugin.id, plugin.version);
    }

    /** The inner loop: each type of one assembly. */
    method LoadAssembly(types: seq<PluginType>) returns (events: seq<LoadEvent>)
      requires Valid()
      modifies this
      ensures Valid()
      ensures tools == LoadTypes(old(tools), types).0 && events == LoadTypes(old(tools), types).1
    {
      events := [];
      var j := 0;
      assert types[j..] == types;
      while j < |types|
        invariant 0 <= j <= |types|
        invariant Valid()
        invariant LoadTypes(tools, types[j..]).0 == LoadTypes(old(tools), types).0
        invariant events + LoadTypes(tools, types[j..]).1 == LoadTypes(old(tools), types).1
      {
        assert types[j..][0] == types[j] && types[j..][1..] == types[j + 1..];
        var t := types[j];
        if Eligible(t) {
          var ev := LoadCandidate(t);
          events := events + [ev];
        }
        j := j + 1;
      }
      assert types[j..] == [] && events + [] == events;
    }

    /** `DiscoverAndLoad`: every assembly in turn; returns the load log. */
    method DiscoverAndLoad(assemblies: seq<seq<PluginType>>) returns (log: seq<LoadEvent>)
      requires Valid()
      modifies this
      ensures Valid()
      ensures tools == LoadAssemblies(old(tools), assemblies).0 && log == LoadAssemblies(old(tools), assemblies).1
    {
      log := [];
      var i := 0;
      assert assemblies[i..] == assemblies;
      while i < |assemblies|
        invariant 0 <= i <= |assemblies|
        invariant Valid()
        invariant LoadAssemblies(tools, assemblies[i..]).0 == LoadAssemblies(old(tools), assemblies).0
        invariant log + LoadAssemblies(tools, assemblies[i..]).1 == LoadAssemblies(old(tools), assemblies).1
      {
        assert assemblies[i..][0] == assemblies[i] && assemblies[i..][1..] == assemblies[i + 1..];
        var events := LoadAssembly(assemblies[i]);
        log := log + events;
        i := i + 1;
      }
      assert assemblies[i..] == [] && log + [] == log;
    }
  }
}
