/** The tenant manager and the registry as the objects they are. The manager's fields are its cache and, standing for
    Redis, the disk and Docker, what those hold; every method leaves the state the tenants' machine says. */
module TenantManager {
  import opened Prelude
  import Naming
  import opened TenantConfig
  import opened Tenants

  // ---- Stopping one by one is stopping together ----

  lemma SourceAfterStop(w: World, ts: set<string>, stuck: set<string>, t: string)
    ensures Source(StopAll(w, ts, stuck), t) == if t in ts then None else Source(w, t)
  {
  }

  lemma RecordAfterStop(w: World, ts: set<string>, stuck: set<string>, s: string)
    ensures var w' := StopAll(w, ts, stuck);
            && (s in w'.records <==> s in w.records || (s in ts && Source(w, s).Some?))
            && (s in w'.records ==>
                  w'.records[s] == if s in ts && Source(w, s).Some? then StoppedRecord(w, s) else w.records[s])
            && w'.files == w.files
  {
  }

  lemma RecordOneMore(w: World, ts: set<string>, t: string, stuck: set<string>, s: string)
    ensures var a, b := StopAll(StopAll(w, ts, stuck), {t}, stuck).records, StopAll(w, ts + {t}, stuck).records;
            (s in a <==> s in b) && (s in a ==> a[s] == b[s])
  {
    var mid := StopAll(w, ts, stuck);
    SourceAfterStop(w, ts, stuck, s);
    RecordAfterStop(w, ts, stuck, s);
    RecordAfterStop(mid, {t}, stuck, s);
    RecordAfterStop(w, ts + {t}, stuck, s);
  }

  lemma StopOneMore(w: World, ts: set<string>, t: string, stuck: set<string>)
    ensures StopAll(StopAll(w, ts, stuck), {t}, stuck) == StopAll(w, ts + {t}, stuck)
  {
    var a, b := StopAll(StopAll(w, ts, stuck), {t}, stuck), StopAll(w, ts + {t}, stuck);
    forall s
      ensures (s in a.records <==> s in b.records) && (s in a.records ==> a.records[s] == b.records[s])
    {
      RecordOneMore(w, ts, t, stuck, s);
    }
    assert a.records == b.records;
    RemovedOneMore(w, ts, t, stuck);
    CombineRemovals(w.containers, Removed(w, ts, stuck), Removed(StopAll(w, ts, stuck), {t}, stuck));
    assert a.cache == b.cache;
  }

  lemma CombineRemovals(m: map<string, Container>, xs: set<string>, ys: set<string>)
    ensures m - xs - ys == m - (xs + ys)
  {
  }

  lemma RemovedOneMore(w: World, ts: set<string>, t: string, stuck: set<string>)
    ensures Removed(w, ts, stuck) + Removed(StopAll(w, ts, stuck), {t}, stuck) == Removed(w, ts + {t}, stuck)
  {
    SourceAfterStop(w, ts, stuck, t);
    var more := Removed(StopAll(w, ts, stuck), {t}, stuck);
    forall id | id in Removed(w, ts + {t}, stuck)
      ensures id in Removed(w, ts, stuck) + more
    {
      var s :| s in ts + {t} && Source(w, s).Some? && Source(w, s).value.containerId == id;
      if s !in ts {
        assert s == t;
      }
    }
  }

  lemma StopNone(w: World, stuck: set<string>)
    ensures StopAll(w, {}, stuck) == w
  {
    assert StopAll(w, {}, stuck).records == w.records;
    assert StopAll(w, {}, stuck).cache == w.cache;
    assert StopAll(w, {}, stuck).containers == w.containers;
  }

  // ---- The configuration, edited step by step ----

  /** `write_config`'s edits; None when an index or a path operation raises. */
  method EditConfig(c: Config) returns (r: Option<(Config, Mount)>)
    ensures r == if Writable(c) then Some((Normalized(c), MountOf(c))) else None
  {
    var data := c;
    if "gateway" !in data {
      data := data["gateway" := Obj(map[])];
    }
    if !data["gateway"].Obj? {
      return None;
    }
    data := data["gateway" := Obj(data["gateway"].fields["port" := Num(AGENT_PORT)])];
    assert data == SetPort(c);
    if "agents" !in data {
      data := data["agents" := Obj(map[])];
    }
    if !data["agents"].Obj? {
      return None;
    }
    var agents := data["agents"].fields;
    if "defaults" !in agents {
      agents := agents["defaults" := Obj(map[])];
    }
    if !agents["defaults"].Obj? {
      return None;
    }
    var defaults := agents["defaults"].fields;
    var mount := TenantWorkspace;
    if "workspace" in defaults && IsTrue(defaults["workspace"]) {
      if !defaults["workspace"].Str? {
        return None;
      }
      if !(ROOT <= Naming.Strip(defaults["workspace"].s)) {
        mount := HostPath(defaults["workspace"].s);
      }
    }
    defaults := defaults["workspace" := Str(CONTAINER_WORKSPACE)];
    data := data["agents" := Obj(agents["defaults" := Obj(defaults)])];
    assert agents["defaults" := Obj(defaults)] == Under(c, "agents")["defaults" := Obj(defaults)];
    assert data == SetPort(c)["agents" := Obj(agents["defaults" := Obj(defaults)])];
    r := Some((data, mount));
  }

  /** The container's environment, and the configuration after the injection into it. */
  method InjectEnv(t: string, c: Config, g: GatewayEnv) returns (r: Option<(Env, Config)>)
    requires "gateway" in c && c["gateway"].Obj?
    ensures r == if Startable(c) then Some((ContainerEnv(t, c, g), Injected(t, c, g))) else None
  {
    var gateway := c["gateway"].fields;
    var env: Env := map[];
    var inPlace := "env" in gateway && IsTrue(gateway["env"]);
    if inPlace {
      if !gateway["env"].Obj? {
        return None;
      }
      env := gateway["env"].fields;
    }
    assert env == CustomEnv(c);
    env := env["TENANT_ID" := Str(t)];
    if "REDIS_URL" !in env {
      env := env["REDIS_URL" := Str(if g.redisUrl.Some? then g.redisUrl.value else DEFAULT_REDIS)];
    }
    if "OPENAI_API_KEY" !in env {
      var providers: Config, openai: Config := map[], map[];
      if "providers" in c && IsTrue(c["providers"]) {
        if !c["providers"].Obj? {
          return None;
        }
        providers := c["providers"].fields;
      }
      if "openai" in providers && IsTrue(providers["openai"]) {
        if !providers["openai"].Obj? {
          return None;
        }
        openai := providers["openai"].fields;
      }
      if "apiKey" in openai && IsTrue(openai["apiKey"]) {
        env := env["OPENAI_API_KEY" := openai["apiKey"]];
      } else if Truthy(g.openAiKey) {
        env := env["OPENAI_API_KEY" := Str(g.openAiKey.value)];
      }
    }
    r := Some((env, if inPlace then c["gateway" := Obj(gateway["env" := Obj(env)])] else c));
  }

  lemma StopOne(w: World, t: string, stuck: set<string>)
    ensures Source(w, t).None? ==> StopAll(w, {t}, stuck) == w
    ensures Source(w, t).Some? ==>
              var c := Source(w, t).value;
              var left := if c.containerId in stuck then w.containers else w.containers - {c.containerId};
              StopAll(w, {t}, stuck) ==
              w.(cache := w.cache - {t}, records := w.records[t := StoppedRecord(w, t)], containers := left)
  {
    var w' := StopAll(w, {t}, stuck);
    if Source(w, t).None? {
      assert Removed(w, {t}, stuck) == {};
      assert w'.records == w.records;
      assert w'.cache == w.cache;
    } else {
      var id := Source(w, t).value.containerId;
      assert Removed(w, {t}, stuck) == if id in stuck then {} else {id};
      assert w'.records == w.records[t := StoppedRecord(w, t)];
    }
    assert w.containers - {} == w.containers;
  }

  // ---- The manager ----

  function Elements(ts: seq<string>): set<string> {
    set t | t in ts
  }

  lemma OneMoreElement(ts: seq<string>, i: nat)
    requires i < |ts|
    ensures Elements(ts[..i + 1]) == Elements(ts[..i]) + {ts[i]}
  {
    assert ts[..i + 1] == ts[..i] + [ts[i]];
  }

  lemma AddElement(ts: seq<string>, t: string)
    ensures Elements(ts + [t]) == Elements(ts) + {t}
  {
    assert forall x :: x in ts + [t] <==> x in ts || x == t;
  }

  /** The keys of a store, in some order. */
  method Listed(keys: set<string>) returns (ts: seq<string>)
    ensures Elements(ts) == keys && forall i, j :: 0 <= i < j < |ts| ==> ts[i] != ts[j]
  {
    var rest := keys;
    ts := [];
    while rest != {}
      invariant rest <= keys && Elements(ts) == keys - rest
      invariant forall i :: 0 <= i < |ts| ==> ts[i] in Elements(ts)
      invariant forall i, j :: 0 <= i < j < |ts| ==> ts[i] != ts[j]
      decreases |rest|
    {
      var t :| t in rest;
      rest := rest - {t};
      AddElement(ts, t);
      ts := ts + [t];
    }
  }

  /** The reload, as far as it has come. */
  function ReloadSome(w: World, ts: set<string>): World {
    w.(cache := map t | t in w.records && t in ts && Survives(w, w.records[t]) :: FromRecord(w.records[t]),
       records := map t | t in w.records
                    :: if t in ts && Vanished(w, w.records[t]) then MarkStopped(w.records[t]) else w.records[t])
  }

  lemma ReloadNone(w: World)
    requires w.cache == map[]
    ensures ReloadSome(w, {}) == w && ReloadSome(w, w.records.Keys) == Reload(w)
  {
    assert ReloadSome(w, {}).records == w.records;
    assert ReloadSome(w, w.records.Keys).records == Reload(w).records;
  }

  function ReloadOne(w: World, t: string): World {
    if !(t in w.records && Runs(w.records[t])) then w
    else if w.records[t].containerId in w.containers then w.(cache := w.cache[t := FromRecord(w.records[t])])
    else w.(records := w.records[t := MarkStopped(w.records[t])])
  }

  lemma ReloadOneMore(w: World, ts: set<string>, t: string)
    ensures ReloadSome(w, ts + {t}) == ReloadOne(ReloadSome(w, ts), t)
  {
    ReloadRecords(w, ts, t);
    ReloadCache(w, ts, t);
  }

  lemma ReloadRecords(w: World, ts: set<string>, t: string)
    ensures ReloadSome(w, ts + {t}).records == ReloadOne(ReloadSome(w, ts), t).records
  {
    var a, b := ReloadSome(w, ts + {t}).records, ReloadOne(ReloadSome(w, ts), t).records;
    forall s | s in w.records
      ensures a[s] == b[s]
    {
    }
    assert a.Keys == w.records.Keys == b.Keys;
  }

  lemma ReloadCache(w: World, ts: set<string>, t: string)
    ensures ReloadSome(w, ts + {t}).cache == ReloadOne(ReloadSome(w, ts), t).cache
  {
    var a, b := ReloadSome(w, ts + {t}).cache, ReloadOne(ReloadSome(w, ts), t).cache;
    forall s | s in a
      ensures s in b && a[s] == b[s]
    {
    }
    assert a == b;
  }

  class DockerManager {
    var tenants: map<string, Cached>
    var records: map<string, Record>
    var files: map<string, Config>
    var containers: map<string, Container>
    const env: GatewayEnv
    ghost var used: set<string>
    ghost var asked: map<string, Config>
    ghost const envs: set<GatewayEnv>

    /** A gateway process that has just started, over what the last one left behind; `ReloadRunning` comes next. */
    constructor (records: map<string, Record>, files: map<string, Config>, containers: map<string, Container>,
                 env: GatewayEnv, ghost used: set<string>, ghost asked: map<string, Config>,
                 ghost envs: set<GatewayEnv>)
      ensures View() == World(map[], records, files, containers, env, used, asked, envs + {env})
    {
      tenants, this.records, this.files, this.containers, this.env := map[], records, files, containers, env;
      this.used, this.asked, this.envs := used, asked, envs + {env};
    }

    ghost function View(): World
      reads this
    {
      World(tenants, records, files, containers, env, used, asked, envs)
    }

    /** The configuration to save: from the file, else from the record that was loaded, else from Redis. */
    method ConfigToSave(t: string, dir: string, loaded: Option<Record>) returns (config: Config)
      requires loaded.Some? ==> t in records && records[t] == loaded.value
      ensures config == Kept(View(), t, dir)
    {
      config := map[];
      if dir != "" && dir in files {
        config := files[dir];
      }
      if config == map[] && loaded.Some? {
        config := loaded.value.config;
      }
      if config == map[] && t in records {
        config := records[t].config;
      }
    }

    /** `stop_tenant`: the state is saved before the container is removed; a removal that fails is only logged. */
    method StopTenant(t: string, stuck: set<string>)
      modifies this
      ensures View() == StopAll(old(View()), {t}, stuck)
    {
      StopOne(View(), t, stuck);
      var tc: Option<Cached>, loaded: Option<Record> := None, None;
      if t in tenants {
        tc := Some(tenants[t]);
        tenants := tenants - {t};
      } else {
        if !(t in records && Runs(records[t])) {
          return;
        }
        loaded := Some(records[t]);
        tc := Some(FromRecord(records[t]));
      }
      var c := tc.value;
      var config := ConfigToSave(t, c.configDir, loaded);
      records := records[t := Record("", c.port, c.configDir, config, c.lastActivity, false)];
      if c.containerId !in stuck {
        containers := containers - {c.containerId};
      }
    }

    /** `write_config`. */
    method WriteConfig(t: string, c: Config, writes: bool) returns (r: Option<(Config, Mount)>)
      modifies this`files
      ensures r == if Writable(c) && writes then Some((Normalized(c), MountOf(c))) else None
      ensures View() == if r.Some? then Written(old(View()), t, c) else old(View())
    {
      r := EditConfig(c);
      if r.Some? && writes {
        files := files[DirOf(t) := r.value.0];
      } else {
        r := None;
      }
    }

    /** The last part of `provision_tenant`: building the environment and starting the container. */
    method StartContainer(t: string, n: Config, mount: Mount, luck: Luck, now: real)
        returns (tc: Option<Cached>)
      requires "gateway" in n && n["gateway"].Obj?
      modifies this
      ensures tc == if Startable(n) && luck.starts then Some(Cached(luck.id, luck.port, DirOf(t), now)) else None
      ensures View() == if tc.Some? then StartedWith(old(View()), t, n, mount, luck, now) else old(View())
    {
      var injected := InjectEnv(t, n, env);
      if injected.None? || !luck.starts {
        return None;
      }
      var e, data := injected.value.0, injected.value.1;
      containers := containers[luck.id := Container(t, e, mount)];
      tc := Some(Cached(luck.id, luck.port, DirOf(t), now));
      tenants := tenants[t := tc.value];
      records := records[t := Record(luck.id, luck.port, DirOf(t), data, now, true)];
      used := used + {luck.id};
    }

    /** `provision_tenant`; None stands for an exception. */
    method ProvisionTenant(t: string, c: Config, luck: Luck, now: real) returns (tc: Option<Cached>)
      modifies this
      ensures View() == Provision(old(View()), t, c, luck, now)
      ensures tc == if Returns(c, luck) then Some(Cached(luck.id, luck.port, DirOf(t), now)) else None
    {
      StopTenant(t, luck.stuck);
      var written := WriteConfig(t, c, luck.writes);
      if written.None? || !luck.image || !luck.clears {
        return None;
      }
      var n := written.value.0;
      containers := Others(containers, t);
      tc := StartContainer(t, n, written.value.1, luck, now);
      if HasTrue(Under(n, "gateway"), "setupCommands") && !luck.setup {
        tc := None;
      }
    }

    /** `get_tenant`. */
    method GetTenant(t: string, now: real) returns (tc: Option<Cached>)
      modifies this
      ensures View() == Get(old(View()), t, now).world && tc == Get(old(View()), t, now).tenant
    {
      if t in tenants {
        tenants := tenants[t := tenants[t].(lastActivity := now)];
        return Some(tenants[t]);
      }
      if !(t in records && Runs(records[t])) {
        return None;
      }
      var state := records[t];
      if state.containerId !in containers {
        records := records[t := state.(running := false, containerId := "")];
        return None;
      }
      tenants := tenants[t := FromRecord(state)];
      return Some(tenants[t]);
    }

    /** `touch`. */
    method Touch(t: string, now: real)
      modifies this
      ensures View() == Tenants.Touch(old(View()), t, now)
    {
      if t in tenants {
        tenants := tenants[t := tenants[t].(lastActivity := now)];
        if t in records && records[t].running {
          records := records[t := records[t].(lastActivity := now)];
        }
      }
    }

    /** Stopping the tenants of a list one after the other. */
    method StopEach(ts: seq<string>, stuck: set<string>)
      modifies this
      ensures View() == StopAll(old(View()), Elements(ts), stuck)
    {
      ghost var w := View();
      StopNone(w, stuck);
      for i := 0 to |ts|
        invariant View() == StopAll(w, Elements(ts[..i]), stuck)
      {
        StopTenant(ts[i], stuck);
        StopOneMore(w, Elements(ts[..i]), ts[i], stuck);
        OneMoreElement(ts, i);
      }
      assert ts[..|ts|] == ts;
    }

    /** One tick of the prune loop. */
    method PruneTick(now: real, stuck: set<string>)
      modifies this
      ensures View() == StopAll(old(View()), IdleTenants(old(View()), now), stuck)
    {
      var keys := Listed(records.Keys);
      var idle: seq<string> := [];
      for i := 0 to |keys|
        invariant forall t :: t in idle <==> t in keys[..i] && t in records && Idle(records[t], now)
      {
        assert keys[..i + 1] == keys[..i] + [keys[i]] && keys[i] in Elements(keys);
        if records[keys[i]].running && now - records[keys[i]].lastActivity > IDLE_TIMEOUT {
          idle := idle + [keys[i]];
        }
      }
      assert keys[..|keys|] == keys;
      assert Elements(idle) == IdleTenants(View(), now) by {
        assert forall t :: t in records ==> t in Elements(keys);
      }
      StopEach(idle, stuck);
    }

    /** One record of the reload. */
    method RestoreTenant(t: string)
      modifies this`tenants, this`records
      ensures View() == ReloadOne(old(View()), t)
    {
      if t in records && Runs(records[t]) {
        if records[t].containerId in containers {
          tenants := tenants[t := FromRecord(records[t])];
        } else {
          records := records[t := records[t].(running := false, containerId := "")];
        }
      }
    }

    /** `_reload_running_from_redis`, before which the cache is empty. */
    method ReloadRunning()
      requires tenants == map[]
      modifies this`tenants, this`records
      ensures View() == Reload(old(View()))
    {
      ghost var w := View();
      var keys := Listed(records.Keys);
      ReloadNone(w);
      for i := 0 to |keys|
        invariant View() == ReloadSome(w, Elements(keys[..i]))
      {
        RestoreTenant(keys[i]);
        ReloadOneMore(w, Elements(keys[..i]), keys[i]);
        OneMoreElement(keys, i);
      }
      assert keys[..|keys|] == keys;
    }

    /** `shutdown_all`. */
    method ShutdownAll(stuck: set<string>)
      modifies this
      ensures View() == StopAll(old(View()), old(View()).cache.Keys, stuck)
    {
      var all := Listed(tenants.Keys);
      StopEach(all, stuck);
    }
  }

  lemma DemandAsked(w: World, t: string, luck: Luck, now: real)
    ensures Tenants.GetOrCreate(w, t, luck, now).asked == w.asked
  {
    GetHistory(w, t, now);
    var f := Get(w, t, now).world;
    ProvisionHistory(f, t, Saved(f, t), luck, now);
  }

  /** The registry, through which the gateway's routes reach the manager. */
  class AgentRegistry {
    const manager: DockerManager

    constructor (manager: DockerManager)
      ensures this.manager == manager
    {
      this.manager := manager;
    }

    /** An explicit provisioning. */
    method ProvisionTenant(t: string, c: Config, luck: Luck, now: real) returns (tc: Option<Cached>)
      modifies manager
      ensures manager.View() == Next(old(manager.View()), Configure(t, c, luck, now))
      ensures tc.Some? <==> Returns(c, luck)
    {
      tc := manager.ProvisionTenant(t, c, luck, now);
      if Provisions(c, luck) {
        manager.asked := manager.asked[t := c];
      }
    }

    /** `get_or_create`: the running container, else a new one from the saved configuration or from none. */
    method GetOrCreate(t: string, luck: Luck, now: real) returns (tc: Option<Cached>)
      modifies manager
      ensures manager.View() == Next(old(manager.View()), Demand(t, luck, now))
      ensures tc.Some? ==> t in manager.tenants && tc.value == manager.tenants[t]
      ensures t in old(manager.tenants) ==> tc.Some? && tc.value.containerId == old(manager.tenants[t].containerId)
    {
      ghost var w := manager.View();
      tc := manager.GetTenant(t, now);
      if tc.None? {
        var config := if t in manager.records then manager.records[t].config else map[];
        tc := manager.ProvisionTenant(t, config, luck, now);
      }
      assert manager.View() == Tenants.GetOrCreate(w, t, luck, now);
      DemandAsked(w, t, luck, now);
      if t !in manager.asked {
        manager.asked := manager.asked[t := map[]];
      }
    }
  }
}
