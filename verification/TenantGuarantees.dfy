/** What clients of the tenant manager can rely on, over every run of the gateway. */
module TenantGuarantees {
  import opened Prelude
  import opened TenantConfig
  import opened Tenants
  import opened TenantRuns
  import ConfigPaths
  import Naming

  // ---- Cache, records and containers agree ----

  /** The cache is exactly the set of tenants recorded as running, with the recorded container and port; a record runs
      exactly when it names a container. */
  lemma CacheAgrees(g: GatewayEnv, trace: seq<Action>, w: World, t: string)
    requires Reached(g, trace, w)
    ensures t in w.cache <==> t in w.records && w.records[t].running
    ensures t in w.records ==>
            (w.records[t].running <==> w.records[t].containerId != "") && w.records[t].configDir == DirOf(t)
    ensures t in w.cache ==>
              && w.cache[t].containerId == w.records[t].containerId && w.cache[t].port == w.records[t].port
              && w.cache[t].configDir == w.records[t].configDir
  {
    ReachedInv(g, trace, w);
    assert TenantOk(w, t);
  }

  /** A cache hit answers what the path through Redis and Docker would answer, exactly as long as the container
      exists. */
  lemma HitAnswersLikeMiss(g: GatewayEnv, trace: seq<Action>, w: World, t: string, now: real)
    requires Reached(g, trace, w) && t in w.cache
    ensures var hit, miss := Get(w, t, now).tenant, Get(w.(cache := w.cache - {t}), t, now).tenant;
            && hit.Some?
            && (miss.Some? <==> w.cache[t].containerId in w.containers)
            && (miss.Some? ==> miss.value.(lastActivity := now) == hit.value)
  {
    ReachedInv(g, trace, w);
    assert TenantOk(w, t);
  }

  predicate LiveTenant(w: World, t: string) {
    t in w.records && w.records[t].running ==>
      w.records[t].containerId in w.containers && w.containers[w.records[t].containerId].tenant == t
  }

  ghost predicate Live(w: World) {
    forall t :: LiveTenant(w, t)
  }

  /** While no container vanishes, every tenant recorded as running has its own live container. */
  lemma {:induction false} RecordedContainersLive(g: GatewayEnv, trace: seq<Action>, w: World)
    requires Reached(g, trace, w) && forall i :: 0 <= i < |trace| ==> !trace[i].Vanish?
    ensures Live(w)
    decreases |trace|
  {
    if trace == [] {
    } else {
      var before := trace[..|trace| - 1];
      var b := Exec(Begin(g), before).value;
      assert forall i :: 0 <= i < |before| ==> before[i] == trace[i];
      RecordedContainersLive(g, before, b);
      ReachedInv(g, before, b);
      LiveStep(b, trace[|trace| - 1]);
    }
  }

  lemma StopLive(w: World, ts: set<string>, stuck: set<string>)
    requires Inv(w) && Live(w)
    ensures Live(StopAll(w, ts, stuck))
  {
    var w' := StopAll(w, ts, stuck);
    forall t
      ensures LiveTenant(w', t)
    {
      StopLiveTenant(w, ts, stuck, t);
    }
  }

  lemma StopLiveTenant(w: World, ts: set<string>, stuck: set<string>, t: string)
    requires Inv(w) && Live(w)
    ensures LiveTenant(StopAll(w, ts, stuck), t)
  {
    assert LiveTenant(w, t) && TenantOk(w, t);
    if t in w.records && w.records[t].running && t !in ts {
      var id := w.records[t].containerId;
      forall s | s in ts && Source(w, s).Some?
        ensures Source(w, s).value.containerId != id
      {
        assert LiveTenant(w, s) && TenantOk(w, s);
      }
    }
  }

  lemma ProvisionLive(w: World, t: string, c: Config, luck: Luck, now: real)
    requires Inv(w) && Live(w) && luck.id !in w.used
    ensures Live(Provision(w, t, c, luck, now))
  {
    var stopped, w' := StopAll(w, {t}, luck.stuck), Provision(w, t, c, luck, now);
    StopLive(w, {t}, luck.stuck);
    StopKeeps(w, {t}, luck.stuck);
    assert TenantOk(w, t);
    StoppedIsAtRest(w, luck.stuck, t);
    forall s
      ensures LiveTenant(w', s)
    {
      assert LiveTenant(stopped, s) && TenantOk(stopped, s);
    }
  }

  lemma GetLive(w: World, t: string, now: real)
    requires Inv(w) && Live(w)
    ensures Live(Get(w, t, now).world)
  {
    var w' := Get(w, t, now).world;
    forall s
      ensures LiveTenant(w', s)
    {
      assert LiveTenant(w, s);
    }
  }

  lemma OtherLive(w: World, w': World)
    requires Live(w) && w'.containers == w.containers && w'.records.Keys == w.records.Keys
    requires forall t :: t in w'.records && w'.records[t].running ==>
             w.records[t].running && w'.records[t].containerId == w.records[t].containerId
    ensures Live(w')
  {
    forall s
      ensures LiveTenant(w', s)
    {
      assert LiveTenant(w, s);
    }
  }

  lemma LiveStep(w: World, x: Action)
    requires Inv(w) && Live(w) && Enabled(w, x) && !x.Vanish?
    ensures Live(Next(w, x))
  {
    match x
    case Configure(t, c, luck, now) =>
      ProvisionLive(w, t, c, luck, now);
      OtherLive(Provision(w, t, c, luck, now), Next(w, x));
    case Demand(t, luck, now) =>
      GetKeeps(w, t, now);
      GetLive(w, t, now);
      var f := Get(w, t, now);
      if f.tenant.None? {
        ProvisionLive(f.world, t, Saved(f.world, t), luck, now);
      }
      OtherLive(GetOrCreate(w, t, luck, now), Next(w, x));
    case Look(t, now) => GetLive(w, t, now);
    case Stop(t, stuck) => StopLive(w, {t}, stuck);
    case Prune(now, stuck) => StopLive(w, IdleTenants(w, now), stuck);
    case Shutdown(stuck) => StopLive(w, w.cache.Keys, stuck);
    case _ => OtherLive(w, Next(w, x));
  }

  // ---- One container per tenant ----

  ghost predicate Single(containers: map<string, Container>) {
    forall a, b :: a in containers && b in containers && containers[a].tenant == containers[b].tenant ==> a == b
  }

  lemma FewerStaySingle(before: map<string, Container>, after: map<string, Container>)
    requires Single(before) && forall id :: id in after ==> id in before && after[id] == before[id]
    ensures Single(after)
  {
  }

  lemma ProvisionSingle(w: World, t: string, c: Config, luck: Luck, now: real)
    requires Single(w.containers)
    ensures Single(Provision(w, t, c, luck, now).containers)
  {
    var stopped := StopAll(w, {t}, luck.stuck);
    FewerStaySingle(w.containers, stopped.containers);
    FewerStaySingle(stopped.containers, Others(stopped.containers, t));
  }

  lemma SingleStep(w: World, x: Action)
    requires Single(w.containers)
    ensures Single(Next(w, x).containers)
  {
    match x
    case Configure(t, c, luck, now) => ProvisionSingle(w, t, c, luck, now);
    case Demand(t, luck, now) =>
      var f := Get(w, t, now);
      if f.tenant.None? {
        ProvisionSingle(f.world, t, Saved(f.world, t), luck, now);
      }
    case _ => FewerStaySingle(w.containers, Next(w, x).containers);
  }

  /** No tenant ever has two containers, even when one could not be removed. */
  lemma {:induction false} OneContainerPerTenant(g: GatewayEnv, trace: seq<Action>, w: World)
    requires Reached(g, trace, w)
    ensures Single(w.containers)
    decreases |trace|
  {
    if trace == [] {
    } else {
      var b := Exec(Begin(g), trace[..|trace| - 1]).value;
      OneContainerPerTenant(g, trace[..|trace| - 1], b);
      SingleStep(b, trace[|trace| - 1]);
    }
  }

  // ---- The configuration survives ----

  predicate Fortunate(luck: Luck) {
    luck.writes && luck.image && luck.clears && luck.starts
  }

  /** A successful explicit provisioning of the tenant. */
  predicate Reconfigures(x: Action, t: string) {
    x.Configure? && x.tenant == t && Provisions(x.config, x.luck)
  }

  lemma {:induction false} LastConfigureIsAsked(g: GatewayEnv, trace: seq<Action>, w: World, i: nat)
    requires Reached(g, trace, w) && i < |trace| && trace[i].Configure? && Reconfigures(trace[i], trace[i].tenant)
    requires forall j :: i < j < |trace| ==> !Reconfigures(trace[j], trace[i].tenant)
    ensures trace[i].tenant in w.asked && w.asked[trace[i].tenant] == trace[i].config
    decreases |trace|
  {
    var before := trace[..|trace| - 1];
    if i < |before| {
      assert before[i] == trace[i];
      LastConfigureIsAsked(g, before, Exec(Begin(g), before).value, i);
      AskedOnlyByConfigure(Exec(Begin(g), before).value, trace[|trace| - 1], trace[i].tenant);
    }
  }

  lemma AskedOnlyByConfigure(w: World, x: Action, t: string)
    requires t in w.asked && !Reconfigures(x, t)
    ensures t in Next(w, x).asked && Next(w, x).asked[t] == w.asked[t]
  {
    match x
    case Configure(s, c, luck, now) => ProvisionHistory(w, s, c, luck, now);
    case Demand(s, luck, now) =>
    case _ =>
  }

  /** A live container runs with the environment of the configuration its tenant was last given, however often it was
      stopped and resumed since, as a bus and a key of gateway processes so far make it; record and `config.json` hold
      that configuration up to environment keys injected from those. */
  lemma ContainersRunWhatWasAsked(g: GatewayEnv, trace: seq<Action>, w: World, t: string)
    requires Reached(g, trace, w) && t in w.cache && w.cache[t].containerId in w.containers
    ensures t in w.asked && w.containers[w.cache[t].containerId].tenant == t
    ensures EnvAged(t, w.containers[w.cache[t].containerId].env, w.asked[t], w.envs)
    ensures t in w.records && Aged(t, w.records[t].config, w.asked[t], w.envs)
    ensures DirOf(t) in w.files ==> Aged(t, w.files[DirOf(t)], w.asked[t], w.envs)
  {
    ReachedInv(g, trace, w);
    assert TenantOk(w, t);
  }

  lemma DemandResumes(w: World, t: string, luck: Luck, now: real)
    requires Inv(w) && t !in w.cache && t in w.records && Fortunate(luck)
    ensures GetOrCreate(w, t, luck, now) == Provision(w, t, w.records[t].config, luck, now)
    ensures Provisions(w.records[t].config, luck)
  {
    assert TenantOk(w, t);
    AgedStart(t, w.records[t].config, w.asked[t], w.env, w.envs);
  }

  lemma ProvisionStarts(w: World, t: string, c: Config, luck: Luck, now: real)
    requires Provisions(c, luck)
    ensures var w' := Provision(w, t, c, luck, now);
            && t in w'.cache && t in w'.records && w'.cache[t].containerId == w'.records[t].containerId == luck.id
            && luck.id in w'.containers
            && w'.containers[luck.id] == Container(t, ContainerEnv(t, Normalized(c), w.env), MountOf(c))
            && w'.records[t].running && w'.records[t].config == Injected(t, Normalized(c), w.env)
            && DirOf(t) in w'.files && w'.files[DirOf(t)] == Normalized(c)
            && w'.env == w.env && w'.envs == w.envs
  {
  }

  /** A tenant as it should be after a start with configuration `c`: `config.json` holds it up to injected environment
      keys, and record and container come from that file and the environment of the gateway. */
  ghost predicate RunsAs(w: World, t: string, id: string, c: Config) {
    && t in w.cache && w.cache[t].containerId == id && id in w.containers && DirOf(t) in w.files
    && t in w.records && w.records[t].running
    && var file, k := w.files[DirOf(t)], w.containers[id];
       && Aged(t, file, c, w.envs)
       && k == Container(t, ContainerEnv(t, file, w.env), TenantWorkspace) && EnvAged(t, k.env, c, w.envs)
       && w.records[t].config == Injected(t, file, w.env) && Aged(t, w.records[t].config, c, w.envs)
  }

  lemma ResumeStarts(w: World, t: string, luck: Luck, now: real)
    requires Inv(w) && t !in w.cache && t in w.records && Fortunate(luck)
    ensures t in w.asked && RunsAs(GetOrCreate(w, t, luck, now), t, luck.id, w.asked[t])
    ensures GetOrCreate(w, t, luck, now).env == w.env && GetOrCreate(w, t, luck, now).envs == w.envs
  {
    assert TenantOk(w, t);
    var x := w.records[t].config;
    DemandResumes(w, t, luck, now);
    ProvisionStarts(w, t, x, luck, now);
    AgedStart(t, x, w.asked[t], w.env, w.envs);
  }

  /** Whatever the configuration was saved from, resuming a stopped tenant cannot be refused because of it; container,
      `config.json` and record are again those of the configuration asked for, with the tenant's own workspace
      mounted. */
  lemma ResumeStartsWhatWasAsked(g: GatewayEnv, trace: seq<Action>, w: World, t: string, luck: Luck, now: real)
    requires Reached(g, trace, w) && t !in w.cache && t in w.records && Fortunate(luck)
    ensures t in w.asked && RunsAs(GetOrCreate(w, t, luck, now), t, luck.id, w.asked[t])
  {
    ReachedInv(g, trace, w);
    ResumeStarts(w, t, luck, now);
  }

  /** Config survives: after any stops, prunes, shutdowns, lost files, vanished containers and restarts of the gateway,
      under whatever environments, a demand brings the tenant back with the configuration last given to it. File and
      record hold it up to injected environment keys, and the container's environment is its own up to those. */
  lemma ConfigSurvives(g: GatewayEnv, trace: seq<Action>, w: World, i: nat, t: string, c: Config, first: Luck, at: real,
                       luck: Luck, now: real)
    requires Reached(g, trace, w) && i < |trace| && trace[i] == Configure(t, c, first, at) && Provisions(c, first)
    requires forall j :: i < j < |trace| ==> !Reconfigures(trace[j], t)
    requires t !in w.cache && Fortunate(luck)
    ensures var w' := GetOrCreate(w, t, luck, now);
            && RunsAs(w', t, luck.id, c)
            && UpTo(t, w'.files[DirOf(t)], c) && UpTo(t, w'.records[t].config, c)
            && EnvUpTo(t, CustomEnv(c), w'.containers[luck.id].env)
            && (!Aliased(c) ==> w'.containers[luck.id].env == ContainerEnv(t, c, w.env))
  {
    ConfigResumes(g, trace, w, i, t, c, first, at, luck, now);
    RunsUpTo(GetOrCreate(w, t, luck, now), t, luck.id, c);
  }

  lemma ConfigResumes(g: GatewayEnv, trace: seq<Action>, w: World, i: nat, t: string, c: Config, first: Luck, at: real,
                      luck: Luck, now: real)
    requires Reached(g, trace, w) && i < |trace| && trace[i] == Configure(t, c, first, at) && Provisions(c, first)
    requires forall j :: i < j < |trace| ==> !Reconfigures(trace[j], t)
    requires t !in w.cache && Fortunate(luck)
    ensures RunsAs(GetOrCreate(w, t, luck, now), t, luck.id, c)
    ensures GetOrCreate(w, t, luck, now).env == w.env && GetOrCreate(w, t, luck, now).envs == w.envs
  {
    LastConfigureIsAsked(g, trace, w, i);
    ReachedInv(g, trace, w);
    ConfiguredHasRecord(g, trace, w, i);
    ResumeStarts(w, t, luck, now);
  }

  lemma RunsUpTo(w: World, t: string, id: string, c: Config)
    requires RunsAs(w, t, id, c)
    ensures UpTo(t, w.files[DirOf(t)], c) && UpTo(t, w.records[t].config, c)
    ensures EnvUpTo(t, CustomEnv(c), w.containers[id].env)
    ensures !Aliased(c) ==> w.containers[id].env == ContainerEnv(t, c, w.env)
  {
    var file := w.files[DirOf(t)];
    AgedIsUpTo(t, file, c, w.envs);
    AgedIsUpTo(t, w.records[t].config, c, w.envs);
    EnvAgedIsUpTo(t, w.containers[id].env, c, w.envs);
    if !Aliased(c) {
      NormalizedParts(c);
      assert file == Normalized(c);
      NormalizedEnv(t, c, w.env);
    }
  }

  /** Every gateway process of a run has the environment of the first. */
  predicate Unchanging(g: GatewayEnv, trace: seq<Action>) {
    forall i :: 0 <= i < |trace| && trace[i].Restart? ==> trace[i].env == g
  }

  lemma {:induction false} UnchangingEnv(g: GatewayEnv, trace: seq<Action>, w: World)
    requires Reached(g, trace, w) && Unchanging(g, trace)
    ensures w.env == g && w.envs == {g}
    decreases |trace|
  {
    if trace == [] {
    } else {
      var before, x := trace[..|trace| - 1], trace[|trace| - 1];
      var b := Exec(Begin(g), before).value;
      UnchangingEnv(g, before, b);
      EnvOnlyByRestart(b, x);
    }
  }

  lemma EnvOnlyByRestart(w: World, x: Action)
    ensures var w' := Next(w, x);
            if x.Restart? then w'.env == x.env && w'.envs == w.envs + {x.env} else w'.env == w.env && w'.envs == w.envs
  {
    match x
    case Configure(t, c, luck, now) => ProvisionHistory(w, t, c, luck, now);
    case Demand(t, luck, now) =>
      GetHistory(w, t, now);
      var f := Get(w, t, now).world;
      ProvisionHistory(f, t, Saved(f, t), luck, now);
    case Look(t, now) => GetHistory(w, t, now);
    case _ =>
  }

  /** A tenant after a start with configuration `c` under one gateway environment: nothing is left open but whether
      `config.json` already has the injected keys. */
  predicate RunsExactly(w: World, t: string, id: string, c: Config, g: GatewayEnv) {
    && t in w.cache && w.cache[t].containerId == id
    && id in w.containers && w.containers[id] == Container(t, ContainerEnv(t, c, g), TenantWorkspace)
    && DirOf(t) in w.files && Version(t, w.files[DirOf(t)], c, g)
    && t in w.records && w.records[t].running && w.records[t].config == Injected(t, Normalized(c), g)
  }

  /** While restarts do not change the gateway's environment, the container's environment and the record come back
      exactly. */
  lemma ConfigSurvivesExactly(g: GatewayEnv, trace: seq<Action>, w: World, i: nat, t: string, c: Config, first: Luck,
                              at: real, luck: Luck, now: real)
    requires Reached(g, trace, w) && i < |trace| && trace[i] == Configure(t, c, first, at) && Provisions(c, first)
    requires forall j :: i < j < |trace| ==> !Reconfigures(trace[j], t)
    requires t !in w.cache && Fortunate(luck) && Unchanging(g, trace)
    ensures RunsExactly(GetOrCreate(w, t, luck, now), t, luck.id, c, g)
  {
    ConfigResumes(g, trace, w, i, t, c, first, at, luck, now);
    UnchangingEnv(g, trace, w);
    NormalizedEnv(t, c, g);
    RunsUnderOne(GetOrCreate(w, t, luck, now), t, luck.id, c, g);
  }

  lemma RunsUnderOne(w: World, t: string, id: string, c: Config, g: GatewayEnv)
    requires RunsAs(w, t, id, c) && w.env == g && w.envs == {g} && Sound(c)
    ensures RunsExactly(w, t, id, c, g)
  {
    var file := w.files[DirOf(t)];
    OneEnvironment(t, file, w.containers[id].env, c, g);
    VersionsRestartAlike(t, file, c, g);
    VersionsStartAlike(t, file, c, g);
  }

  lemma {:induction false} ConfiguredHasRecord(g: GatewayEnv, trace: seq<Action>, w: World, i: nat)
    requires Reached(g, trace, w) && i < |trace| && trace[i].Configure? && Reconfigures(trace[i], trace[i].tenant)
    ensures trace[i].tenant in w.records
    decreases |trace|
  {
    var before, x, t := trace[..|trace| - 1], trace[|trace| - 1], trace[i].tenant;
    var b := Exec(Begin(g), before).value;
    if i < |before| {
      assert before[i] == trace[i];
      ConfiguredHasRecord(g, before, b, i);
      RecordsStay(b, x, t);
    } else {
      ProvisionStarts(b, t, x.config, x.luck, x.now);
    }
  }

  /** What provisioning one tenant does to a record. */
  lemma ProvisionRecord(w: World, s: string, c: Config, luck: Luck, now: real, t: string)
    requires t in w.records
    ensures var p := Provision(w, s, c, luck, now);
            && t in p.records
            && (p.records[t] == StopAll(w, {s}, luck.stuck).records[t]
               || (s == t && p.records[t].containerId == luck.id))
  {
  }

  lemma GetRecord(w: World, s: string, now: real, t: string)
    requires t in w.records
    ensures var w' := Get(w, s, now).world;
            t in w'.records && (w'.records[t] == w.records[t] || w'.records[t] == MarkStopped(w.records[t]))
                && w'.used == w.used
  {
  }

  lemma DemandRecord(w: World, s: string, luck: Luck, now: real, t: string)
    requires t in w.records && luck.id !in w.used && w.records[t].containerId in w.used
    ensures var w' := GetOrCreate(w, s, luck, now);
            && t in w'.records
            && (w'.records[t].running && w'.records[t].containerId == w.records[t].containerId ==>
                  w'.records[t].lastActivity == w.records[t].lastActivity)
  {
    GetRecord(w, s, now, t);
    var f := Get(w, s, now);
    if f.tenant.None? {
      ProvisionRecord(f.world, s, Saved(f.world, s), luck, now, t);
    }
  }

  lemma RecordsStay(w: World, x: Action, t: string)
    requires t in w.records
    ensures t in Next(w, x).records
  {
    match x
    case Configure(s, c, luck, now) => ProvisionRecord(w, s, c, luck, now, t);
    case Demand(s, luck, now) =>
      GetRecord(w, s, now, t);
      var f := Get(w, s, now);
      if f.tenant.None? {
        ProvisionRecord(f.world, s, Saved(f.world, s), luck, now, t);
      }
    case Look(s, now) => GetRecord(w, s, now, t);
    case _ =>
  }

  lemma VersionsRestartAlike(t: string, x: Config, c: Config, g: GatewayEnv)
    requires Sound(c) && Version(t, x, c, g)
    ensures ContainerEnv(t, Normalized(x), g) == ContainerEnv(t, c, g)
    ensures Injected(t, Normalized(x), g) == Injected(t, Normalized(c), g)
    ensures MountOf(x) == TenantWorkspace
  {
    VersionsStartAlike(t, x, c, g);
    NormalizedEnv(t, c, g);
    InjectingSettles(t, Normalized(c), g);
  }

  lemma InjectedOver(t: string, c: Config, g: GatewayEnv, h: GatewayEnv)
    requires Aliased(c)
    ensures Injected(t, Injected(t, c, g), h) ==
            c["gateway" := Obj(Under(c, "gateway")["env" := Obj(ContainerEnv(t, Injected(t, c, g), h))])]
  {
    var e, e' := ContainerEnv(t, c, g), ContainerEnv(t, Injected(t, c, g), h);
    InjectedParts(t, c, g);
    assert Under(c, "gateway")["env" := Obj(e)]["env" := Obj(e')] == Under(c, "gateway")["env" := Obj(e')];
  }

  /** Records agree exactly when environments do. */
  lemma InjectedSame(t: string, c: Config, g: GatewayEnv, h: GatewayEnv)
    ensures Injected(t, c, h) == Injected(t, Injected(t, c, g), h) <==>
            ContainerEnv(t, c, h) == ContainerEnv(t, Injected(t, c, g), h)
  {
    if Aliased(c) {
      InjectedParts(t, c, g);
      InjectedParts(t, c, h);
      InjectedParts(t, Injected(t, c, g), h);
      InjectedOver(t, c, g, h);
    }
  }

  /** Restarting from one configuration or the other gives the same container, or the same but for its environment and
      the record, as the last argument tells. */
  predicate RestartAlike(t: string, x: Config, y: Config, g: GatewayEnv, same: bool) {
    && MountOf(x) == MountOf(y)
    && (ContainerEnv(t, Normalized(x), g) == ContainerEnv(t, Normalized(y), g) <==> same)
    && (Injected(t, Normalized(x), g) == Injected(t, Normalized(y), g) <==> same)
  }

  lemma InjectedRestarts(t: string, x: Config, at: GatewayEnv, g: GatewayEnv)
    requires Sound(x) && Normalized(x) == x && MountOf(x) == TenantWorkspace
    ensures RestartAlike(t, x, Injected(t, x, at), g, InjectsAlike(x, at, g))
  {
    NewGatewayEnvironment(t, x, at, g);
    InjectedSame(t, x, at, g);
    InjectedStaysNormal(t, x, at);
  }

  lemma SavedOnStop(w: World, t: string, stuck: set<string>)
    requires TenantOk(w, t) && t in w.cache && w.env in w.envs
    ensures t in w.records
    ensures Saved(StopAll(w, {t}, stuck), t) == if DirOf(t) in w.files then w.files[DirOf(t)] else w.records[t].config
  {
    if DirOf(t) in w.files {
      AgedStart(t, w.files[DirOf(t)], w.asked[t], w.env, w.envs);
    }
  }

  lemma SavedBothWays(w: World, t: string, stuck: set<string>)
    requires Inv(w) && t in w.cache && DirOf(t) in w.files
    ensures t in w.records
    ensures Saved(StopAll(w, {t}, stuck), t) == w.files[DirOf(t)]
    ensures Saved(StopAll(w.(files := map[]), {t}, stuck), t) == w.records[t].config
  {
    assert TenantOk(w, t);
    SavedOnStop(w, t, stuck);
    assert TenantOk(w.(files := map[]), t);
    SavedOnStop(w.(files := map[]), t, stuck);
  }

  /** The environment of the gateway at a tenant's last start, as record and file show it. */
  predicate StartedUnder(w: World, t: string, at: GatewayEnv) {
    at in w.envs && t in w.records && DirOf(t) in w.files && w.records[t].config == Injected(t, w.files[DirOf(t)], at)
  }

  lemma LastStart(w: World, t: string) returns (at: GatewayEnv)
    requires Inv(w) && t in w.cache && DirOf(t) in w.files
    ensures StartedUnder(w, t, at)
    ensures RestartAlike(t, w.files[DirOf(t)], w.records[t].config, w.env, InjectsAlike(w.files[DirOf(t)], at, w.env))
  {
    assert TenantOk(w, t);
    var file := w.files[DirOf(t)];
    at :| at in w.envs && w.records[t].config == Injected(t, file, at);
    AgedStart(t, file, w.asked[t], w.env, w.envs);
    InjectedRestarts(t, file, at, w.env);
  }

  /** Whether the configuration is saved from `config.json` or from the Redis record makes no difference to a resumed
      container and its record exactly when nothing injected at the last start would now be injected differently; while
      the gateway's environment does not change, it never makes one. */
  lemma SavePathsAgree(g: GatewayEnv, trace: seq<Action>, w: World, t: string, stuck: set<string>)
    requires Reached(g, trace, w) && t in w.cache && DirOf(t) in w.files
    ensures var fromFile := Saved(StopAll(w, {t}, stuck), t);
            var fromRecord := Saved(StopAll(w.(files := map[]), {t}, stuck), t);
            && (exists at ::
                  && StartedUnder(w, t, at)
                  && RestartAlike(t, fromFile, fromRecord, w.env, InjectsAlike(w.files[DirOf(t)], at, w.env)))
            && (Unchanging(g, trace) ==> RestartAlike(t, fromFile, fromRecord, w.env, true))
  {
    ReachedInv(g, trace, w);
    SavedBothWays(w, t, stuck);
    var at := LastStart(w, t);
    if Unchanging(g, trace) {
      UnchangingEnv(g, trace, w);
    }
  }

  // ---- The workspace mount ----

  predicate Settled(w: World, t: string) {
    t in w.cache && w.cache[t].containerId in w.containers ==>
        w.containers[w.cache[t].containerId].mount == TenantWorkspace
  }

  lemma SettledProvision(w: World, s: string, c: Config, luck: Luck, now: real, t: string)
    requires TenantOk(w, t) && luck.id !in w.used && Settled(w, t)
    requires s == t && Provisions(c, luck) ==> MountOf(c) == TenantWorkspace
    ensures Settled(Provision(w, s, c, luck, now), t)
  {
  }

  lemma SettledGet(w: World, s: string, now: real, t: string)
    requires Inv(w) && Settled(w, t)
    ensures Settled(Get(w, s, now).world, t)
  {
    assert TenantOk(w, s);
  }

  lemma SavedMount(w: World, t: string)
    requires TenantOk(w, t) && w.env in w.envs
    ensures MountOf(Saved(w, t)) == TenantWorkspace
  {
    if t in w.records {
      AgedStart(t, w.records[t].config, w.asked[t], w.env, w.envs);
    }
  }

  lemma SettledDemand(w: World, s: string, luck: Luck, now: real, t: string)
    requires Inv(w) && Settled(w, t) && luck.id !in w.used
    ensures Settled(GetOrCreate(w, s, luck, now), t)
  {
    var f := Get(w, s, now);
    GetKeeps(w, s, now);
    SettledGet(w, s, now, t);
    if f.tenant.None? {
      assert TenantOk(f.world, s) && TenantOk(f.world, t);
      SavedMount(f.world, s);
      SettledProvision(f.world, s, Saved(f.world, s), luck, now, t);
    }
  }

  lemma SettledStep(w: World, x: Action, t: string)
    requires Inv(w) && Enabled(w, x) && Settled(w, t) && !Reconfigures(x, t)
    ensures Settled(Next(w, x), t)
  {
    assert TenantOk(w, t);
    match x
    case Configure(s, c, luck, now) => SettledProvision(w, s, c, luck, now, t);
    case Demand(s, luck, now) => SettledDemand(w, s, luck, now, t);
    case Look(s, now) => SettledGet(w, s, now, t);
    case _ =>
  }

  /** Once a tenant's own workspace is mounted, as every resume does, no later container of the tenant mounts anything
      else until it is configured anew. */
  lemma {:induction false} MountStays(w: World, more: seq<Action>, t: string)
    requires Inv(w) && Settled(w, t) && Exec(w, more).Some?
    requires forall i :: 0 <= i < |more| ==> !Reconfigures(more[i], t)
    ensures Settled(Exec(w, more).value, t)
    decreases |more|
  {
    if more == [] {
    } else {
      var before := more[..|more| - 1];
      assert forall i :: 0 <= i < |before| ==> before[i] == more[i];
      MountStays(w, before, t);
      ExecInv(w, before);
      SettledStep(Exec(w, before).value, more[|more| - 1], t);
    }
  }

  lemma StoppedHasRecord(w: World, t: string, stuck: set<string>)
    requires Inv(w) && t in w.cache
    ensures var s := StopAll(w, {t}, stuck); Inv(s) && t !in s.cache && t in s.records && s.asked == w.asked
  {
    StopKeeps(w, {t}, stuck);
    assert TenantOk(w, t);
    StoppedIsAtRest(w, stuck, t);
  }

  /** A host directory other than the tenant's own workspace was asked for. */
  predicate ElsewhereAsked(t: string, c: Config, resolve: string -> string) {
    var w := ConfigPaths.At(c, ["agents", "defaults", "workspace"]);
    && w.Some? && w.value.Str? && w.value.s != "" && !("/root/" <= Naming.Strip(w.value.s))
    && resolve(w.value.s) != resolve("/tmp/nanogate/tenants/" + t + "/workspace")
  }

  /** The first resume after an explicit provisioning changes the directory mounted exactly when a host directory other
      than the tenant's own workspace was asked for. */
  lemma FirstResumeChangesMount(g: GatewayEnv, trace: seq<Action>, w: World, t: string, stuck: set<string>, luck: Luck,
                                now: real, stopped: World, resumed: World, resolve: string -> string)
    requires Reached(g, trace, w) && t in w.cache && w.cache[t].containerId in w.containers
    requires t in w.asked && w.containers[w.cache[t].containerId].mount == MountOf(w.asked[t])
    requires Fortunate(luck) && stopped == StopAll(w, {t}, stuck) && resumed == GetOrCreate(stopped, t, luck, now)
    ensures t in resumed.cache && resumed.cache[t].containerId in resumed.containers
    ensures var before, after := w.containers[w.cache[t].containerId], resumed.containers[resumed.cache[t].containerId];
            Directory(after.mount, t, resolve) != Directory(before.mount, t, resolve)
            <==> ElsewhereAsked(t, w.asked[t], resolve)
  {
    ReachedInv(g, trace, w);
    StoppedHasRecord(w, t, stuck);
    ResumeStarts(stopped, t, luck, now);
    ConfigPaths.MountExactly(w.asked[t]);
  }

  // ---- Pruning, the idle clock and shutdown ----

  /** A prune tick stops exactly the tenants recorded as running and idle for more than half an hour: their records keep
      port, directory and a version of their configuration. Every other tenant keeps its record, cache entry and
      container. */
  lemma PruneStopsExactlyIdle(g: GatewayEnv, trace: seq<Action>, w: World, now: real, stuck: set<string>, t: string)
    requires Reached(g, trace, w) && t in w.records
    ensures var w', r := Next(w, Prune(now, stuck)), w.records[t];
            && t in w'.records && w'.files == w.files
            && if r.running && now - r.lastActivity > 1800.0 then
                 && t !in w'.cache && !w'.records[t].running && w'.records[t].containerId == ""
                 && w'.records[t].port == r.port && w'.records[t].configDir == r.configDir
                 && t in w.cache && w'.records[t].lastActivity == w.cache[t].lastActivity
                 && t in w.asked && Aged(t, w'.records[t].config, w.asked[t], w.envs)
                 && (r.containerId in w'.containers <==> r.containerId in w.containers && r.containerId in stuck)
               else
                 && w'.records[t] == r && (t in w'.cache <==> t in w.cache)
                    && (t in w.cache ==> w'.cache[t] == w.cache[t])
                 && (r.running && r.containerId in w.containers ==>
                       r.containerId in w'.containers && w'.containers[r.containerId] == w.containers[r.containerId])
  {
    ReachedInv(g, trace, w);
    assert TenantOk(w, t);
    var idle := IdleTenants(w, now);
    if t in idle {
      KeptVersion(w, t);
      assert Source(w, t).Some? && t in idle;
    } else {
      if w.records[t].running && w.records[t].containerId in w.containers {
        SparedContainer(w, idle, stuck, t);
      }
    }
  }

  lemma SparedContainer(w: World, ts: set<string>, stuck: set<string>, t: string)
    requires Inv(w) && t in w.records && w.records[t].containerId in w.containers && w.records[t].running && t !in ts
    ensures w.records[t].containerId !in Removed(w, ts, stuck)
  {
    assert TenantOk(w, t);
    forall s | s in ts && Source(w, s).Some?
      ensures Source(w, s).value.containerId != w.records[t].containerId
    {
      assert TenantOk(w, s);
    }
  }

  /** Only containers of idle tenants go. */
  lemma PruneRemovesOnlyIdle(g: GatewayEnv, trace: seq<Action>, w: World, now: real, stuck: set<string>, id: string)
    requires Reached(g, trace, w) && id in w.containers && id !in Next(w, Prune(now, stuck)).containers
    ensures w.containers[id].tenant in w.records && Idle(w.records[w.containers[id].tenant], now)
    ensures w.records[w.containers[id].tenant].containerId == id
  {
    ReachedInv(g, trace, w);
    var t :| t in IdleTenants(w, now) && Source(w, t).Some? && Source(w, t).value.containerId == id;
    assert TenantOk(w, t);
  }

  /** The idle clock of a container moves only when the gateway touches its tenant: looking a tenant up does not
      postpone its pruning. */
  lemma IdleClock(g: GatewayEnv, trace: seq<Action>, w: World, x: Action, t: string)
    requires Reached(g, trace, w) && Enabled(w, x) && t in w.records && w.records[t].running
    ensures var w' := Next(w, x);
            t in w'.records && (w'.records[t].running && w'.records[t].containerId == w.records[t].containerId ==>
              w'.records[t].lastActivity == if x.Touches? && x.tenant == t then x.now else w.records[t].lastActivity)
  {
    ReachedInv(g, trace, w);
    assert TenantOk(w, t);
    ClockStep(w, x, t);
  }

  lemma ClockStep(w: World, x: Action, t: string)
    requires Enabled(w, x) && TenantOk(w, t) && t in w.records && w.records[t].running
    ensures var w' := Next(w, x);
            t in w'.records && (w'.records[t].running && w'.records[t].containerId == w.records[t].containerId ==>
              w'.records[t].lastActivity == if x.Touches? && x.tenant == t then x.now else w.records[t].lastActivity)
  {
    match x
    case Configure(s, c, luck, now) => ProvisionRecord(w, s, c, luck, now, t);
    case Demand(s, luck, now) => DemandRecord(w, s, luck, now, t);
    case Look(s, now) => GetRecord(w, s, now, t);
    case _ =>
  }

  /** Shutting down stops every tenant, each with its configuration saved. */
  lemma ShutdownStopsEveryone(g: GatewayEnv, trace: seq<Action>, w: World, stuck: set<string>, t: string)
    requires Reached(g, trace, w)
    ensures var w' := Next(w, Shutdown(stuck));
            && w'.cache == map[] && (t in w'.records <==> t in w.records)
            && (t in w'.records ==>
                  && !w'.records[t].running && t in w.asked
                  && Aged(t, w'.records[t].config, w.asked[t], w.envs))
            && (t in w.records && w.records[t].running && w.records[t].containerId in w'.containers ==>
               w.records[t].containerId in stuck)
  {
    ReachedInv(g, trace, w);
    assert TenantOk(w, t);
    if t in w.cache {
      KeptVersion(w, t);
      assert Source(w, t).Some? && t in w.cache.Keys;
    }
  }
}
