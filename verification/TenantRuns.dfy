/** What every manager operation keeps, and what follows for whole runs of the gateway. */
module TenantRuns {
  import opened Prelude
  import opened TenantConfig
  import opened Tenants

  // ---- The invariant, tenant by tenant ----

  /** The cache holds exactly the tenants that run according to Redis, and agrees with their records. */
  predicate CacheOk(w: World, t: string) {
    && (t in w.cache <==> t in w.records && Runs(w.records[t]))
    && (t in w.cache ==>
      && w.cache[t].containerId == w.records[t].containerId && w.cache[t].port == w.records[t].port
      && w.cache[t].configDir == w.records[t].configDir)
  }

  /** A record as injection under some gateway process made it from the file. */
  ghost predicate InjectedInto(t: string, recorded: Config, file: Config, envs: set<GatewayEnv>) {
    exists g :: g in envs && recorded == Injected(t, file, g)
  }

  ghost predicate RecordOk(w: World, t: string, r: Record) {
    && (r.running <==> r.containerId != "")
    && r.configDir == DirOf(t)
    && t in w.asked && Sound(w.asked[t]) && Aged(t, r.config, w.asked[t], w.envs)
    && (r.running ==> r.containerId in w.used)
    && (r.running && DirOf(t) in w.files ==>
          && Aged(t, w.files[DirOf(t)], w.asked[t], w.envs)
          && InjectedInto(t, r.config, w.files[DirOf(t)], w.envs))
  }

  /** What a live container of the tenant was started with. */
  ghost predicate ContainerOk(w: World, t: string, r: Record) {
    r.running && t in w.asked && r.containerId in w.containers ==>
      var k := w.containers[r.containerId];
      k.tenant == t && EnvAged(t, k.env, w.asked[t], w.envs)
          && (k.mount == TenantWorkspace || k.mount == MountOf(w.asked[t]))
  }

  ghost predicate TenantOk(w: World, t: string) {
    && CacheOk(w, t)
    && (t in w.records ==> RecordOk(w, t, w.records[t]) && ContainerOk(w, t, w.records[t]))
    && (t !in w.records && t in w.asked ==> w.asked[t] == map[])
  }

  ghost predicate Inv(w: World) {
    w.containers.Keys <= w.used && w.env in w.envs && forall t :: TenantOk(w, t)
  }

  // ---- Stopping ----

  lemma KeptVersion(w: World, t: string)
    requires TenantOk(w, t) && Source(w, t).Some?
    ensures t in w.records && Runs(w.records[t]) && Source(w, t).value.containerId == w.records[t].containerId
    ensures Source(w, t).value.configDir == DirOf(t)
    ensures Aged(t, Kept(w, t, DirOf(t)), w.asked[t], w.envs)
  {
  }

  lemma StopKeepsTenant(w: World, ts: set<string>, stuck: set<string>, t: string)
    requires TenantOk(w, t)
    ensures TenantOk(StopAll(w, ts, stuck), t)
  {
    if Source(w, t).Some? {
      KeptVersion(w, t);
    }
  }

  lemma StopKeeps(w: World, ts: set<string>, stuck: set<string>)
    requires Inv(w)
    ensures Inv(StopAll(w, ts, stuck))
  {
    var w' := StopAll(w, ts, stuck);
    forall t
      ensures TenantOk(w', t)
    {
      StopKeepsTenant(w, ts, stuck, t);
    }
  }

  // ---- Provisioning ----

  predicate AtRest(w: World, t: string) {
    t !in w.cache && (t in w.records ==> !w.records[t].running)
  }

  lemma StoppedIsAtRest(w: World, stuck: set<string>, t: string)
    requires TenantOk(w, t)
    ensures var w' := StopAll(w, {t}, stuck);
            && AtRest(w', t) && (t in w'.records <==> t in w.records)
            && w'.asked == w.asked && w'.used == w.used && w'.env == w.env && w'.envs == w.envs
  {
  }

  lemma WriteKeeps(w: World, t: string, c: Config)
    requires Inv(w) && AtRest(w, t)
    ensures Inv(Written(w, t, c))
  {
    forall t'
      ensures TenantOk(Written(w, t, c), t')
    {
      assert TenantOk(w, t');
      TenantOfDir(t);
      TenantOfDir(t');
    }
  }

  lemma ClearKeeps(w: World, containers: map<string, Container>)
    requires Inv(w) && containers.Keys <= w.containers.Keys
    requires forall id :: id in containers ==> containers[id] == w.containers[id]
    ensures Inv(w.(containers := containers))
  {
    forall t
      ensures TenantOk(w.(containers := containers), t)
    {
      assert TenantOk(w, t);
    }
  }

  /** Starting from the configuration asked for, or from a saved version of it. */
  ghost predicate Begins(t: string, c: Config, c0: Config, envs: set<GatewayEnv>) {
    Sound(c0) && (c == c0 || Aged(t, c, c0, envs))
  }

  lemma BeginsAlike(t: string, c: Config, c0: Config, g: GatewayEnv, envs: set<GatewayEnv>)
    requires Begins(t, c, c0, envs) && g in envs
    ensures Sound(c) && Aged(t, Normalized(c), c0, envs) && Aged(t, Injected(t, Normalized(c), g), c0, envs)
    ensures EnvAged(t, ContainerEnv(t, Normalized(c), g), c0, envs)
    ensures MountOf(c) == TenantWorkspace || MountOf(c) == MountOf(c0)
    ensures Startable(Normalized(c))
  {
    if c == c0 {
      NormalizedEnv(t, c, g);
      MemberIsMixed(g, envs);
      assert Version(t, Normalized(c), c0, g);
    } else {
      AgedStart(t, c, c0, g, envs);
    }
  }

  lemma StartKeepsOthers(w: World, t: string, c: Config, c0: Config, luck: Luck, now: real, t': string)
    requires TenantOk(w, t') && luck.id !in w.used && t' != t
    ensures TenantOk(Started(w, t, c, luck, now).(asked := w.asked[t := c0]), t')
  {
  }

  lemma StartSetsUp(w: World, t: string, c: Config, c0: Config, luck: Luck, now: real)
    requires Begins(t, c, c0, w.envs) && w.env in w.envs && luck.id != ""
    requires DirOf(t) in w.files && w.files[DirOf(t)] == Normalized(c)
    ensures TenantOk(Started(w, t, c, luck, now).(asked := w.asked[t := c0]), t)
  {
    BeginsAlike(t, c, c0, w.env, w.envs);
  }

  lemma StartKeeps(w: World, t: string, c: Config, c0: Config, luck: Luck, now: real)
    requires Inv(w) && Begins(t, c, c0, w.envs)
    requires luck.id != "" && luck.id !in w.used
    requires DirOf(t) in w.files && w.files[DirOf(t)] == Normalized(c)
    ensures Inv(Started(w, t, c, luck, now).(asked := w.asked[t := c0]))
  {
    var w' := Started(w, t, c, luck, now).(asked := w.asked[t := c0]);
    forall t'
      ensures TenantOk(w', t')
    {
      assert TenantOk(w, t');
      if t' == t {
        StartSetsUp(w, t, c, c0, luck, now);
      } else {
        StartKeepsOthers(w, t, c, c0, luck, now, t');
      }
    }
  }

  /** Whatever happens on the way, provisioning keeps the invariant; if it succeeds, with the configuration it began
      from. */
  lemma ProvisionKeeps(w: World, t: string, c: Config, c0: Config, luck: Luck, now: real,
                       asked: map<string, Config>)
    requires Inv(w) && luck.id != "" && luck.id !in w.used
    requires Provisions(c, luck) ==> Begins(t, c, c0, w.envs)
    requires asked == if Provisions(c, luck) then w.asked[t := c0] else w.asked
    ensures Inv(Provision(w, t, c, luck, now).(asked := asked))
  {
    var stopped := StopAll(w, {t}, luck.stuck);
    StopKeeps(w, {t}, luck.stuck);
    StoppedIsAtRest(w, luck.stuck, t);
    if Writable(c) && luck.writes {
      var written := Written(stopped, t, c);
      WriteKeeps(stopped, t, c);
      if luck.image && luck.clears {
        ClearKeeps(written, Others(written.containers, t));
        if Provisions(c, luck) {
          StartKeeps(written.(containers := Others(written.containers, t)), t, c, c0, luck, now);
        }
      }
    }
  }

  // ---- The other operations ----

  lemma MissKeeps(w: World, t: string)
    requires Inv(w) && t !in w.cache
    ensures Inv(Miss(w, t).world)
  {
    var w' := Miss(w, t).world;
    forall t'
      ensures TenantOk(w', t')
    {
      assert TenantOk(w, t') && TenantOk(w, t);
    }
  }

  lemma HitKeeps(w: World, t: string, now: real)
    requires Inv(w) && t in w.cache
    ensures Inv(Get(w, t, now).world)
  {
    var w' := Get(w, t, now).world;
    forall t'
      ensures TenantOk(w', t')
    {
      assert TenantOk(w, t');
    }
  }

  lemma GetKeeps(w: World, t: string, now: real)
    requires Inv(w)
    ensures Inv(Get(w, t, now).world)
    ensures Get(w, t, now).world.asked == w.asked && Get(w, t, now).world.used == w.used
    ensures Get(w, t, now).world.env == w.env && Get(w, t, now).world.envs == w.envs
    ensures Get(w, t, now).world.records.Keys == w.records.Keys
  {
    if t in w.cache {
      HitKeeps(w, t, now);
    } else {
      MissKeeps(w, t);
    }
  }

  lemma TouchKeeps(w: World, t: string, now: real)
    requires Inv(w)
    ensures Inv(Touch(w, t, now))
  {
    var w' := Touch(w, t, now);
    forall t'
      ensures TenantOk(w', t')
    {
      assert TenantOk(w, t');
    }
  }

  /** What was left under earlier environments is still so once there is another. */
  lemma AnotherEnvironment(w: World, env: GatewayEnv)
    requires Inv(w)
    ensures Inv(w.(env := env, envs := w.envs + {env}))
  {
    var w' := w.(env := env, envs := w.envs + {env});
    forall t
      ensures TenantOk(w', t)
    {
      assert TenantOk(w, t);
      if t in w.records {
        OlderStays(w, t, w.records[t], w'.envs);
      }
    }
  }

  lemma OlderStays(w: World, t: string, r: Record, envs: set<GatewayEnv>)
    requires RecordOk(w, t, r) && ContainerOk(w, t, r) && w.envs <= envs
    ensures RecordOk(w.(envs := envs), t, r) && ContainerOk(w.(envs := envs), t, r)
  {
    AgedStays(t, r.config, w.asked[t], w.envs, envs);
    if DirOf(t) in w.files {
      AgedStays(t, w.files[DirOf(t)], w.asked[t], w.envs, envs);
    }
    if r.containerId in w.containers {
      EnvAgedStays(t, w.containers[r.containerId].env, w.asked[t], w.envs, envs);
    }
  }

  lemma ReloadKeeps(w: World)
    requires Inv(w)
    ensures Inv(Reload(w.(cache := map[])))
  {
    var w' := Reload(w.(cache := map[]));
    forall t
      ensures TenantOk(w', t)
    {
      assert TenantOk(w, t);
    }
  }

  lemma RestartKeeps(w: World, env: GatewayEnv)
    requires Inv(w)
    ensures Inv(Next(w, Restart(env)))
  {
    AnotherEnvironment(w, env);
    ReloadKeeps(w.(env := env, envs := w.envs + {env}));
  }

  lemma LoseFileKeeps(w: World, dir: string)
    requires Inv(w)
    ensures Inv(w.(files := w.files - {dir}))
  {
    var w' := w.(files := w.files - {dir});
    forall t
      ensures TenantOk(w', t)
    {
      assert TenantOk(w, t);
    }
  }

  /** What a demand resumes: the saved version of what was asked for, or the empty configuration. */
  function Wanted(w: World, t: string): Config {
    if t in w.asked then w.asked[t] else map[]
  }

  lemma SavedBegins(w: World, t: string)
    requires TenantOk(w, t)
    ensures Begins(t, Saved(w, t), Wanted(w, t), w.envs)
  {
    assert Sound(map[]);
  }

  lemma AskedAgain(w: World, asked: map<string, Config>, t: string)
    requires Inv(w) && asked == (if t in w.asked then w.asked else w.asked[t := map[]])
    ensures Inv(w.(asked := asked))
  {
    var w' := w.(asked := asked);
    forall t'
      ensures TenantOk(w', t')
    {
      assert TenantOk(w, t');
    }
  }

  function AskedAtLeast(w: World, t: string): map<string, Config> {
    if t in w.asked then w.asked else w.asked[t := map[]]
  }

  /** Provisioning from what is saved changes nothing about what was asked for. */
  lemma ResumeKeeps(w: World, t: string, luck: Luck, now: real)
    requires Inv(w) && luck.id != "" && luck.id !in w.used
    ensures Inv(Provision(w, t, Saved(w, t), luck, now).(asked := AskedAtLeast(w, t)))
  {
    var c, c0 := Saved(w, t), Wanted(w, t);
    var asked := if Provisions(c, luck) then w.asked[t := c0] else w.asked;
    assert TenantOk(w, t);
    SavedBegins(w, t);
    ProvisionKeeps(w, t, c, c0, luck, now, asked);
    var w' := Provision(w, t, c, luck, now).(asked := asked);
    AskedAgain(w', AskedAtLeast(w', t), t);
    assert t in w.asked ==> w.asked[t := c0] == w.asked;
  }

  lemma DemandKeeps(w: World, t: string, luck: Luck, now: real)
    requires Inv(w) && luck.id != "" && luck.id !in w.used
    ensures Inv(Next(w, Demand(t, luck, now)))
  {
    var f := Get(w, t, now);
    GetKeeps(w, t, now);
    assert AskedAtLeast(f.world, t) == AskedAtLeast(w, t);
    if f.tenant.None? {
      ResumeKeeps(f.world, t, luck, now);
    } else {
      AskedAgain(f.world, AskedAtLeast(w, t), t);
    }
  }

  lemma StepKeeps(w: World, x: Action)
    requires Inv(w) && Enabled(w, x)
    ensures Inv(Next(w, x))
  {
    match x
    case Configure(t, c, luck, now) =>
      if Provisions(c, luck) {
        NormalizedEnv(t, c, w.env);
      }
      ProvisionKeeps(w, t, c, c, luck, now, if Provisions(c, luck) then w.asked[t := c] else w.asked);
    case Demand(t, luck, now) => DemandKeeps(w, t, luck, now);
    case Look(t, now) => GetKeeps(w, t, now);
    case Touches(t, now) => TouchKeeps(w, t, now);
    case Stop(t, stuck) => StopKeeps(w, {t}, stuck);
    case Prune(now, stuck) => StopKeeps(w, IdleTenants(w, now), stuck);
    case Shutdown(stuck) => StopKeeps(w, w.cache.Keys, stuck);
    case Restart(env) => RestartKeeps(w, env);
    case Vanish(id) => ClearKeeps(w, w.containers - {id});
    case LoseFile(dir) => LoseFileKeeps(w, dir);
  }

  ghost predicate Reached(g: GatewayEnv, trace: seq<Action>, w: World) {
    Exec(Begin(g), trace) == Some(w)
  }

  lemma {:induction false} ExecInv(w: World, trace: seq<Action>)
    requires Inv(w) && Exec(w, trace).Some?
    ensures Inv(Exec(w, trace).value)
    decreases |trace|
  {
    if trace == [] {
    } else {
      var before := trace[..|trace| - 1];
      ExecInv(w, before);
      StepKeeps(Exec(w, before).value, Last(trace));
    }
  }

  lemma ReachedInv(g: GatewayEnv, trace: seq<Action>, w: World)
    requires Reached(g, trace, w)
    ensures Inv(w)
  {
    assert forall t :: TenantOk(Begin(g), t);
    ExecInv(Begin(g), trace);
  }
}
