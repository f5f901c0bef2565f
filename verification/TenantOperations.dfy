/** What the manager's operations do to a tenant, read off the stores: who is touched, what is saved, when the idle
    clock is set. */
module TenantOperations {
  import opened Prelude
  import opened TenantConfig
  import opened Tenants
  import opened TenantRuns
  import opened TenantGuarantees
  import ConfigPaths

  /** A record that says its tenant has a container. */
  predicate SaysRunning(w: World, t: string) {
    t in w.records && w.records[t].running && w.records[t].containerId != ""
  }

  predicate SameTenant(w: World, w': World, t: string) {
    && (t in w'.cache <==> t in w.cache) && (t in w.cache && t in w'.cache ==> w'.cache[t] == w.cache[t])
    && (t in w'.records <==> t in w.records) && (t in w.records && t in w'.records ==> w'.records[t] == w.records[t])
  }

  // ---- Stopping ----

  /** The configuration saved is the file's if it has one that is not empty, else the recorded one. */
  lemma SavedExactly(w: World, t: string, dir: string)
    ensures dir != "" && dir in w.files && |w.files[dir]| > 0 ==> Kept(w, t, dir) == w.files[dir]
    ensures !(dir != "" && dir in w.files && |w.files[dir]| > 0) && t in w.records ==>
              Kept(w, t, dir) == w.records[t].config
    ensures !(dir != "" && dir in w.files && |w.files[dir]| > 0) && t !in w.records ==> |Kept(w, t, dir)| == 0
  {
  }

  /** What is left of a tenant that was running: no container, and everything else as last known, from memory if it was
      cached. */
  predicate StoppedAs(r: Record, port: nat, dir: string, config: Config, activity: real) {
    && !r.running && r.containerId == "" && r.port == port && r.configDir == dir && r.config == config
    && r.lastActivity == activity
  }

  /** Stopping takes the named tenants out of the cache and marks the running ones stopped; nobody else is touched, nor
      any file. */
  lemma StopExactly(w: World, ts: set<string>, stuck: set<string>, t: string)
    ensures StopAll(w, ts, stuck).files == w.files && (t !in ts ==> SameTenant(w, StopAll(w, ts, stuck), t))
    ensures t in ts ==> t !in StopAll(w, ts, stuck).cache
    ensures t in ts && t in w.cache ==>
              var w', c := StopAll(w, ts, stuck), w.cache[t];
              t in w'.records
              && StoppedAs(w'.records[t], c.port, c.configDir, Kept(w, t, c.configDir), c.lastActivity)
    ensures t in ts && t !in w.cache && SaysRunning(w, t) ==>
              var w', r := StopAll(w, ts, stuck), w.records[t];
              t in w'.records
              && StoppedAs(w'.records[t], r.port, r.configDir, Kept(w, t, r.configDir), r.lastActivity)
    ensures t in ts && t !in w.cache && !SaysRunning(w, t) ==>
              var w' := StopAll(w, ts, stuck);
              (t in w'.records <==> t in w.records) && (t in w.records ==> w'.records[t] == w.records[t])
  {
  }

  /** A container goes exactly if one of these tenants has it and Docker lets go of it. */
  lemma StopRemovesExactly(w: World, ts: set<string>, stuck: set<string>, id: string)
    requires id in w.containers
    ensures var w' := StopAll(w, ts, stuck);
            && (id in w'.containers ==> w'.containers[id] == w.containers[id])
            && (id !in w'.containers <==>
                id !in stuck && exists t :: t in ts && if t in w.cache then w.cache[t].containerId == id
                                                       else SaysRunning(w, t) && w.records[t].containerId == id)
  {
    if t :| t in ts && Source(w, t).Some? && Source(w, t).value.containerId == id {
      assert id !in stuck ==> id in Removed(w, ts, stuck);
    }
  }

  // ---- Provisioning ----

  /** Everything that has to go well for a container to start. */
  predicate GoesWell(c: Config, luck: Luck) {
    Writable(c) && Startable(c) && luck.writes && luck.image && luck.clears && luck.starts
  }

  lemma ProvisionsExactly(c: Config, luck: Luck)
    ensures Provisions(c, luck) <==> GoesWell(c, luck)
    ensures var setup := ConfigPaths.At(c, ["gateway", "setupCommands"]);
            Returns(c, luck) <==> GoesWell(c, luck) && (setup.Some? && IsTrue(setup.value) ==> luck.setup)
  {
    NormalizedEnv("", c, GatewayEnv(None, None));
    ConfigPaths.AtTwo(c, "gateway", "setupCommands");
  }

  /** A tenant that has just been started: the idle clock is set, in memory and in Redis. */
  lemma StartExactly(w: World, t: string, c: Config, luck: Luck, now: real)
    requires GoesWell(c, luck)
    ensures var w', dir := Provision(w, t, c, luck, now), "/tmp/nanogate/tenants/" + t;
            && t in w'.cache && w'.cache[t] == Cached(luck.id, luck.port, dir, now)
            && t in w'.records
            && w'.records[t] == Record(luck.id, luck.port, dir, Injected(t, Normalized(c), w.env), now, true)
            && dir in w'.files && w'.files[dir] == Normalized(c)
            && luck.id in w'.containers
            && w'.containers[luck.id] == Container(t, ContainerEnv(t, c, w.env), MountOf(c))
            && forall id :: id in w'.containers && w'.containers[id].tenant == t ==> id == luck.id
  {
    ProvisionsExactly(c, luck);
    NormalizedEnv(t, c, w.env);
    NormalizedEnv(t, Normalized(c), w.env);
  }

  /** If anything goes wrong the tenant ends up stopped, as by stopping it; its file is written before an image is
      looked for, and old containers of its name go before the environment is built. */
  lemma FailureExactly(w: World, t: string, c: Config, luck: Luck, now: real)
    requires !GoesWell(c, luck)
    ensures var w', s := Provision(w, t, c, luck, now), StopAll(w, {t}, luck.stuck);
            && w'.cache == s.cache && w'.records == s.records
            && w'.files == (if Writable(c) && luck.writes then w.files["/tmp/nanogate/tenants/" + t := Normalized(c)]
                            else w.files)
            && (if Writable(c) && luck.writes && luck.image && luck.clears then
                  forall id :: id in w'.containers <==> id in s.containers && s.containers[id].tenant != t
                else w'.containers == s.containers)
  {
    ProvisionsExactly(c, luck);
  }

  /** No other tenant notices. */
  lemma ProvisionSparesOthers(w: World, t: string, c: Config, luck: Luck, now: real, s: string, id: string)
    requires s != t
    ensures SameTenant(w, Provision(w, t, c, luck, now), s)
    ensures var w' := Provision(w, t, c, luck, now);
            (DirOf(s) in w'.files <==> DirOf(s) in w.files)
            && (DirOf(s) in w.files ==> w'.files[DirOf(s)] == w.files[DirOf(s)])
    ensures id in StopAll(w, {t}, luck.stuck).containers && w.containers[id].tenant == s && id != luck.id ==>
              var w' := Provision(w, t, c, luck, now); id in w'.containers && w'.containers[id] == w.containers[id]
  {
    TenantOfDir(s);
    TenantOfDir(t);
  }

  // ---- Looking up, touching, restarting ----

  /** A tenant is found exactly if it is cached, or recorded with a container that still exists; it is cached then, as
      it is answered, with its clock set in memory if it was cached before and as recorded otherwise. A record is
      changed only if its container is gone, and then to stopped. */
  lemma LookupExactly(w: World, t: string, now: real)
    ensures var f := Get(w, t, now);
            && (f.tenant.Some? <==> t in w.cache || (SaysRunning(w, t) && w.records[t].containerId in w.containers))
            && (f.tenant.Some? ==>
                  && f.world == w.(cache := f.world.cache) && t in f.world.cache && f.world.cache[t] == f.tenant.value
                  && f.tenant.value == (if t in w.cache then w.cache[t].(lastActivity := now)
                                        else var r := w.records[t];
                                             Cached(r.containerId, r.port, r.configDir, r.lastActivity)))
            && (f.tenant.None? ==> f.world == w.(records := f.world.records) && f.world.records.Keys == w.records.Keys)
            && (f.tenant.None? && t in w.records ==>
                  f.world.records[t] == if SaysRunning(w, t) then w.records[t].(running := false, containerId := "")
                                        else w.records[t])
    ensures forall s :: s != t ==> SameTenant(w, Get(w, t, now).world, s)
  {
  }

  /** Touching sets the clock of a cached tenant in memory and, if it is recorded as running, in Redis; and nothing
      else. */
  lemma TouchExactly(w: World, t: string, now: real)
    ensures var w' := Touch(w, t, now);
            && w' == w.(cache := w'.cache, records := w'.records)
            && w'.cache.Keys == w.cache.Keys && w'.records.Keys == w.records.Keys
            && (forall s :: s in w.cache ==>
                  w'.cache[s] == if s == t then w.cache[s].(lastActivity := now) else w.cache[s])
            && (forall s :: s in w.records ==>
                  w'.records[s] == if s == t && t in w.cache && w.records[s].running then
                                     w.records[s].(lastActivity := now)
                                   else w.records[s])
  {
  }

  /** A new gateway process caches, as recorded, exactly the tenants whose recorded container still exists, and marks
      stopped exactly those whose container does not. */
  lemma RestartExactly(w: World, env: GatewayEnv, t: string)
    ensures var w' := Next(w, Restart(env));
            && w'.env == env && w'.files == w.files && w'.containers == w.containers
            && (t in w'.cache <==> SaysRunning(w, t) && w.records[t].containerId in w.containers)
            && (t in w'.cache ==>
                  var r := w.records[t];
                  w'.cache[t] == Cached(r.containerId, r.port, r.configDir, r.lastActivity))
            && (t in w'.records <==> t in w.records)
            && (t in w.records ==>
                  w'.records[t] == if SaysRunning(w, t) && w.records[t].containerId !in w.containers then
                                     w.records[t].(running := false, containerId := "")
                                   else w.records[t])
  {
  }

  // ---- The idle clock over whole runs ----

  predicate TouchesTenant(x: Action, t: string) {
    x.Touches? && x.tenant == t
  }

  /** The step sets the clock of the tenant's container `id`: by touching the tenant, or by starting that container. */
  predicate SetsClock(x: Action, t: string, id: string) {
    || TouchesTenant(x, t)
    || ((x.Configure? || x.Demand?) && x.tenant == t && x.luck.id == id)
  }

  predicate RunsIn(w: World, t: string, id: string) {
    t in w.records && w.records[t].running && w.records[t].containerId == id
  }

  lemma StartSetsClock(w: World, x: Action, t: string)
    requires Inv(w) && Enabled(w, x) && (x.Configure? || x.Demand?) && x.tenant == t
             && RunsIn(Next(w, x), t, x.luck.id)
    ensures Next(w, x).records[t].lastActivity == x.now
  {
    assert TenantOk(w, t);
    match x
    case Configure(_, c, luck, now) => FreshStart(w, t, c, luck, now);
    case Demand(_, luck, now) =>
      GetKeeps(w, t, now);
      LookupExactly(w, t, now);
      var f := Get(w, t, now);
      assert TenantOk(f.world, t);
      if f.tenant.None? {
        FreshStart(f.world, t, Saved(f.world, t), luck, now);
      }
    case _ =>
  }

  lemma FreshStart(w: World, t: string, c: Config, luck: Luck, now: real)
    requires TenantOk(w, t) && luck.id !in w.used && RunsIn(Provision(w, t, c, luck, now), t, luck.id)
    ensures Provision(w, t, c, luck, now).records[t].lastActivity == now
  {
    if GoesWell(c, luck) {
      StartExactly(w, t, c, luck, now);
    } else {
      FailureExactly(w, t, c, luck, now);
      StoppedIsAtRest(w, luck.stuck, t);
    }
  }

  lemma ClockSet(w: World, x: Action, t: string, id: string)
    requires Inv(w) && Enabled(w, x) && SetsClock(x, t, id) && RunsIn(Next(w, x), t, id)
    ensures Next(w, x).records[t].lastActivity == x.now
  {
    if x.Touches? {
      TouchExactly(w, t, x.now);
      assert TenantOk(w, t);
    } else {
      StartSetsClock(w, x, t);
    }
  }

  /** A container keeps its id, and its tenant the container, until another takes its place. */
  lemma RanBefore(w: World, x: Action, t: string, id: string)
    requires Inv(w) && Enabled(w, x) && RunsIn(Next(w, x), t, id) && id in w.used
    ensures RunsIn(w, t, id)
  {
    assert TenantOk(w, t);
    match x
    case Configure(s, c, luck, now) => ProvisionRan(w, s, c, luck, now, t, id);
    case Demand(s, luck, now) =>
      LookupExactly(w, s, now);
      var f := Get(w, s, now);
      if f.tenant.None? {
        ProvisionRan(f.world, s, Saved(f.world, s), luck, now, t, id);
      }
    case Look(s, now) => LookupExactly(w, s, now);
    case _ =>
  }

  lemma ProvisionRan(w: World, s: string, c: Config, luck: Luck, now: real, t: string, id: string)
    requires RunsIn(Provision(w, s, c, luck, now), t, id) && id != luck.id
    ensures RunsIn(w, t, id)
  {
    if s != t {
      ProvisionSparesOthers(w, s, c, luck, now, t, id);
    } else if GoesWell(c, luck) {
      StartExactly(w, t, c, luck, now);
    } else {
      FailureExactly(w, t, c, luck, now);
    }
  }

  lemma ProvisionUses(w: World, t: string, c: Config, luck: Luck, now: real)
    ensures w.used <= Provision(w, t, c, luck, now).used
  {
  }

  lemma UsedStays(w: World, x: Action)
    ensures w.used <= Next(w, x).used
  {
    match x
    case Configure(t, c, luck, now) => ProvisionUses(w, t, c, luck, now);
    case Demand(t, luck, now) =>
      LookupExactly(w, t, now);
      var f := Get(w, t, now).world;
      ProvisionUses(f, t, Saved(f, t), luck, now);
    case Look(t, now) => LookupExactly(w, t, now);
    case _ =>
  }

  lemma {:induction false} ExecUses(w: World, more: seq<Action>, id: string)
    requires id in w.used && Exec(w, more).Some?
    ensures id in Exec(w, more).value.used
    decreases |more|
  {
    if more == [] {
    } else {
      var b := Exec(w, more[..|more| - 1]).value;
      ExecUses(w, more[..|more| - 1], id);
      UsedStays(b, more[|more| - 1]);
    }
  }

  /** A step that does not set the clock of a container leaves it. */
  lemma ClockStays(w: World, x: Action, t: string, id: string, w': World)
    requires Inv(w) && Enabled(w, x) && w' == Next(w, x) && RunsIn(w', t, id) && id in w.used && !TouchesTenant(x, t)
    ensures RunsIn(w, t, id) && w'.records[t].lastActivity == w.records[t].lastActivity
  {
    RanBefore(w, x, t, id);
    assert TenantOk(w, t);
    ClockStep(w, x, t);
  }

  /** While nobody touches the tenant, the clock of its container stays. */
  lemma {:induction false} ClockStaysSet(w: World, more: seq<Action>, t: string, id: string)
    requires Inv(w) && id in w.used && Exec(w, more).Some? && RunsIn(Exec(w, more).value, t, id)
    requires forall j :: 0 <= j < |more| ==> !TouchesTenant(more[j], t)
    ensures RunsIn(w, t, id) && Exec(w, more).value.records[t].lastActivity == w.records[t].lastActivity
    decreases |more|
  {
    if more == [] {
    } else {
      var before, x := more[..|more| - 1], more[|more| - 1];
      var b := Exec(w, before).value;
      ExecInv(w, before);
      ExecUses(w, before, id);
      ClockStays(b, x, t, id, Exec(w, more).value);
      assert forall j :: 0 <= j < |before| ==> before[j] == more[j];
      ClockStaysSet(w, before, t, id);
    }
  }

  lemma RunningIsUsed(w: World, t: string, id: string)
    requires Inv(w) && RunsIn(w, t, id)
    ensures id in w.used
  {
    assert TenantOk(w, t);
  }

  /** So a prune tick stops a running container exactly if more than half an hour has gone by since the last step that
      set its clock: since it was started, or its tenant touched. */
  lemma PrunedExactlyWhenIdle(g: GatewayEnv, trace: seq<Action>, b: World, x: Action, r: World, more: seq<Action>,
                              w: World, t: string, id: string, now: real, stuck: set<string>)
    requires Reached(g, trace, b) && Enabled(b, x) && r == Next(b, x) && SetsClock(x, t, id) && RunsIn(r, t, id)
    requires Exec(r, more) == Some(w) && RunsIn(w, t, id)
    requires forall j :: 0 <= j < |more| ==> !TouchesTenant(more[j], t)
    ensures w.records[t].lastActivity == x.now
    ensures var w' := Next(w, Prune(now, stuck));
            (!RunsIn(w', t, id) <==> now - x.now > 1800.0) && (t in w'.cache <==> RunsIn(w', t, id))
  {
    ReachedInv(g, trace, b);
    ClockSet(b, x, t, id);
    StepKeeps(b, x);
    RunningIsUsed(r, t, id);
    ClockStaysSet(r, more, t, id);
    ExecInv(r, more);
    PruneOfRunning(w, now, stuck, t);
  }

  lemma PruneOfRunning(w: World, now: real, stuck: set<string>, t: string)
    requires Inv(w) && t in w.records && w.records[t].running
    ensures var w', r := Next(w, Prune(now, stuck)), w.records[t];
            && (now - r.lastActivity > 1800.0 ==> !RunsIn(w', t, r.containerId) && t !in w'.cache)
            && (now - r.lastActivity <= 1800.0 ==> RunsIn(w', t, r.containerId) && t in w'.cache)
  {
    assert TenantOk(w, t);
    StopExactly(w, IdleTenants(w, now), stuck, t);
  }
}
