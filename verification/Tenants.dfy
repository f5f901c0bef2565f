/** The tenant manager's four stores as one state: the in-memory cache, the records in Redis, the `config.json` files
    and the live containers. Each manager operation is one atomic step; containers and files may also disappear by
    themselves. */
module Tenants {
  import opened Prelude
  import opened TenantConfig

  datatype Cached = Cached(containerId: string, port: nat, configDir: string, lastActivity: real)

  datatype Record = Record(
    containerId: string, port: nat, configDir: string, config: Config, lastActivity: real, running: bool)

  /** A container answers for the tenant it is named after. */
  datatype Container = Container(tenant: string, env: Env, mount: Mount)

  /** `env` is the environment of the gateway process. `used` holds every container id ever given out, `asked` the
      configuration each tenant was last explicitly provisioned with, empty if it never was, and `envs` the environments
      gateway processes have had: these exist as history only. */
  datatype World = World(
    cache: map<string, Cached>,
    records: map<string, Record>,
    files: map<string, Config>,
    containers: map<string, Container>,
    env: GatewayEnv,
    used: set<string>,
    asked: map<string, Config>,
    envs: set<GatewayEnv>)

  /** The first gateway process. */
  function Begin(g: GatewayEnv): World {
    World(map[], map[], map[], map[], g, {}, map[], {g})
  }

  const BASE := "/tmp/nanogate/tenants/"
  const IDLE_TIMEOUT := 1800.0

  function DirOf(t: string): string {
    BASE + t
  }

  /** The tenant can be read off its directory, so no two tenants share one. */
  lemma TenantOfDir(t: string)
    ensures DirOf(t)[|BASE|..] == t
  {
  }

  /** The tenant's own workspace on the host. */
  function WorkspaceOf(t: string): string {
    DirOf(t) + "/workspace"
  }

  /** The directory a mount gives the container, once `~` and links are resolved. */
  function Directory(m: Mount, t: string, resolve: string -> string): string {
    match m
    case TenantWorkspace => resolve(WorkspaceOf(t))
    case HostPath(path) => resolve(path)
  }

  // ---- stop_tenant ----

  function FromRecord(r: Record): Cached {
    Cached(r.containerId, r.port, r.configDir, r.lastActivity)
  }

  predicate Runs(r: Record) {
    r.running && r.containerId != ""
  }

  /** What there is to stop: the cache entry, else a running record. */
  function Source(w: World, t: string): Option<Cached> {
    if t in w.cache then Some(w.cache[t])
    else if t in w.records && Runs(w.records[t]) then Some(FromRecord(w.records[t]))
    else None
  }

  function OnDisk(w: World, dir: string): Config {
    if dir != "" && dir in w.files then w.files[dir] else map[]
  }

  /** The configuration saved when stopping: the file's, unless it is missing or empty. */
  function Kept(w: World, t: string, dir: string): Config {
    if OnDisk(w, dir) != map[] then OnDisk(w, dir)
    else if t in w.records then w.records[t].config
    else map[]
  }

  function StoppedRecord(w: World, t: string): Record
    requires Source(w, t).Some?
  {
    var c := Source(w, t).value;
    Record("", c.port, c.configDir, Kept(w, t, c.configDir), c.lastActivity, false)
  }

  /** The containers removed with a set of tenants; Docker may refuse to remove some. */
  function Removed(w: World, ts: set<string>, stuck: set<string>): set<string> {
    set t | t in ts && Source(w, t).Some? && Source(w, t).value.containerId !in stuck :: Source(w, t).value.containerId
  }

  /** Stopping several tenants at once. */
  function StopAll(w: World, ts: set<string>, stuck: set<string>): World {
    w.(cache := w.cache - ts,
       records := map t | t in w.records.Keys + ts && (t in w.records || Source(w, t).Some?)
                    :: if t in ts && Source(w, t).Some? then StoppedRecord(w, t) else w.records[t],
       containers := w.containers - Removed(w, ts, stuck))
  }

  // ---- provision_tenant ----

  /** How the world treats a provisioning: the containers Docker refuses to remove, whether directories can be made, the
      image is there, an old container of the same name can be cleared and the new one starts; its id and port; and
      whether the setup commands, if there are any, can be run. */
  datatype Luck = Luck(
    stuck: set<string>, writes: bool, image: bool, clears: bool, starts: bool, id: string, port: nat, setup: bool)

  function Others(containers: map<string, Container>, t: string): map<string, Container> {
    map id | id in containers && containers[id].tenant != t :: containers[id]
  }

  function Written(w: World, t: string, c: Config): World {
    w.(files := w.files[DirOf(t) := Normalized(c)])
  }

  /** A container started from an edited configuration, cached and recorded. */
  function StartedWith(w: World, t: string, n: Config, mount: Mount, luck: Luck, now: real): World {
    w.(cache := w.cache[t := Cached(luck.id, luck.port, DirOf(t), now)],
       records := w.records[t := Record(luck.id, luck.port, DirOf(t), Injected(t, n, w.env), now, true)],
       containers := w.containers[luck.id := Container(t, ContainerEnv(t, n, w.env), mount)],
       used := w.used + {luck.id})
  }

  function Started(w: World, t: string, c: Config, luck: Luck, now: real): World {
    StartedWith(w, t, Normalized(c), MountOf(c), luck, now)
  }

  predicate Provisions(c: Config, luck: Luck) {
    Writable(c) && luck.writes && luck.image && luck.clears && Startable(Normalized(c)) && luck.starts
  }

  /** Setup commands that raise do so after everything else is done: the caller gets an exception, and the tenant
      runs. */
  predicate Returns(c: Config, luck: Luck) {
    Provisions(c, luck) && (HasTrue(Under(c, "gateway"), "setupCommands") ==> luck.setup)
  }

  /** The running container is stopped first, `config.json` is written, an old container of the same name is cleared,
      and only then can the environment be built and the container started: each step may be the last. */
  function Provision(w: World, t: string, c: Config, luck: Luck, now: real): World {
    var stopped := StopAll(w, {t}, luck.stuck);
    if !(Writable(c) && luck.writes) then stopped
    else
      var written := Written(stopped, t, c);
      if !(luck.image && luck.clears) then written
      else
        var cleared := written.(containers := Others(written.containers, t));
        if !(Startable(Normalized(c)) && luck.starts) then cleared
        else Started(cleared, t, c, luck, now)
  }

  // ---- get_tenant, touch, get_or_create ----

  datatype Found = Found(world: World, tenant: Option<Cached>)

  function MarkStopped(r: Record): Record {
    r.(running := false, containerId := "")
  }

  /** The cache miss path: Redis says what runs, Docker whether it still does. */
  function Miss(w: World, t: string): Found {
    if !(t in w.records && Runs(w.records[t])) then Found(w, None)
    else if w.records[t].containerId !in w.containers then
      Found(w.(records := w.records[t := MarkStopped(w.records[t])]), None)
    else Found(w.(cache := w.cache[t := FromRecord(w.records[t])]), Some(FromRecord(w.records[t])))
  }

  /** A hit moves the activity in memory only. */
  function Get(w: World, t: string, now: real): Found {
    if t in w.cache then
      var c := w.cache[t].(lastActivity := now);
      Found(w.(cache := w.cache[t := c]), Some(c))
    else Miss(w, t)
  }

  function Touch(w: World, t: string, now: real): World {
    if t !in w.cache then w
    else
      w.(cache := w.cache[t := w.cache[t].(lastActivity := now)],
         records := if t in w.records && w.records[t].running then w.records[t := w.records[t].(lastActivity := now)]
                    else w.records)
  }

  function Saved(w: World, t: string): Config {
    if t in w.records then w.records[t].config else map[]
  }

  function GetOrCreate(w: World, t: string, luck: Luck, now: real): World {
    var found := Get(w, t, now);
    if found.tenant.Some? then found.world else Provision(found.world, t, Saved(found.world, t), luck, now)
  }

  /** Provisioning and looking up touch neither the gateway's environment nor what is history only. */
  lemma ProvisionHistory(w: World, t: string, c: Config, luck: Luck, now: real)
    ensures var w' := Provision(w, t, c, luck, now); w'.env == w.env && w'.asked == w.asked && w'.envs == w.envs
  {
  }

  lemma GetHistory(w: World, t: string, now: real)
    ensures var w' := Get(w, t, now).world; w'.env == w.env && w'.asked == w.asked && w'.envs == w.envs
  {
  }

  // ---- Prune, shutdown, restart ----

  predicate Idle(r: Record, now: real) {
    r.running && now - r.lastActivity > IDLE_TIMEOUT
  }

  function IdleTenants(w: World, now: real): set<string> {
    set t | t in w.records && Idle(w.records[t], now)
  }

  predicate Survives(w: World, r: Record) {
    Runs(r) && r.containerId in w.containers
  }

  predicate Vanished(w: World, r: Record) {
    Runs(r) && r.containerId !in w.containers
  }

  /** Startup: every running record whose container still exists is cached again, any other is marked stopped. */
  function Reload(w: World): World {
    w.(cache := map t | t in w.records && Survives(w, w.records[t]) :: FromRecord(w.records[t]),
       records := map t | t in w.records
                    :: if Vanished(w, w.records[t]) then MarkStopped(w.records[t]) else w.records[t])
  }

  // ---- Runs ----

  datatype Action =
    | Configure(tenant: string, config: Config, luck: Luck, now: real)
    | Demand(tenant: string, luck: Luck, now: real)
    | Look(tenant: string, now: real)
    | Touches(tenant: string, now: real)
    | Stop(tenant: string, stuck: set<string>)
    | Prune(now: real, stuck: set<string>)
    | Shutdown(stuck: set<string>)
    | Restart(env: GatewayEnv)
    | Vanish(id: string)
    | LoseFile(dir: string)

  /** Docker never reuses a container id. */
  predicate Enabled(w: World, x: Action) {
    (x.Configure? || x.Demand?) ==> x.luck.id != "" && x.luck.id !in w.used
  }

  function Next(w: World, x: Action): World {
    match x
    case Configure(t, c, luck, now) =>
      Provision(w, t, c, luck, now).(asked := if Provisions(c, luck) then w.asked[t := c] else w.asked)
    case Demand(t, luck, now) =>
      GetOrCreate(w, t, luck, now).(asked := if t in w.asked then w.asked else w.asked[t := map[]])
    case Look(t, now) => Get(w, t, now).world
    case Touches(t, now) => Touch(w, t, now)
    case Stop(t, stuck) => StopAll(w, {t}, stuck)
    case Prune(now, stuck) => StopAll(w, IdleTenants(w, now), stuck)
    case Shutdown(stuck) => StopAll(w, w.cache.Keys, stuck)
    case Restart(env) => Reload(w.(cache := map[], env := env, envs := w.envs + {env}))
    case Vanish(id) => w.(containers := w.containers - {id})
    case LoseFile(dir) => w.(files := w.files - {dir})
  }

  /** The state after a sequence of steps, if each is possible where it is taken. */
  function Exec(w: World, trace: seq<Action>): Option<World> {
    if trace == [] then Some(w)
    else
      match Exec(w, trace[..|trace| - 1])
      case None => None
      case Some(r) => if Enabled(r, Last(trace)) then Some(Next(r, Last(trace))) else None
  }

  // ---- Configurations that count as the same ----

  predicate Sound(c: Config) {
    Writable(c) && Startable(c)
  }

  /** What either save path may hold for a tenant asked to run `c`, under the gateway environment `g`. */
  predicate Version(t: string, x: Config, c: Config, g: GatewayEnv) {
    x == Normalized(c) || x == Injected(t, Normalized(c), g)
  }

  /** Starting from any version is the same as starting from the original, except for the workspace mount. */
  lemma VersionsStartAlike(t: string, x: Config, c: Config, g: GatewayEnv)
    requires Sound(c) && Version(t, x, c, g)
    ensures x != map[] && Sound(x) && Normalized(x) == x && Startable(Normalized(x)) && MountOf(x) == TenantWorkspace
    ensures ContainerEnv(t, x, g) == ContainerEnv(t, c, g)
    ensures Version(t, Injected(t, x, g), c, g)
  {
    var n := Normalized(c);
    NormalizingSettles(c);
    NormalizedEnv(t, c, g);
    InjectedStaysNormal(t, c, g);
    InjectingSettles(t, n, g);
    assert "gateway" in n;
    assert Aliased(n) ==> "gateway" in Injected(t, n, g);
  }

  // ---- Under changing gateway environments ----

  predicate HadUrl(h: GatewayEnv, envs: set<GatewayEnv>) {
    exists g :: g in envs && g.redisUrl == h.redisUrl
  }

  predicate HadKey(h: GatewayEnv, envs: set<GatewayEnv>) {
    exists g :: g in envs && g.openAiKey == h.openAiKey
  }

  /** An environment whose bus and whose key gateway processes have had, perhaps not the same one. */
  predicate Mixed(h: GatewayEnv, envs: set<GatewayEnv>) {
    HadUrl(h, envs) && HadKey(h, envs)
  }

  lemma MemberIsMixed(g: GatewayEnv, envs: set<GatewayEnv>)
    requires g in envs
    ensures Mixed(g, envs)
  {
  }

  lemma LaterIsMixed(h: GatewayEnv, g: GatewayEnv, envs: set<GatewayEnv>)
    requires Mixed(h, envs) && g in envs
    ensures Mixed(Later(h, g), envs)
  {
  }

  lemma MixedStays(h: GatewayEnv, envs: set<GatewayEnv>, more: set<GatewayEnv>)
    requires Mixed(h, envs) && envs <= more
    ensures Mixed(h, more)
  {
  }

  /** A version of `c` under some environment mixed from those gateway processes have had. */
  ghost predicate Aged(t: string, x: Config, c: Config, envs: set<GatewayEnv>) {
    exists h :: Mixed(h, envs) && Version(t, x, c, h)
  }

  /** The container environment of `c` under such an environment. */
  ghost predicate EnvAged(t: string, e: Env, c: Config, envs: set<GatewayEnv>) {
    exists h :: Mixed(h, envs) && e == ContainerEnv(t, c, h)
  }

  lemma AgedStays(t: string, x: Config, c: Config, envs: set<GatewayEnv>, more: set<GatewayEnv>)
    requires envs <= more
    ensures Aged(t, x, c, envs) ==> Aged(t, x, c, more)
  {
    if h :| Mixed(h, envs) && Version(t, x, c, h) {
      MixedStays(h, envs, more);
    }
  }

  lemma EnvAgedStays(t: string, e: Env, c: Config, envs: set<GatewayEnv>, more: set<GatewayEnv>)
    requires envs <= more
    ensures EnvAged(t, e, c, envs) ==> EnvAged(t, e, c, more)
  {
    if h :| Mixed(h, envs) && e == ContainerEnv(t, c, h) {
      MixedStays(h, envs, more);
    }
  }

  /** The environment a start under `g` amounts to, when the configuration is the version left under `h`. */
  function Effective(t: string, x: Config, c: Config, h: GatewayEnv, g: GatewayEnv): GatewayEnv {
    if x != Normalized(c) && Aliased(Normalized(c)) then Later(h, g) else g
  }

  lemma VersionsStart(t: string, x: Config, c: Config, h: GatewayEnv, g: GatewayEnv)
    requires Sound(c) && Version(t, x, c, h)
    ensures ContainerEnv(t, x, g) == ContainerEnv(t, c, Effective(t, x, c, h, g))
    ensures Version(t, Injected(t, x, g), c, Effective(t, x, c, h, g))
  {
    var n, l := Normalized(c), Effective(t, x, c, h, g);
    NormalizedEnv(t, c, l);
    if x != n {
      InjectingAgain(t, n, h, g);
    }
  }

  /** Whatever gateway environments a saved configuration has seen, starting from it again cannot fail, mounts the
      tenant's own workspace, and gives the container the environment of the original under such an environment. */
  lemma AgedStart(t: string, x: Config, c: Config, g: GatewayEnv, envs: set<GatewayEnv>)
    requires Sound(c) && Aged(t, x, c, envs) && g in envs
    ensures x != map[] && Sound(x) && Normalized(x) == x && Startable(Normalized(x)) && MountOf(x) == TenantWorkspace
    ensures EnvAged(t, ContainerEnv(t, x, g), c, envs) && Aged(t, Injected(t, x, g), c, envs)
  {
    var h :| Mixed(h, envs) && Version(t, x, c, h);
    var l := Effective(t, x, c, h, g);
    VersionsStartAlike(t, x, c, h);
    VersionsStart(t, x, c, h, g);
    MemberIsMixed(g, envs);
    LaterIsMixed(h, g, envs);
    assert Mixed(l, envs);
  }

  /** A configuration up to injected keys: `c` as written, its own environment, if it has one, replaced as injection may
      replace it. */
  predicate UpTo(t: string, x: Config, c: Config) {
    var n := Normalized(c);
    || x == n
    || (Aliased(n) && x == n["gateway" := Obj(Under(n, "gateway")["env" := Obj(CustomEnv(x))])]
        && EnvUpTo(t, CustomEnv(n), CustomEnv(x)))
  }

  lemma AgedIsUpTo(t: string, x: Config, c: Config, envs: set<GatewayEnv>)
    requires Aged(t, x, c, envs)
    ensures UpTo(t, x, c)
  {
    var h :| Mixed(h, envs) && Version(t, x, c, h);
    EnvIsUpTo(t, Normalized(c), h);
    if Aliased(Normalized(c)) {
      InjectedParts(t, Normalized(c), h);
    }
  }

  lemma EnvAgedIsUpTo(t: string, e: Env, c: Config, envs: set<GatewayEnv>)
    requires EnvAged(t, e, c, envs)
    ensures EnvUpTo(t, CustomEnv(c), e)
  {
    var h :| Mixed(h, envs) && e == ContainerEnv(t, c, h);
    EnvIsUpTo(t, c, h);
  }

  /** Under one environment only, nothing is left open. */
  lemma OneEnvironment(t: string, x: Config, e: Env, c: Config, g: GatewayEnv)
    ensures Aged(t, x, c, {g}) <==> Version(t, x, c, g)
    ensures EnvAged(t, e, c, {g}) <==> e == ContainerEnv(t, c, g)
  {
    MemberIsMixed(g, {g});
    if h :| Mixed(h, {g}) && Version(t, x, c, h) {
      assert h == g;
    }
    if h :| Mixed(h, {g}) && e == ContainerEnv(t, c, h) {
      assert h == g;
    }
  }
}
