/** A tenant's configuration as the manager edits it: the settings forced into `config.json`, the workspace to mount,
    and the environment injected into the container, possibly through the configuration itself. */
module TenantConfig {
  import opened Prelude
  import Naming

  datatype Json =
    | Null
    | Bool(b: bool)
    | Num(n: int)
    | Str(s: string)
    | Arr(items: seq<Json>)
    | Obj(fields: map<string, Json>)

  type Config = map<string, Json>

  /** Python's truth value. */
  predicate IsTrue(j: Json) {
    match j
    case Null => false
    case Bool(b) => b
    case Num(n) => n != 0
    case Str(s) => s != ""
    case Arr(items) => items != []
    case Obj(fields) => fields != map[]
  }

  predicate HasTrue(c: Config, key: string) {
    key in c && IsTrue(c[key])
  }

  /** The object under a key; empty if there is none. */
  function Under(c: Config, key: string): Config {
    if key in c && c[key].Obj? then c[key].fields else map[]
  }

  // ---- write_config ----

  const AGENT_PORT := 8765
  const CONTAINER_WORKSPACE := "/root/.nanobot/workspace"
  const ROOT := "/root/"

  function Defaults(c: Config): Config {
    Under(Under(c, "agents"), "defaults")
  }

  /** The configurations `write_config` can edit: anything else raises while indexing, or when a workspace that is not a
      string becomes a path. */
  predicate Writable(c: Config) {
    && ("gateway" in c ==> c["gateway"].Obj?)
    && ("agents" in c ==> c["agents"].Obj?)
    && ("defaults" in Under(c, "agents") ==> Under(c, "agents")["defaults"].Obj?)
    && (HasTrue(Defaults(c), "workspace") ==> Defaults(c)["workspace"].Str?)
  }

  function SetPort(c: Config): Config {
    c["gateway" := Obj(Under(c, "gateway")["port" := Num(AGENT_PORT)])]
  }

  function SetWorkspace(c: Config): Config {
    c["agents" := Obj(Under(c, "agents")["defaults" := Obj(Defaults(c)["workspace" := Str(CONTAINER_WORKSPACE)])])]
  }

  function Normalized(c: Config): Config {
    SetWorkspace(SetPort(c))
  }

  /** What is mounted as the agent's workspace: the tenant's own, or a host path, which may turn out to be the same. */
  datatype Mount = TenantWorkspace | HostPath(path: string)

  predicate HostWorkspace(c: Config) {
    && HasTrue(Defaults(c), "workspace") && Defaults(c)["workspace"].Str?
    && !(ROOT <= Naming.Strip(Defaults(c)["workspace"].s))
  }

  function MountOf(c: Config): Mount {
    if HostWorkspace(c) then HostPath(Defaults(c)["workspace"].s) else TenantWorkspace
  }

  // ---- The container's environment ----

  datatype GatewayEnv = GatewayEnv(redisUrl: Option<string>, openAiKey: Option<string>)

  const DEFAULT_REDIS := "redis://host.docker.internal:6379"

  type Env = map<string, Json>

  /** Only a non-empty `gateway.env` is edited in place; otherwise the environment is a dictionary of its own. */
  predicate Aliased(c: Config) {
    HasTrue(Under(c, "gateway"), "env")
  }

  function CustomEnv(c: Config): Env {
    Under(Under(c, "gateway"), "env")
  }

  function RedisFor(g: GatewayEnv): Json {
    Str(if g.redisUrl.Some? then g.redisUrl.value else DEFAULT_REDIS)
  }

  /** The key found in the configuration, else the gateway's own. */
  function OpenAiFor(c: Config, g: GatewayEnv): Option<Json> {
    var openai := Under(Under(c, "providers"), "openai");
    if HasTrue(openai, "apiKey") then Some(openai["apiKey"])
    else if Truthy(g.openAiKey) then Some(Str(g.openAiKey.value))
    else None
  }

  /** The configurations whose environment can be built: anything else raises. Providers are looked at only if the key
      is not given already. */
  predicate Startable(c: Config) {
    && (Aliased(c) ==> Under(c, "gateway")["env"].Obj?)
    && ("OPENAI_API_KEY" in CustomEnv(c)
        || ((HasTrue(c, "providers") ==> c["providers"].Obj?)
            && (HasTrue(Under(c, "providers"), "openai") ==> Under(c, "providers")["openai"].Obj?)))
  }

  function WithDefault(e: Env, key: string, v: Option<Json>): Env {
    if key in e || v.None? then e else e[key := v.value]
  }

  function ContainerEnv(t: string, c: Config, g: GatewayEnv): Env {
    var named := CustomEnv(c)["TENANT_ID" := Str(t)];
    WithDefault(WithDefault(named, "REDIS_URL", Some(RedisFor(g))), "OPENAI_API_KEY", OpenAiFor(c, g))
  }

  /** The configuration after injection, as saved in Redis. */
  function Injected(t: string, c: Config, g: GatewayEnv): Config {
    if Aliased(c) then c["gateway" := Obj(Under(c, "gateway")["env" := Obj(ContainerEnv(t, c, g))])] else c
  }

  // ---- Normalizing and injecting settle at once ----

  lemma {:induction false} StripKeepsRoot()
    ensures ROOT <= Naming.Strip(CONTAINER_WORKSPACE)
  {
    var w := CONTAINER_WORKSPACE;
    assert |w| == 24 && w[0] == '/' && w[23] == 'e';
    assert Naming.Trimmed(w);
    Naming.StripOfTrimmed(w);
  }

  lemma NormalizedParts(c: Config)
    ensures Under(Normalized(c), "gateway") == Under(c, "gateway")["port" := Num(AGENT_PORT)]
    ensures Under(Normalized(c), "agents") ==
            Under(c, "agents")["defaults" := Obj(Defaults(c)["workspace" := Str(CONTAINER_WORKSPACE)])]
    ensures Defaults(Normalized(c)) == Defaults(c)["workspace" := Str(CONTAINER_WORKSPACE)]
    ensures Normalized(c).Keys == c.Keys + {"gateway", "agents"}
    ensures forall k :: k in c && k != "gateway" && k != "agents" ==> Normalized(c)[k] == c[k]
  {
  }

  /** Writing a configuration again changes nothing, cannot fail, and mounts the tenant's own workspace. */
  lemma NormalizingSettles(c: Config)
    ensures Writable(Normalized(c)) && Normalized(Normalized(c)) == Normalized(c)
    ensures MountOf(Normalized(c)) == TenantWorkspace
  {
    StripKeepsRoot();
    var n := Normalized(c);
    NormalizedParts(c);
    var d, a, g := Defaults(c)["workspace" := Str(CONTAINER_WORKSPACE)], Under(n, "agents"), Under(n, "gateway");
    assert g["port" := Num(AGENT_PORT)] == g;
    assert SetPort(n) == n;
    assert d["workspace" := Str(CONTAINER_WORKSPACE)] == d;
    assert a["defaults" := Obj(d)] == a;
  }

  lemma EnvParts(t: string, c: Config, g: GatewayEnv)
    ensures var e := ContainerEnv(t, c, g);
            && e.Keys == CustomEnv(c).Keys + {"TENANT_ID", "REDIS_URL"}
               + (if OpenAiFor(c, g).Some? then {"OPENAI_API_KEY"} else {})
            && e["TENANT_ID"] == Str(t)
            && e["REDIS_URL"] == (if "REDIS_URL" in CustomEnv(c) then CustomEnv(c)["REDIS_URL"] else RedisFor(g))
            && ("OPENAI_API_KEY" in e ==>
                  e["OPENAI_API_KEY"] ==
                  if "OPENAI_API_KEY" in CustomEnv(c) then CustomEnv(c)["OPENAI_API_KEY"] else OpenAiFor(c, g).value)
            && forall k :: k in CustomEnv(c) && k != "TENANT_ID" ==> e[k] == CustomEnv(c)[k]
  {
  }

  lemma InjectedParts(t: string, c: Config, g: GatewayEnv)
    requires Aliased(c)
    ensures var c', e := Injected(t, c, g), ContainerEnv(t, c, g);
            && Under(c', "gateway") == Under(c, "gateway")["env" := Obj(e)]
            && Aliased(c') && CustomEnv(c') == e
            && Under(c', "providers") == Under(c, "providers") && Under(c', "agents") == Under(c, "agents")
            && Defaults(c') == Defaults(c)
            && (forall h :: OpenAiFor(c', h) == OpenAiFor(c, h))
  {
    assert "TENANT_ID" in ContainerEnv(t, c, g);
  }

  /** What two gateway environments in succession amount to: what the first injected stays. */
  function Later(g: GatewayEnv, h: GatewayEnv): GatewayEnv {
    GatewayEnv(g.redisUrl, PyOr(g.openAiKey, h.openAiKey))
  }

  lemma LaterKey(c: Config, g: GatewayEnv, h: GatewayEnv)
    ensures OpenAiFor(c, Later(g, h)) == if OpenAiFor(c, g).Some? then OpenAiFor(c, g) else OpenAiFor(c, h)
    ensures RedisFor(Later(g, h)) == RedisFor(g)
  {
  }

  /** Injecting again, from the configuration the first injection left, under whatever gateway environment, cannot fail;
      it gives the environment and the configuration of a single injection. */
  lemma InjectingAgain(t: string, c: Config, g: GatewayEnv, h: GatewayEnv)
    requires Startable(c) && Aliased(c)
    ensures Startable(Injected(t, c, g))
    ensures ContainerEnv(t, Injected(t, c, g), h) == ContainerEnv(t, c, Later(g, h))
    ensures Injected(t, Injected(t, c, g), h) == Injected(t, c, Later(g, h))
  {
    var c', e, l := Injected(t, c, g), ContainerEnv(t, c, g), ContainerEnv(t, c, Later(g, h));
    InjectedParts(t, c, g);
    EnvParts(t, c, g);
    LaterKey(c, g, h);
    assert e["TENANT_ID" := Str(t)] == e;
    assert ContainerEnv(t, c', h) == WithDefault(e, "OPENAI_API_KEY", OpenAiFor(c, h));
    EnvAgain(t, c, g, h);
    assert Under(c', "gateway")["env" := Obj(l)] == Under(c, "gateway")["env" := Obj(l)];
    assert c'["gateway" := Obj(Under(c, "gateway")["env" := Obj(l)])] == Injected(t, c, Later(g, h));
  }

  lemma EnvAgain(t: string, c: Config, g: GatewayEnv, h: GatewayEnv)
    ensures WithDefault(ContainerEnv(t, c, g), "OPENAI_API_KEY", OpenAiFor(c, h)) == ContainerEnv(t, c, Later(g, h))
  {
    LaterKey(c, g, h);
  }

  /** In particular under the same gateway environment. */
  lemma InjectingSettles(t: string, c: Config, g: GatewayEnv)
    requires Startable(c)
    ensures Startable(Injected(t, c, g))
    ensures ContainerEnv(t, Injected(t, c, g), g) == ContainerEnv(t, c, g)
    ensures Injected(t, Injected(t, c, g), g) == Injected(t, c, g)
  {
    if Aliased(c) {
      InjectingAgain(t, c, g, g);
      assert Later(g, g) == g;
    }
  }

  lemma SettledConfig(c: Config)
    requires "gateway" in c && c["gateway"].Obj? && "agents" in c && c["agents"].Obj?
    requires Under(c, "gateway")["port" := Num(AGENT_PORT)] == Under(c, "gateway")
    requires Under(c, "agents")["defaults" := Obj(Defaults(c))] == Under(c, "agents")
    requires Defaults(c)["workspace" := Str(CONTAINER_WORKSPACE)] == Defaults(c)
    ensures Writable(c) && Normalized(c) == c && MountOf(c) == TenantWorkspace
  {
    assert SetPort(c) == c;
    StripKeepsRoot();
  }

  /** Injection leaves what normalization forces alone. */
  lemma InjectedStaysNormal(t: string, c: Config, g: GatewayEnv)
    ensures var j := Injected(t, Normalized(c), g);
            Writable(j) && Normalized(j) == j && MountOf(j) == TenantWorkspace
  {
    var n := Normalized(c);
    NormalizingSettles(c);
    NormalizedParts(c);
    if Aliased(n) {
      var j := Injected(t, n, g);
      InjectedParts(t, n, g);
      assert Under(j, "agents")["defaults" := Obj(Defaults(j))] == Under(j, "agents");
      SettledConfig(j);
    }
  }

  /** What injection may do to a configuration's own environment: every key given stays as it is, but for the tenant's
      id, and at most that id, the bus and the model key are added. */
  predicate EnvUpTo(t: string, given: Env, e: Env) {
    && "TENANT_ID" in e && e["TENANT_ID"] == Str(t)
    && (forall k :: k in given && k != "TENANT_ID" ==> k in e && e[k] == given[k])
    && e.Keys <= given.Keys + {"TENANT_ID", "REDIS_URL", "OPENAI_API_KEY"}
  }

  lemma EnvIsUpTo(t: string, c: Config, g: GatewayEnv)
    ensures EnvUpTo(t, CustomEnv(c), ContainerEnv(t, c, g))
  {
    EnvParts(t, c, g);
  }

  /** Normalization does not touch what the environment is made of. */
  lemma NormalizedEnv(t: string, c: Config, g: GatewayEnv)
    ensures ContainerEnv(t, Normalized(c), g) == ContainerEnv(t, c, g)
    ensures Startable(Normalized(c)) <==> Startable(c)
  {
    NormalizedParts(c);
    assert CustomEnv(Normalized(c)) == CustomEnv(c);
    assert Under(Normalized(c), "providers") == Under(c, "providers");
  }

  /** Nothing that was injected under `g` would be injected differently under `h`. */
  predicate InjectsAlike(c: Config, g: GatewayEnv, h: GatewayEnv) {
    || !Aliased(c)
    || ((RedisFor(g) == RedisFor(h) || "REDIS_URL" in CustomEnv(c))
        && (OpenAiFor(c, g).None? || OpenAiFor(c, g) == OpenAiFor(c, h) || "OPENAI_API_KEY" in CustomEnv(c)))
  }

  /** After the gateway's own environment changes, a container resumed from the Redis record gets the environment it
      would get from `config.json` exactly when nothing that was injected would now be different. */
  lemma NewGatewayEnvironment(t: string, c: Config, g: GatewayEnv, h: GatewayEnv)
    requires Startable(c)
    ensures ContainerEnv(t, Injected(t, c, g), h) == ContainerEnv(t, c, h) <==> InjectsAlike(c, g, h)
  {
    if Aliased(c) {
      var c' := Injected(t, c, g);
      InjectedParts(t, c, g);
      EnvParts(t, c, g);
      EnvParts(t, c, h);
      EnvParts(t, c', h);
      SameEnv(ContainerEnv(t, c', h), ContainerEnv(t, c, h), CustomEnv(c));
    }
  }

  lemma SameEnv(a: Env, b: Env, custom: Env)
    requires a.Keys <= custom.Keys + {"TENANT_ID", "REDIS_URL", "OPENAI_API_KEY"}
    requires b.Keys <= a.Keys
    requires "TENANT_ID" in b && a["TENANT_ID"] == b["TENANT_ID"] && "REDIS_URL" in b
    requires forall k :: k in custom && k != "TENANT_ID" ==> k in b && a[k] == custom[k] && b[k] == custom[k]
    ensures a == b <==>
            && a["REDIS_URL"] == b["REDIS_URL"]
            && ("OPENAI_API_KEY" in a ==> "OPENAI_API_KEY" in b && a["OPENAI_API_KEY"] == b["OPENAI_API_KEY"])
  {
  }
}
