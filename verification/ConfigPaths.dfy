/** What the manager's editing does to a configuration and makes of it, path by path: the view of someone who reads the
    configuration rather than the code that edits it. */
module ConfigPaths {
  import opened Prelude
  import Naming
  import opened TenantConfig

  /** What a configuration has under a path of keys. */
  function At(c: Config, path: seq<string>): Option<Json>
    requires path != []
    decreases |path|
  {
    if path[0] !in c then None
    else if |path| == 1 then Some(c[path[0]])
    else if c[path[0]].Obj? then At(c[path[0]].fields, path[1..])
    else None
  }

  lemma AtOne(c: Config, a: string)
    ensures At(c, [a]) == if a in c then Some(c[a]) else None
  {
  }

  lemma AtTwo(c: Config, a: string, b: string)
    ensures At(c, [a, b]) == if b in Under(c, a) then Some(Under(c, a)[b]) else None
  {
    assert [a, b][1..] == [b];
  }

  lemma AtThree(c: Config, a: string, b: string, k: string)
    ensures At(c, [a, b, k]) == if k in Under(Under(c, a), b) then Some(Under(Under(c, a), b)[k]) else None
  {
    assert [a, b, k][1..] == [b, k];
    if a in c && c[a].Obj? {
      AtTwo(c[a].fields, b, k);
    }
  }

  /** Below an object, only the object matters. */
  lemma AtBelow(c: Config, path: seq<string>)
    requires |path| > 1
    ensures At(c, path) == At(Under(c, path[0]), path[1..])
  {
  }

  /** Python's false values. */
  lemma FalseValues(j: Json)
    ensures !IsTrue(j) <==> || j == Null || j == Bool(false) || j == Num(0) || j == Str("")
                            || j == Arr([]) || j == Obj(map[])
  {
  }

  // ---- Writing ----

  /** Editing raises exactly on these four: a gateway, an agents section or defaults that are no objects, and a
      workspace that is set but is no string. */
  lemma UnwritableExactly(c: Config)
    ensures !Writable(c) <==>
            || (At(c, ["gateway"]).Some? && !At(c, ["gateway"]).value.Obj?)
            || (At(c, ["agents"]).Some? && !At(c, ["agents"]).value.Obj?)
            || (At(c, ["agents", "defaults"]).Some? && !At(c, ["agents", "defaults"]).value.Obj?)
            || (var w := At(c, ["agents", "defaults", "workspace"]); w.Some? && IsTrue(w.value) && !w.value.Str?)
  {
    AtOne(c, "gateway");
    AtOne(c, "agents");
    AtTwo(c, "agents", "defaults");
    AtThree(c, "agents", "defaults", "workspace");
  }

  /** A host path is mounted exactly if one is set that does not, trimmed, begin with "/root/". */
  lemma MountExactly(c: Config)
    ensures var w := At(c, ["agents", "defaults", "workspace"]);
            MountOf(c) ==
            if w.Some? && w.value.Str? && w.value.s != "" && !("/root/" <= Naming.Strip(w.value.s)) then
              HostPath(w.value.s)
            else TenantWorkspace
  {
    AtThree(c, "agents", "defaults", "workspace");
  }

  /** The two forced settings. */
  lemma ForcedSettings(c: Config)
    ensures At(Normalized(c), ["gateway", "port"]) == Some(Num(8765))
    ensures At(Normalized(c), ["agents", "defaults", "workspace"]) == Some(Str("/root/.nanobot/workspace"))
  {
    NormalizedParts(c);
    AtTwo(Normalized(c), "gateway", "port");
    AtThree(Normalized(c), "agents", "defaults", "workspace");
  }

  /** Two paths of which neither leads through the other. */
  predicate Apart(p: seq<string>, q: seq<string>) {
    !(p <= q) && !(q <= p)
  }

  /** And nothing else is changed. */
  lemma NothingElseForced(c: Config, path: seq<string>)
    requires path != [] && Apart(path, ["gateway", "port"]) && Apart(path, ["agents", "defaults", "workspace"])
    ensures At(Normalized(c), path) == At(c, path)
  {
    NormalizedParts(c);
    var n := Normalized(c);
    if path[0] == "gateway" {
      AtBelow(n, path);
      AtBelow(c, path);
    } else if path[0] == "agents" {
      AtBelow(n, path);
      AtBelow(c, path);
    }
  }

  // ---- Building the environment ----

  /** Building raises exactly if the environment given is true but no object, or if the model key has to be looked for
      in providers that are true but no objects. */
  lemma UnstartableExactly(c: Config)
    ensures var env, p, o := At(c, ["gateway", "env"]), At(c, ["providers"]), At(c, ["providers", "openai"]);
            !Startable(c) <==>
            || (env.Some? && IsTrue(env.value) && !env.value.Obj?)
            || (At(c, ["gateway", "env", "OPENAI_API_KEY"]).None?
                && ((p.Some? && IsTrue(p.value) && !p.value.Obj?) || (o.Some? && IsTrue(o.value) && !o.value.Obj?)))
  {
    AtTwo(c, "gateway", "env");
    AtOne(c, "providers");
    AtTwo(c, "providers", "openai");
    AtThree(c, "gateway", "env", "OPENAI_API_KEY");
  }

  /** The model key of a container: the tenant's own, else the gateway's if it has one. */
  function KeyFor(c: Config, g: GatewayEnv): Option<Json> {
    var own := At(c, ["providers", "openai", "apiKey"]);
    if own.Some? && IsTrue(own.value) then own
    else if g.openAiKey.Some? && g.openAiKey.value != "" then Some(Str(g.openAiKey.value))
    else None
  }

  lemma KeyExactly(c: Config, g: GatewayEnv)
    ensures OpenAiFor(c, g) == KeyFor(c, g)
  {
    AtThree(c, "providers", "openai", "apiKey");
  }

  /** What a variable of a container is: its id for TENANT_ID, else what the configuration gives, else for the bus the
      gateway's URL or the default one, for the model key the tenant's own or the gateway's, and otherwise nothing. */
  function Variable(t: string, c: Config, g: GatewayEnv, k: string): Option<Json> {
    if k == "TENANT_ID" then Some(Str(t))
    else if At(c, ["gateway", "env", k]).Some? then At(c, ["gateway", "env", k])
    else if k == "REDIS_URL" then
      Some(Str(if g.redisUrl.Some? then g.redisUrl.value else "redis://host.docker.internal:6379"))
    else if k == "OPENAI_API_KEY" then KeyFor(c, g)
    else None
  }

  lemma EnvironmentExactly(t: string, c: Config, g: GatewayEnv, k: string)
    ensures At(ContainerEnv(t, c, g), [k]) == Variable(t, c, g, k)
  {
    AtOne(ContainerEnv(t, c, g), k);
    EnvParts(t, c, g);
    AtThree(c, "gateway", "env", k);
    KeyExactly(c, g);
  }

  /** The configuration that is saved with a started container has these variables in place of its own environment, if
      it has one; nothing else is changed. */
  lemma InjectedExactly(t: string, c: Config, g: GatewayEnv, path: seq<string>)
    requires path != [] && (|path| <= 2 ==> !(path <= ["gateway", "env"]))
    ensures var env := At(c, ["gateway", "env"]);
            At(Injected(t, c, g), path) ==
            if env.Some? && IsTrue(env.value) && ["gateway", "env"] <= path then At(ContainerEnv(t, c, g), path[2..])
            else At(c, path)
  {
    AtTwo(c, "gateway", "env");
    var j := Injected(t, c, g);
    if Aliased(c) && path[0] == "gateway" {
      InjectedParts(t, c, g);
      AtBelow(j, path);
      AtBelow(c, path);
      if path[1] == "env" {
        AtBelow(Under(j, "gateway"), path[1..]);
        assert path[1..][1..] == path[2..];
      }
    }
  }
}
