/** The two approve routes: the agent's, which finds the tool that owns a request and runs it, and the gateway's, which
    hunts for the agent among its tenants. */
module ApprovalRoutes {
  import opened Prelude
  import opened Naming
  import opened Approvals
  import opened ApprovalTools
  import T = Tenants
  import M = TenantManager

  // ---- The agent's route ----

  datatype ApproveBody = ApproveBody(requestId: string, session: Option<string>, autoResume: bool,
                                     resumeOnFailure: bool)

  /** How the resumed conversation ends. */
  datatype Conversation = Replies(text: string) | Breaks(error: string)

  datatype Refusal = Unknown | CommandFailed(error: string) | SessionMismatch(expected: string, got: string)

  datatype Answer =
    | BadRequest(why: Refusal)
    | Skipped(code: int, output: string, command: string, session: string, explained: bool)
    | Resumed(code: int, output: string, command: string, session: string, reply: Conversation)

  /** The answer once a request was found and its command has run. */
  function AnswerFor(e: Entry, body: ApproveBody, fate: Fate, talk: Conversation): Answer {
    match fate
    case CannotStart(error) => BadRequest(CommandFailed(error))
    case TimesOut(error) => BadRequest(CommandFailed(error))
    case Exits(code, output) =>
      if body.autoResume && (code == 0 || body.resumeOnFailure) then
        var named := ApproverSession(body.session);
        if named.Some? && named.value != e.session then BadRequest(SessionMismatch(e.session, named.value))
        else Resumed(code, output, e.command, e.session, talk)
      else Skipped(code, output, e.command, e.session, body.autoResume)
  }

  predicate ShouldResume(body: ApproveBody, code: int) {
    body.autoResume && (code == 0 || body.resumeOnFailure)
  }

  /** The answer in terms of the session the approver names, if any. */
  lemma AnswerShape(e: Entry, body: ApproveBody, fate: Fate, talk: Conversation, named: Option<string>)
    requires named == ApproverSession(body.session)
    ensures AnswerFor(e, body, fate, talk) ==
            if !fate.Exits? then BadRequest(CommandFailed(fate.error))
            else if !ShouldResume(body, fate.code) then
              Skipped(fate.code, fate.output, e.command, e.session, body.autoResume)
            else if named.Some? && named.value != e.session then BadRequest(SessionMismatch(e.session, named.value))
            else Resumed(fate.code, fate.output, e.command, e.session, talk)
  {
  }

  /** An approver that names a session is refused exactly when the name, normalized like everywhere else, is not the
      recorded session; but only if the conversation would be resumed, and only after the command has run. A
      conversation is resumed exactly if wanted and not refused, and always the recorded one. */
  lemma ApproverMustNameTheSession(e: Entry, body: ApproveBody, fate: Fate, talk: Conversation)
    ensures var a, n := AnswerFor(e, body, fate, talk), NormalizeSession(body.session);
            && (!fate.Exits? ==> a == BadRequest(CommandFailed(fate.error)))
            && (fate.Exits? ==>
                  && (a.BadRequest? <==> ShouldResume(body, fate.code) && !Blank(body.session) && n != e.session)
                  && (a.BadRequest? ==> a.why == SessionMismatch(e.session, n))
                  && (a.Resumed? <==> ShouldResume(body, fate.code) && (Blank(body.session) || n == e.session))
                  && (a.Resumed? ==> a.session == e.session && a.command == e.command && a.code == fate.code)
                  && (a.Resumed? ==> a.output == fate.output && a.reply == talk)
                  && (a.Skipped? <==> !body.autoResume || (fate.code != 0 && !body.resumeOnFailure))
                  && (a.Skipped? ==> a.session == e.session && a.command == e.command && a.code == fate.code)
                  && (a.Skipped? ==> a.output == fate.output && a.explained == body.autoResume))
  {
    SessionNamesAgree(body.session);
    AnswerShape(e, body, fate, talk, ApproverSession(body.session));
  }

  /** The first tool that has the request pending, from position `k` on. */
  function Owner(tools: seq<GatewayExecTool>, id: string, k: nat): (r: Option<nat>)
    requires k <= |tools|
    reads set t | t in tools
    ensures r.Some? ==> k <= r.value < |tools| && id in tools[r.value].pending
    ensures r.Some? ==> forall i :: k <= i < r.value ==> id !in tools[i].pending
    ensures r.None? ==> forall i :: k <= i < |tools| ==> id !in tools[i].pending
    decreases |tools| - k
  {
    if k == |tools| then None else if id in tools[k].pending then Some(k) else Owner(tools, id, k + 1)
  }

  /** `approve` of the agent: the first owner's request is consumed, whatever the answer; no other tool is touched. */
  method Approve(tools: seq<GatewayExecTool>, body: ApproveBody, fate: Fate, talk: Conversation)
      returns (answer: Answer, owner: Option<nat>)
    requires Distinct(tools)
    modifies set t | t in tools
    ensures owner == old(Owner(tools, body.requestId, 0))
    ensures owner.None? ==> answer == BadRequest(Unknown) && forall i :: 0 <= i < |tools| ==> unchanged(tools[i])
    ensures owner.Some? ==>
              && owner.value < |tools|
              && body.requestId in old(tools[owner.value].pending)
              && var e := old(tools[owner.value].pending)[body.requestId];
              && answer == AnswerFor(e, body, fate, talk)
              && tools[owner.value].pending == old(tools[owner.value].pending) - {body.requestId}
              && var started := if fate.CannotStart? then [] else [Approved(body.requestId, e.command, e.cwd)];
              && tools[owner.value].starts == old(tools[owner.value].starts) + started
              && forall i :: 0 <= i < |tools| && i != owner.value ==> unchanged(tools[i])
  {
    var k := 0;
    while k < |tools| && body.requestId !in tools[k].pending
      invariant k <= |tools| && Owner(tools, body.requestId, 0) == Owner(tools, body.requestId, k)
    {
      k := k + 1;
    }
    if k == |tools| {
      return BadRequest(Unknown), None;
    }
    owner := Some(k);
    var entry := tools[k].RunApproved(body.requestId, fate);
    answer := AnswerFor(entry.value, body, fate, talk);
  }

  /** An entry of `list_pending_approvals`. */
  datatype Item = Item(tool: nat, id: string, entry: Entry)

  predicate Lists(tools: seq<GatewayExecTool>, x: Item, n: nat)
    requires n <= |tools|
    reads set t | t in tools
  {
    x.tool < n && x.id in tools[x.tool].pending && x.entry == tools[x.tool].pending[x.id]
  }

  /** `list_pending_approvals`: every pending request of every tool, each once. */
  method ListPending(tools: seq<GatewayExecTool>) returns (items: seq<Item>)
    ensures forall x :: x in items <==> Lists(tools, x, |tools|)
    ensures Distinct(items)
  {
    items := [];
    for k := 0 to |tools|
      invariant forall x :: x in items <==> Lists(tools, x, k)
      invariant Distinct(items)
    {
      var ids := M.Listed(tools[k].pending.Keys);
      for i := 0 to |ids|
        invariant forall x :: x in items <==> Lists(tools, x, k) || (x.tool == k && x.id in ids[..i]
                                              && x.id in tools[k].pending && x.entry == tools[k].pending[x.id])
        invariant Distinct(items)
      {
        assert ids[i] in M.Elements(ids) && ids[..i + 1] == ids[..i] + [ids[i]];
        var item := Item(k, ids[i], tools[k].pending[ids[i]]);
        assert item !in items;
        items := items + [item];
      }
      assert ids[..|ids|] == ids && forall id :: id in tools[k].pending ==> id in M.Elements(ids);
    }
  }

  // ---- The gateway's hunt ----

  /** What a tenant's agent holds: its pending requests and the commands it has started. */
  datatype Agent = Agent(pending: map<string, Entry>, starts: seq<Start>)

  /** One POST to an agent: it gets there or not, and its answer gets back or not. */
  datatype Delivery = Lost | Reaches(fate: Fate, talk: Conversation, answered: bool)

  function Approves(a: Agent, body: ApproveBody, fate: Fate): Agent {
    if body.requestId !in a.pending then a
    else
      var e := a.pending[body.requestId];
      var started := if fate.CannotStart? then [] else [Approved(body.requestId, e.command, e.cwd)];
      Agent(a.pending - {body.requestId}, a.starts + started)
  }

  function Reply(a: Agent, body: ApproveBody, fate: Fate, talk: Conversation): Answer {
    if body.requestId !in a.pending then BadRequest(Unknown) else AnswerFor(a.pending[body.requestId], body, fate, talk)
  }

  type Agents = map<string, Agent>

  function Contacted(agents: Agents, t: string, body: ApproveBody, d: Delivery): Agents {
    if t !in agents || d.Lost? then agents else agents[t := Approves(agents[t], body, d.fate)]
  }

  /** The answer that comes back with status 200. */
  function Accepted(agents: Agents, t: string, body: ApproveBody, d: Delivery): Option<Answer> {
    if t !in agents || d.Lost? || !d.answered || Reply(agents[t], body, d.fate, d.talk).BadRequest? then None
    else Some(Reply(agents[t], body, d.fate, d.talk))
  }

  /** A POST consumes the request of the agent that has it pending, if it gets there, and starts its command unless that
      cannot start; nobody else is touched. */
  lemma ContactExactly(agents: Agents, t: string, body: ApproveBody, d: Delivery)
    ensures var after, id := Contacted(agents, t, body, d), body.requestId;
            && after.Keys == agents.Keys && (forall s :: s in agents && s != t ==> after[s] == agents[s])
            && (!(d.Reaches? && t in agents && id in agents[t].pending) ==> after == agents)
            && (d.Reaches? && t in agents && id in agents[t].pending ==>
                  var e := agents[t].pending[id];
                  && after[t].pending == agents[t].pending - {id}
                  && after[t].starts ==
                     agents[t].starts + if d.fate.CannotStart? then [] else [Approved(id, e.command, e.cwd)])
  {
    assert t in agents ==> agents[t := agents[t]] == agents;
  }

  /** It is answered with 200 exactly if the answer gets back, the command ran to its end, and the approver named no
      other session for a conversation to be resumed. */
  lemma AcceptedExactly(agents: Agents, t: string, body: ApproveBody, d: Delivery)
    ensures Accepted(agents, t, body, d).Some? <==>
            && d.Reaches? && d.answered && d.fate.Exits? && t in agents && body.requestId in agents[t].pending
            && !(body.autoResume && (d.fate.code == 0 || body.resumeOnFailure) && !Blank(body.session)
                 && NormalizeSession(body.session) != agents[t].pending[body.requestId].session)
  {
    if d.Reaches? && t in agents && body.requestId in agents[t].pending {
      ApproverMustNameTheSession(agents[t].pending[body.requestId], body, d.fate, d.talk);
    }
  }

  datatype Find = Find(tenant: string, answer: Answer)

  datatype Hunt = Hunt(agents: Agents, found: Option<Find>)

  /** One target after the other, until one answers with 200. */
  function Hunted(agents: Agents, targets: seq<string>, body: ApproveBody, world: string -> Delivery): Hunt {
    if targets == [] then Hunt(agents, None)
    else
      var t := targets[0];
      var after, answer := Contacted(agents, t, body, world(t)), Accepted(agents, t, body, world(t));
      if answer.Some? then Hunt(after, Some(Find(t, answer.value))) else Hunted(after, targets[1..], body, world)
  }

  predicate Owns(agents: Agents, t: string, id: string) {
    t in agents && id in agents[t].pending
  }

  lemma StrangersIgnore(agents: Agents, t: string, body: ApproveBody, d: Delivery)
    requires !Owns(agents, t, body.requestId)
    ensures Contacted(agents, t, body, d) == agents && Accepted(agents, t, body, d).None?
  {
    assert t in agents ==> agents[t := agents[t]] == agents;
  }

  lemma {:induction false} NobodyOwns(agents: Agents, targets: seq<string>, body: ApproveBody,
                                      world: string -> Delivery)
    requires forall t :: t in targets ==> !Owns(agents, t, body.requestId)
    ensures Hunted(agents, targets, body, world) == Hunt(agents, None)
  {
    if targets == [] {
    } else {
      StrangersIgnore(agents, targets[0], body, world(targets[0]));
      NobodyOwns(agents, targets[1..], body, world);
    }
  }

  lemma ConsumedByContact(agents: Agents, o: string, body: ApproveBody, d: Delivery, t: string)
    requires d.Reaches? && Owns(agents, t, body.requestId) ==> t == o
    ensures d.Reaches? ==> !Owns(Contacted(agents, o, body, d), t, body.requestId)
  {
  }

  /** With a request id that one tenant at most has pending, as fresh ids are, the hunt changes that tenant's agent
      alone, whatever is lost on the way: its request is consumed and its command started exactly if the POST reaches
      it. The hunt succeeds exactly if the agent's answer is good and gets back. */
  lemma {:induction false} HuntFindsTheOwner(agents: Agents, targets: seq<string>, body: ApproveBody,
                                             world: string -> Delivery, o: string)
    requires o in targets && Owns(agents, o, body.requestId) && forall t :: Owns(agents, t, body.requestId) ==> t == o
    ensures Hunted(agents, targets, body, world).agents == Contacted(agents, o, body, world(o))
    ensures var answer := Accepted(agents, o, body, world(o));
            Hunted(agents, targets, body, world).found == if answer.Some? then Some(Find(o, answer.value)) else None
  {
    var t, rest := targets[0], targets[1..];
    var after := Contacted(agents, t, body, world(t));
    if t != o {
      StrangersIgnore(agents, t, body, world(t));
      HuntFindsTheOwner(agents, rest, body, world, o);
    } else if Accepted(agents, o, body, world(o)).None? {
      if world(o).Reaches? {
        forall s | s in rest
          ensures !Owns(after, s, body.requestId)
        {
          ConsumedByContact(agents, o, body, world(o), s);
        }
        NobodyOwns(after, rest, body, world);
      } else if o in rest {
        HuntFindsTheOwner(agents, rest, body, world, o);
      } else {
        NobodyOwns(agents, rest, body, world);
      }
    }
  }

  /** At most one tenant's agent changes, and a success means that its own request was consumed and its command
      started. */
  lemma HuntIsSafe(agents: Agents, targets: seq<string>, body: ApproveBody, world: string -> Delivery, s: string,
                   t: string)
    requires forall x, y :: Owns(agents, x, body.requestId) && Owns(agents, y, body.requestId) ==> x == y
    requires s in agents && t in agents
    ensures var h := Hunted(agents, targets, body, world);
            && h.agents.Keys == agents.Keys
            && (h.agents[s] != agents[s] && h.agents[t] != agents[t] ==> s == t)
            && (h.agents[t] != agents[t] ==>
               t in targets && Owns(agents, t, body.requestId) && body.requestId !in h.agents[t].pending)
    ensures var h, id := Hunted(agents, targets, body, world), body.requestId;
            h.found.Some? ==>
              var o := h.found.value.tenant;
              && Owns(agents, o, id) && id !in h.agents[o].pending
              && var e := agents[o].pending[id];
              && Approved(id, e.command, e.cwd) in h.agents[o].starts && !h.found.value.answer.BadRequest?
  {
    if o :| o in targets && Owns(agents, o, body.requestId) {
      HuntFindsTheOwner(agents, targets, body, world, o);
    } else {
      NobodyOwns(agents, targets, body, world);
    }
  }

  // ---- Hunts that interleave ----

  /** What can happen to the agents before, between and after the POSTs of a hunt: POSTs of any other hunts, requests
      put into a ledger, and agent processes that end, and their ledgers with them. */
  datatype Happening =
    | Posted(tenant: string, body: ApproveBody, d: Delivery)
    | Issued(tenant: string, id: string, entry: Entry)
    | Died(tenant: string)

  function Happens(agents: Agents, h: Happening): Agents {
    match h
    case Posted(t, body, d) => Contacted(agents, t, body, d)
    case Issued(t, id, e) =>
      var a := if t in agents then agents[t] else Agent(map[], []);
      agents[t := a.(pending := a.pending[id := e])]
    case Died(t) => agents - {t}
  }

  function HappenAll(agents: Agents, hs: seq<Happening>): Agents
    decreases |hs|
  {
    if hs == [] then agents else HappenAll(Happens(agents, hs[0]), hs[1..])
  }

  /** The command of the request is started. */
  predicate Launches(agents: Agents, h: Happening, id: string) {
    && h.Posted? && h.tenant in agents
    && var before, after := agents[h.tenant].starts, Happens(agents, h)[h.tenant].starts;
       |after| > |before| && after[|before|].Approved? && after[|before|].id == id
  }

  /** An approval of the request is answered with 200. */
  predicate Succeeds(agents: Agents, h: Happening, id: string) {
    h.Posted? && h.body.requestId == id && Accepted(agents, h.tenant, h.body, h.d).Some?
  }

  function LaunchCount(agents: Agents, hs: seq<Happening>, id: string): nat
    decreases |hs|
  {
    if hs == [] then 0
    else (if Launches(agents, hs[0], id) then 1 else 0) + LaunchCount(Happens(agents, hs[0]), hs[1..], id)
  }

  function SuccessCount(agents: Agents, hs: seq<Happening>, id: string): nat
    decreases |hs|
  {
    if hs == [] then 0
    else (if Succeeds(agents, hs[0], id) then 1 else 0) + SuccessCount(Happens(agents, hs[0]), hs[1..], id)
  }

  ghost predicate OneOwner(agents: Agents, id: string) {
    forall s, t :: Owns(agents, s, id) && Owns(agents, t, id) ==> s == t
  }

  ghost predicate Owned(agents: Agents, id: string) {
    exists t :: Owns(agents, t, id)
  }

  predicate Issues(h: Happening, id: string) {
    h.Issued? && h.id == id
  }

  /** Who owns a request afterwards owned it before. */
  lemma NobodyGains(agents: Agents, h: Happening, id: string, t: string)
    requires !Issues(h, id)
    ensures Owns(Happens(agents, h), t, id) ==> Owns(agents, t, id)
  {
  }

  lemma LaunchTakes(agents: Agents, h: Happening, id: string)
    ensures Succeeds(agents, h, id) ==> Launches(agents, h, id)
    ensures Launches(agents, h, id) ==>
              && Owns(agents, h.tenant, id) && !Owns(Happens(agents, h), h.tenant, id)
              && var e := agents[h.tenant].pending[id];
              Happens(agents, h)[h.tenant].starts == agents[h.tenant].starts + [Approved(id, e.command, e.cwd)]
  {
  }

  /** A start takes the request away from its owner and runs the command recorded there; a success comes with a
      start. */
  lemma StartConsumes(agents: Agents, h: Happening, id: string)
    requires OneOwner(agents, id) && !Issues(h, id)
    ensures Succeeds(agents, h, id) ==> Launches(agents, h, id)
    ensures Launches(agents, h, id) ==>
              && Owns(agents, h.tenant, id)
              && var e := agents[h.tenant].pending[id];
              && Happens(agents, h)[h.tenant].starts == agents[h.tenant].starts + [Approved(id, e.command, e.cwd)]
              && !Owned(Happens(agents, h), id)
    ensures OneOwner(Happens(agents, h), id) && (Owned(Happens(agents, h), id) ==> Owned(agents, id))
  {
    forall t
      ensures Owns(Happens(agents, h), t, id) ==> Owns(agents, t, id)
    {
      NobodyGains(agents, h, id, t);
    }
    LaunchTakes(agents, h, id);
    if Launches(agents, h, id) {
      forall t
        ensures !Owns(Happens(agents, h), t, id)
      {
        NobodyGains(agents, h, id, t);
        assert Owns(agents, h.tenant, id);
      }
    }
  }

  /** However hunts for one request interleave, with each other and with whatever else happens to the agents, its
      command is started at most once, and at most one approval is answered with 200, the one that started it. */
  lemma {:induction false} InterleavedHuntsStartOnce(agents: Agents, hs: seq<Happening>, id: string)
    requires OneOwner(agents, id) && forall i :: 0 <= i < |hs| ==> !Issues(hs[i], id)
    ensures SuccessCount(agents, hs, id) <= LaunchCount(agents, hs, id) <= if Owned(agents, id) then 1 else 0
    decreases |hs|
  {
    if hs == [] {
    } else {
      StartConsumes(agents, hs[0], id);
      InterleavedHuntsStartOnce(Happens(agents, hs[0]), hs[1..], id);
    }
  }

  /** The POSTs of a hunt that nothing interferes with. */
  function HuntPosts(agents: Agents, targets: seq<string>, body: ApproveBody, world: string -> Delivery)
    : seq<Happening>
    decreases |targets|
  {
    if targets == [] then []
    else
      var t := targets[0];
      var post := Posted(t, body, world(t));
      [post] + if Succeeds(agents, post, body.requestId) then []
               else HuntPosts(Happens(agents, post), targets[1..], body, world)
  }

  /** They are the hunt: the same agents, and a success exactly if it finds somebody. */
  lemma {:induction false} HuntIsItsPosts(agents: Agents, targets: seq<string>, body: ApproveBody,
                                          world: string -> Delivery)
    ensures var h, posts := Hunted(agents, targets, body, world), HuntPosts(agents, targets, body, world);
            && h.agents == HappenAll(agents, posts)
            && SuccessCount(agents, posts, body.requestId) == if h.found.Some? then 1 else 0
    decreases |targets|
  {
    if targets == [] {
    } else {
      var t := targets[0];
      var post, posts := Posted(t, body, world(t)), HuntPosts(agents, targets, body, world);
      assert posts[0] == post;
      if Succeeds(agents, post, body.requestId) {
        assert posts[1..] == [];
      } else {
        var after := Happens(agents, post);
        assert posts[1..] == HuntPosts(after, targets[1..], body, world);
        HuntIsItsPosts(after, targets[1..], body, world);
      }
    }
  }

  /** The agents as the gateway reaches them. */
  class RemoteAgents {
    var agents: Agents

    constructor (agents: Agents)
      ensures this.agents == agents
    {
      this.agents := agents;
    }

    /** One POST to a tenant's approve route; None stands for a request error. */
    method Post(t: string, body: ApproveBody, d: Delivery) returns (answer: Option<Answer>)
      modifies this
      ensures agents == Contacted(old(agents), t, body, d)
      ensures answer.Some? && !answer.value.BadRequest? <==> Accepted(old(agents), t, body, d).Some?
      ensures answer.Some? && !answer.value.BadRequest? ==> answer == Accepted(old(agents), t, body, d)
    {
      if t !in agents || d.Lost? {
        return None;
      }
      answer := if d.answered then Some(Reply(agents[t], body, d.fate, d.talk)) else None;
      agents := agents[t := Approves(agents[t], body, d.fate)];
    }
  }

  datatype Outcome = MissingId | NoTargets | NotFound | Found(find: Find)

  /** The loop over the targets; the first one that answers with 200 is touched. */
  method HuntFor(manager: M.DockerManager, remote: RemoteAgents, targets: seq<string>, body: ApproveBody,
                 world: string -> Delivery, now: real)
    returns (find: Option<Find>)
    modifies manager, remote
    ensures Hunt(remote.agents, find) == Hunted(old(remote.agents), targets, body, world)
    ensures find.None? ==> manager.View() == old(manager.View())
    ensures find.Some? ==> manager.View() == T.Touch(old(manager.View()), find.value.tenant, now)
  {
    var i := 0;
    while i < |targets|
      invariant i <= |targets|
      invariant manager.View() == old(manager.View())
      invariant Hunted(old(remote.agents), targets, body, world) == Hunted(remote.agents, targets[i..], body, world)
    {
      var t := targets[i];
      assert targets[i..][0] == t && targets[i..][1..] == targets[i + 1..];
      var answer := remote.Post(t, body, world(t));
      if answer.Some? && !answer.value.BadRequest? {
        manager.Touch(t, now);
        return Some(Find(t, answer.value));
      }
      i := i + 1;
    }
    find := None;
  }

  /** Whom the gateway asks: the tenant named in the request, else every cached one; without a port nobody. */
  predicate IsTarget(w: T.World, tenant: Option<string>, t: string) {
    t in w.cache && w.cache[t].port != 0 && (Truthy(tenant) ==> tenant == Some(t))
  }

  /** A named tenant is looked up first. */
  function Looked(w: T.World, tenant: Option<string>, now: real): T.World {
    if Truthy(tenant) then T.Get(w, tenant.value, now).world else w
  }

  /** In terms of what is cached before: a named tenant is asked if looking it up gives a port, and without a name every
      cached tenant with a port is. */
  predicate MayBeAsked(w: T.World, tenant: Option<string>, now: real, t: string) {
    if tenant.Some? && tenant.value != "" then
      t == tenant.value && var tc := T.Get(w, t, now).tenant; tc.Some? && tc.value.port != 0
    else t in w.cache && w.cache[t].port != 0
  }

  lemma TargetsExactly(w: T.World, tenant: Option<string>, now: real, t: string)
    ensures IsTarget(Looked(w, tenant, now), tenant, t) <==> MayBeAsked(w, tenant, now, t)
  {
  }

  /** Who answers an approval of the request with 200. */
  predicate WouldAccept(w: T.World, agents: Agents, tenant: Option<string>, body: ApproveBody,
                        world: string -> Delivery, now: real, o: string)
  {
    MayBeAsked(w, tenant, now, o) && Owns(agents, o, body.requestId) && Accepted(agents, o, body, world(o)).Some?
  }

  method Targets(manager: M.DockerManager, tenant: Option<string>, now: real) returns (targets: seq<string>)
    modifies manager
    ensures manager.View() == Looked(old(manager.View()), tenant, now)
    ensures forall t :: t in targets <==> IsTarget(manager.View(), tenant, t)
  {
    if Truthy(tenant) {
      var tc := manager.GetTenant(tenant.value, now);
      return if tc.Some? && tc.value.port != 0 then [tenant.value] else [];
    }
    var all := M.Listed(manager.tenants.Keys);
    targets := [];
    for i := 0 to |all|
      invariant forall t :: t in targets <==> t in all[..i] && IsTarget(manager.View(), tenant, t)
    {
      assert all[..i + 1] == all[..i] + [all[i]] && all[i] in M.Elements(all);
      if manager.tenants[all[i]].port != 0 {
        targets := targets + [all[i]];
      }
    }
    assert all[..|all|] == all;
    assert forall t :: t in manager.tenants ==> t in M.Elements(all);
  }

  /** `approve` of the gateway. */
  method GatewayApprove(manager: M.DockerManager, remote: RemoteAgents, tenant: Option<string>, body: ApproveBody,
                        world: string -> Delivery, now: real)
    returns (outcome: Outcome)
    requires forall s, t :: Owns(remote.agents, s, body.requestId) && Owns(remote.agents, t, body.requestId) ==> s == t
    modifies manager, remote
    ensures outcome.MissingId? <==> body.requestId == ""
    ensures outcome.MissingId? || outcome.NoTargets? ==> remote.agents == old(remote.agents)
    ensures forall t :: t in old(remote.agents) && body.requestId !in old(remote.agents)[t].pending ==>
              t in remote.agents && remote.agents[t] == old(remote.agents)[t]
    ensures outcome.Found? ==>
              var o, id := outcome.find.tenant, body.requestId;
              && Owns(old(remote.agents), o, id) && !outcome.find.answer.BadRequest?
              && remote.agents == Contacted(old(remote.agents), o, body, world(o))
              && Accepted(old(remote.agents), o, body, world(o)) == Some(outcome.find.answer)
    ensures outcome.NoTargets? <==>
            body.requestId != "" && forall t :: !MayBeAsked(old(manager.View()), tenant, now, t)
    ensures body.requestId != "" ==>
              forall o :: WouldAccept(old(manager.View()), old(remote.agents), tenant, body, world, now, o) <==>
                          outcome.Found? && outcome.find.tenant == o
    ensures forall t :: t in old(remote.agents) && !MayBeAsked(old(manager.View()), tenant, now, t) ==>
              t in remote.agents && remote.agents[t] == old(remote.agents)[t]
    ensures manager.View() ==
            if outcome.MissingId? then old(manager.View())
            else if outcome.Found? then T.Touch(Looked(old(manager.View()), tenant, now), outcome.find.tenant, now)
            else Looked(old(manager.View()), tenant, now)
  {
    if body.requestId == "" {
      return MissingId;
    }
    var targets := Targets(manager, tenant, now);
    forall t
      ensures t in targets <==> MayBeAsked(old(manager.View()), tenant, now, t)
    {
      TargetsExactly(old(manager.View()), tenant, now, t);
    }
    if targets == [] {
      return NoTargets;
    }
    assert targets[0] in targets;
    ghost var before := remote.agents;
    var find := HuntFor(manager, remote, targets, body, world, now);
    if o :| o in targets && Owns(before, o, body.requestId) {
      HuntFindsTheOwner(before, targets, body, world, o);
    } else {
      NobodyOwns(before, targets, body, world);
    }
    outcome := if find.Some? then Found(find.value) else NotFound;
  }
}
