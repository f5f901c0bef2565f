/** The gateway's chat route: what a client's request becomes on the tenant's queue. */
module GatewayChat {
  import opened Prelude
  import opened Naming
  import opened Messages
  import opened Redis
  import opened AgentSide
  import opened MessageBus
  import Pipeline

  datatype ChatBody = ChatBody(message: string, session: Option<string>, tenant: Option<string>,
                               callback: Option<string>)

  datatype Reply = Accepted(session: string) | BadRequest

  /** The gateway's default tenant comes from its environment. */
  function DefaultTenant(tenantId: Option<string>): string {
    if tenantId.Some? then tenantId.value else "default"
  }

  function TenantOf(body: ChatBody, tenantId: Option<string>): string {
    var t := if body.tenant.Some? then Strip(body.tenant.value) else "";
    if t == "" then DefaultTenant(tenantId) else t
  }

  /** `model_dump` by alias without the absent fields. */
  function Dump(body: ChatBody): Payload {
    map["message" := body.message]
    + (if body.session.Some? then map["sessionId" := body.session.value] else map[])
    + (if body.tenant.Some? then map["tenantId" := body.tenant.value] else map[])
    + (if body.callback.Some? then map["callbackUrl" := body.callback.value] else map[])
  }

  lemma FieldNames()
    ensures |"message"| == 7 && |"sessionId"| == 9 && |"session_id"| == 10 && |"tenantId"| == 8
    ensures |"callbackUrl"| == 11 && |"callback_url"| == 12
  {
  }

  lemma Dumped(body: ChatBody)
    ensures var p := Dump(body);
            && Get(p, "message") == Some(body.message) && Get(p, "sessionId") == body.session
               && Get(p, "session_id") == None
            && Get(p, "callbackUrl") == body.callback && Get(p, "callback_url") == None
  {
    FieldNames();
  }

  function WithNames(p: Payload, session: string): Payload {
    p["sessionId" := session]["session_id" := session]
  }

  lemma NamesOnly(p: Payload, session: string)
    ensures var q := WithNames(p, session);
            && Get(q, "session_id") == Some(session) && Get(q, "sessionId") == Some(session)
            && Get(q, "message") == Get(p, "message")
            && Get(q, "callbackUrl") == Get(p, "callbackUrl") && Get(q, "callback_url") == Get(p, "callback_url")
  {
    FieldNames();
  }

  /** The queued payload carries the normalized session under both of its names. */
  function QueuedPayload(body: ChatBody): Payload {
    var p := Dump(body);
    WithNames(p, NormalizeSession(PyOr(Get(p, "sessionId"), Get(p, "session_id"))))
  }

  lemma DumpedSession(body: ChatBody)
    ensures var p := Dump(body);
            NormalizeSession(PyOr(Get(p, "sessionId"), Get(p, "session_id"))) == NormalizeSession(body.session)
  {
    Dumped(body);
  }

  /** What the queued request says, in the client's terms: its text, its callback if it gave one, and its session under
      both names. */
  predicate SaysWhatTheClientSaid(p: Payload, body: ChatBody) {
    && "message" in p && p["message"] == body.message
    && "session_id" in p && "sessionId" in p && p["session_id"] == p["sessionId"] == NormalizeSession(body.session)
    && (Given(p, "callbackUrl") <==> body.callback.Some? && body.callback.value != "")
    && (Given(p, "callbackUrl") ==> p["callbackUrl"] == body.callback.value)
    && "callback_url" !in p
  }

  /** So the agent answers it, under the session the client was told, and the dispatcher finds the callback. */
  lemma SaidIsUnderstood(p: Payload, body: ChatBody)
    requires SaysWhatTheClientSaid(p, body) && Strip(body.message) != ""
    ensures SessionOf(p) == NormalizeSession(body.session) && Answerable(p)
    ensures CallbackOf(p) == if Truthy(body.callback) then body.callback else None
  {
    var n := NormalizeSession(body.session);
    NormalizedShape(body.session);
    QualifiedIsFixed(n);
    CallbackIsGiven(p);
  }

  lemma SaysSo(p: Payload, body: ChatBody, n: string)
    requires Get(p, "message") == Some(body.message) && n == NormalizeSession(body.session)
    requires Get(p, "session_id") == Some(n) && Get(p, "sessionId") == Some(n)
    requires Get(p, "callbackUrl") == body.callback && Get(p, "callback_url") == None
    ensures SaysWhatTheClientSaid(p, body)
  {
  }

  /** That is what the queued payload says. */
  lemma QueuedPayloadMeaning(body: ChatBody, p: Payload)
    requires p == QueuedPayload(body)
    ensures SaysWhatTheClientSaid(p, body)
    ensures Strip(body.message) != "" ==>
              && SessionOf(p) == NormalizeSession(body.session) && Answerable(p)
              && CallbackOf(p) == if Truthy(body.callback) then body.callback else None
  {
    var n := NormalizeSession(body.session);
    Dumped(body);
    DumpedSession(body);
    NamesOnly(Dump(body), n);
    SaysSo(p, body, n);
    if Strip(body.message) != "" {
      SaidIsUnderstood(p, body);
    }
  }

  /** The request waits at the head of the tenant's queue, and nothing else has changed. */
  ghost predicate WaitsFor(b: Bus, b': Bus, t: string, body: ChatBody, uid: nat) {
    && b'.Queue(t) != []
    && var m := b'.Queue(t)[0];
       Queues(b, b', t, m) && m.uid == uid && SaysWhatTheClientSaid(m.payload, body)
  }

  lemma CallbackAlready(body: ChatBody)
    requires body.callback.Some?
    ensures QueuedPayload(body)["callbackUrl" := body.callback.value] == QueuedPayload(body)
  {
    var p := Dump(body);
    Dumped(body);
    NamesOnly(p, NormalizeSession(PyOr(Get(p, "sessionId"), Get(p, "session_id"))));
  }

  lemma HasSession(body: ChatBody)
    ensures "session_id" in QueuedPayload(body)
  {
  }

  /** POST /chat, after the tenant's container was made available. */
  method Chat(bus: RedisMessageBus, body: ChatBody, tenantId: Option<string>, uuid: string, uid: nat)
    returns (reply: Reply)
    modifies bus`lists
    ensures Strip(body.message) == "" ==> reply == BadRequest && bus.View() == old(bus.View())
    ensures Strip(body.message) != "" ==>
              && reply == Accepted(NormalizeSession(body.session))
              && var named := body.tenant.Some? && Strip(body.tenant.value) != "";
                 && (named ==> WaitsFor(old(bus.View()), bus.View(), Strip(body.tenant.value), body, uid))
                 && (!named && tenantId.Some? ==> WaitsFor(old(bus.View()), bus.View(), tenantId.value, body, uid))
                 && (!named && tenantId.None? ==> WaitsFor(old(bus.View()), bus.View(), "default", body, uid))
  {
    if Strip(body.message) == "" {
      return BadRequest;
    }
    var payload := Dump(body);
    var session := NormalizeSession(PyOr(Get(payload, "sessionId"), Get(payload, "session_id")));
    payload := WithNames(payload, session);
    if Truthy(body.callback) {
      CallbackAlready(body);
      payload := payload["callbackUrl" := body.callback.value];
    }
    HasSession(body);
    DumpedSession(body);
    QueuedPayloadMeaning(body, payload);
    var _ := bus.PublishRequest(TenantOf(body, tenantId), payload, uuid, uid);
    reply := Accepted(session);
  }

  /** POST /chat/async insists on a callback. */
  method ChatAsync(bus: RedisMessageBus, body: ChatBody, tenantId: Option<string>, uuid: string, uid: nat)
    returns (reply: Reply)
    modifies bus`lists
    ensures Truthy(body.callback) && Strip(body.message) != "" ==>
              && reply == Accepted(NormalizeSession(body.session))
              && var named := body.tenant.Some? && Strip(body.tenant.value) != "";
                 && (named ==> WaitsFor(old(bus.View()), bus.View(), Strip(body.tenant.value), body, uid))
                 && (!named && tenantId.Some? ==> WaitsFor(old(bus.View()), bus.View(), tenantId.value, body, uid))
                 && (!named && tenantId.None? ==> WaitsFor(old(bus.View()), bus.View(), "default", body, uid))
    ensures !(Truthy(body.callback) && Strip(body.message) != "") ==>
            reply == BadRequest && bus.View() == old(bus.View())
  {
    if !Truthy(body.callback) {
      return BadRequest;
    }
    reply := Chat(bus, body, tenantId, uuid, uid);
  }

  /** From the client's point of view: a POST made for its request goes to the callback it gave, under the session id it
      was answered with. */
  lemma WebhookReachesClient(maxRetries: nat, trace: seq<Pipeline.Step>, s: Pipeline.State, u: nat, body: ChatBody,
                             i: nat)
    requires Pipeline.Reached(maxRetries, trace, s) && i < |s.d.posts| && s.d.posts[i].entry.event.Uid() == u
    requires u < |s.a.published| && SaysWhatTheClientSaid(s.a.published[u].payload, body) && Strip(body.message) != ""
    ensures body.callback == Some(s.d.posts[i].url) && s.d.posts[i].body.session == Some(NormalizeSession(body.session))
  {
    Pipeline.WebhooksAreTruthful(maxRetries, trace, s, s.d.posts[i]);
    SaidIsUnderstood(s.a.published[u].payload, body);
  }
}
