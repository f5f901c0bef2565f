/** Requests and events as they travel over the bus. JSON text is not modelled: a payload is the dictionary itself. */
module Messages {
  import opened Prelude
  import opened Naming

  /** A request body: a JSON object whose values are strings. */
  type Payload = map<string, string>

  function Get(p: Payload, key: string): Option<string> {
    if key in p then Some(p[key]) else None
  }

  /** The callback the dispatcher finds in a request; an empty string counts as none. */
  function CallbackOf(p: Payload): Option<string> {
    var url := PyOr(Get(p, "callbackUrl"), Get(p, "callback_url"));
    if Truthy(url) then url else None
  }

  /** The session under which the agent runs a request. */
  function SessionOf(p: Payload): string {
    NormalizeSession(PyOr(Get(p, "session_id"), Get(p, "sessionId")))
  }

  /** The request has something to say under the key. */
  predicate Given(p: Payload, key: string) {
    key in p && p[key] != ""
  }

  /** The callback of a request is under either of its names, the camel-case one first. */
  lemma CallbackIsGiven(p: Payload)
    ensures CallbackOf(p).Some? <==> Given(p, "callbackUrl") || Given(p, "callback_url")
    ensures Given(p, "callbackUrl") ==> CallbackOf(p) == Some(p["callbackUrl"])
    ensures !Given(p, "callbackUrl") && Given(p, "callback_url") ==> CallbackOf(p) == Some(p["callback_url"])
  {
  }

  /** Its session too, the snake-case one first; without either, or if both are blank, it is the default one. */
  lemma SessionIsGiven(p: Payload)
    ensures Given(p, "session_id") ==> SessionOf(p) == NormalizeSession(Some(p["session_id"]))
    ensures !Given(p, "session_id") && Given(p, "sessionId") ==> SessionOf(p) == NormalizeSession(Some(p["sessionId"]))
    ensures !Given(p, "session_id") && !Given(p, "sessionId") ==> SessionOf(p) == "api:direct"
  {
    SessionNames(PyOr(Get(p, "session_id"), Get(p, "sessionId")));
  }

  /** A queued request. `uid` is its position in the log of published requests: it exists in the model only,
      to tell apart requests with equal bodies. */
  datatype Message = Message(uid: nat, payload: Payload)

  /** How a chat turn ends: a response, perhaps with the id of a requested approval, or an exception. */
  datatype RunResult = Returned(response: string, approval: Option<string>) | Raised(error: string)

  /** A done or error event: how the turn of a request ended, with the request itself for the dispatcher.
      `session` is the `_session_id` field that only the copy on the global stream carries. */
  datatype Outcome = Outcome(uid: nat, result: RunResult, request: Payload, session: Option<string>) {
    predicate Done() { result.Returned? }
  }

  datatype Event = Progress(reportOn: nat, text: string, toolHint: bool) | Ends(outcome: Outcome) {
    /** The request the event reports on. */
    function Uid(): nat {
      if Progress? then reportOn else outcome.uid
    }

    /** Position in the only order in which one request's events can appear on its session stream. */
    function Rank(): nat {
      if Progress? then 0 else if outcome.Done() then 1 else 2
    }
  }

  /** The event the listener builds from the result of a turn. */
  function OutcomeOf(m: Message, r: RunResult): Outcome {
    Outcome(m.uid, r, m.payload, None)
  }
}
