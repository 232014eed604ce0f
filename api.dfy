/** The route endpoint of the HTTP API (packages/api/src/index.ts): request
    validation, the memory handed to the agents, the conversation history
    with its bound, the state written back and the response. Reading and
    writing the stored document, the clock and `JSON.parse` are parameters. */
module Api {
  import opened Wrappers
  import opened Text
  import opened Context
  import opened Agents
  import EnvConfig

  // ---------------------------------------------------------------------------
  // Configuration
  // ---------------------------------------------------------------------------

  datatype FirestoreConfig = FirestoreConfig(
    projectId: Option<string>,
    collection: string,
    docId: string,
    maxMessages: NumberValue)

  function FirstDefined(a: Option<string>, b: Option<string>): (r: Option<string>)
    ensures a.Some? ==> r == a
    ensures a.None? ==> r == b
  {
    if a.Some? then a else b
  }

  /** `firestoreConfig`: each setting from its variable, with the defaults
      "assistant", "global" and 200 messages. */
  function FirestoreConfigOf(env: EnvConfig.Env): (c: FirestoreConfig)
    ensures "FIRESTORE_COLLECTION" !in env ==> c.collection == "assistant"
    ensures "FIRESTORE_DOC_ID" !in env ==> c.docId == "global"
    ensures "FIRESTORE_MAX_MESSAGES" !in env ==> c.maxMessages == Finite(200)
    ensures "FIRESTORE_MAX_MESSAGES" in env ==> c.maxMessages == ParseNumber(env["FIRESTORE_MAX_MESSAGES"])
    ensures "FIRESTORE_COLLECTION" in env ==> c.collection == env["FIRESTORE_COLLECTION"]
    ensures "FIRESTORE_DOC_ID" in env ==> c.docId == env["FIRESTORE_DOC_ID"]
    ensures c.projectId == FirstDefined(EnvConfig.Lookup(env, "FIREBASE_PROJECT_ID"), EnvConfig.Lookup(env, "GCP_PROJECT_ID"))
    ensures c.projectId.Some? <==> "FIREBASE_PROJECT_ID" in env || "GCP_PROJECT_ID" in env
  {
    FirestoreConfig(
      FirstDefined(EnvConfig.Lookup(env, "FIREBASE_PROJECT_ID"), EnvConfig.Lookup(env, "GCP_PROJECT_ID")),
      EnvConfig.Lookup(env, "FIRESTORE_COLLECTION").GetOr("assistant"),
      EnvConfig.Lookup(env, "FIRESTORE_DOC_ID").GetOr("global"),
      if "FIRESTORE_MAX_MESSAGES" in env then ParseNumber(env["FIRESTORE_MAX_MESSAGES"]) else Finite(200))
  }

  // ---------------------------------------------------------------------------
  // Stored state
  // ---------------------------------------------------------------------------

  datatype Role = User | AgentRole

  datatype StoredMessage = StoredMessage(role: Role, text: string, agentId: Option<string>, at: string)

  datatype StoredState = StoredState(
    memory: Option<Memory>,
    messages: Option<seq<StoredMessage>>,
    updatedAt: Option<string>)

  /** `mergeMemory`: the stored keys, each overridden by the provider
      memory where that has the key. */
  function MergeMemory(stored: Option<Memory>, providerMemory: Memory): (m: Memory)
    ensures m.Keys == stored.GetOr(map[]).Keys + providerMemory.Keys
    ensures forall k :: k in providerMemory ==> m[k] == providerMemory[k]
    ensures forall k :: k in stored.GetOr(map[]) && k !in providerMemory ==> m[k] == stored.GetOr(map[])[k]
  {
    stored.GetOr(map[]) + providerMemory
  }

  /** The user message and the agent message of one exchange, stamped with
      the same time. */
  function Exchange(input: string, reply: string, agentId: string, at: string): seq<StoredMessage> {
    [StoredMessage(User, input, None, at), StoredMessage(AgentRole, reply, Some(agentId), at)]
  }

  /** `messages.slice(-maxMessages)` when the bound is finite and positive,
      else every message. */
  function TrimHistory(messages: seq<StoredMessage>, maxMessages: NumberValue): (r: seq<StoredMessage>)
    ensures maxMessages.Finite? && maxMessages.n > 0 ==>
      |r| == (if maxMessages.n < |messages| then maxMessages.n else |messages|)
    ensures !(maxMessages.Finite? && maxMessages.n > 0) ==> r == messages
    ensures |r| <= |messages| && r == messages[|messages| - |r|..]
  {
    if maxMessages.Finite? && maxMessages.n > 0 && maxMessages.n < |messages| then
      messages[|messages| - maxMessages.n..]
    else messages
  }

  /** Trimming never drops the newest messages that fit under the bound:
      with room for two, the whole new exchange survives. */
  lemma TrimKeepsNewest(history: seq<StoredMessage>, exchange: seq<StoredMessage>, maxMessages: NumberValue)
    requires |exchange| == 2
    requires !(maxMessages.Finite? && maxMessages.n > 0) || maxMessages.n >= 2
    ensures var r := TrimHistory(history + exchange, maxMessages);
            |r| >= 2 && r[|r| - 2..] == exchange
  {
    var all := history + exchange;
    var r := TrimHistory(all, maxMessages);
    assert all[|all| - 2..] == exchange;
    assert r[|r| - 2..] == all[|all| - 2..];
  }

  /** The memory written back: the stored memory (never the provider
      memory) with the last agent, the last reply and the time. */
  function PersistedMemory(stored: Option<Memory>, agentId: string, reply: string, at: string): (m: Memory)
    ensures m.Keys == stored.GetOr(map[]).Keys + {"lastAgentId", "lastReply", "updatedAt"}
    ensures m["lastAgentId"] == TextValue(agentId) && m["lastReply"] == TextValue(reply) && m["updatedAt"] == TextValue(at)
    ensures forall k :: k in stored.GetOr(map[]) && k !in {"lastAgentId", "lastReply", "updatedAt"} ==>
      m[k] == stored.GetOr(map[])[k]
  {
    stored.GetOr(map[])["lastAgentId" := TextValue(agentId)]["lastReply" := TextValue(reply)]["updatedAt" := TextValue(at)]
  }

  // ---------------------------------------------------------------------------
  // Requests and responses
  // ---------------------------------------------------------------------------

  /** What `data.input` is: absent, a string, or some other value. */
  datatype InputField = NoInput | TextInput(text: string) | OtherInput

  /** What `JSON.parse` made of the body: a syntax error, `null` (reading
      `input` from it throws), or a value with its `input` and `userId`. */
  datatype ParsedBody = ParseFailed(error: string) | ParsedNull | Parsed(input: InputField, userId: Option<string>)

  const NullBodyError: string := "TypeError: " + "Cannot read " + "properties of " + "null (reading " + "'input')"

  datatype ResponseBody =
    | ErrorBody(error: string)
    | RoutedBody(agentId: string, reply: string, metadata: Option<Metadata>)

  datatype Response = Response(status: int, body: ResponseBody)

  /** The request bytes as text: the chunks in arrival order. */
  function Concat(chunks: seq<string>): string {
    if chunks == [] then "" else Concat(chunks[..|chunks| - 1]) + chunks[|chunks| - 1]
  }

  /** The text handed to `JSON.parse`: "{}" when no chunk arrived. */
  function BodyText(chunks: seq<string>): string {
    if |chunks| > 0 then Concat(chunks) else "{}"
  }

  /** The `data` listener that collects the request chunks, and the text
      the `end` listener reads from them. */
  method ReadBody(chunks: seq<string>) returns (text: string)
    ensures text == BodyText(chunks)
  {
    text := "";
    var i := 0;
    while i < |chunks|
      invariant 0 <= i <= |chunks|
      invariant text == Concat(chunks[..i])
    {
      assert chunks[..i + 1][..i] == chunks[..i];
      text := text + chunks[i];
      i := i + 1;
    }
    assert chunks[..|chunks|] == chunks;
    if |chunks| == 0 {
      text := "{}";
    }
  }

  /** A usable input: a non-empty string. */
  predicate ValidInput(input: InputField) {
    input.TextInput? && input.text != ""
  }

  datatype Handled = Handled(response: Response, written: Option<StoredState>)

  /** Everything `handleRoute` does for one request. `stored` is what
      reading the document gave (or the error it threw), `write` whether
      writing threw; `written` is the state written, if the write
      happened and succeeded. */
  function HandleRouteSpec(
    body: ParsedBody, stored: Result<StoredState, string>, providerMemory: Memory,
    agents: seq<Agent>, w: World, nowIso: string, maxMessages: NumberValue, write: Outcome<string>): Handled
  {
    match body
    case ParseFailed(e) => Handled(Response(500, ErrorBody(e)), None)
    case ParsedNull => Handled(Response(500, ErrorBody(NullBodyError)), None)
    case Parsed(input, userId) =>
      if !ValidInput(input) then Handled(Response(400, ErrorBody("Missing input")), None)
      else match stored
        case Failure(e) => Handled(Response(500, ErrorBody(e)), None)
        case Success(state) =>
          var ctx := AgentContext(userId.GetOr("web"), input.text, MergeMemory(state.memory, providerMemory));
          match Dispatch(agents, ctx, w)
          case Failure(e) => Handled(Response(500, ErrorBody(e)), None)
          case Success(routed) =>
            var id := routed.agent.id;
            var reply := routed.result.reply;
            var messages := state.messages.GetOr([]) + Exchange(input.text, reply, id, nowIso);
            var next := StoredState(
              Some(PersistedMemory(state.memory, id, reply, nowIso)),
              Some(TrimHistory(messages, maxMessages)),
              Some(nowIso));
            match write
            case Fail(e) => Handled(Response(500, ErrorBody(e)), None)
            case Pass => Handled(Response(200, RoutedBody(id, reply, routed.result.metadata)), Some(next))
  }

  /** `handleRoute`: collects the body chunks, then validates, routes,
      records the exchange and answers. */
  method HandleRoute(
    chunks: seq<string>, parseBody: string -> ParsedBody, stored: Result<StoredState, string>,
    providerMemory: Memory, assistant: Assistant, w: World, nowIso: string, maxMessages: NumberValue,
    write: Outcome<string>)
    returns (response: Response, written: Option<StoredState>)
    ensures Handled(response, written) ==
      HandleRouteSpec(parseBody(BodyText(chunks)), stored, providerMemory, assistant.agents, w, nowIso, maxMessages, write)
  {
    var text := ReadBody(chunks);
    var data := parseBody(text);
    match data
    case ParseFailed(e) => return Response(500, ErrorBody(e)), None;
    case ParsedNull => return Response(500, ErrorBody(NullBodyError)), None;
    case Parsed(input, userId) =>
      if !ValidInput(input) {
        return Response(400, ErrorBody("Missing input")), None;
      }
      if stored.Failure? {
        return Response(500, ErrorBody(stored.error)), None;
      }
      var state := stored.value;
      var memory := MergeMemory(state.memory, providerMemory);
      var routed := assistant.Route(AgentContext(userId.GetOr("web"), input.text, memory), w);
      if routed.Failure? {
        return Response(500, ErrorBody(routed.error)), None;
      }
      var agent := routed.value.agent;
      var result := routed.value.result;
      var messages := state.messages.GetOr([]) + Exchange(input.text, result.reply, agent.id, nowIso);
      var trimmed := TrimHistory(messages, maxMessages);
      var next := StoredState(Some(PersistedMemory(state.memory, agent.id, result.reply, nowIso)), Some(trimmed), Some(nowIso));
      if write.Fail? {
        return Response(500, ErrorBody(write.error)), None;
      }
      response := Response(200, RoutedBody(agent.id, result.reply, result.metadata));
      written := Some(next);
  }

  // ---------------------------------------------------------------------------
  // Properties
  // ---------------------------------------------------------------------------

  /** A missing, empty or non-string input is a 400 before anything is read,
      routed or written. */
  lemma MissingInputRejected(
    userId: Option<string>, input: InputField, stored: Result<StoredState, string>, providerMemory: Memory,
    agents: seq<Agent>, w: World, nowIso: string, maxMessages: NumberValue, write: Outcome<string>)
    requires !ValidInput(input)
    ensures HandleRouteSpec(Parsed(input, userId), stored, providerMemory, agents, w, nowIso, maxMessages, write)
      == Handled(Response(400, ErrorBody("Missing input")), None)
  {
  }

  /** The response codes: 200 exactly when routing and both storage calls
      succeeded, and only then is state written; every error is a 500
      carrying its text, except the 400 for a bad input. */
  lemma StatusCodes(
    body: ParsedBody, stored: Result<StoredState, string>, providerMemory: Memory,
    agents: seq<Agent>, w: World, nowIso: string, maxMessages: NumberValue, write: Outcome<string>)
    ensures var h := HandleRouteSpec(body, stored, providerMemory, agents, w, nowIso, maxMessages, write);
            && (h.response.status == 200 || h.response.status == 400 || h.response.status == 500)
            && (h.written.Some? <==> h.response.status == 200)
            && (h.response.status == 200 <==> h.response.body.RoutedBody?)
            && (h.response.status == 400 <==> body.Parsed? && !ValidInput(body.input))
            && (agents == [] ==> h.response.status != 200)
  {
  }

  /** On success the history is the stored messages, then the user's input,
      then the agent's reply with its id, both at the same time, cut to the
      newest `maxMessages`; the memory written is the stored one plus the
      three bookkeeping keys; the answer names the routed agent. */
  lemma SuccessfulExchange(
    body: ParsedBody, state: StoredState, providerMemory: Memory,
    agents: seq<Agent>, w: World, nowIso: string, maxMessages: NumberValue)
    requires body.Parsed? && ValidInput(body.input)
    requires HandleRouteSpec(body, Success(state), providerMemory, agents, w, nowIso, maxMessages, Pass).response.status == 200
    ensures var h := HandleRouteSpec(body, Success(state), providerMemory, agents, w, nowIso, maxMessages, Pass);
            var ctx := AgentContext(body.userId.GetOr("web"), body.input.text, MergeMemory(state.memory, providerMemory));
            var routed := Dispatch(agents, ctx, w).value;
            && Dispatch(agents, ctx, w).Success?
            && h.response.body == RoutedBody(routed.agent.id, routed.result.reply, routed.result.metadata)
            && h.written.value.messages == Some(TrimHistory(
                 state.messages.GetOr([]) + [StoredMessage(User, body.input.text, None, nowIso),
                                             StoredMessage(AgentRole, routed.result.reply, Some(routed.agent.id), nowIso)],
                 maxMessages))
            && h.written.value.memory == Some(PersistedMemory(state.memory, routed.agent.id, routed.result.reply, nowIso))
            && h.written.value.updatedAt == Some(nowIso)
  {
  }

  /** A provider key that was not stored is never written back. */
  lemma ProviderMemoryNotPersisted(stored: Option<Memory>, agentId: string, reply: string, at: string, k: string)
    requires k !in stored.GetOr(map[]) && k !in {"lastAgentId", "lastReply", "updatedAt"}
    ensures k !in PersistedMemory(stored, agentId, reply, at)
  {
  }
}
