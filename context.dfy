/** The shared vocabulary of the agents package (packages/agents/src/index.ts
    and the provider types the agents consume): the request context and its
    memory bag, agent results and their metadata, the agent record, the
    intent-router protocol, and the per-request outcomes of everything the
    core cannot see (clock, providers, the Gemini service, `JSON.parse`). */
module Context {
  import opened Wrappers
  import opened Text

  // ---------------------------------------------------------------------------
  // Provider configurations (what the env parsers build)
  // ---------------------------------------------------------------------------

  /** `ClickUpConfig` of clickup.ts. `dueInDays` holds what `Number(...)`
      gave, NaN included. */
  datatype ClickUpConfig = ClickUpConfig(
    apiToken: string,
    listIds: seq<string>,
    assigneeId: Option<string>,
    includeClosed: Option<bool>,
    dueInDays: Option<NumberValue>,
    baseUrl: Option<string>)

  /** The options handed to the Flowtly MCP provider factory. */
  datatype FlowtlyConfig = FlowtlyConfig(
    baseUrl: string,
    apiKey: Option<string>,
    clientId: Option<string>,
    clientSecret: Option<string>,
    workspaceId: Option<string>)

  // ---------------------------------------------------------------------------
  // The memory bag
  // ---------------------------------------------------------------------------

  /** The shapes a value of `ctx.memory` can take, as far as the core probes
      them. `ObjectValue` is any other object (an injected stub, say) with the
      names of its function-valued fields; `FunctionValue` is a bare function
      (an intent-router override). */
  datatype MemValue =
    | ClickUpRestProvider(clickup: ClickUpConfig)
    | FlowtlyMcpProvider(flowtly: FlowtlyConfig)
    | ObjectValue(functionFields: set<string>)
    | FunctionValue
    | TextValue(text: string)
    | OtherValue

  type Memory = map<string, MemValue>

  datatype AgentContext = AgentContext(userId: string, input: string, memory: Memory)

  // ---------------------------------------------------------------------------
  // Results
  // ---------------------------------------------------------------------------

  /** The metadata records the agents return; a field that a record does not
      set is `None`. */
  datatype Metadata = Metadata(
    connected: Option<bool>,
    taskCount: Option<nat>,
    summaryMode: Option<string>,
    error: Option<string>,
    input: Option<string>)

  function Connected(b: bool): Metadata {
    Metadata(Some(b), None, None, None, None)
  }

  datatype AgentResult = AgentResult(reply: string, handoff: Option<string>, metadata: Option<Metadata>)

  function Reply(text: string, meta: Metadata): AgentResult {
    AgentResult(text, None, Some(meta))
  }

  // ---------------------------------------------------------------------------
  // Provider data
  // ---------------------------------------------------------------------------

  /** A task's `dueAt`, present only when its text is non-empty; `instant`
      is what `Date.parse` makes of it, `None` when that is not finite. */
  datatype Due = Due(instant: Option<int>)

  datatype TodoTask = TodoTask(
    id: string,
    name: string,
    status: Option<string>,
    dueAt: Option<Due>,
    priority: Option<string>,
    url: Option<string>)

  /** A finance metric (`label` is a reserved word in Dafny, hence `labelText`);
      `value` is the text the template literal renders. */
  datatype Metric = Metric(labelText: string, value: string, delta: Option<string>)

  datatype Snapshot = Snapshot(
    asOf: Option<string>,
    metrics: Option<seq<Metric>>,
    notes: Option<seq<string>>)

  // ---------------------------------------------------------------------------
  // Intent routing
  // ---------------------------------------------------------------------------

  datatype IntentDecision = IntentDecision(agentId: string, reason: Option<string>)

  /** What a call of an intent router did: threw, or resolved to a decision
      or to `null`. */
  datatype RouterOutcome = RouterThrew(error: string) | RouterReturned(decision: Option<IntentDecision>)

  /** The fields of a parsed JSON object that the router reads; `agentId` is
      `None` when absent or not a string. */
  datatype JsonDecision = JsonDecision(agentId: Option<string>, reason: Option<string>)

  /** What the Gemini summary request of the finance agent did. */
  datatype SummaryCall = SummaryThrew(error: string) | SummaryNotOk | SummaryText(text: string)

  /** Everything one request observes outside the core. */
  datatype World = World(
    apiKey: Option<string>,                        // the Gemini API key of the environment
    routerOverride: RouterOutcome,                 // what `memory.intentRouter` yields when called
    geminiRouting: Result<string, string>,         // routing call: the candidates' text, or the error thrown
    parseJson: string -> Option<JsonDecision>,     // `JSON.parse`, `None` on a syntax error
    nowMs: int,                                    // `Date.now()`
    tasks: Result<seq<TodoTask>, string>,          // what the task provider's `listTasks` yields
    snapshot: Result<Snapshot, string>,            // what the finance provider's `getSnapshot` yields
    summary: SummaryCall)                          // the finance agent's Gemini summary call

  /** An agent. `canHandle` is a function of the input text; `handle` may
      fail, and its failure propagates out of routing. */
  datatype Agent = Agent(
    id: string,
    description: string,
    visible: Option<bool>,
    canHandle: string -> bool,
    handle: (AgentContext, World) -> Result<AgentResult, string>)

  predicate IsVisible(a: Agent) {
    a.visible != Some(false)
  }
}
