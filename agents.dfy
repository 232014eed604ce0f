/** The assistant (packages/agents/src/index.ts): an ordered registry of
    agents, the visible listing, intent-router resolution, the JSON
    extraction of a routing answer, routing, and the default agent set. */
module Agents {
  import opened Wrappers
  import opened Text
  import opened Context
  import TodoAgent
  import FinanceAgent

  const NoAgents: string := "Error: No agents registered"

  function AlreadyRegistered(id: string): string {
    "Error: Agent " + "already " + "registered: " + id
  }

  // ---------------------------------------------------------------------------
  // extractJsonObject
  // ---------------------------------------------------------------------------

  /** `s.indexOf(c)`: the first position of `c`, or -1. */
  function FirstIndex(s: string, c: char): (i: int)
    ensures -1 <= i < |s|
    ensures i == -1 <==> c !in s
    ensures 0 <= i ==> i < |s| && s[i] == c && c !in s[..i]
  {
    if c in s then IndexOf(s, c) else -1
  }

  /** `s.lastIndexOf(c)`: the last position of `c`, or -1. */
  function LastIndex(s: string, c: char): (i: int)
    ensures -1 <= i < |s|
    ensures i == -1 <==> c !in s
    ensures 0 <= i ==> s[i] == c && c !in s[i + 1..]
  {
    if s == [] then -1
    else if s[|s| - 1] == c then |s| - 1
    else
      var i := LastIndex(s[..|s| - 1], c);
      assert s == s[..|s| - 1] + [s[|s| - 1]];
      if 0 <= i then assert s[i + 1..] == s[..|s| - 1][i + 1..] + [s[|s| - 1]]; i else i
  }

  /** The text from the first `{` to the last `}`, both included, or
      nothing when there is no `{` or no `}` after it. */
  function JsonSlice(text: string): (r: Option<string>)
    ensures r.None? <==> '{' !in text || LastIndex(text, '}') <= FirstIndex(text, '{')
    ensures r.Some? ==>
      && |r.value| >= 2 && r.value[0] == '{' && r.value[|r.value| - 1] == '}'
      && exists i :: 0 <= i <= |text| - |r.value| && OccursAt(text, r.value, i) && '{' !in text[..i] && '}' !in text[i + |r.value|..]
  {
    var start := FirstIndex(text, '{');
    var end := LastIndex(text, '}');
    if start < 0 || end <= start then None
    else
      var slice := text[start..end + 1];
      assert OccursAt(text, slice, start);
      Some(slice)
  }

  /** `extractJsonObject`: the slice parsed, `null` when there is no slice
      or it does not parse. */
  function ExtractJsonObject(text: string, parse: string -> Option<JsonDecision>): (r: Option<JsonDecision>)
    ensures JsonSlice(text).None? ==> r.None?
    ensures JsonSlice(text).Some? ==> r == parse(JsonSlice(text).value)
  {
    match JsonSlice(text)
    case None => None
    case Some(slice) => parse(slice)
  }

  // ---------------------------------------------------------------------------
  // Intent routers
  // ---------------------------------------------------------------------------

  /** Which router `resolveIntentRouter` picks. */
  datatype Router = OverrideRouter | GeminiRouter(apiKey: string)

  predicate HasRouterOverride(ctx: AgentContext) {
    "intentRouter" in ctx.memory && ctx.memory["intentRouter"].FunctionValue?
  }

  /** A function in `memory.intentRouter` wins; otherwise a Gemini router
      exists exactly when an API key is set; otherwise there is none. */
  function ResolveIntentRouter(ctx: AgentContext, apiKey: Option<string>): (r: Option<Router>)
    ensures HasRouterOverride(ctx) ==> r == Some(OverrideRouter)
    ensures !HasRouterOverride(ctx) ==> (r.Some? <==> apiKey.Some? && apiKey.value != "")
    ensures r.Some? && r.value.GeminiRouter? ==> apiKey == Some(r.value.apiKey)
    ensures !HasRouterOverride(ctx) && apiKey.Some? && apiKey.value != "" ==> r == Some(GeminiRouter(apiKey.value))
  {
    if HasRouterOverride(ctx) then Some(OverrideRouter)
    else if apiKey.Some? && apiKey.value != "" then Some(GeminiRouter(apiKey.value))
    else None
  }

  /** The decision checks of the Gemini router: an error response or a
      failed request throws; an empty answer, an answer without a parsable
      object, or an object whose `agentId` is not a string gives `null`. */
  function GeminiDecision(routing: Result<string, string>, parse: string -> Option<JsonDecision>): (r: RouterOutcome)
    ensures r.RouterThrew? <==> routing.Failure?
    ensures r.RouterReturned? && r.decision.Some? ==>
      && routing.value != ""
      && ExtractJsonObject(routing.value, parse).Some?
      && ExtractJsonObject(routing.value, parse).value.agentId == Some(r.decision.value.agentId)
    ensures routing.Success? && routing.value != "" && ExtractJsonObject(routing.value, parse).Some? &&
            ExtractJsonObject(routing.value, parse).value.agentId.Some? ==>
              var parsed := ExtractJsonObject(routing.value, parse).value;
              r == RouterReturned(Some(IntentDecision(parsed.agentId.value, parsed.reason)))
  {
    match routing
    case Failure(e) => RouterThrew(e)
    case Success(text) =>
      if text == "" then RouterReturned(None)
      else
        match ExtractJsonObject(text, parse)
        case None => RouterReturned(None)
        case Some(parsed) =>
          if parsed.agentId.None? then RouterReturned(None)
          else RouterReturned(Some(IntentDecision(parsed.agentId.value, parsed.reason)))
  }

  /** What `route` learns from the router: a thrown error is swallowed and
      reads as no decision. */
  function Decision(ctx: AgentContext, w: World): (d: Option<IntentDecision>)
    ensures ResolveIntentRouter(ctx, w.apiKey).None? ==> d.None?
    ensures HasRouterOverride(ctx) && w.routerOverride.RouterReturned? ==> d == w.routerOverride.decision
    ensures HasRouterOverride(ctx) && w.routerOverride.RouterThrew? ==> d.None?
    ensures !HasRouterOverride(ctx) && w.apiKey.Some? && w.apiKey.value != "" && w.geminiRouting.Failure? ==> d.None?
  {
    var outcome :=
      match ResolveIntentRouter(ctx, w.apiKey)
      case None => RouterReturned(None)
      case Some(OverrideRouter) => w.routerOverride
      case Some(GeminiRouter(_)) => GeminiDecision(w.geminiRouting, w.parseJson);
    match outcome
    case RouterThrew(_) => None
    case RouterReturned(decision) => decision
  }

  // ---------------------------------------------------------------------------
  // Selection
  // ---------------------------------------------------------------------------

  predicate UniqueIds(agents: seq<Agent>) {
    forall i, j :: 0 <= i < j < |agents| ==> agents[i].id != agents[j].id
  }

  predicate HasId(agents: seq<Agent>, id: string) {
    exists i :: 0 <= i < |agents| && agents[i].id == id
  }

  /** `agents.find(agent => agent.id === id)`, as an index or -1. */
  function FindById(agents: seq<Agent>, id: string): (i: int)
    ensures -1 <= i < |agents|
    ensures i == -1 <==> !HasId(agents, id)
    ensures 0 <= i ==> agents[i].id == id && forall k :: 0 <= k < i ==> agents[k].id != id
  {
    if agents == [] then -1
    else if agents[0].id == id then 0
    else
      var i := FindById(agents[1..], id);
      if i < 0 then -1 else i + 1
  }

  /** `agents.find(a => a.canHandle(ctx))`, as an index or -1. */
  function FindHandler(agents: seq<Agent>, input: string): (i: int)
    ensures -1 <= i < |agents|
    ensures i == -1 <==> forall k :: 0 <= k < |agents| ==> !agents[k].canHandle(input)
    ensures 0 <= i ==> agents[i].canHandle(input) && forall k :: 0 <= k < i ==> !agents[k].canHandle(input)
  {
    if agents == [] then -1
    else if agents[0].canHandle(input) then 0
    else
      var i := FindHandler(agents[1..], input);
      if i < 0 then -1 else i + 1
  }

  /** `selectedAgent ?? agents.find(canHandle) ?? agents[0]`, as an index. */
  function SelectIndex(agents: seq<Agent>, decision: Option<IntentDecision>, input: string): (r: Option<nat>)
    ensures r.None? <==> agents == []
    ensures r.Some? ==> r.value < |agents|
  {
    var byRouter := if decision.Some? && decision.value.agentId != "" then FindById(agents, decision.value.agentId) else -1;
    if 0 <= byRouter then Some(byRouter)
    else
      var byPredicate := FindHandler(agents, input);
      if 0 <= byPredicate then Some(byPredicate)
      else if agents != [] then Some(0)
      else None
  }

  /** The loop behind `agents.find(a => a.id === agentId)`. */
  method LocateById(agents: seq<Agent>, id: string) returns (i: int)
    ensures i == FindById(agents, id)
  {
    i := 0;
    while i < |agents| && agents[i].id != id
      invariant 0 <= i <= |agents|
      invariant forall k :: 0 <= k < i ==> agents[k].id != id
    {
      i := i + 1;
    }
    if i == |agents| {
      i := -1;
    }
  }

  /** The loop behind `agents.find(a => a.canHandle(ctx))`. */
  method LocateHandler(agents: seq<Agent>, input: string) returns (i: int)
    ensures i == FindHandler(agents, input)
  {
    i := 0;
    while i < |agents| && !agents[i].canHandle(input)
      invariant 0 <= i <= |agents|
      invariant forall k :: 0 <= k < i ==> !agents[k].canHandle(input)
    {
      i := i + 1;
    }
    if i == |agents| {
      i := -1;
    }
  }

  /** The agent `route` picks: the router's choice when it names a
      registered agent, else the first willing agent, else the first. */
  method SelectAgent(agents: seq<Agent>, decision: Option<IntentDecision>, input: string) returns (r: Option<nat>)
    ensures r == SelectIndex(agents, decision, input)
  {
    if decision.Some? && decision.value.agentId != "" {
      var i := LocateById(agents, decision.value.agentId);
      if 0 <= i {
        return Some(i);
      }
    }
    var j := LocateHandler(agents, input);
    if 0 <= j {
      r := Some(j);
    } else if agents != [] {
      r := Some(0);
    } else {
      r := None;
    }
  }

  datatype Routed = Routed(agent: Agent, result: AgentResult)

  /** What `route` does: select, then hand over to the selected agent; its
      failure propagates. */
  function Dispatch(agents: seq<Agent>, ctx: AgentContext, w: World): Result<Routed, string> {
    match SelectIndex(agents, Decision(ctx, w), ctx.input)
    case None => Failure(NoAgents)
    case Some(i) =>
      match agents[i].handle(ctx, w)
      case Failure(e) => Failure(e)
      case Success(result) => Success(Routed(agents[i], result))
  }

  /** `agents.filter(agent => agent.visible !== false)`. */
  function Visible(agents: seq<Agent>): (r: seq<Agent>)
    ensures |r| <= |agents|
    ensures forall i :: 0 <= i < |r| ==> IsVisible(r[i]) && r[i] in agents
  {
    if agents == [] then []
    else if IsVisible(agents[0]) then [agents[0]] + Visible(agents[1..])
    else Visible(agents[1..])
  }

  // ---------------------------------------------------------------------------
  // The assistant
  // ---------------------------------------------------------------------------

  /** `createAssistant`: the registry closes over an array of agents. */
  class Assistant {
    var agents: seq<Agent>

    ghost predicate Valid()
      reads this
    {
      UniqueIds(agents)
    }

    constructor()
      ensures Valid() && agents == []
    {
      agents := [];
    }

    /** `register`: a duplicate id throws and changes nothing; otherwise the
        agent is appended. */
    method Register(agent: Agent) returns (r: Outcome<string>)
      requires Valid()
      modifies this
      ensures Valid()
      ensures r.Fail? <==> HasId(old(agents), agent.id)
      ensures r.Fail? ==> r.error == AlreadyRegistered(agent.id) && agents == old(agents)
      ensures r.Pass? ==> agents == old(agents) + [agent]
    {
      var i := 0;
      while i < |agents|
        invariant 0 <= i <= |agents|
        invariant forall k :: 0 <= k < i ==> agents[k].id != agent.id
      {
        if agents[i].id == agent.id {
          return Fail(AlreadyRegistered(agent.id));
        }
        i := i + 1;
      }
      agents := agents + [agent];
      r := Pass;
    }

    /** `listAgents`. */
    function ListAgents(): (r: seq<Agent>)
      reads this
      ensures r == Visible(agents)
    {
      Visible(agents)
    }

    /** `route`: ask the router, fall back to the first agent whose
        predicate holds and then to the first agent, and run the chosen
        agent's handler. */
    method Route(ctx: AgentContext, w: World) returns (r: Result<Routed, string>)
      ensures r == Dispatch(agents, ctx, w)
    {
      var decision := Decision(ctx, w);
      var selected := SelectAgent(agents, decision, ctx.input);
      if selected.None? {
        return Failure(NoAgents);
      }
      var agent := agents[selected.value];
      var result := agent.handle(ctx, w);
      match result
      case Failure(e) => r := Failure(e);
      case Success(res) => r := Success(Routed(agent, res));
    }
  }

  // ---------------------------------------------------------------------------
  // Properties of the registry and of routing
  // ---------------------------------------------------------------------------

  /** Listing distributes over registration order. */
  lemma {:induction false} VisibleAppend(a: seq<Agent>, b: seq<Agent>)
    ensures Visible(a + b) == Visible(a) + Visible(b)
  {
    if a == [] {
      assert a + b == b;
    } else {
      assert (a + b)[1..] == a[1..] + b;
      VisibleAppend(a[1..], b);
    }
  }

  /** Every visible registered agent is listed. */
  lemma {:induction false} VisibleComplete(agents: seq<Agent>, i: nat)
    requires i < |agents| && IsVisible(agents[i])
    ensures agents[i] in Visible(agents)
  {
    if i > 0 {
      VisibleComplete(agents[1..], i - 1);
    }
  }

  /** After a successful registration the listing grows by the new agent
      exactly when it is visible. */
  lemma ListAfterRegister(before: seq<Agent>, agent: Agent)
    ensures Visible(before + [agent]) == Visible(before) + (if IsVisible(agent) then [agent] else [])
  {
    VisibleAppend(before, [agent]);
  }

  /** A decision that names a registered agent selects the first agent
      with that id, hidden or not, whatever the predicates say. */
  lemma RouterWins(agents: seq<Agent>, decision: Option<IntentDecision>, input: string)
    requires decision.Some? && decision.value.agentId != "" && HasId(agents, decision.value.agentId)
    ensures SelectIndex(agents, decision, input) == Some(FindById(agents, decision.value.agentId))
    ensures agents[SelectIndex(agents, decision, input).value].id == decision.value.agentId
  {
  }

  /** With no override and an API key, an answer from Gemini whose JSON
      object names a registered agent routes the message to that agent. */
  lemma GeminiRoutes(agents: seq<Agent>, ctx: AgentContext, w: World)
    requires !HasRouterOverride(ctx) && w.apiKey.Some? && w.apiKey.value != ""
    requires w.geminiRouting.Success? && w.geminiRouting.value != ""
    requires var parsed := ExtractJsonObject(w.geminiRouting.value, w.parseJson);
             parsed.Some? && parsed.value.agentId.Some? && parsed.value.agentId.value != "" &&
             HasId(agents, parsed.value.agentId.value)
    ensures var id := ExtractJsonObject(w.geminiRouting.value, w.parseJson).value.agentId.value;
            var i := SelectIndex(agents, Decision(ctx, w), ctx.input);
            i.Some? && agents[i.value].id == id && i.value == FindById(agents, id)
  {
    var parsed := ExtractJsonObject(w.geminiRouting.value, w.parseJson).value;
    assert Decision(ctx, w) == Some(IntentDecision(parsed.agentId.value, parsed.reason));
    RouterWins(agents, Decision(ctx, w), ctx.input);
  }

  /** A function in `memory.intentRouter` that returns a registered id
      decides the agent: `route` runs the first agent with that id, and
      its handler's failure or result is the outcome. */
  lemma OverrideRoutes(agents: seq<Agent>, ctx: AgentContext, w: World, d: IntentDecision)
    requires HasRouterOverride(ctx) && w.routerOverride == RouterReturned(Some(d))
    requires d.agentId != "" && HasId(agents, d.agentId)
    ensures var i := FindById(agents, d.agentId);
            && SelectIndex(agents, Decision(ctx, w), ctx.input) == Some(i)
            && agents[i].id == d.agentId
            && (Dispatch(agents, ctx, w).Failure? <==> agents[i].handle(ctx, w).Failure?)
            && (Dispatch(agents, ctx, w).Success? ==>
                  Dispatch(agents, ctx, w).value == Routed(agents[i], agents[i].handle(ctx, w).value))
  {
    assert Decision(ctx, w) == Some(d);
    RouterWins(agents, Some(d), ctx.input);
  }

  /** A router that throws, whether the `memory.intentRouter` function or
      the Gemini request, is swallowed: the choice falls to the first
      agent whose predicate holds, else the first agent. */
  lemma ThrowingRouterFallsBack(agents: seq<Agent>, ctx: AgentContext, w: World)
    requires agents != []
    requires || (HasRouterOverride(ctx) && w.routerOverride.RouterThrew?)
             || (!HasRouterOverride(ctx) && w.apiKey.Some? && w.apiKey.value != "" && w.geminiRouting.Failure?)
    ensures Decision(ctx, w).None?
    ensures var i := SelectIndex(agents, Decision(ctx, w), ctx.input).value;
            var h := FindHandler(agents, ctx.input);
            (0 <= h ==> i == h) && (h == -1 ==> i == 0)
  {
    assert Decision(ctx, w).None?;
    Fallback(agents, None, ctx.input);
  }

  /** A router that threw, returned nothing, an empty id or an unknown id
      leaves the choice to the predicates: the first agent whose predicate
      holds, else the first agent. */
  lemma Fallback(agents: seq<Agent>, decision: Option<IntentDecision>, input: string)
    requires agents != []
    requires decision.None? || decision.value.agentId == "" || !HasId(agents, decision.value.agentId)
    ensures var i := SelectIndex(agents, decision, input).value;
            && (i == FindHandler(agents, input) || (FindHandler(agents, input) == -1 && i == 0))
            && (agents[i].canHandle(input) || forall k :: 0 <= k < |agents| ==> !agents[k].canHandle(input))
  {
  }

  /** Routing fails only on an empty registry, and then with the fixed
      error; otherwise the routed agent is a registered one and the result
      is exactly its handler's. */
  lemma DispatchOutcome(agents: seq<Agent>, ctx: AgentContext, w: World)
    ensures agents == [] ==> Dispatch(agents, ctx, w) == Failure(NoAgents)
    ensures agents != [] ==>
      var i := SelectIndex(agents, Decision(ctx, w), ctx.input).value;
      && (Dispatch(agents, ctx, w).Failure? <==> agents[i].handle(ctx, w).Failure?)
      && (Dispatch(agents, ctx, w).Success? ==>
            && Dispatch(agents, ctx, w).value.agent == agents[i]
            && Dispatch(agents, ctx, w).value.result == agents[i].handle(ctx, w).value)
  {
  }

  /** An agent whose predicate always holds is chosen by the predicates
      unless an earlier one matches, so agents after it are reached only
      through the router. */
  lemma CatchAll(agents: seq<Agent>, k: nat, decision: Option<IntentDecision>, input: string)
    requires k < |agents| && agents[k].canHandle(input)
    requires decision.None? || decision.value.agentId == "" || !HasId(agents, decision.value.agentId)
    ensures SelectIndex(agents, decision, input).value <= k
  {
  }

  // ---------------------------------------------------------------------------
  // The default agents
  // ---------------------------------------------------------------------------

  function EchoInput(ctx: AgentContext): Metadata {
    Metadata(None, None, None, None, Some(ctx.input))
  }

  // Long texts are written as short concatenated pieces; the value is the
  // single string the source uses, and the pieces keep proofs cheap.
  const PlannerReply: string := "Plan: clarify " + "goals, list " + "constraints, " + "draft steps, " + "confirm " + "timeline."

  function PlannerHandle(ctx: AgentContext, w: World): Result<AgentResult, string> {
    Success(AgentResult(PlannerReply, None, Some(EchoInput(ctx))))
  }

  const ResearcherReply: string := "Research: " + "identify " + "sources, " + "collect " + "facts, " + "summarize " + "findings."

  function ResearcherHandle(ctx: AgentContext, w: World): Result<AgentResult, string> {
    Success(AgentResult(ResearcherReply, None, Some(EchoInput(ctx))))
  }

  const ExecutorReply: string := "Got it. Next " + "actions: " + "clarify " + "scope, draft " + "deliverable, " + "iterate."

  function ExecutorHandle(ctx: AgentContext, w: World): Result<AgentResult, string> {
    Success(AgentResult(ExecutorReply, None, Some(EchoInput(ctx))))
  }

  const PlannerKeywords: seq<string> := ["plan", "roadmap", "steps", "outline"]

  const ResearcherKeywords: seq<string> := ["research", "find", "look up", "verify"]

  predicate PlannerCanHandle(input: string) {
    MatchesKeyword(input, PlannerKeywords)
  }

  predicate ResearcherCanHandle(input: string) {
    MatchesKeyword(input, ResearcherKeywords)
  }

  const PlannerDescription: string := "Breaks down " + "tasks into " + "steps and " + "timelines."

  function Planner(): Agent {
    Agent("planner", PlannerDescription, Some(false), PlannerCanHandle, PlannerHandle)
  }

  const ResearcherDescription: string := "Summarizes " + "unknowns and " + "lists what to " + "verify."

  function Researcher(): Agent {
    Agent("researcher", ResearcherDescription, Some(false), ResearcherCanHandle, ResearcherHandle)
  }

  const ExecutorDescription: string := "Provides " + "direct " + "answers and " + "concrete next " + "actions."

  function Executor(): Agent {
    Agent("executor", ExecutorDescription, Some(false), _ => true, ExecutorHandle)
  }

  /** `createDefaultAgents`. */
  function DefaultAgents(): (r: seq<Agent>)
    ensures |r| == 5 && UniqueIds(r)
  {
    [TodoAgent.CreateTodoAgent(), FinanceAgent.CreateFinanceAgent(), Planner(), Researcher(), Executor()]
  }

  /** `createDefaultAssistant`: every default agent registers. */
  method CreateDefaultAssistant() returns (assistant: Assistant)
    ensures fresh(assistant) && assistant.Valid()
    ensures assistant.agents == DefaultAgents()
  {
    assistant := new Assistant();
    var defaults := DefaultAgents();
    for i := 0 to |defaults|
      invariant assistant.Valid() && assistant.agents == defaults[..i]
    {
      assert !HasId(defaults[..i], defaults[i].id);
      var outcome := assistant.Register(defaults[i]);
      assert defaults[..i + 1] == defaults[..i] + [defaults[i]];
    }
  }

  /** Only the todo and finance agents are listed. */
  lemma DefaultListing()
    ensures |Visible(DefaultAgents())| == 2
    ensures Visible(DefaultAgents())[0].id == "todo" && Visible(DefaultAgents())[1].id == "finance"
  {
    var d := DefaultAgents();
    assert d == [d[0], d[1]] + [d[2], d[3], d[4]];
    VisibleAppend([d[0], d[1]], [d[2], d[3], d[4]]);
    assert Visible([d[2], d[3], d[4]]) == [];
  }

  /** No router applies: no override in memory and no API key. */
  predicate NoRouter(ctx: AgentContext, w: World) {
    !HasRouterOverride(ctx) && (w.apiKey.None? || w.apiKey.value == "")
  }

  /** Neither the greeting nor the cashflow question mentions a todo
      keyword. */
  lemma ScenariosNotTodo()
    ensures !TodoAgent.CanHandle("hello there")
    ensures !TodoAgent.CanHandle("what is my cashflow")
  {
    LowerOfLowerCase("hello there");
    NoKeyword("hello there", TodoAgent.Keywords, ['d', 'a', 'c', 'a', 'a']);
    LowerOfLowerCase("what is my cashflow");
    NoKeyword("what is my cashflow", TodoAgent.Keywords, ['d', 'k', 'k', 'n', 'b']);
  }

  lemma HelloNotFinance(s: string)
    requires s == "hello there"
    ensures !FinanceAgent.CanHandle(s)
  {
    LowerOfLowerCase(s);
    NoKeyword(s, FinanceAgent.Keywords, ['f', 'b', 'c', 'u', 's', 'v', 'f']);
  }

  lemma HelloNotPlannerOrResearcher(s: string)
    requires s == "hello there"
    ensures !PlannerCanHandle(s) && !ResearcherCanHandle(s)
  {
    LowerOfLowerCase(s);
    NoKeyword(s, PlannerKeywords, ['p', 'a', 's', 'u']);
    NoKeyword(s, ResearcherKeywords, ['s', 'f', 'k', 'v']);
  }

  /** Without a decision, the first agent whose predicate accepts the input
      handles it. */
  lemma FirstHandlerRoutes(agents: seq<Agent>, ctx: AgentContext, w: World, k: nat)
    requires Decision(ctx, w).None?
    requires k < |agents| && agents[k].canHandle(ctx.input)
    requires forall j :: 0 <= j < k ==> !agents[j].canHandle(ctx.input)
    requires agents[k].handle(ctx, w).Success?
    ensures Dispatch(agents, ctx, w) == Success(Routed(agents[k], agents[k].handle(ctx, w).value))
  {
    assert FindHandler(agents, ctx.input) == k;
  }

  /** Greeting falls through every keyword predicate to the executor. */
  lemma HelloRoutesToExecutor(ctx: AgentContext, w: World)
    requires ctx.input == "hello there" && NoRouter(ctx, w)
    ensures Dispatch(DefaultAgents(), ctx, w).Success?
    ensures Dispatch(DefaultAgents(), ctx, w).value.agent.id == "executor"
    ensures Dispatch(DefaultAgents(), ctx, w).value.result.reply == ExecutorReply
  {
    var d := DefaultAgents();
    ScenariosNotTodo();
    HelloNotFinance(ctx.input);
    HelloNotPlannerOrResearcher(ctx.input);
    assert !d[0].canHandle(ctx.input) && !d[1].canHandle(ctx.input);
    assert !d[2].canHandle(ctx.input) && !d[3].canHandle(ctx.input);
    FirstHandlerRoutes(d, ctx, w, 4);
  }

  lemma TasksIsTodo(s: string)
    requires s == "summarize my tasks"
    ensures TodoAgent.CanHandle(s)
  {
    assert Lower(s) == s;
    assert OccursAt(s, "task", 13);
    assert TodoAgent.Keywords[1] == "task";
  }

  /** A request about tasks goes to the todo agent. */
  lemma TasksRouteToTodo(ctx: AgentContext, w: World)
    requires ctx.input == "summarize my tasks" && NoRouter(ctx, w)
    ensures Dispatch(DefaultAgents(), ctx, w).Success?
    ensures Dispatch(DefaultAgents(), ctx, w).value.agent.id == "todo"
    ensures Dispatch(DefaultAgents(), ctx, w).value.result == TodoAgent.Handle(ctx, w).value
    ensures TodoAgent.ResolveProvider(ctx).None? ==>
              Dispatch(DefaultAgents(), ctx, w).value.result == Reply(TodoAgent.SetupReply(), Connected(false))
  {
    var d := DefaultAgents();
    TasksIsTodo(ctx.input);
    FirstHandlerRoutes(d, ctx, w, 0);
  }

  lemma CashflowIsFinance(s: string)
    requires s == "what is my cashflow"
    ensures FinanceAgent.CanHandle(s)
  {
    assert Lower(s) == s;
    assert OccursAt(s, "cashflow", 11);
    assert FinanceAgent.Keywords[2] == "cashflow";
  }

  /** A request about cash flow goes to the finance agent. */
  lemma CashflowRoutesToFinance(ctx: AgentContext, w: World)
    requires ctx.input == "what is my cashflow" && NoRouter(ctx, w)
    ensures Dispatch(DefaultAgents(), ctx, w).Success?
    ensures Dispatch(DefaultAgents(), ctx, w).value.agent.id == "finance"
    ensures Dispatch(DefaultAgents(), ctx, w).value.result == FinanceAgent.Handle(ctx, w).value
    ensures FinanceAgent.ResolveProvider(ctx).None? ==>
              Dispatch(DefaultAgents(), ctx, w).value.result == Reply(FinanceAgent.SetupReply(), Connected(false))
  {
    var d := DefaultAgents();
    ScenariosNotTodo();
    CashflowIsFinance(ctx.input);
    FirstHandlerRoutes(d, ctx, w, 1);
  }
}
