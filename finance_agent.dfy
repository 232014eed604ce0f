/** The finance agent (packages/agents/src/agents/finance.ts): finds a
    Flowtly provider in memory, fetches a snapshot and answers with a
    Gemini-written summary when one is available, else with a rule-based
    summary of the snapshot. */
module FinanceAgent {
  import opened Wrappers
  import opened Text
  import opened Context

  const ProviderKey: string := "flowtlyProvider"

  const Keywords: seq<string> := ["finance", "budget", "cashflow", "runway", "spend", "revenue", "flowtly"]

  // Long texts are written as short concatenated pieces; the value is the
  // single string the source uses, and the pieces keep proofs cheap.
  const SetupLines: seq<string> := [
    "I can connect " + "to Flowtly " + "once a " + "provider is " + "wired in.",
    "Add a Flowtly " + "provider to " + "AgentContext.memory " + "as " + "`flowtlyProvider`.",
    "That provider " + "should expose " + "`getSnapshot(ctx)` " + "and return { " + "asOf, " + "metrics, " + "notes }."
  ]

  const Apology: string := "I could not " + "reach " + "Flowtly. " + "Check the " + "provider " + "configuration."

  const NoMetrics: string := "No metrics returned yet."

  // ---------------------------------------------------------------------------
  // Provider resolution
  // ---------------------------------------------------------------------------

  /** `isFlowtlyProvider`: an object with a `getSnapshot` function. */
  predicate IsFlowtlyProvider(v: MemValue) {
    v.FlowtlyMcpProvider? || (v.ObjectValue? && "getSnapshot" in v.functionFields)
  }

  function ResolveProvider(ctx: AgentContext): (r: Option<MemValue>)
    ensures r.Some? <==> ProviderKey in ctx.memory && IsFlowtlyProvider(ctx.memory[ProviderKey])
    ensures r.Some? ==> r.value == ctx.memory[ProviderKey]
  {
    if ProviderKey in ctx.memory && IsFlowtlyProvider(ctx.memory[ProviderKey]) then Some(ctx.memory[ProviderKey])
    else None
  }

  // ---------------------------------------------------------------------------
  // Rule-based summary
  // ---------------------------------------------------------------------------

  datatype FinanceSummary = FinanceSummary(headline: string, metrics: seq<string>, notes: seq<string>)

  /** A non-empty optional text (JavaScript truthiness of a string). */
  predicate Truthy(s: Option<string>) {
    s.Some? && s.value != ""
  }

  function Headline(asOf: Option<string>): string {
    if Truthy(asOf) then "Finance snapshot as of " + asOf.value + "." else "Finance snapshot."
  }

  function MetricLine(m: Metric): string {
    if Truthy(m.delta) then m.labelText + ": " + m.value + " (" + m.delta.value + ")"
    else m.labelText + ": " + m.value
  }

  /** `metrics.map(...)`: one line per metric, in input order. */
  function MetricLines(ms: seq<Metric>): (r: seq<string>)
    ensures |r| == |ms|
    ensures forall i :: 0 <= i < |ms| ==> r[i] == MetricLine(ms[i])
  {
    if ms == [] then [] else [MetricLine(ms[0])] + MetricLines(ms[1..])
  }

  /** `summarizeSnapshot`. */
  function SummarizeSnapshot(s: Snapshot): (r: FinanceSummary)
    ensures |r.metrics| >= 1
    ensures r.notes == s.notes.GetOr([])
  {
    var formatted := MetricLines(s.metrics.GetOr([]));
    FinanceSummary(Headline(s.asOf), if |formatted| > 0 then formatted else [NoMetrics], s.notes.GetOr([]))
  }

  /** Every metric line holds a colon; the placeholder does not. */
  lemma MetricLineHasColon(m: Metric)
    ensures ':' in MetricLine(m)
  {
    var p := m.labelText + ": ";
    assert p[|m.labelText|] == ':';
    if Truthy(m.delta) {
      assert MetricLine(m) == p + (m.value + " (" + m.delta.value + ")");
    } else {
      assert MetricLine(m) == p + m.value;
    }
  }

  /** The headline depends on `asOf` alone and tells the two cases apart;
      the metric part is the placeholder exactly when no metric was
      returned, and otherwise one line per metric, in order. */
  lemma SummaryShape(s: Snapshot)
    ensures var r := SummarizeSnapshot(s);
            && (Truthy(s.asOf) <==> r.headline != "Finance snapshot.")
            && (Truthy(s.asOf) ==> r.headline == "Finance snapshot as of " + s.asOf.value + ".")
            && (!Truthy(s.asOf) ==> r.headline == "Finance snapshot.")
            && (r.metrics == [NoMetrics] <==> s.metrics.GetOr([]) == [])
            && (s.metrics.GetOr([]) != [] ==>
                  && |r.metrics| == |s.metrics.value|
                  && forall i :: 0 <= i < |r.metrics| ==> r.metrics[i] == MetricLine(s.metrics.value[i]))
  {
    var r := SummarizeSnapshot(s);
    if Truthy(s.asOf) {
      assert |r.headline| > |"Finance snapshot."|;
    }
    var ms := s.metrics.GetOr([]);
    if ms != [] {
      MetricLineHasColon(ms[0]);
      assert ':' !in NoMetrics;
    }
  }

  /** The lines of the rule-based reply: headline, metric lines, notes. */
  function Lines(sum: FinanceSummary): seq<string> {
    [sum.headline] + sum.metrics + sum.notes
  }

  function RulesReply(s: Snapshot): string {
    Join(Lines(SummarizeSnapshot(s)), "\n")
  }

  /** No text of the snapshot holds a line break. */
  predicate SingleLineSnapshot(s: Snapshot) {
    && (s.asOf.Some? ==> '\n' !in s.asOf.value)
    && (s.metrics.Some? ==> forall i :: 0 <= i < |s.metrics.value| ==> NoBreakMetric(s.metrics.value[i]))
    && (s.notes.Some? ==> forall i :: 0 <= i < |s.notes.value| ==> '\n' !in s.notes.value[i])
  }

  predicate NoBreakMetric(m: Metric) {
    '\n' !in m.labelText && '\n' !in m.value && (m.delta.Some? ==> '\n' !in m.delta.value)
  }

  /** Splitting the rule-based reply at line breaks gives back the headline,
      the metric lines and the notes: 1 + max(1, #metrics) + #notes lines. */
  lemma RulesReplyLines(s: Snapshot)
    requires SingleLineSnapshot(s)
    ensures Split(RulesReply(s), '\n') == Lines(SummarizeSnapshot(s))
    ensures |Split(RulesReply(s), '\n')| ==
      1 + (if s.metrics.GetOr([]) == [] then 1 else |s.metrics.value|) + |s.notes.GetOr([])|
  {
    SummaryLinesSingle(s);
    JoinSplit(Lines(SummarizeSnapshot(s)), '\n');
    SummaryShape(s);
  }

  lemma MetricLineSingle(m: Metric)
    requires NoBreakMetric(m)
    ensures '\n' !in MetricLine(m)
  {
  }

  lemma HeadlineSingle(asOf: Option<string>)
    requires asOf.Some? ==> '\n' !in asOf.value
    ensures '\n' !in Headline(asOf)
  {
    if Truthy(asOf) {
      assert Headline(asOf) == "Finance snapshot as of " + asOf.value + ".";
    }
  }

  /** Every line of the summary of a single-line snapshot is a single line. */
  lemma SummaryLinesSingle(s: Snapshot)
    requires SingleLineSnapshot(s)
    ensures forall i :: 0 <= i < |Lines(SummarizeSnapshot(s))| ==> '\n' !in Lines(SummarizeSnapshot(s))[i]
  {
    var sum := SummarizeSnapshot(s);
    var ms := s.metrics.GetOr([]);
    HeadlineSingle(s.asOf);
    forall i | 0 <= i < |ms| ensures '\n' !in MetricLine(ms[i]) {
      MetricLineSingle(ms[i]);
    }
    assert '\n' !in NoMetrics;
    var lines := Lines(sum);
    forall i | 0 <= i < |lines| ensures '\n' !in lines[i] {
      if 1 <= i < 1 + |sum.metrics| {
        assert lines[i] == sum.metrics[i - 1];
      } else if i >= 1 + |sum.metrics| {
        assert lines[i] == sum.notes[i - 1 - |sum.metrics|];
      }
    }
  }

  // ---------------------------------------------------------------------------
  // Gemini summary and the agent
  // ---------------------------------------------------------------------------

  /** `summarizeWithGemini`: nothing without an API key; a thrown error
      propagates; a non-OK response or a blank text gives nothing; else the
      trimmed text. */
  function LlmSummary(apiKey: Option<string>, call: SummaryCall): (r: Result<Option<string>, string>)
    ensures !Truthy(apiKey) ==> r == Success(None)
    ensures r.Failure? <==> Truthy(apiKey) && call.SummaryThrew?
    ensures r.Success? && r.value.Some? ==> r.value.value != "" && Trim(r.value.value) == r.value.value
    ensures r.Failure? ==> r.error == call.error
    ensures Truthy(apiKey) && call.SummaryNotOk? ==> r == Success(None)
    ensures Truthy(apiKey) && call.SummaryText? ==>
              r == Success(if Trim(call.text) == "" then None else Some(Trim(call.text)))
  {
    if !Truthy(apiKey) then Success(None)
    else
      match call
      case SummaryThrew(e) => Failure(e)
      case SummaryNotOk => Success(None)
      case SummaryText(text) =>
        TrimIdempotent(text);
        var trimmed := Trim(text);
        if trimmed == "" then Success(None) else Success(Some(trimmed))
  }

  function SetupReply(): string {
    Join(SetupLines, "\n")
  }

  function Failed(error: string): AgentResult {
    Reply(Apology, Metadata(Some(false), None, None, Some(error), None))
  }

  /** `handle`. */
  function Handle(ctx: AgentContext, w: World): (r: Result<AgentResult, string>)
    ensures r.Success? && r.value.handoff.None? && r.value.metadata.Some?
  {
    if ResolveProvider(ctx).None? then
      Success(Reply(SetupReply(), Connected(false)))
    else
      match w.snapshot
      case Failure(e) => Success(Failed(e))
      case Success(snapshot) =>
        match LlmSummary(w.apiKey, w.summary)
        case Failure(e) => Success(Failed(e))
        case Success(None) =>
          Success(Reply(RulesReply(snapshot), Metadata(Some(true), None, Some("rules"), None, None)))
        case Success(Some(text)) =>
          Success(Reply(text, Metadata(Some(true), None, Some("llm"), None, None)))
  }

  /** The outcomes of `handle`: setup without a provider (the world is not
      consulted), the apology when fetching or summarizing throws, otherwise
      a connected reply whose mode says whether Gemini wrote it. */
  lemma HandleOutcomes(ctx: AgentContext, w: World, w2: World)
    ensures var r := Handle(ctx, w).value;
            var m := r.metadata.value;
            && (ResolveProvider(ctx).None? ==>
                  r.reply == SetupReply() && m == Connected(false) && Handle(ctx, w2) == Handle(ctx, w))
            && (ResolveProvider(ctx).Some? ==>
                  && (m.connected == Some(true) <==> w.snapshot.Success? && LlmSummary(w.apiKey, w.summary).Success?)
                  && (m.connected == Some(false) <==> m.error.Some?)
                  && (m.connected == Some(false) ==> r.reply == Apology && m.summaryMode.None?)
                  && (m.summaryMode == Some("rules") <==>
                        w.snapshot.Success? && LlmSummary(w.apiKey, w.summary) == Success(None))
                  && (m.summaryMode == Some("rules") ==> r.reply == RulesReply(w.snapshot.value))
                  && (m.summaryMode == Some("llm") ==> r.reply != "" && m.connected == Some(true))
                  && (w.snapshot.Failure? ==> m.error == Some(w.snapshot.error))
                  && (w.snapshot.Success? && LlmSummary(w.apiKey, w.summary).Failure? ==>
                        m.error == Some(LlmSummary(w.apiKey, w.summary).error))
                  && (w.snapshot.Success? && LlmSummary(w.apiKey, w.summary).Success? &&
                      LlmSummary(w.apiKey, w.summary).value.Some? ==>
                        && r.reply == LlmSummary(w.apiKey, w.summary).value.value
                        && m == Metadata(Some(true), None, Some("llm"), None, None)))
  {
    if ResolveProvider(ctx).Some? && w.snapshot.Success? {
      var l := LlmSummary(w.apiKey, w.summary);
      if l.Success? && l.value.Some? {
        assert Handle(ctx, w).value.metadata.value.summaryMode == Some("llm");
      }
    }
  }

  /** `/finance|budget|cashflow|runway|spend|revenue|flowtly/i`. */
  predicate CanHandle(input: string) {
    MatchesKeyword(input, Keywords)
  }

  const Description: string := "Connects to " + "Flowtly to " + "summarize " + "financial " + "metrics."

  /** `createFinanceAgent`. */
  function CreateFinanceAgent(): (a: Agent)
    ensures a.id == "finance" && IsVisible(a)
  {
    Agent("finance", Description, None, CanHandle, Handle)
  }
}
