/** The earlier, rules-only finance agent (packages/agents/src/finance.ts).
    Its provider check, setup text, apology and `summarizeSnapshot` are the
    same as those of the current agent, so they are taken from
    `FinanceAgent`; what differs is that it never asks Gemini and its
    success metadata is exactly `{connected: true}`. */
module LegacyFinanceAgent {
  import opened Wrappers
  import opened Context
  import Finance = FinanceAgent

  /** `handle`. */
  function Handle(ctx: AgentContext, w: World): (r: Result<AgentResult, string>)
    ensures r.Success? && r.value.handoff.None? && r.value.metadata.Some?
    ensures r.value.metadata.value.summaryMode.None?
  {
    if Finance.ResolveProvider(ctx).None? then
      Success(Reply(Finance.SetupReply(), Connected(false)))
    else
      match w.snapshot
      case Failure(e) => Success(Finance.Failed(e))
      case Success(snapshot) => Success(Reply(Finance.RulesReply(snapshot), Connected(true)))
  }

  /** The outcomes: setup without a provider, the apology with the error on
      a provider failure, else the rule-based reply with metadata exactly
      `{connected: true}`. Nothing but the provider and its snapshot is
      consulted. */
  lemma HandleOutcomes(ctx: AgentContext, w: World)
    ensures var r := Handle(ctx, w).value;
            && (Finance.ResolveProvider(ctx).None? ==> r.reply == Finance.SetupReply() && r.metadata == Some(Connected(false)))
            && (Finance.ResolveProvider(ctx).Some? && w.snapshot.Failure? ==>
                  r.reply == Finance.Apology && r.metadata.value.connected == Some(false)
                  && r.metadata.value.error == Some(w.snapshot.error))
            && (Finance.ResolveProvider(ctx).Some? && w.snapshot.Success? ==>
                  r.reply == Finance.RulesReply(w.snapshot.value) && r.metadata == Some(Connected(true)))
  {
  }

  /** Without a Gemini key the current agent gives the same reply as the
      earlier one, and the same metadata apart from `summaryMode`. */
  lemma AgreesWithoutGemini(ctx: AgentContext, w: World)
    requires !Finance.Truthy(w.apiKey)
    ensures Finance.Handle(ctx, w).value.reply == Handle(ctx, w).value.reply
    ensures Finance.Handle(ctx, w).value.metadata.value.(summaryMode := None) == Handle(ctx, w).value.metadata.value
  {
  }

  /** `createFinanceAgent` of the earlier module. */
  function CreateLegacyFinanceAgent(): (a: Agent)
    ensures a.id == "finance" && IsVisible(a)
  {
    Agent("finance", Finance.Description, None, Finance.CanHandle, Handle)
  }
}
