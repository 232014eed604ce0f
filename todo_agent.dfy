/** The todo agent (packages/agents/src/agents/todo.ts): finds a task
    provider in memory, summarizes the tasks it lists and proposes help. */
module TodoAgent {
  import opened Wrappers
  import opened Text
  import opened Context

  const ProviderKey: string := "clickupProvider"

  const Keywords: seq<string> := ["todo", "task", "clickup", "action item", "backlog"]

  // Long texts are written as short concatenated pieces; the value is the
  // single string the source uses, and the pieces keep proofs cheap.
  const SetupLines: seq<string> := [
    "I can connect " + "to ClickUp " + "once a " + "provider is " + "wired in.",
    "Add a ClickUp " + "provider to " + "AgentContext.memory " + "as " + "`clickupProvider`.",
    "That provider " + "should expose " + "`listTasks(ctx)` " + "and return " + "task objects " + "with " + "id/name/status/dueAt/priority/url."
  ]

  const Apology: string := "I could not " + "reach " + "ClickUp. " + "Check the MCP " + "provider " + "configuration."

  /** The all-good suggestion. It is written in short pieces only so that
      the verifier can inspect its characters. */
  const AllGood: string := "Looks good." + " Want me to group tasks" + " by project or due date?"

  // ---------------------------------------------------------------------------
  // Provider resolution
  // ---------------------------------------------------------------------------

  /** `isTodoProvider`: an object with a `listTasks` function. The ClickUp
      REST provider is one; a Flowtly provider or a bare function is not. */
  predicate IsTodoProvider(v: MemValue) {
    v.ClickUpRestProvider? || (v.ObjectValue? && "listTasks" in v.functionFields)
  }

  function ResolveProvider(ctx: AgentContext): (r: Option<MemValue>)
    ensures r.Some? <==> ProviderKey in ctx.memory && IsTodoProvider(ctx.memory[ProviderKey])
    ensures r.Some? ==> r.value == ctx.memory[ProviderKey]
  {
    if ProviderKey in ctx.memory && IsTodoProvider(ctx.memory[ProviderKey]) then Some(ctx.memory[ProviderKey])
    else None
  }

  // ---------------------------------------------------------------------------
  // Counting
  // ---------------------------------------------------------------------------

  /** A truthy `dueAt`. */
  predicate HasDue(t: TodoTask) {
    t.dueAt.Some?
  }

  /** A due date that parses to an instant strictly before `now`. */
  predicate IsOverdue(t: TodoTask, now: int) {
    t.dueAt.Some? && t.dueAt.value.instant.Some? && t.dueAt.value.instant.value < now
  }

  /** A non-empty priority matching `/high|urgent|p1/i`. */
  predicate IsHighPriority(t: TodoTask) {
    t.priority.Some? && t.priority.value != "" && MatchesKeyword(t.priority.value, ["high", "urgent", "p1"])
  }

  function CountOverdue(tasks: seq<TodoTask>, now: int): (n: nat)
    ensures n <= |tasks|
    ensures n == 0 <==> forall i :: 0 <= i < |tasks| ==> !IsOverdue(tasks[i], now)
  {
    if tasks == [] then 0
    else CountOverdue(tasks[..|tasks| - 1], now) + (if IsOverdue(tasks[|tasks| - 1], now) then 1 else 0)
  }

  function CountWithDue(tasks: seq<TodoTask>): (n: nat)
    ensures n <= |tasks|
    ensures n == 0 <==> forall i :: 0 <= i < |tasks| ==> !HasDue(tasks[i])
  {
    if tasks == [] then 0
    else CountWithDue(tasks[..|tasks| - 1]) + (if HasDue(tasks[|tasks| - 1]) then 1 else 0)
  }

  function CountWithoutDue(tasks: seq<TodoTask>): (n: nat)
    ensures n <= |tasks|
    ensures n == 0 <==> forall i :: 0 <= i < |tasks| ==> HasDue(tasks[i])
  {
    if tasks == [] then 0
    else CountWithoutDue(tasks[..|tasks| - 1]) + (if HasDue(tasks[|tasks| - 1]) then 0 else 1)
  }

  function CountHighPriority(tasks: seq<TodoTask>): (n: nat)
    ensures n <= |tasks|
    ensures n == 0 <==> forall i :: 0 <= i < |tasks| ==> !IsHighPriority(tasks[i])
  {
    if tasks == [] then 0
    else CountHighPriority(tasks[..|tasks| - 1]) + (if IsHighPriority(tasks[|tasks| - 1]) then 1 else 0)
  }

  /** Every overdue task has a due date. */
  lemma {:induction false} OverdueHaveDue(tasks: seq<TodoTask>, now: int)
    ensures CountOverdue(tasks, now) <= CountWithDue(tasks)
  {
    if tasks != [] {
      OverdueHaveDue(tasks[..|tasks| - 1], now);
    }
  }

  /** The tasks without a due date are exactly those not counted as having
      one, so the summary's `total - withDueDate` and the suggestion's
      filtered count agree. */
  lemma {:induction false} WithoutDueComplement(tasks: seq<TodoTask>)
    ensures CountWithoutDue(tasks) == |tasks| - CountWithDue(tasks)
  {
    if tasks != [] {
      WithoutDueComplement(tasks[..|tasks| - 1]);
    }
  }

  datatype TaskSummary = TaskSummary(total: nat, overdue: nat, withoutDueDate: nat)

  /** `summarizeTasks`. */
  function SummarizeTasks(tasks: seq<TodoTask>, now: int): (s: TaskSummary)
    ensures s.total == |tasks|
  {
    TaskSummary(|tasks|, CountOverdue(tasks, now), |tasks| - CountWithDue(tasks))
  }

  /** The overdue tasks and the tasks without a due date are disjoint, so
      together they never exceed the total. */
  lemma SummaryBound(tasks: seq<TodoTask>, now: int)
    ensures var s := SummarizeTasks(tasks, now);
            s.overdue + s.withoutDueDate <= s.total
    ensures SummarizeTasks(tasks, now).withoutDueDate == CountWithoutDue(tasks)
  {
    OverdueHaveDue(tasks, now);
    WithoutDueComplement(tasks);
  }

  // ---------------------------------------------------------------------------
  // Suggestions
  // ---------------------------------------------------------------------------

  /** The plural suffix of a count: none exactly for one. */
  function Plural(n: nat): (r: string)
    ensures r == "" <==> n == 1
  {
    if n == 1 then "" else "s"
  }

  function OverdueLine(n: nat): string {
    "Triage " + NatToString(n) + " overdue task" + Plural(n) + " and reset due dates."
  }

  function NoDueLine(n: nat): string {
    "Add due dates to " + NatToString(n) + " task" + Plural(n) + " to reduce drift."
  }

  function HighPriorityLine(n: nat): string {
    "Focus on " + NatToString(n) + " high-priority task" + Plural(n) + " today."
  }

  function OptionalLine(n: nat, line: string): seq<string> {
    if n > 0 then [line] else []
  }

  /** The suggestions for the three counts: the overdue, no-due-date and
      high-priority lines that apply, in that order, or the all-good line
      alone. */
  function SuggestionsFor(o: nat, d: nat, h: nat): (r: seq<string>)
    ensures 1 <= |r| <= 3
  {
    var applied := OptionalLine(o, OverdueLine(o)) + OptionalLine(d, NoDueLine(d)) + OptionalLine(h, HighPriorityLine(h));
    if applied == [] then [AllGood] else applied
  }

  /** What `proposeHelp` returns. */
  function Suggestions(tasks: seq<TodoTask>, now: int): (r: seq<string>)
    ensures 1 <= |r| <= 3
  {
    SuggestionsFor(CountOverdue(tasks, now), CountWithoutDue(tasks), CountHighPriority(tasks))
  }

  /** No suggestion line reads as the all-good line. */
  lemma LinesDifferFromAllGood(o: nat, d: nat, h: nat)
    ensures OverdueLine(o) != AllGood && NoDueLine(d) != AllGood && HighPriorityLine(h) != AllGood
  {
    assert OverdueLine(o)[0] == 'T' && NoDueLine(d)[0] == 'A' && HighPriorityLine(h)[0] == 'F';
    assert AllGood[0] == 'L';
  }

  /** The shape of the suggestions for given counts. */
  lemma SuggestionsForShape(o: nat, d: nat, h: nat)
    ensures var r := SuggestionsFor(o, d, h);
            && (r == [AllGood] <==> o == 0 && d == 0 && h == 0)
            && (AllGood in r <==> o == 0 && d == 0 && h == 0)
            && (o > 0 ==> r[0] == OverdueLine(o))
            && (d > 0 ==> r[if o > 0 then 1 else 0] == NoDueLine(d))
            && (h > 0 ==> r[|r| - 1] == HighPriorityLine(h))
            && (o > 0 || d > 0 || h > 0 ==>
                  |r| == (if o > 0 then 1 else 0) + (if d > 0 then 1 else 0) + (if h > 0 then 1 else 0))
  {
    LinesDifferFromAllGood(o, d, h);
  }

  /** The suggestions name each applicable kind once, in the fixed order
      overdue, no-due-date, high-priority; the all-good line appears exactly
      when no kind applies. */
  lemma SuggestionsShape(tasks: seq<TodoTask>, now: int)
    ensures var r := Suggestions(tasks, now);
            var o := CountOverdue(tasks, now);
            var d := CountWithoutDue(tasks);
            var h := CountHighPriority(tasks);
            && (r == [AllGood] <==> o == 0 && d == 0 && h == 0)
            && (AllGood in r <==> o == 0 && d == 0 && h == 0)
            && (o > 0 ==> r[0] == OverdueLine(o))
            && (d > 0 ==> r[if o > 0 then 1 else 0] == NoDueLine(d))
            && (h > 0 ==> r[|r| - 1] == HighPriorityLine(h))
            && (o > 0 || d > 0 || h > 0 ==>
                  |r| == (if o > 0 then 1 else 0) + (if d > 0 then 1 else 0) + (if h > 0 then 1 else 0))
  {
    SuggestionsForShape(CountOverdue(tasks, now), CountWithoutDue(tasks), CountHighPriority(tasks));
  }

  /** `proposeHelp`: builds the list by conditional appends. */
  method ProposeHelp(tasks: seq<TodoTask>, now: int) returns (suggestions: seq<string>)
    ensures suggestions == Suggestions(tasks, now)
  {
    suggestions := [];
    var overdue := CountOverdue(tasks, now);
    if overdue > 0 {
      suggestions := suggestions + [OverdueLine(overdue)];
    }
    assert suggestions == OptionalLine(overdue, OverdueLine(overdue));
    var noDueDate := CountWithoutDue(tasks);
    if noDueDate > 0 {
      suggestions := suggestions + [NoDueLine(noDueDate)];
    }
    assert suggestions == OptionalLine(overdue, OverdueLine(overdue)) + OptionalLine(noDueDate, NoDueLine(noDueDate));
    var highPriority := CountHighPriority(tasks);
    if highPriority > 0 {
      suggestions := suggestions + [HighPriorityLine(highPriority)];
    }
    if |suggestions| == 0 {
      suggestions := suggestions + [AllGood];
    }
  }

  // ---------------------------------------------------------------------------
  // Replies
  // ---------------------------------------------------------------------------

  function SummaryLine(s: TaskSummary): string {
    "Summary: " + NatToString(s.total) + " total, " + NatToString(s.overdue) + " overdue, "
      + NatToString(s.withoutDueDate) + " without due dates."
  }

  function HelpLine(suggestions: seq<string>): string {
    "Proactive help: " + Join(suggestions, " ")
  }

  /** `formatSummary`. */
  function FormatSummary(tasks: seq<TodoTask>, now: int): string {
    Join([SummaryLine(SummarizeTasks(tasks, now)), HelpLine(Suggestions(tasks, now))], "\n")
  }

  lemma DigitsNoNewline(n: nat)
    ensures '\n' !in NatToString(n)
  {
  }

  lemma SummaryLineNoNewline(s: TaskSummary)
    ensures '\n' !in SummaryLine(s)
  {
    DigitsNoNewline(s.total);
    DigitsNoNewline(s.overdue);
    DigitsNoNewline(s.withoutDueDate);
  }

  /** `c` is in `a + b + d + e + f` only when it is in one of the parts. */
  lemma NotInParts(c: char, a: string, b: string, d: string, e: string, f: string)
    requires c !in a && c !in b && c !in d && c !in e && c !in f
    ensures c !in a + b + d + e + f
  {
  }

  lemma OverdueLineNoNewline(n: nat)
    ensures '\n' !in OverdueLine(n)
  {
    DigitsNoNewline(n);
    NotInParts('\n', "Triage ", NatToString(n), " overdue task", Plural(n), " and reset due dates.");
  }

  lemma NoDueLineNoNewline(n: nat)
    ensures '\n' !in NoDueLine(n)
  {
    DigitsNoNewline(n);
    NotInParts('\n', "Add due dates to ", NatToString(n), " task", Plural(n), " to reduce drift.");
  }

  lemma HighPriorityLineNoNewline(n: nat)
    ensures '\n' !in HighPriorityLine(n)
  {
    DigitsNoNewline(n);
    NotInParts('\n', "Focus on ", NatToString(n), " high-priority task", Plural(n), " today.");
  }

  lemma OptionalNoNewline(n: nat, line: string)
    requires '\n' !in line
    ensures forall i :: 0 <= i < |OptionalLine(n, line)| ==> '\n' !in OptionalLine(n, line)[i]
  {
  }

  lemma AllGoodNoNewline()
    ensures '\n' !in AllGood
  {
    NotInParts('\n', "Looks good.", " Want me to group tasks", " by project or due date?", "", "");
    assert AllGood == "Looks good." + " Want me to group tasks" + " by project or due date?" + "" + "";
  }

  lemma SuggestionsForNoNewline(o: nat, d: nat, h: nat)
    ensures forall i :: 0 <= i < |SuggestionsFor(o, d, h)| ==> '\n' !in SuggestionsFor(o, d, h)[i]
  {
    OverdueLineNoNewline(o);
    NoDueLineNoNewline(d);
    HighPriorityLineNoNewline(h);
    AllGoodNoNewline();
    var a := OptionalLine(o, OverdueLine(o));
    var b := OptionalLine(d, NoDueLine(d));
    var c := OptionalLine(h, HighPriorityLine(h));
    OptionalNoNewline(o, OverdueLine(o));
    OptionalNoNewline(d, NoDueLine(d));
    OptionalNoNewline(h, HighPriorityLine(h));
    assert forall i :: 0 <= i < |a + b + c| ==> '\n' !in (a + b + c)[i];
  }

  lemma SuggestionsNoNewline(tasks: seq<TodoTask>, now: int)
    ensures forall i :: 0 <= i < |Suggestions(tasks, now)| ==> '\n' !in Suggestions(tasks, now)[i]
  {
    SuggestionsForNoNewline(CountOverdue(tasks, now), CountWithoutDue(tasks), CountHighPriority(tasks));
  }

  /** The summary is exactly two lines: the counts, then the suggestions
      joined by single spaces. */
  lemma HelpLineNoNewline(r: seq<string>)
    requires '\n' !in Join(r, " ")
    ensures '\n' !in HelpLine(r)
  {
    var prefix := "Proactive help: ";
    assert '\n' !in prefix;
    assert HelpLine(r) == prefix + Join(r, " ");
  }

  lemma FormatSummaryLines(tasks: seq<TodoTask>, now: int)
    ensures Split(FormatSummary(tasks, now), '\n') ==
      [SummaryLine(SummarizeTasks(tasks, now)), "Proactive help: " + Join(Suggestions(tasks, now), " ")]
  {
    var s := SummarizeTasks(tasks, now);
    var r := Suggestions(tasks, now);
    SummaryLineNoNewline(s);
    SuggestionsNoNewline(tasks, now);
    JoinFree(r, " ", '\n');
    HelpLineNoNewline(r);
    JoinSplit([SummaryLine(s), HelpLine(r)], '\n');
  }

  function SetupReply(): string {
    Join(SetupLines, "\n")
  }

  /** `handle`: without a provider, the setup text; when the provider fails,
      the apology with the error; otherwise the summary with the task count.
      The agent itself never fails. */
  function Handle(ctx: AgentContext, w: World): (r: Result<AgentResult, string>)
    ensures r.Success? && r.value.handoff.None? && r.value.metadata.Some?
    ensures r.value.metadata.value.connected == Some(ResolveProvider(ctx).Some? && w.tasks.Success?)
  {
    if ResolveProvider(ctx).None? then
      Success(Reply(SetupReply(), Connected(false)))
    else
      match w.tasks
      case Failure(e) =>
        Success(Reply(Apology, Metadata(Some(false), None, None, Some(e), None)))
      case Success(tasks) =>
        Success(Reply(FormatSummary(tasks, w.nowMs), Metadata(Some(true), Some(|tasks|), None, None, None)))
  }

  /** The three outcomes of `handle`, told apart by their metadata. */
  lemma HandleOutcomes(ctx: AgentContext, w: World)
    ensures var m := Handle(ctx, w).value.metadata.value;
            && (ResolveProvider(ctx).None? ==> Handle(ctx, w).value.reply == SetupReply() && m == Connected(false))
            && (ResolveProvider(ctx).Some? && w.tasks.Failure? ==>
                  Handle(ctx, w).value.reply == Apology && m.connected == Some(false) && m.error == Some(w.tasks.error))
            && (ResolveProvider(ctx).Some? && w.tasks.Success? ==>
                  Handle(ctx, w).value.reply == FormatSummary(w.tasks.value, w.nowMs)
                  && m.taskCount == Some(|w.tasks.value|) && m.error.None?)
  {
  }

  /** Without a provider the reply does not depend on anything the world
      holds: no provider is called. */
  lemma SetupIgnoresWorld(ctx: AgentContext, w1: World, w2: World)
    requires ResolveProvider(ctx).None?
    ensures Handle(ctx, w1) == Handle(ctx, w2)
  {
  }

  /** `/todo|task|clickup|action items?|backlog/i`. */
  predicate CanHandle(input: string) {
    MatchesKeyword(input, Keywords)
  }

  const Description: string := "Connects to " + "ClickUp MCP, " + "summarizes " + "tasks, and " + "proposes help."

  /** `createTodoAgent`. */
  function CreateTodoAgent(): (a: Agent)
    ensures a.id == "todo" && IsVisible(a)
  {
    Agent("todo", Description, None, CanHandle, Handle)
  }
}
