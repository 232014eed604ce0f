/** The ClickUp REST task provider (packages/agents/src/clickup.ts): one
    request per tracked list, all of which must succeed, then the raw ClickUp
    tasks flattened in list order and normalised to the agents' task shape.
    The HTTP transport is the `fetch` parameter: the response each request
    gets. */
module ClickUp {
  import opened Wrappers
  import opened Text
  import opened Context

  const DefaultBaseUrl: string := "https://api.clickup.com/api/v2"

  /** Milliseconds in a day: `24 * 60 * 60 * 1000`. */
  const DayMs: int := 86400000

  /** The largest magnitude of a valid JavaScript time value; `new Date(n)`
      beyond it is an invalid date, whose `toISOString` throws. */
  const MaxTimeMs: int := 8640000000000000

  const InvalidTime: string := "RangeError: " + "Invalid time " + "value"

  // ---------------------------------------------------------------------------
  // Raw ClickUp data and the transport
  // ---------------------------------------------------------------------------

  datatype StatusField = StatusField(status: Option<string>)

  datatype PriorityField = PriorityField(priority: Option<string>, name: Option<string>)

  /** A task as the ClickUp API returns it; `dueDate` is `due_date`, `None`
      for `null` or absent. */
  datatype ClickUpTask = ClickUpTask(
    id: string,
    name: string,
    status: Option<StatusField>,
    dueDate: Option<string>,
    priority: Option<PriorityField>,
    url: Option<string>)

  type Params = seq<(string, string)>

  /** One list request: the URL's parts and the `Authorization` header. */
  datatype TaskRequest = TaskRequest(baseUrl: string, listId: string, params: Params, authorization: string)

  /** What one request came back with: a 2xx response (whose `tasks` field
      may be missing), a non-2xx response, or a thrown transport error. */
  datatype ListResponse =
    | ListOk(tasks: Option<seq<ClickUpTask>>)
    | ListNotOk(status: int, body: string)
    | ListUnreachable(error: string)

  function BaseUrl(config: ClickUpConfig): (r: string)
    ensures config.baseUrl.None? ==> r == DefaultBaseUrl
    ensures config.baseUrl.Some? ==> r == config.baseUrl.value
  {
    config.baseUrl.GetOr(DefaultBaseUrl)
  }

  // ---------------------------------------------------------------------------
  // Query parameters
  // ---------------------------------------------------------------------------

  predicate HasParam(params: Params, key: string) {
    exists i | 0 <= i < |params| :: params[i].0 == key
  }

  function BoolText(b: bool): string {
    if b then "true" else "false"
  }

  /** `String(now + dueInMs)`, NaN when the day count is NaN. */
  function DueCutoff(days: NumberValue, nowMs: int): string {
    match days
    case Finite(n) => IntToString(nowMs + n * DayMs)
    case NaN => "NaN"
  }

  /** The query of every list request, in the order the source sets it. */
  function QueryParams(config: ClickUpConfig, nowMs: int): (params: Params)
    ensures |params| <= 3
    ensures forall i :: 0 <= i < |params| ==>
      || (params[i].0 == "assignees[]" && config.assigneeId.Some? && params[i].1 == config.assigneeId.value)
      || (params[i].0 == "include_closed" && config.includeClosed.Some?
          && params[i].1 == BoolText(config.includeClosed.value))
      || (params[i].0 == "due_date_lt" && config.dueInDays.Some?
          && params[i].1 == DueCutoff(config.dueInDays.value, nowMs))
  {
    (if config.assigneeId.Some? && config.assigneeId.value != "" then [("assignees[]", config.assigneeId.value)] else [])
    + (if config.includeClosed.Some? then [("include_closed", BoolText(config.includeClosed.value))] else [])
    + (if config.dueInDays.Some? then [("due_date_lt", DueCutoff(config.dueInDays.value, nowMs))] else [])
  }

  /** Which keys the query holds: `assignees[]` only for a non-empty
      assignee, `include_closed` whenever it is defined, `due_date_lt`
      whenever a day count (possibly NaN) is given. */
  lemma QueryParamRules(config: ClickUpConfig, nowMs: int)
    ensures HasParam(QueryParams(config, nowMs), "assignees[]") <==> config.assigneeId.Some? && config.assigneeId.value != ""
    ensures HasParam(QueryParams(config, nowMs), "include_closed") <==> config.includeClosed.Some?
    ensures HasParam(QueryParams(config, nowMs), "due_date_lt") <==> config.dueInDays.Some?
  {
    var a := if config.assigneeId.Some? && config.assigneeId.value != "" then [("assignees[]", config.assigneeId.value)] else [];
    var b := if config.includeClosed.Some? then [("include_closed", BoolText(config.includeClosed.value))] else [];
    var c := if config.dueInDays.Some? then [("due_date_lt", DueCutoff(config.dueInDays.value, nowMs))] else [];
    var params := QueryParams(config, nowMs);
    assert params == a + b + c;
    if a != [] { assert params[0].0 == "assignees[]"; }
    if b != [] { assert params[|a|].0 == "include_closed"; }
    if c != [] { assert params[|a| + |b|].0 == "due_date_lt"; }
  }

  /** The per-list `URLSearchParams` built by successive `set` calls; the
      three keys differ, so each `set` appends. */
  method BuildQueryParams(config: ClickUpConfig, nowMs: int) returns (params: Params)
    ensures params == QueryParams(config, nowMs)
  {
    params := [];
    if config.assigneeId.Some? && config.assigneeId.value != "" {
      params := params + [("assignees[]", config.assigneeId.value)];
    }
    if config.includeClosed.Some? {
      params := params + [("include_closed", BoolText(config.includeClosed.value))];
    }
    if config.dueInDays.Some? {
      params := params + [("due_date_lt", DueCutoff(config.dueInDays.value, nowMs))];
    }
  }

  function Request(config: ClickUpConfig, nowMs: int, listId: string): TaskRequest {
    TaskRequest(BaseUrl(config), listId, QueryParams(config, nowMs), config.apiToken)
  }

  // ---------------------------------------------------------------------------
  // The fan-out join
  // ---------------------------------------------------------------------------

  function ListError(listId: string, status: int, body: string): string {
    "Error: ClickUp API error for list " + listId + ": " + IntToString(status) + " " + body
  }

  /** What one list contributes: its tasks (none when the field is missing),
      or the error that rejects the whole call. */
  function ListTasksOf(listId: string, response: ListResponse): Result<seq<ClickUpTask>, string> {
    match response
    case ListOk(tasks) => Success(tasks.GetOr([]))
    case ListNotOk(status, body) => Failure(ListError(listId, status, body))
    case ListUnreachable(error) => Failure(error)
  }

  function Respond(config: ClickUpConfig, nowMs: int, fetch: TaskRequest -> ListResponse, listId: string): ListResponse {
    fetch(Request(config, nowMs, listId))
  }

  /** The joined raw tasks of `ids`, or the error of the first failing list. */
  function Gather(config: ClickUpConfig, nowMs: int, fetch: TaskRequest -> ListResponse, ids: seq<string>): Result<seq<ClickUpTask>, string>
  {
    if ids == [] then Success([])
    else
      var last := ids[|ids| - 1];
      match Gather(config, nowMs, fetch, ids[..|ids| - 1])
      case Failure(e) => Failure(e)
      case Success(prev) =>
        match ListTasksOf(last, Respond(config, nowMs, fetch, last))
        case Failure(e) => Failure(e)
        case Success(tasks) => Success(prev + tasks)
  }

  // ---------------------------------------------------------------------------
  // Normalisation
  // ---------------------------------------------------------------------------

  /** A finite number within the range of `Date` (8.64e15 ms either side of
      the epoch). */
  predicate InDateRange(v: NumberValue) {
    v.Finite? && -MaxTimeMs <= v.n <= MaxTimeMs
  }

  /** `dueAt`: absent for a missing or empty `due_date`; otherwise the
      instant `Number(due_date)` names, an invalid date throwing. */
  function NormalizeDue(dueDate: Option<string>): (r: Result<Option<Due>, string>)
    ensures r.Success? && r.value.None? <==> dueDate.None? || dueDate.value == ""
    ensures r.Success? && r.value.Some? <==>
      dueDate.Some? && dueDate.value != "" && InDateRange(ParseNumber(dueDate.value))
    ensures r.Success? && r.value.Some? ==> r.value.value == Due(Some(ParseNumber(dueDate.value).n))
    ensures r.Failure? ==> r.error == InvalidTime
  {
    if dueDate.None? || dueDate.value == "" then Success(None)
    else
      var v := ParseNumber(dueDate.value);
      if InDateRange(v) then Success(Some(Due(Some(v.n)))) else Failure(InvalidTime)
  }

  /** A `due_date` written as the decimal text of an instant in the
      `Date` range normalizes to that instant. */
  lemma DueOfInstant(ms: int)
    requires -MaxTimeMs <= ms <= MaxTimeMs
    ensures NormalizeDue(Some(IntToString(ms))) == Success(Some(Due(Some(ms))))
  {
    IntToStringRoundTrip(ms);
  }

  function NormalizePriority(p: Option<PriorityField>): (r: Option<string>)
    ensures p.None? ==> r.None?
    ensures p.Some? && p.value.priority.Some? ==> r == p.value.priority
    ensures p.Some? && p.value.priority.None? ==> r == p.value.name
  {
    match p
    case None => None
    case Some(f) => if f.priority.Some? then f.priority else f.name
  }

  function NormalizeStatus(s: Option<StatusField>): (r: Option<string>)
    ensures r.Some? <==> s.Some? && s.value.status.Some?
    ensures r.Some? ==> r.value == s.value.status.value
  {
    match s
    case None => None
    case Some(f) => f.status
  }

  function Normalize(t: ClickUpTask): (r: Result<TodoTask, string>)
    ensures r.Success? <==> NormalizeDue(t.dueDate).Success?
    ensures r.Success? ==>
      && r.value.id == t.id && r.value.name == t.name && r.value.url == t.url
      && r.value.status == NormalizeStatus(t.status)
      && r.value.priority == NormalizePriority(t.priority)
      && r.value.dueAt == NormalizeDue(t.dueDate).value
  {
    match NormalizeDue(t.dueDate)
    case Failure(e) => Failure(e)
    case Success(due) => Success(TodoTask(t.id, t.name, NormalizeStatus(t.status), due, NormalizePriority(t.priority), t.url))
  }

  /** The normalised tasks in order, or the error of the first task that fails. */
  function NormalizeAll(ts: seq<ClickUpTask>): Result<seq<TodoTask>, string>
  {
    if ts == [] then Success([])
    else
      match NormalizeAll(ts[..|ts| - 1])
      case Failure(e) => Failure(e)
      case Success(prev) =>
        match Normalize(ts[|ts| - 1])
        case Failure(e) => Failure(e)
        case Success(t) => Success(prev + [t])
  }

  /** What `listTasks` resolves to, or the error it rejects with. */
  function Listed(config: ClickUpConfig, nowMs: int, fetch: TaskRequest -> ListResponse): Result<seq<TodoTask>, string>
  {
    match Gather(config, nowMs, fetch, config.listIds)
    case Failure(e) => Failure(e)
    case Success(raw) => NormalizeAll(raw)
  }

  /** `listTasks`: the requests in list order, then the normalisation. */
  method ListTasks(config: ClickUpConfig, nowMs: int, fetch: TaskRequest -> ListResponse)
    returns (r: Result<seq<TodoTask>, string>)
    ensures r == Listed(config, nowMs, fetch)
  {
    var gathered := FetchLists(config, nowMs, fetch);
    match gathered
    case Failure(e) =>
      r := Failure(e);
    case Success(raw) =>
      r := NormalizeTasks(raw);
  }

  /** The requests, one per list id, stopping at the first failure. */
  method FetchLists(config: ClickUpConfig, nowMs: int, fetch: TaskRequest -> ListResponse)
    returns (r: Result<seq<ClickUpTask>, string>)
    ensures r == Gather(config, nowMs, fetch, config.listIds)
  {
    var base := BaseUrl(config);
    var ids := config.listIds;
    var raw: seq<ClickUpTask> := [];
    var i := 0;
    while i < |ids|
      invariant 0 <= i <= |ids|
      invariant Gather(config, nowMs, fetch, ids[..i]) == Success(raw)
    {
      var params := BuildQueryParams(config, nowMs);
      var response := fetch(TaskRequest(base, ids[i], params, config.apiToken));
      assert ids[..i + 1][..i] == ids[..i];
      match ListTasksOf(ids[i], response)
      case Failure(e) =>
        GatherFailureStays(config, nowMs, fetch, ids, i + 1);
        return Failure(e);
      case Success(tasks) =>
        raw := raw + tasks;
      i := i + 1;
    }
    assert ids[..i] == ids;
    r := Success(raw);
  }

  /** The normalisation of the gathered tasks, in order. */
  method NormalizeTasks(raw: seq<ClickUpTask>) returns (r: Result<seq<TodoTask>, string>)
    ensures r == NormalizeAll(raw)
  {
    var out: seq<TodoTask> := [];
    var j := 0;
    while j < |raw|
      invariant 0 <= j <= |raw|
      invariant NormalizeAll(raw[..j]) == Success(out)
    {
      assert raw[..j + 1][..j] == raw[..j];
      match Normalize(raw[j])
      case Failure(e) =>
        NormalizeFailureStays(raw, j + 1);
        return Failure(e);
      case Success(t) =>
        out := out + [t];
      j := j + 1;
    }
    assert raw[..j] == raw;
    r := Success(out);
  }

  // ---------------------------------------------------------------------------
  // Properties of the join
  // ---------------------------------------------------------------------------

  lemma {:induction false} GatherFailureStays(config: ClickUpConfig, nowMs: int, fetch: TaskRequest -> ListResponse, ids: seq<string>, i: nat)
    requires i <= |ids|
    requires Gather(config, nowMs, fetch, ids[..i]).Failure?
    ensures Gather(config, nowMs, fetch, ids) == Gather(config, nowMs, fetch, ids[..i])
    decreases |ids|
  {
    if i < |ids| {
      var init := ids[..|ids| - 1];
      assert init[..i] == ids[..i];
      GatherFailureStays(config, nowMs, fetch, init, i);
    } else {
      assert ids[..i] == ids;
    }
  }

  lemma {:induction false} NormalizeFailureStays(ts: seq<ClickUpTask>, i: nat)
    requires i <= |ts|
    requires NormalizeAll(ts[..i]).Failure?
    ensures NormalizeAll(ts) == NormalizeAll(ts[..i])
    decreases |ts|
  {
    if i < |ts| {
      var init := ts[..|ts| - 1];
      assert init[..i] == ts[..i];
      NormalizeFailureStays(init, i);
    } else {
      assert ts[..i] == ts;
    }
  }

  predicate ListSucceeded(config: ClickUpConfig, nowMs: int, fetch: TaskRequest -> ListResponse, listId: string) {
    Respond(config, nowMs, fetch, listId).ListOk?
  }

  /** The raw task count of one list, zero for a failed one. */
  function ListCount(config: ClickUpConfig, nowMs: int, fetch: TaskRequest -> ListResponse, listId: string): nat {
    match Respond(config, nowMs, fetch, listId)
    case ListOk(tasks) => |tasks.GetOr([])|
    case _ => 0
  }

  function SumCounts(config: ClickUpConfig, nowMs: int, fetch: TaskRequest -> ListResponse, ids: seq<string>): nat {
    if ids == [] then 0
    else SumCounts(config, nowMs, fetch, ids[..|ids| - 1]) + ListCount(config, nowMs, fetch, ids[|ids| - 1])
  }

  /** All or nothing: the join succeeds exactly when every list request
      succeeded, and then holds as many tasks as the lists together. */
  lemma {:induction false} GatherAllOrNothing(config: ClickUpConfig, nowMs: int, fetch: TaskRequest -> ListResponse, ids: seq<string>)
    ensures Gather(config, nowMs, fetch, ids).Success? <==>
              forall j :: 0 <= j < |ids| ==> ListSucceeded(config, nowMs, fetch, ids[j])
    ensures Gather(config, nowMs, fetch, ids).Success? ==>
              |Gather(config, nowMs, fetch, ids).value| == SumCounts(config, nowMs, fetch, ids)
  {
    if ids != [] {
      var init := ids[..|ids| - 1];
      GatherAllOrNothing(config, nowMs, fetch, init);
      assert forall j :: 0 <= j < |init| ==> init[j] == ids[j];
    }
  }

  /** A failed join names a list that failed: its error is that list's
      error message or transport error. */
  lemma {:induction false} GatherFailureNamesAList(config: ClickUpConfig, nowMs: int, fetch: TaskRequest -> ListResponse, ids: seq<string>)
    requires Gather(config, nowMs, fetch, ids).Failure?
    ensures exists j :: 0 <= j < |ids| && !ListSucceeded(config, nowMs, fetch, ids[j])
              && Gather(config, nowMs, fetch, ids).error == ListTasksOf(ids[j], Respond(config, nowMs, fetch, ids[j])).error
  {
    var init := ids[..|ids| - 1];
    if Gather(config, nowMs, fetch, init).Failure? {
      GatherFailureNamesAList(config, nowMs, fetch, init);
      var j :| 0 <= j < |init| && !ListSucceeded(config, nowMs, fetch, init[j])
              && Gather(config, nowMs, fetch, init).error == ListTasksOf(init[j], Respond(config, nowMs, fetch, init[j])).error;
      assert init[j] == ids[j];
    } else {
      assert !ListSucceeded(config, nowMs, fetch, ids[|ids| - 1]);
    }
  }

  /** One more list id: its tasks follow those gathered so far. */
  lemma GatherSnoc(config: ClickUpConfig, nowMs: int, fetch: TaskRequest -> ListResponse, ids: seq<string>, last: string)
    requires Gather(config, nowMs, fetch, ids).Success?
    requires ListTasksOf(last, Respond(config, nowMs, fetch, last)).Success?
    ensures Gather(config, nowMs, fetch, ids + [last])
              == Success(Gather(config, nowMs, fetch, ids).value + ListTasksOf(last, Respond(config, nowMs, fetch, last)).value)
  {
    assert (ids + [last])[..|ids|] == ids;
  }

  /** The joined tasks are the lists' tasks concatenated in `listIds` order. */
  lemma {:induction false} GatherAppend(config: ClickUpConfig, nowMs: int, fetch: TaskRequest -> ListResponse, ids: seq<string>, more: seq<string>)
    requires Gather(config, nowMs, fetch, ids).Success? && Gather(config, nowMs, fetch, more).Success?
    ensures Gather(config, nowMs, fetch, ids + more)
              == Success(Gather(config, nowMs, fetch, ids).value + Gather(config, nowMs, fetch, more).value)
    decreases |more|
  {
    var a := Gather(config, nowMs, fetch, ids).value;
    if more == [] {
      assert ids + more == ids;
      assert a + [] == a;
    } else {
      var init := more[..|more| - 1];
      var last := more[|more| - 1];
      assert more == init + [last];
      assert ids + more == (ids + init) + [last];
      var b := Gather(config, nowMs, fetch, init).value;
      var tasks := ListTasksOf(last, Respond(config, nowMs, fetch, last)).value;
      assert Gather(config, nowMs, fetch, more).value == b + tasks;
      GatherAppend(config, nowMs, fetch, ids, init);
      GatherSnoc(config, nowMs, fetch, ids + init, last);
      assert a + b + tasks == a + (b + tasks);
    }
  }

  /** Normalisation keeps the number and the order of the tasks: the k-th
      output task is the k-th raw task normalised. */
  lemma {:induction false} NormalizeAllPointwise(ts: seq<ClickUpTask>)
    requires NormalizeAll(ts).Success?
    ensures |NormalizeAll(ts).value| == |ts|
    ensures forall k :: 0 <= k < |ts| ==> Normalize(ts[k]) == Success(NormalizeAll(ts).value[k])
  {
    if ts != [] {
      var init := ts[..|ts| - 1];
      NormalizeAllPointwise(init);
      assert forall k :: 0 <= k < |init| ==> init[k] == ts[k];
    }
  }
}
