/** Environment-to-configuration parsing (packages/agents/src/env.ts): which
    providers the process environment enables, with which settings, and the
    memory bag built from them. The environment is passed in as a map. */
module EnvConfig {
  import opened Wrappers
  import opened Text
  import opened Context

  type Env = map<string, string>

  function Lookup(env: Env, key: string): (r: Option<string>)
    ensures r.Some? <==> key in env
    ensures r.Some? ==> r.value == env[key]
  {
    if key in env then Some(env[key]) else None
  }

  /** A variable that is set to a non-empty value (JavaScript truthiness). */
  predicate IsSetNonEmpty(env: Env, key: string) {
    key in env && env[key] != ""
  }

  /** `parseBoolean`: "true"/"false" in any letter case; anything else,
      and an unset variable, is undefined. */
  function ParseBoolean(value: Option<string>): (r: Option<bool>)
    ensures value.None? ==> r.None?
    ensures r == Some(true) <==> value.Some? && Lower(value.value) == "true"
    ensures r == Some(false) <==> value.Some? && Lower(value.value) == "false"
  {
    match value
    case None => None
    case Some(v) =>
      var lowered := Lower(v);
      if lowered == "true" then Some(true)
      else if lowered == "false" then Some(false)
      else None
  }

  /** The token: the first of the three variables that is defined at all,
      even when it is empty. */
  function ClickUpToken(env: Env): (r: Option<string>)
    ensures "CLICKUP_API_TOKEN" in env ==> r == Some(env["CLICKUP_API_TOKEN"])
    ensures "CLICKUP_API_TOKEN" !in env && "CLICKUP_API_KEY" in env ==> r == Some(env["CLICKUP_API_KEY"])
    ensures "CLICKUP_API_TOKEN" !in env && "CLICKUP_API_KEY" !in env ==> r == Lookup(env, "CLICKUP_API_CLIENT")
  {
    if "CLICKUP_API_TOKEN" in env then Some(env["CLICKUP_API_TOKEN"])
    else if "CLICKUP_API_KEY" in env then Some(env["CLICKUP_API_KEY"])
    else Lookup(env, "CLICKUP_API_CLIENT")
  }

  function TrimAll(pieces: seq<string>): (r: seq<string>)
    ensures |r| == |pieces|
    ensures forall i :: 0 <= i < |r| ==> r[i] == Trim(pieces[i])
  {
    if pieces == [] then [] else [Trim(pieces[0])] + TrimAll(pieces[1..])
  }

  /** The list ids of a comma-separated value: every piece trimmed, empty
      pieces dropped. */
  function ParseListIds(raw: string): (ids: seq<string>)
    ensures forall i :: 0 <= i < |ids| ==> ids[i] != "" && ',' !in ids[i] && Trim(ids[i]) == ids[i]
    ensures forall i :: 0 <= i < |Split(raw, ',')| && Trim(Split(raw, ',')[i]) != "" ==> Trim(Split(raw, ',')[i]) in ids
  {
    var pieces := Split(raw, ',');
    var trimmed := TrimAll(pieces);
    forall i | 0 <= i < |trimmed| ensures ',' !in trimmed[i] && Trim(trimmed[i]) == trimmed[i] {
      TrimIdempotent(pieces[i]);
      TrimIsSlice(pieces[i]);
    }
    NonEmpty(trimmed)
  }

  lemma TrimIsSlice(s: string)
    ensures forall c :: c in Trim(s) ==> c in s
  {
    var i := |s| - |TrimStart(s)|;
    assert Trim(s) == s[i..i + |Trim(s)|];
  }

  /** Ids that are already clean come back unchanged from their
      comma-joined text: parsing inverts joining. */
  lemma {:induction false} ParseListIdsOfJoin(ids: seq<string>)
    requires |ids| >= 1
    requires forall i :: 0 <= i < |ids| ==> ids[i] != "" && ',' !in ids[i] && Trim(ids[i]) == ids[i]
    ensures ParseListIds(Join(ids, ",")) == ids
  {
    JoinSplit(ids, ',');
    assert Split(Join(ids, ","), ',') == ids;
    assert TrimAll(ids) == ids;
    NonEmptyKeepsAll(ids);
  }

  lemma TrimAllAppend(a: seq<string>, b: seq<string>)
    ensures TrimAll(a + b) == TrimAll(a) + TrimAll(b)
  {
  }

  /** The ids of `a,b` are the ids of `a` followed by those of `b`. */
  lemma ParseListIdsAppend(a: string, b: string)
    ensures ParseListIds(a + "," + b) == ParseListIds(a) + ParseListIds(b)
  {
    SplitAppend(a, b, ',');
    TrimAllAppend(Split(a, ','), Split(b, ','));
    NonEmptyAppend(TrimAll(Split(a, ',')), TrimAll(Split(b, ',')));
  }

  /** A single comma-free piece gives its trimmed text, or nothing when
      that is empty. Together with ParseListIdsAppend this fixes the ids
      of every value, in order. */
  lemma ParseListIdsPiece(p: string)
    requires ',' !in p
    ensures ParseListIds(p) == if Trim(p) == "" then [] else [Trim(p)]
  {
    assert Split(p, ',') == [p];
    assert TrimAll([p]) == [Trim(p)];
  }

  function ListIdsFromEnv(env: Env): (r: Option<seq<string>>)
    ensures r.Some? <==> "CLICKUP_LIST_IDS" in env
  {
    if "CLICKUP_LIST_IDS" in env then Some(ParseListIds(env["CLICKUP_LIST_IDS"])) else None
  }

  /** `CLICKUP_DUE_DAYS ? Number(CLICKUP_DUE_DAYS) : undefined`. */
  function DueDaysFromEnv(env: Env): (r: Option<NumberValue>)
    ensures r.Some? <==> IsSetNonEmpty(env, "CLICKUP_DUE_DAYS")
    ensures r.Some? ==> r.value == ParseNumber(env["CLICKUP_DUE_DAYS"])
  {
    if IsSetNonEmpty(env, "CLICKUP_DUE_DAYS") then Some(ParseNumber(env["CLICKUP_DUE_DAYS"])) else None
  }

  /** `createClickUpProviderFromEnv`: a provider exactly when the token is
      non-empty and at least one list id remains. */
  function ClickUpProviderFromEnv(env: Env): (r: Option<ClickUpConfig>)
    ensures r.None? <==>
      || ClickUpToken(env).None? || ClickUpToken(env).value == ""
      || ListIdsFromEnv(env).None? || ListIdsFromEnv(env).value == []
    ensures r.Some? ==>
      && r.value.apiToken == ClickUpToken(env).value
      && r.value.listIds == ListIdsFromEnv(env).value
      && r.value.assigneeId == Lookup(env, "CLICKUP_ASSIGNEE_ID")
      && r.value.includeClosed == ParseBoolean(Lookup(env, "CLICKUP_INCLUDE_CLOSED"))
      && r.value.dueInDays == DueDaysFromEnv(env)
      && r.value.baseUrl.None?
  {
    var token := ClickUpToken(env);
    var listIds := ListIdsFromEnv(env);
    if token.None? || token.value == "" || listIds.None? || listIds.value == [] then None
    else Some(ClickUpConfig(
      token.value,
      listIds.value,
      Lookup(env, "CLICKUP_ASSIGNEE_ID"),
      ParseBoolean(Lookup(env, "CLICKUP_INCLUDE_CLOSED")),
      DueDaysFromEnv(env),
      None))
  }

  /** An empty `CLICKUP_API_TOKEN` hides the other two token variables. */
  lemma EmptyTokenDisables(env: Env)
    requires "CLICKUP_API_TOKEN" in env && env["CLICKUP_API_TOKEN"] == ""
    ensures ClickUpProviderFromEnv(env).None?
  {
  }

  /** `createFlowtlyProviderFromEnv`: a provider exactly when
      `FLOWTLY_MCP_URL` is set and non-empty. */
  function FlowtlyProviderFromEnv(env: Env): (r: Option<FlowtlyConfig>)
    ensures r.None? <==> !IsSetNonEmpty(env, "FLOWTLY_MCP_URL")
    ensures r.Some? ==>
      && r.value.baseUrl == env["FLOWTLY_MCP_URL"]
      && r.value.apiKey == Lookup(env, "FLOWTLY_MCP_API_KEY")
      && r.value.clientId == Lookup(env, "FLOWTLY_MCP_CLIENT_ID")
      && r.value.clientSecret == Lookup(env, "FLOWTLY_MCP_CLIENT_SECRET")
      && r.value.workspaceId == Lookup(env, "FLOWTLY_WORKSPACE_ID")
  {
    if !IsSetNonEmpty(env, "FLOWTLY_MCP_URL") then None
    else Some(FlowtlyConfig(
      env["FLOWTLY_MCP_URL"],
      Lookup(env, "FLOWTLY_MCP_API_KEY"),
      Lookup(env, "FLOWTLY_MCP_CLIENT_ID"),
      Lookup(env, "FLOWTLY_MCP_CLIENT_SECRET"),
      Lookup(env, "FLOWTLY_WORKSPACE_ID")))
  }

  /** `buildAgentMemoryFromEnv`: the memory starts empty and gains a key
      for each provider the environment enables, and no other key. */
  method BuildAgentMemoryFromEnv(env: Env) returns (memory: Memory)
    ensures "clickupProvider" in memory <==> ClickUpProviderFromEnv(env).Some?
    ensures "clickupProvider" in memory ==> memory["clickupProvider"] == ClickUpRestProvider(ClickUpProviderFromEnv(env).value)
    ensures "flowtlyProvider" in memory <==> FlowtlyProviderFromEnv(env).Some?
    ensures "flowtlyProvider" in memory ==> memory["flowtlyProvider"] == FlowtlyMcpProvider(FlowtlyProviderFromEnv(env).value)
    ensures memory.Keys <= {"clickupProvider", "flowtlyProvider"}
  {
    memory := map[];
    var clickup := ClickUpProviderFromEnv(env);
    if clickup.Some? {
      memory := memory["clickupProvider" := ClickUpRestProvider(clickup.value)];
    }
    var flowtly := FlowtlyProviderFromEnv(env);
    if flowtly.Some? {
      memory := memory["flowtlyProvider" := FlowtlyMcpProvider(flowtly.value)];
    }
  }
}
