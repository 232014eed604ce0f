# Routing and dispatch core of the `@maciek/agents` assistant

This project models how the personal assistant picks an agent for a message
and how each agent answers. It is a model written in Dafny, with proofs.

- **Registry and router.** `createAssistant` keeps a list of registered
  agents. It refuses duplicate ids and lists only the visible agents. For
  each message it asks an intent router when there is one: the memory's
  own `intentRouter` override, or else Gemini when an API key is set. If
  the router names no known agent, it falls back to the first agent whose
  keyword test accepts the input, and then to the first agent.
- **Default agents.** Five agents are registered in a fixed order: todo,
  finance, planner, researcher and a catch-all executor.
- **Todo agent.** It reads tasks from a ClickUp provider in memory and
  reports:
  - how many are overdue;
  - how many have no due date;
  - up to three suggestions.
- **Finance agent.** It reads a Flowtly snapshot. It either uses a Gemini
  summary or falls back to a rule-based summary. The earlier rules-only
  finance agent is modelled too.
- **ClickUp REST provider.** It builds the query for each list id, collects
  the tasks of all lists and normalizes them into todo tasks.
- **Environment configuration.** Both providers are configured from
  environment variables, and the agent memory is built from them.
- **`/api/route` handler.** It validates the body, merges stored memory with
  provider memory, routes the message, trims the history and builds the
  state to persist.
- **Web app sign-in.** It covers:
  - the e-mail allow-list;
  - JWT payload decoding;
  - the credential checks and their order;
  - re-validation of a remembered sign-in.

Each agent is a value (`Context.Agent`) holding its `canHandle` predicate
and its `handle` function. Everything outside the process is a parameter of
the model. `Context.World` carries those outcomes:

- the Gemini routing reply and its JSON parse;
- the clock;
- the provider's tasks or snapshot;
- the Gemini summary call.

Modules, one file each:

- `Wrappers`: Option, Result, Outcome.
- `Text`: the JavaScript string operations used by the source.
- `Context`: shared types.
- `ClickUp`
- `EnvConfig`
- `TodoAgent`
- `FinanceAgent`
- `LegacyFinanceAgent`
- `Agents`: the assistant and the default agents.
- `Api`
- `WebAuth`

## Model

| member | source | states |
|---|---|---|
| Text.Split | packages/agents/src/env.ts:15 | `split(",")` yields at least one piece, and no piece contains the separator |
| Text.SplitJoin | packages/agents/src/env.ts:15 | joining the pieces of a split with the separator gives back the original text |
| Text.JoinSplit | packages/agents/src/env.ts:15 | splitting a join of separator-free parts gives back exactly those parts |
| Text.SplitAppend | packages/agents/src/env.ts:15 | a separator between two texts separates their pieces: `(a + "," + b).split(",")` is the pieces of `a` followed by those of `b` |
| Text.NonEmpty | packages/web/src/App.tsx:33 | `filter(Boolean)` keeps exactly the non-empty pieces: each kept piece is non-empty and was in the input, and each non-empty input piece is kept |
| Text.NonEmptyAppend | packages/web/src/App.tsx:33 | filtering distributes over concatenation, so the kept pieces stay in input order |
| Text.Trim | packages/agents/src/env.ts:15 | `trim()` never lengthens the text, and its result neither starts nor ends with whitespace |
| Text.TrimSpec | packages/agents/src/env.ts:15 | `trim()` returns the slice between the leading and the trailing whitespace: everything cut off before and after it is whitespace |
| Text.TrimIdempotent | packages/web/src/App.tsx:32 | trimming twice is the same as trimming once |
| Text.IntToStringRoundTrip | packages/agents/src/clickup.ts:45 | `Number(String(i)) == i` for every integer, as used for the `due_date_lt` cutoff and for `due_date` |
| ClickUp.BaseUrl | packages/agents/src/clickup.ts:26 | the configured base URL if one is given, otherwise `https://api.clickup.com/api/v2` |
| ClickUp.QueryParams | packages/agents/src/clickup.ts:37-46 | at most three query parameters: `assignees[]` with the assignee id, `include_closed` with "true" or "false", and `due_date_lt` with now plus the day count in milliseconds |
| ClickUp.QueryParamRules | packages/agents/src/clickup.ts:38-46 | `assignees[]` is present iff an assignee id is set and non-empty; `include_closed` iff the flag is defined; `due_date_lt` iff a due-day count is set |
| ClickUp.BuildQueryParams | packages/agents/src/clickup.ts:37-46 | the method that appends parameters one by one produces exactly the specified parameter list |
| ClickUp.NormalizeDue | packages/agents/src/clickup.ts:72 | a missing or empty `due_date` gives no due date; it gives a due date iff `Number(due_date)` is finite and inside the `Date` range, and that date is the instant `Number(due_date)`; otherwise it fails with "RangeError: Invalid time value" |
| ClickUp.DueOfInstant | packages/agents/src/clickup.ts:72 | the decimal text of any instant in the `Date` range normalizes to exactly that instant |
| ClickUp.NormalizePriority | packages/agents/src/clickup.ts:73 | the priority's `priority` text if present, else its `name`, else none |
| ClickUp.NormalizeStatus | packages/agents/src/clickup.ts:71 | the status text if the status object carries one, else none |
| ClickUp.Normalize | packages/agents/src/clickup.ts:68-75 | a ClickUp task becomes a todo task with the same id, name and url; it fails exactly when its due date fails |
| ClickUp.FetchLists | packages/agents/src/clickup.ts:35-66 | the loop over list ids requests each list in order and returns exactly the specified gathering: all tasks in list order, or the first failure |
| ClickUp.NormalizeTasks | packages/agents/src/clickup.ts:68-75 | the loop over the fetched tasks returns exactly the specified normalization of every task |
| ClickUp.ListTasks | packages/agents/src/clickup.ts:28-76 | fetching then normalizing computes exactly the specified result of `listTasks` |
| ClickUp.GatherAllOrNothing | packages/agents/src/clickup.ts:35-66 | gathering succeeds iff every list request succeeds; the task count is then the sum over the lists |
| ClickUp.GatherFailureNamesAList | packages/agents/src/clickup.ts:56-61 | a failed gathering always names a list whose request failed |
| ClickUp.GatherAppend | packages/agents/src/clickup.ts:35-68 | tasks come out in list-id order: the tasks of `ids + more` are those of `ids` followed by those of `more` |
| ClickUp.NormalizeAllPointwise | packages/agents/src/clickup.ts:68-75 | a successful normalization keeps the task count and normalizes each task in place |
| EnvConfig.ParseBoolean | packages/agents/src/env.ts:5-11 | undefined stays undefined; true iff the value lower-cases to "true"; false iff it lower-cases to "false" |
| EnvConfig.ClickUpToken | packages/agents/src/env.ts:14 | the first of `CLICKUP_API_TOKEN`, `CLICKUP_API_KEY`, `CLICKUP_API_CLIENT` that is defined, even if it is empty |
| EnvConfig.ParseListIds | packages/agents/src/env.ts:15 | every list id is non-empty, comma-free and already trimmed, and every piece of the comma split whose trim is non-empty appears, trimmed |
| EnvConfig.ParseListIdsAppend | packages/agents/src/env.ts:15 | the ids of `a,b` are the ids of `a` followed by those of `b` |
| EnvConfig.ParseListIdsPiece | packages/agents/src/env.ts:15 | a comma-free value gives its trimmed text as the one id, or no id when that is empty; with the append rule this fixes the ids of every value, in order |
| EnvConfig.ParseListIdsOfJoin | packages/agents/src/env.ts:15 | parsing the comma-join of clean ids gives back exactly those ids, in order |
| EnvConfig.DueDaysFromEnv | packages/agents/src/env.ts:26 | a due-day count is read iff `CLICKUP_DUE_DAYS` is set and non-empty, and it is then `Number(CLICKUP_DUE_DAYS)` |
| EnvConfig.ClickUpProviderFromEnv | packages/agents/src/env.ts:13-28 | no provider iff the token is missing or empty, or no list id remains; otherwise the config carries the token, the ids and the optional fields |
| EnvConfig.EmptyTokenDisables | packages/agents/src/env.ts:14-19 | an empty `CLICKUP_API_TOKEN` disables the provider, even when a fallback variable is set |
| EnvConfig.FlowtlyProviderFromEnv | packages/agents/src/env.ts:30-42 | a Flowtly provider exists iff `FLOWTLY_MCP_URL` is set and non-empty; it carries the URL and the optional credentials |
| EnvConfig.BuildAgentMemoryFromEnv | packages/agents/src/env.ts:44-60 | `clickupProvider` is present iff ClickUp is configured, and `flowtlyProvider` iff Flowtly is; each holds its provider, and no other key is set |
| TodoAgent.ResolveProvider | packages/agents/src/agents/todo.ts:16-29 | a provider exactly when `memory.clickupProvider` holds an object whose `listTasks` is a function, and it is that object |
| TodoAgent.CountOverdue | packages/agents/src/agents/todo.ts:32-39 | the overdue count is at most the task count, and zero iff no task is overdue |
| TodoAgent.OverdueHaveDue | packages/agents/src/agents/todo.ts:32-40 | only tasks with a due date can be overdue |
| TodoAgent.WithoutDueComplement | packages/agents/src/agents/todo.ts:40-41 | tasks without a due date are the total minus those with one |
| TodoAgent.SummaryBound | packages/agents/src/agents/todo.ts:31-47 | in the summary, overdue plus undated never exceeds the total |
| TodoAgent.Plural | packages/agents/src/agents/todo.ts:61 | the plural suffix is empty iff the count is one |
| TodoAgent.Suggestions | packages/agents/src/agents/todo.ts:49-86 | between one and three suggestions |
| TodoAgent.SuggestionsShape | packages/agents/src/agents/todo.ts:59-85 | the all-good line is given iff no other suggestion applies; otherwise overdue, undated and high-priority lines appear, in that order, each iff its count is non-zero |
| TodoAgent.SuggestionsForShape | packages/agents/src/agents/todo.ts:59-85 | for any three counts: the all-good line iff all are zero; otherwise one line per non-zero count, in order |
| TodoAgent.ProposeHelp | packages/agents/src/agents/todo.ts:49-86 | the method that pushes suggestions one by one returns exactly the specified list |
| TodoAgent.FormatSummaryLines | packages/agents/src/agents/todo.ts:88-95 | the reply has exactly two lines: the counts and the suggestions joined by spaces |
| TodoAgent.Handle | packages/agents/src/agents/todo.ts:108-127 | every outcome is a reply with metadata; `connected` is true iff a provider exists and its task listing succeeded |
| TodoAgent.HandleOutcomes | packages/agents/src/agents/todo.ts:108-127 | no provider gives the setup reply; a listing failure gives the apology with the error; a listing success gives the formatted summary and the task count |
| TodoAgent.SetupIgnoresWorld | packages/agents/src/agents/todo.ts:109-112 | without a provider, the reply depends on nothing outside the context |
| TodoAgent.CreateTodoAgent | packages/agents/src/agents/todo.ts:104-107 | the agent has id "todo" and is listed |
| FinanceAgent.ResolveProvider | packages/agents/src/agents/finance.ts:18-31 | a provider exactly when `memory.flowtlyProvider` holds an object whose `getSnapshot` is a function |
| FinanceAgent.MetricLines | packages/agents/src/agents/finance.ts:64-68 | one formatted line per metric, in order |
| FinanceAgent.SummarizeSnapshot | packages/agents/src/agents/finance.ts:58-75 | at least one metric line; the notes are the snapshot's notes, or none |
| FinanceAgent.SummaryShape | packages/agents/src/agents/finance.ts:63-74 | the headline is "Finance snapshot as of <asOf>." when `asOf` is non-empty and "Finance snapshot." otherwise; the "No metrics returned yet." placeholder appears iff there are no metrics; otherwise each line shows label, value and, when truthy, the delta |
| FinanceAgent.RulesReplyLines | packages/agents/src/agents/finance.ts:150-153 | for single-line fields, the rule-based reply splits back into headline, metric lines and notes; the line count is one plus max(1, metrics) plus the notes |
| FinanceAgent.LlmSummary | packages/agents/src/agents/finance.ts:77-127 | without a key there is no summary; it fails iff a key is set and the call throws, with that error; a non-OK response gives none; a text gives its trim, or none when the trim is empty |
| FinanceAgent.Handle | packages/agents/src/agents/finance.ts:140-165 | every outcome is a reply with metadata and no hand-off |
| FinanceAgent.HandleOutcomes | packages/agents/src/agents/finance.ts:140-165 | covers the four outcomes: setup without a provider, where the world is not consulted; the apology carrying the snapshot's or the summary call's error; the Gemini text with metadata exactly `{connected: true, summaryMode: "llm"}`; otherwise the rule-based reply with mode "rules" |
| FinanceAgent.CreateFinanceAgent | packages/agents/src/agents/finance.ts:136-139 | the agent has id "finance" and is listed |
| LegacyFinanceAgent.Handle | packages/agents/src/finance.ts:55-74 | every outcome is a reply with metadata, and there is never a summary mode |
| LegacyFinanceAgent.HandleOutcomes | packages/agents/src/finance.ts:55-73 | setup without a provider; the apology with the error when the snapshot fails; otherwise the rule-based reply with metadata exactly `{connected: true}` |
| LegacyFinanceAgent.AgreesWithoutGemini | packages/agents/src/finance.ts:61-67 | with no Gemini key, the current finance agent gives the same reply as the earlier one, and the same metadata apart from `summaryMode` |
| LegacyFinanceAgent.CreateLegacyFinanceAgent | packages/agents/src/finance.ts:51-54 | the agent has id "finance" and is listed |
| Agents.FirstIndex | packages/agents/src/index.ts:80 | `indexOf` is -1 iff the character is absent; otherwise it is a valid position holding the first occurrence |
| Agents.LastIndex | packages/agents/src/index.ts:81 | `lastIndexOf` is -1 iff the character is absent; otherwise it is the last occurrence |
| Agents.JsonSlice | packages/agents/src/index.ts:79-85 | no slice iff there is no `{` or the last `}` is not after the first `{`; a slice runs from the first `{` to the last `}` of the text |
| Agents.ExtractJsonObject | packages/agents/src/index.ts:79-91 | null without a slice; otherwise whatever `JSON.parse` gives for the slice |
| Agents.ResolveIntentRouter | packages/agents/src/index.ts:147-157 | a function-valued `memory.intentRouter` wins; otherwise there is a Gemini router iff the API key is non-empty, and it carries that key |
| Agents.GeminiDecision | packages/agents/src/index.ts:123-143 | the router throws iff the request failed; a non-empty reply whose JSON object has a string `agentId` gives the decision with that id and reason, and any decision comes from such a reply |
| Agents.Decision | packages/agents/src/index.ts:172-184 | without a router there is no decision; with the `memory.intentRouter` function, the decision is what it returned, and none when it threw; a failed Gemini request gives none |
| Agents.FindById | packages/agents/src/index.ts:179 | `find` by id: -1 iff no agent has the id, otherwise the first agent with it |
| Agents.FindHandler | packages/agents/src/index.ts:186 | `find` by `canHandle`: -1 iff none accepts the input, otherwise the first that does |
| Agents.SelectIndex | packages/agents/src/index.ts:186-189 | no agent is chosen iff none is registered; otherwise the choice is a valid position |
| Agents.Visible | packages/agents/src/index.ts:169 | the listed agents are registered agents, none of them hidden |
| Agents.Assistant.constructor | packages/agents/src/index.ts:159-160 | a new assistant has no agents |
| Agents.Assistant.Register | packages/agents/src/index.ts:162-167 | fails with "Agent already registered: id" iff the id is taken, leaving the list unchanged; otherwise appends the agent; ids stay unique |
| Agents.Assistant.ListAgents | packages/agents/src/index.ts:169 | the registered agents whose `visible` is not false, in registration order |
| Agents.LocateById | packages/agents/src/index.ts:179 | the search loop returns exactly the index `find` by id specifies |
| Agents.LocateHandler | packages/agents/src/index.ts:186 | the search loop returns exactly the index `find` by `canHandle` specifies |
| Agents.SelectAgent | packages/agents/src/index.ts:176-186 | the router's registered choice, else the first willing agent, else the first agent: exactly the specified selection |
| Agents.Assistant.Route | packages/agents/src/index.ts:171-192 | returns exactly the specified dispatch: the selected agent with its own result, or the handler's or the no-agents error |
| Agents.VisibleAppend | packages/agents/src/index.ts:169 | the listing distributes over concatenation of registrations |
| Agents.VisibleComplete | packages/agents/src/index.ts:169 | every visible registered agent is listed |
| Agents.ListAfterRegister | packages/agents/src/index.ts:162-169 | after a registration, the listing gains the new agent at the end iff it is visible |
| Agents.RouterWins | packages/agents/src/index.ts:175-180 | a router decision naming a registered id selects the first agent with that id |
| Agents.OverrideRoutes | packages/agents/src/index.ts:147-190 | a `memory.intentRouter` function that returns a registered id makes `route` run the first agent with that id; the outcome is that agent's handler's failure or result |
| Agents.ThrowingRouterFallsBack | packages/agents/src/index.ts:172-186 | a router that throws (the memory function or the Gemini request) yields no decision; the first agent whose predicate holds is chosen, else the first agent |
| Agents.GeminiRoutes | packages/agents/src/index.ts:147-180 | with no override and an API key, a Gemini answer whose JSON names a registered agent routes the message to the first agent with that id |
| Agents.Fallback | packages/agents/src/index.ts:176-186 | without a usable decision, the choice is the first agent that accepts the input, or the first agent when none does |
| Agents.DispatchOutcome | packages/agents/src/index.ts:186-191 | no agents gives "No agents registered"; otherwise routing returns the selected agent with its own result, and fails iff its handler fails |
| Agents.FirstHandlerRoutes | packages/agents/src/index.ts:186-191 | with no decision, routing runs the first agent that accepts the input and returns its result |
| Agents.CatchAll | packages/agents/src/index.ts:186 | without a usable decision, the choice is never after any agent that accepts the input |
| Agents.DefaultAgents | packages/agents/src/index.ts:197-230 | five default agents, with pairwise distinct ids |
| Agents.CreateDefaultAssistant | packages/agents/src/index.ts:232-238 | registering the defaults in order never fails and yields exactly the default list |
| Agents.DefaultListing | packages/agents/src/index.ts:197-230 | the default listing is exactly todo then finance |
| Agents.HelloRoutesToExecutor | scripts/e2e.mjs:40-46 | with no router, "hello there" goes to the executor and gets its fixed reply |
| Agents.TasksRouteToTodo | scripts/e2e.mjs:52-58 | with no router, "summarize my tasks" goes to the todo agent, and the reply is its handler's; without a provider, the setup text with `connected: false` |
| Agents.CashflowRoutesToFinance | scripts/e2e.mjs:64-70 | with no router, "what is my cashflow" goes to the finance agent, and the reply is its handler's; without a provider, the setup text with `connected: false` |
| Api.FirestoreConfigOf | packages/api/src/index.ts:35-42 | defaults: collection "assistant", document "global", history limit 200; a set variable overrides its default; the project id is `FIREBASE_PROJECT_ID`, else `GCP_PROJECT_ID`, and is present iff one is set |
| Api.MergeMemory | packages/api/src/index.ts:70-73 | the keys are those of stored and provider memory; provider entries win, and stored entries survive otherwise |
| Api.TrimHistory | packages/api/src/index.ts:112-116 | with a finite positive limit, the newest `min(limit, length)` messages; otherwise all of them; always a suffix |
| Api.TrimKeepsNewest | packages/api/src/index.ts:105-116 | with a limit of at least two, the persisted history ends with the new user and agent messages |
| Api.PersistedMemory | packages/api/src/index.ts:118-124 | the stored keys plus `lastAgentId`, `lastReply` and `updatedAt`, which are set to this exchange; the other stored entries are kept |
| Api.ProviderMemoryNotPersisted | packages/api/src/index.ts:118-124 | a provider-only memory key is never written to the store |
| Api.ReadBody | packages/api/src/index.ts:85-89 | the collected chunks in arrival order, or "{}" when none arrived |
| Api.HandleRoute | packages/api/src/index.ts:84-137 | the handler produces exactly the specified response and written state |
| Api.MissingInputRejected | packages/api/src/index.ts:91-94 | a missing, empty or non-string input gives 400 "Missing input", and nothing is routed or written |
| Api.StatusCodes | packages/api/src/index.ts:84-137 | the status is 200, 400 or 500; a state is written only on 200 |
| Api.SuccessfulExchange | packages/api/src/index.ts:105-133 | a 200 reply carries the routed agent id and reply; the written state records them |
| WebAuth.ParseAllowedEmails | packages/web/src/App.tsx:29-33 | no setting gives an empty list; every entry is non-empty, comma-free, trimmed and lower-case; every comma-separated piece that is non-empty once trimmed and lower-cased is an entry |
| WebAuth.ParseAllowedEmailsAppend | packages/web/src/App.tsx:29-33 | the list of `a,b` is the list of `a` followed by that of `b` |
| WebAuth.ParseAllowedEmailsPiece | packages/web/src/App.tsx:29-33 | a comma-free setting gives its trimmed, lower-cased text as the one entry, or none when that is empty; with the append rule this fixes the list for every setting, in order |
| WebAuth.ParseAllowedEmailsOfJoin | packages/web/src/App.tsx:29-33 | clean addresses come back unchanged, in order, from their comma-joined text |
| WebAuth.ToStandardAlphabet | packages/web/src/App.tsx:39 | maps base64url characters to standard base64, character by character |
| WebAuth.AlphabetSwap | packages/web/src/App.tsx:39 | no `-` or `_` remains, and the mapping is undone by the reverse mapping |
| WebAuth.PadBase64 | packages/web/src/App.tsx:40 | pads with `=` to the next multiple of four and leaves the payload as its prefix |
| WebAuth.PayloadSegment | packages/web/src/App.tsx:36-40 | there is no payload segment iff the token has no `.`; otherwise it is the second dot-separated segment, mapped to the standard alphabet and padded |
| WebAuth.PayloadOfToken | packages/web/src/App.tsx:36-40 | for `header.payload.signature`, the segment decoded is the payload's, whatever the signature holds |
| WebAuth.PayloadOfTwoPartToken | packages/web/src/App.tsx:36-40 | for `header.payload`, the segment decoded is the payload's |
| WebAuth.DecodeJwtPayload | packages/web/src/App.tsx:35-45 | a token without a `.` decodes to nothing; otherwise the result is `JSON.parse` of `atob` of the payload segment, or nothing when either throws |
| WebAuth.HandleCredential | packages/web/src/App.tsx:164-191 | authenticated iff there is an e-mail, the audience matches when given, the token is unexpired and the e-mail is allowed; the sign-in is remembered iff authenticated |
| WebAuth.CredentialErrorOrder | packages/web/src/App.tsx:166-184 | the error is that of the first failing check: e-mail, then audience, then expiry, then allow-list |
| WebAuth.SignInPrecheck | packages/web/src/App.tsx:151-159 | when not signed in and without a client id, the state is the missing-client-id error |
| WebAuth.ValidateStored | packages/web/src/App.tsx:126-149 | a remembered sign-in is accepted iff it parses, has an e-mail, is unexpired and is allowed; a stored entry is cleared iff it is rejected |
| WebAuth.RememberedSignInValid | packages/web/src/App.tsx:126-190 | a sign-in accepted and remembered is accepted again from storage while its `exp` has not passed, and is rejected and cleared once it has |
| WebAuth.ExpiryMonotone | packages/web/src/App.tsx:134 | a record that has expired stays expired at every later time |

## Left out

- Gemini HTTP calls (packages/agents/src/index.ts:93-132, packages/agents/src/agents/finance.ts:77-124) are not modelled.
  - Prompt text, `fetch`, status and body formatting are out of the model.
  - Their outcome is a parameter: the reply text, or a thrown error.
- `getGeminiApiKey`, `readProcessEnv` and `readViteEnv` are not modelled; the key is passed in as a parameter.
- The `listTasks` requests run concurrently (`Promise.all`); in the model, a failure is taken in list-id order rather than the order in time.
  - URL building and `URLSearchParams` encoding are out of the model; the request is modelled as its list id and its parameters.
- packages/agents/src/providers/flowtly.ts is not part of this model; the Flowtly snapshot is a parameter.
- TodoAgent.Handle: the provider's task listing is a parameter of the world. It is not tied to `ClickUp.Listed`, because the provider object in memory may be any object with a `listTasks` function.
- Clocks are parameters, one reading per request.
  - `Date.parse`/`toISOString` are not modelled: a due date is carried as its millisecond instant.
  - `Number()` reads only optionally signed decimal integers; any other text reads as NaN, so fractions and exponents are not modelled.
- ClickUp.DueCutoff: `now + days * 86400000` is exact integer arithmetic. JavaScript's float rounding above 2^53 and `String`'s exponent notation from 1e21 on, both reached only for huge day counts, are not modelled.
- A metric's `value` (string or number) is carried already rendered as text.
- Keyword regexes become case-insensitive substring tests over the literal alternatives.
  - Lower-casing covers ASCII letters only.
  - `action items?` is modelled as "action item", which it matches exactly when "action item" occurs.
- The HTTP server is not modelled: CORS, URL routing, `jsonResponse` byte counts, Firestore initialization, dotenv loading.
  - A Firestore `set(..., {merge: true})` is modelled as the state handed to the write.
  - The read and the write of stored state are parameters (success or error).
- Api.HandleRoute: the request's `userId` is carried into the context, and no agent reads it.
- React rendering, the Google Identity Services polling loop, `sendMessage`, `loadAgents` and `localStorage` are not modelled.
  - `atob` and `JSON.parse` are parameters of the decoding.
  - A JWT `exp` is read as an integer number of seconds.
- The console package, scripts, and built `dist` files are not modelled, except that scripts/e2e.mjs provides the three routing scenarios proved above.
