# Research agent backend — a verified model

This project models the backend of a research-report service in Dafny. The backend has two
parts.

- **The job service** (`backend/server.py`). A client starts a report job and then polls its
  status. The service keeps an in-memory dictionary of job records and a bounded queue
  (`deque(maxlen=10)`) of the jobs a worker is running. It reports load and warm-up on
  `/health`. It admits a new job as *processing* or parks it as *queued*. A worker walks each
  processing job through a fixed progress ladder to *completed* or *failed*. A periodic pass
  deletes records older than an hour. The model is the class `Server.JobStore`; its methods
  change the record map and the queue in place. Clock readings, fresh job ids, environment
  variables and the report graph's outcome are parameters.
- **The report pipeline** (`backend/graph.py` over the types in `backend/state.py`).
  - A planner produces sections, from structured output or from JSON cut out of free text, with
    a fixed fallback plan.
  - Each section that needs research runs a search/write/grade loop in a subgraph.
  - The other sections are written from the research results.
  - The compile step merges every completed section back into plan order and joins the contents
    with blank lines.
  - The language-model and search calls are oracles (function parameters). The routing, list
    handling (including the error a raw dict entry causes), stop rule, merging and text
    formatting are modelled exactly.

Modules:

| module | file | models |
|---|---|---|
| `Wrappers` | wrappers.dfy | `Option` and `Result` |
| `Strings` | strings.dfy | Python's `sep.join(parts)` and decimal formatting of integers in f-strings |
| `Deque` | deque.dfy | `collections.deque` with `maxlen`: append with eviction, remove the first occurrence |
| `State` | state.dfy | the state records and the `operator.add` reducer on `completed_sections` |
| `GraphPlan` | graph_plan.dfy | report planning: planning queries, JSON extraction, fallback plan, plan summary |
| `GraphDispatch` | graph_dispatch.dfy | the two fan-outs: `human_feedback` and `initiate_final_section_writing` |
| `GraphResearch` | graph_research.dfy | the section subgraph: `generate_queries`, `search_web`, `write_section` and their loop |
| `GraphCompile` | graph_compile.dfy | `write_final_sections` and `compile_final_report` (in place over an array) |
| `GraphWiring` | graph_wiring.dfy | the outer graph's edges and which nodes a run can reach |
| `Server` | server.dfy | the job store, its endpoints and the worker |

Conventions:

- Progress is integer tenths: the source's 0.1 is 1 and 1.0 is 10.
- Time is `real` seconds.
- An optional record key that is absent is `None`.
- A job status is written as the source writes it: `queued`, `processing`, `completed`,
  `failed`.
- A model's dict answer holds raw JSON objects, not records. Reading a record attribute off
  one raises `AttributeError`, and the model carries that error through to the node that
  reads it.

## Model

| member | source | states |
|---|---|---|
| Strings.JoinLength | backend/graph.py:470 | `"\n\n".join` of n parts has the parts' total length plus n-1 separators; an empty list joins to "" |
| Strings.JoinPartAt | backend/graph.py:470 | part i appears verbatim in the joined text at its offset |
| Strings.JoinSeparatorAfter | backend/graph.py:470 | between consecutive parts there is exactly one separator |
| Strings.NatToStringRoundTrip | backend/server.py:141 | the decimal rendering of a position is non-empty and all digits, has no leading zero, and reads back as the same number |
| Deque.Append | backend/server.py:180 | appending to a deque with maxlen keeps the last maxlen items of `q + [x]`: the length grows by one up to maxlen, and x is last |
| Deque.AppendFullEvictsOldest | backend/server.py:61 | appending to a full deque drops exactly its oldest item: the survivors keep their order, and the multiset loses q[0] and gains x |
| Deque.FirstIndex | backend/server.py:258 | the index `deque.remove` acts on holds x, and no earlier item does |
| Deque.RemoveFirstSplices | backend/server.py:258 | `remove(x)` deletes exactly the first occurrence and keeps every other item in order |
| Deque.RemoveFirstCount | backend/server.py:258 | `remove(x)` shortens the deque by one and removes one copy of x from its multiset |
| State.Validated | backend/graph.py:302 | reading a record attribute off every entry yields the records in order, and fails with the AttributeError iff some entry is a raw object |
| State.ValidatedTypedEntries | backend/graph.py:302 | a list of validated records reads back unchanged |
| State.ValidatedRawEntries | backend/graph.py:302 | a non-empty list of raw objects fails on its first element |
| State.GradeText | backend/state.py:34-36 | a grade is exactly "pass" or "fail", and "pass" only for `Pass` |
| State.AddCompleted | backend/state.py:51 | the `operator.add` reducer keeps every earlier section as a prefix and appends the update after it |
| State.ApplyUpdatesAppends | backend/state.py:51 | any sequence of updates yields the old list followed by all updates in arrival order; nothing earlier is dropped |
| State.SingletonUpdatesLandInOrder | backend/state.py:62-65 | when each subgraph or writer returns one section, the k-th update lands at position \|current\|+k |
| GraphDispatch.ResearchTasks | backend/graph.py:223-227 | every research task carries the topic, a research section and search_iterations 0; there are no more tasks than sections |
| GraphDispatch.HumanFeedback | backend/graph.py:223-227 | every research dispatch starts at iteration 0 with the state's topic |
| GraphDispatch.FinalWritingTasks | backend/graph.py:488-492 | every final-writing task carries the topic, a non-research section and the research context |
| GraphDispatch.InitiateFinalSectionWriting | backend/graph.py:488-492 | every final-writing dispatch carries the state's research context |
| GraphDispatch.DispatchCounts | backend/graph.py:223-227 | research and final-writing dispatches together number exactly the plan's sections |
| GraphDispatch.DispatchedExactlyOnce | backend/graph.py:488-492 | the dispatched sections of both kinds together are, as a multiset, exactly the plan's sections |
| GraphDispatch.ResearchTaskAt | backend/graph.py:223-227 | the research section at plan index i is dispatched at the position given by the research sections before it, so dispatches follow plan order |
| GraphDispatch.FinalWritingTaskAt | backend/graph.py:488-492 | the same plan-order statement for sections that need no research |
| GraphDispatch.ResearchFanOutEmpty | backend/graph.py:223-227 | no research task is dispatched iff no section needs research |
| GraphDispatch.FinalFanOutEmpty | backend/graph.py:488-492 | no final-writing task is dispatched iff every section needs research |
| GraphResearch.GenerateQueriesUpdate | backend/graph.py:274 | an object reply stores its validated queries in order; a dict reply stores its "queries" entries as raw objects, in order, or [] without the key |
| GraphResearch.QueryReplyAtFirstSearch | backend/graph.py:302 | the first `search_web` gets an object reply's queries intact; a dict reply makes it raise iff it lists at least one query, and otherwise it searches nothing |
| GraphResearch.QueryListKeepsEveryQuery | backend/graph.py:302-306 | the query list has one string per validated query, in order, each equal to its `search_query` and non-empty (`min_length=1`), so the `None` filter drops nothing |
| GraphResearch.DropNoneKeepsPresentInOrder | backend/graph.py:306 | filtering out `None` keeps each present string, at the position given by the present strings before it |
| GraphResearch.DropNoneAllPresent | backend/graph.py:306 | with no `None` entries, the filter changes nothing |
| GraphResearch.SearchWebStep | backend/graph.py:309 | `search_web` stores the search result and raises search_iterations by exactly one |
| GraphResearch.FollowUpQueries | backend/graph.py:393 | a dict grade reply yields no follow-up queries (the `getattr` default) |
| GraphResearch.WriteSectionStep | backend/graph.py:383-395 | publishes iff (dict reply with grade "pass") or iterations >= max depth. Publishing emits exactly the section with its new content and goes to END. Otherwise it goes to search_web with the follow-up queries and the rewritten section. Either target is an edge of the subgraph |
| GraphResearch.ObjectPassDoesNotStop | backend/graph.py:383 | a `Feedback` object graded "pass" below the depth limit does not stop the loop |
| GraphResearch.ResearchLoop | backend/graph.py:383-395 | the loop runs at least one and at most max(1, max_depth - iterations) search rounds. It stops at the first round where the stop rule holds. The completed section is the state's own section with the content written in that last round. Its trace starts at search_web and ends at END |
| GraphResearch.RunSectionSubgraph | backend/graph.py:519-527 | a section's subgraph raises at the first search_web with the AttributeError iff the stored queries hold a raw object. Otherwise it outputs exactly one completed section, the one the loop finished |
| GraphResearch.LoopFollowsEdges | backend/graph.py:525-527 | every step of the loop's trace is a subgraph edge, and the trace visits search_web once per round |
| GraphResearch.SubgraphRunFollowsEdges | backend/graph.py:525-527 | the full run START → generate_queries → … → END follows the subgraph's edges, and so does a run that raises at search_web |
| GraphResearch.DispatchedSectionDepthBound | backend/graph.py:224 | a section dispatched at iteration 0 that does not raise is searched at least once and at most max(1, max_search_depth) times |
| GraphResearch.NoDictPassRunsFullDepth | backend/graph.py:383 | if the reflection model never returns a dict with "pass", the loop runs exactly to the depth bound |
| GraphResearch.FirstRoundDictPassStops | backend/graph.py:383-388 | a dict "pass" after the first search ends the loop after one round |
| GraphCompile.WriteFinalSections | backend/graph.py:431-434 | the written section keeps name, description and research flag, takes the new content and is emitted alone |
| GraphCompile.LastNamed | backend/graph.py:463 | finds the last completed section with a given name, or reports that there is none |
| GraphCompile.ContentByNameLastWins | backend/graph.py:463 | the name→content dictionary holds a name iff some completed section has it, and maps it to the last such section's content |
| GraphCompile.CompileFinalReport | backend/graph.py:462-472 | the loop sets every plan section's content in place as the merge specifies; the report is the contents joined with "\n\n" in plan order |
| GraphCompile.CompiledSection | backend/graph.py:466-467 | the merge keeps the section count and every name, description and flag; content is the last match's content, or "" without a match |
| GraphCompile.FinalReportInPlanOrder | backend/graph.py:470 | the i-th plan section's merged content appears verbatim at its offset in the report |
| GraphCompile.FinishedSectionsReachCompile | backend/graph.py:431-472 | when every plan section (unique names) is finished exactly once, research sections by their subgraph with their last text and the others by `write_final_sections`, arriving interleaved in any order, the reducer collects the updates and the merge gives each plan section the text that finished it |
| GraphCompile.EverySectionGetsItsContent | backend/graph.py:462-470 | if every plan section (unique names) was completed by exactly the writer for it, each plan section ends with the content written for it |
| GraphPlan.IndexOf | backend/graph.py:138 | the first position of a character, or none iff it is absent |
| GraphPlan.LastIndexOf | backend/graph.py:138 | the last position of a character, or none iff it is absent |
| GraphPlan.BraceSpan | backend/graph.py:138-140 | the unfenced extraction finds something iff a `{` precedes some `}`; the match runs from the first `{` through the last `}` |
| GraphPlan.PlannerJson | backend/graph.py:133-142 | a fenced json block is preferred; with neither a block nor a brace pair it is the "No JSON object found" error |
| GraphPlan.FallbackPlan | backend/graph.py:154-158 | the fallback plan is Introduction / Main Content / Conclusion, research false/true/false, with empty content |
| GraphPlan.GroqPlan | backend/graph.py:118-158 | on the groq path the extraction error propagates; unparseable JSON gives the fallback plan; parsed JSON gives its sections |
| GraphPlan.GenerateReportPlan | backend/graph.py:98-179 | the planner answers from the planning search on ["query1", "query2"]. groq goes through JSON extraction and yields validated sections or the extraction error. Any other provider's node itself does not raise: an object answer gives its validated sections, and a dict answer gives its "sections" entries as raw objects, or [] without the key |
| GraphPlan.PlanIgnoresGeneratedQueries | backend/graph.py:97-104 | the plan depends on the planning search only through its result for ["query1", "query2"], and not on the generated queries |
| GraphPlan.PlanReachesFeedback | backend/graph.py:176-207 | `human_feedback` raises reading `.name` off a planned section iff the plan came from a dict answer listing at least one section; a groq plan reaches it unchanged |
| GraphPlan.UnparseableJsonFallsBack | backend/graph.py:144-158 | brace-delimited text that does not parse yields exactly the fallback plan, whose middle section is about the topic |
| GraphPlan.RenderSectionReadsBack | backend/graph.py:203-206 | a rendered block starts with "Section: {name}" and ends with "Yes\n" iff the section needs research |
| GraphPlan.PlanSummaryShowsSection | backend/graph.py:202-207 | each section's block appears verbatim, in plan order, in the summary joined by "\n\n" |
| GraphWiring.RunIsGated | backend/graph.py:541-547 | every node on a run past a fan-out is there only if that fan-out dispatched something |
| GraphWiring.CompileNeedsBothKinds | backend/graph.py:541-547 | a run reaches compile_final_report only if the plan has a research section and a section without research |
| GraphWiring.CompileReachedWithBothKinds | backend/graph.py:541-547 | with both kinds of section, the full START → … → compile → END path is a run |
| GraphWiring.FallbackPlanReachesCompile | backend/graph.py:542-547 | the fallback plan dispatches one research and two writing tasks, and its run reaches compile and END |
| Server.StatusTextInjective | backend/server.py:64-68 | the four status strings are distinct |
| Server.GetApiKey | backend/server.py:42-48 | accepts iff the header equals the configured key, both absent included; otherwise 401 "Invalid or missing API Key" |
| Server.UnsetKeyAdmitsOnlyKeylessRequests | backend/server.py:39-43 | with no API_KEY set, exactly the requests whose extracted header is `None` get in: those without the header or with an empty one, which FastAPI passes as `None` |
| Server.HealthReportOf | backend/server.py:84-101 | "busy" iff load >= 10, else "ready"; load and capacity 10 echoed; warming up iff there is no startup time or less than 30 s since it |
| Server.WarmUpEndsForGood | backend/server.py:93 | once the warm-up flag is off it stays off |
| Server.ApplyOverrides | backend/server.py:200-203 | the overrides' keys take the override values, every other base key is unchanged, and no other key appears |
| Server.StatusViewContract | backend/server.py:266-293 | the status goes out as its string; for a well-formed record: completed carries the report for its topic and progress 10; failed carries an error; queued carries position and 60·position |
| Server.Survivors | backend/server.py:115-120 | cleanup keeps exactly the records not older than 3600 s, each unchanged |
| Server.CleanupIdempotent | backend/server.py:112-120 | a second cleanup at the same time removes nothing |
| Server.CollectExpired | backend/server.py:113-117 | the collected ids are exactly the expired records' ids, each once |
| Server.StoreStepTransitive | backend/server.py:177-258 | the store guarantees (progress never falls; queued and finished records never change) hold across any sequence of steps |
| Server.JobStore.constructor | backend/server.py:60-61 | the store starts with no jobs and an empty active queue |
| Server.JobStore.Startup | backend/server.py:103-105 | startup records its time |
| Server.JobStore.HealthCheck | backend/server.py:81-101 | the health payload for the current queue; busy exactly when the queue holds 10 |
| Server.JobStore.StartReportGeneration | backend/server.py:128-175 | a bad key gives 401 and no change. Otherwise exactly one new record at progress 0 with the request and time, and no other record changes. A full queue parks it as queued: position load+1, estimate 60·position, the two messages, no worker. Since the queue never exceeds 10, a queued job always gets position 11, estimate 660 and the messages "Queued (position 11)" and "Your request is queued (position 11)". Otherwise it is processing and a worker starts, exactly when health says "ready" |
| Server.JobStore.BeginProcessing | backend/server.py:180-203 | the id is appended to the bounded queue (evicting the oldest when full); the record goes to progress 1 "Planning report structure..."; the config is the base with overrides applied |
| Server.JobStore.ReportProgress | backend/server.py:218-221 | one ladder rung overwrites exactly progress and message, and progress never decreases |
| Server.JobStore.WalkProgressLadder | backend/server.py:210-222 | the ladder writes 2, 3, 5, 7, 9 in order and leaves the last rung's message |
| Server.JobStore.FinishProcessing | backend/server.py:232-258 | a report makes the job completed with progress 10 and report {topic, content}. No report or an exception makes it failed with the matching message and error, keeping its progress. Finally the id leaves the queue if present |
| Server.JobStore.ProcessReportJob | backend/server.py:177-258 | a worker's record shows progress 1,2,3,5,7,9 (then 10 if completed), strictly increasing. It ends as the original record (same time and request) made completed at 10 with "Report completed" and the report, or failed at 9 with "Failed to generate report" and the no-report error, or failed at 9 with "Error occurred during report generation" and the exception's text. The config is the base with overrides applied; the queue ends as append-then-remove of the id |
| Server.JobStore.CleanupOldJobs | backend/server.py:109-120 | one pass leaves exactly the survivors; every deleted id was present, so `del` never fails |
| Server.JobStore.GetJobStatus | backend/server.py:261-293 | 401 on a bad key, 404 "Job with ID {id} not found" for an unknown id, else the record's status, progress, message and optional fields; the store is not modified |
| Server.WorkerQueueEffect | backend/server.py:255-258 | a worker leaves a queue with room as it found it; on a full queue its own append evicted the oldest active job, which stays evicted |

Every `JobStore` method that changes the store keeps `Valid()`. `Valid()` says the queue
holds at most 10 ids and every record is well formed for its status. Every such method that
changes the record map also ensures `StoreStep` (`Startup` touches only the startup time):
progress never decreases, and a queued, completed or failed record never changes. In
particular, nothing ever starts a queued job.

## Left out

- The language-model and web-search calls (`init_chat_model`, `.invoke`, `with_structured_output`, `select_and_execute_search`) are foreign calls; their results are oracle parameters.
- The prompt templates and the helpers of the configuration, prompts and utils modules (`format_sections`, `get_search_params`, `Configuration`) are not part of this model. Hence `gather_completed_sections`, which only calls `format_sections`, is not modelled.
- `fallback_handler` is never added to the graph, so no run can reach it; it is not modelled.
- The regex for fenced blocks and `json.loads` are oracles: a fenced body is an `Option<string>` and parsing is a function returning an option. The unfenced brace match is modelled exactly.
- The LangGraph runtime (`StateGraph`, `Send` scheduling, checkpointing, parallel fan-out) is not modelled. The model covers only the edge relation, the routing values, and the reducer applied to updates in arrival order.
- The `human_feedback` interrupt is commented out in the code, so the node always dispatches research; the regenerate-plan route is not modelled.
- FastAPI, CORS, uvicorn and pydantic serialisation are not modelled. HTTP errors are a status code and a detail string.
- Threads, event loops, `time.sleep` and the endless cleanup loop are not modelled. One cleanup pass takes "now" as a parameter. `uuid.uuid4()` and `time.time()` are parameters; a new job id must not be in the store.
- Server.JobStore.BeginProcessing: does not model the `KeyError` raised when cleanup has already deleted the record before the worker runs; the phase methods require the record to be present and processing.
- Cross-thread interleavings are not modelled. The worker's phases are separate methods so that other requests can run between them, but each method is atomic.
- Server.HealthReportOf: does not model the "unknown" status branch, which needs `maxlen` to be `None` or the length not to be an integer, and neither can happen here.
- Server.JobStore.GetJobStatus: treats a stored report as always present and non-empty. The worker always stores a two-key dictionary, so the truthiness test always passes.
- GraphResearch.GenerateQueriesUpdate: a dict answer's "queries" value is taken to be a list of JSON objects. Any other JSON value stored there (a string, a number) is not modelled.
- GraphPlan.GenerateReportPlan: the same holds for a dict answer's "sections" value. The text of the `AttributeError` a raw object raises is modelled as a fixed string.
- `ReportStateInput`, the graph's input schema, is not a separate type: it holds only the topic, which is a parameter of the planning and dispatch functions.
- Floating-point progress is integer tenths, which loses nothing: only constants are stored.
- GraphResearch.ResearchLoop: the search, write and grade results of each round come from an oracle indexed by the round's iteration count, not from the live models.
- `backend/fixlinkup.py` is a one-off file-patching script with no logic of its own; the browser poller and the proxy route are not part of this model.
