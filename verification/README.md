# Control logic of the LangGraph agent demos, in Dafny

This project models the deterministic control logic wrapped around the model and
search calls in four LangGraph demo scripts, and proves properties about it:

- **PEV** (`PEV/pev.py`): a Plan-Execute-Verify controller. Its state record has
  `user_input`, `plan`, `last_tool_result`, `intermediate_steps`, `final_answer` and
  `retries`. Four nodes return partial updates: planner, executor, verifier and
  synthesizer. A router decides where to go after verification, and a retry guard
  stops re-planning after four real plans.
  - Modules `Pev` (state, nodes, router, wiring) and `PevRun` (the runtime loop,
    termination, and what every run promises).
  - Module `PevScenarios`: whole runs under particular oracle behaviour. These are
    the happy path, retry exhaustion, an empty first plan, and a successful result
    that quotes the failure tag.
- **Planning** (`Planning/planning.py`): a planner writes a list of step strings
  once, and the executor runs them one at a time. Each step is parsed with a regular
  expression into a tool name and a query (module `StepParser`). A synthesizer
  answers once the plan is empty. Module `Planning` holds the nodes, the router,
  the wiring and the run loop.
- **Tool_Use** (`Tool_Use/tool_use.py`) and **ReAct** (`React/react.py`): an agent
  whose replies may request tool calls, a tool node, and a router that reads the last
  message. Modules `ToolUse` and `React` model these; the shared message type and
  list reducer live in `Chat`.

Every model or search output is a parameter (an *oracle*). In the PEV and Planning
runs, an oracle is a function of the part of its prompt that changes within one run:
- the planner's steps for the current history;
- the search text for a query;
- the verifier's verdict on a tool result;
- the synthesized answer for the history.

The runtime merges a node's partial update into the state by replacing each field
the update names. The nodes rely on this: they build the grown history themselves.
Message lists (`add_messages`) are modelled as plain appends.

A state key that no node has written is taken to be absent, so reading it raises
`KeyError`. The only such read that can happen is the PEV verifier reading
`last_tool_result` when the first plan was empty. The model makes this an explicit
outcome, `Crashed(Verify, MissingKey("last_tool_result"), …)`.

**Retry exhaustion.** When the planner's guard fires (`PEV/pev.py:47-52`) it
announces that it is stopping and writes the fixed failure text as the final
answer. The code then carries on:
- `plan → execute` is a fixed edge (`PEV/pev.py:123`). The executor (a no-op on the
  empty plan) and the verifier therefore still run, and only then does the router
  pick the synthesizer.
- The synthesizer overwrites `final_answer` with a newly composed answer
  (`PEV/pev.py:99`), so the failure text never reaches the caller.
- `PevScenarios.RetryExhaustion` proves this:
  - the trace is `[plan, execute, verify] × 5 + [synthesize]`, 16 invocations;
  - the history holds five failure notes;
  - the final answer is the composed one, not the failure text.

**Recursion limit.** `invoke` (`PEV/pev.py:133`, `Planning/planning.py:125`) passes
no configuration, so LangGraph's default recursion limit of 25 super-steps applies.
Each super-step of these graphs runs exactly one node. The PEV and Planning runs
therefore take a `limit` on node invocations and end with `OutOfSteps` when the
unlimited run would need more:
- A PEV run needs up to 48 invocations: four real rounds of plan plus five
  execute/verify pairs, then plan, execute, verify, synthesize.
- A Planning run needs `len(plan) + 2`, and the plan has no length bound.
- A PEV round whose five steps are all accepted except the last, which mentions
  "employee count" and gets the API error, takes 11 invocations. Three such
  rounds exceed 25 before the retry guard can fire.

## Model

| member | source | states |
|---|---|---|
| Text.Lower | PEV/pev.py:21 | `query.lower()`: same length, each ASCII letter lower-cased in place, no upper-case letter left |
| Text.ContainsAt | PEV/pev.py:21 | Python's `pat in text` holds exactly when `pat` starts at some position of `text` |
| Pev.Merge | PEV/pev.py:34-40 | a partial update replaces exactly the fields it names, leaves the others, and never writes `user_input` |
| Pev.Initial | PEV/pev.py:132 | the initial input: the query, an empty history, retries 0, no tool result written and no final answer |
| Pev.RetriesOf | PEV/pev.py:46 | `state.get("retries", 0)`: the stored count, or 0 when the key is absent |
| Pev.Truthy | PEV/pev.py:102 | `state.get("final_answer")` is truthy exactly when an answer is present and non-empty |
| Pev.LastFailed | PEV/pev.py:106 | the history is non-empty and "Verification Failed" starts at some position of its last entry |
| Pev.FlakyWebSearch | PEV/pev.py:18-28 | a query whose lower-cased form mentions "employee count" gets the fixed API error text; any other query gets the backend's answer |
| Pev.FlakyAnyCase | PEV/pev.py:21-23 | any spelling whose lower-case form is "employee count", anywhere in the query, yields the API error text |
| Pev.Planner | PEV/pev.py:45-72 | with retries (missing counts as 0) above 3: only `plan := []` and the fixed retry message, retries unchanged and the oracle unused; otherwise `plan := steps` and retries becomes old + 1; a stored plan has at most 5 steps |
| Pev.Executor | PEV/pev.py:74-81 | an empty plan gives the empty update and the state is unchanged; otherwise the first step is popped and its search result stored, nothing else changes |
| Pev.Verifier | PEV/pev.py:83-92 | fails with `KeyError` exactly when no tool result was ever stored; otherwise the history grows by exactly one entry with the old history as prefix. Acceptance appends the result and keeps the plan; rejection appends `"Verification Failed: " + result` and empties the plan |
| Pev.Synthesizer | PEV/pev.py:94-99 | only `final_answer` changes, to the composed answer |
| Pev.Route | PEV/pev.py:101-114 | in order: a truthy final answer synthesizes whatever the plan holds; an empty plan whose last entry contains "Verification Failed" re-plans; an empty plan synthesizes; otherwise execute. Each outcome is stated as an if-and-only-if |
| Pev.Next | PEV/pev.py:116-126 | fixed edges plan→execute→verify and synthesize→END, with only verify routed; END only from synthesize, plan re-entered only from verify without a final answer |
| Pev.FailureReplans | PEV/pev.py:92-108 | a rejected result, with no final answer set, always sends control back to the planner |
| PevRun.Invoke | PEV/pev.py:116-120 | invoking a node fails exactly when it is the verifier and no tool result was written, with `KeyError('last_tool_result')` |
| PevRun.Step | PEV/pev.py:116-126 | a runtime step fails exactly in that case; otherwise the next node is the wiring's choice on the merged state, and the user input is kept |
| PevRun.RunFrom | PEV/pev.py:116-126 | the runtime loop with no recursion limit: invoke, merge, follow the wiring, until END or a node raises; its properties are the lemmas below |
| PevRun.RunExtends | PEV/pev.py:116-126 | the unlimited run never reports the recursion limit, extends the nodes already done, and from any node but END invokes at least one more |
| PevRun.StepDecreases | PEV/pev.py:43-126 | every successful step keeps the 5-step plan bound and the user input, and lowers a rank built from the retry budget and the plan length |
| PevRun.RunFromUnfold | PEV/pev.py:86 | the only step that can fail is the verifier reading a missing `last_tool_result` |
| PevRun.PlanStep | PEV/pev.py:71-72 | a planning step below the ceiling stores the oracle's steps, counts one more retry and goes to execute |
| PevRun.GuardStep | PEV/pev.py:47-52 | a planning step over the ceiling empties the plan, sets the retry message and still goes to execute |
| PevRun.ExecuteStep | PEV/pev.py:74-81 | an execution step pops one query and stores its result, or does nothing on an empty plan, then goes to verify |
| PevRun.VerifyStep | PEV/pev.py:89-92 | a verification step appends the judged entry (emptying the plan on rejection) and the router picks the next node from the new state |
| PevRun.SynthesizeStep | PEV/pev.py:94-99 | a synthesis step sets the final answer from the history and goes to END |
| PevRun.RunLength | PEV/pev.py:122-133 | a run makes at most as many further invocations as the rank of its starting configuration, a bound built from the retry budget and the plan length |
| PevRun.TrackedStep | PEV/pev.py:45-126 | each step preserves the run invariant. It covers: retries counting the real planning rounds; the guard firing at most once; at most five executor calls since the last planner call at every point; one history entry per verifier call; no tool result only during the first round, on the first plan; the synthesizer's answer being final at END |
| PevRun.RunKeepsFacts | PEV/pev.py:116-126 | from any tracked configuration, the unlimited run ends with the promises listed for `PevRun.Run`: the planner and per-plan executor bounds at every point of the trace, the history and retry facts, the synthesizer's answer at END, and a crash only as plan, execute, verify on an empty first plan |
| PevRun.Run | PEV/pev.py:128-133 | `pev_agent_app.invoke` under a recursion limit. It is the unlimited run unless that run needs more invocations than the limit, and then it is `OutOfSteps` after exactly `limit` of them. Either way: at most 48 invocations, at most 5 planner calls, at most 5 executor calls between two planner calls (and after the last one) at every point of the trace, and retries between 0 and 4. At END the last node was the synthesizer, run exactly once, and its answer is the final answer. The only node failure is the missing-key read in the verifier, and it happens only when the model's first plan is empty, with trace `[plan, execute]` |
| PevScenarios.AcceptedPair | PEV/pev.py:74-92 | an execute/verify pair whose result is accepted pops one step, appends the raw result and hands over to the router |
| PevScenarios.AfterAcceptedShift | PEV/pev.py:89-90 | accepting the first step of a longer plan leads to the same end state as accepting all of it |
| PevScenarios.LastAccepted | PEV/pev.py:74-114 | a one-step plan that is accepted gives execute, verify, synthesize |
| PevScenarios.AcceptedSteps | PEV/pev.py:74-114 | a plan whose every result is accepted (and does not quote the failure tag) gives one execute/verify pair per step, then synthesize. The history gains the results in order |
| PevScenarios.HappyPath | PEV/pev.py:122-133 | from the initial state, one accepted plan of k steps gives plan, k execute/verify pairs, synthesize. History = the results, retries = 1, final answer composed from them |
| PevScenarios.GuardedRound | PEV/pev.py:47-99 | whatever the verifier says about the stale result, the guarded round runs plan, execute (no-op) and verify, then synthesize; only the appended entry depends on the verdict, and the composed answer replaces the retry message |
| PevScenarios.RejectedRound | PEV/pev.py:71-108 | a real planning round whose result is rejected is plan, execute, verify, and back to plan with one more retry and one failure note |
| PevScenarios.RejectedRounds | PEV/pev.py:45-126 | when every plan is non-empty and every result is rejected, the run from retry count R is `[plan, execute, verify] × (5 − R)` then synthesize. Every new entry is a failure note and retries ends at 4 |
| PevScenarios.RetryExhaustion | PEV/pev.py:45-133 | from the initial state under total failure: 5 planner calls, 16 invocations, five failure notes, retries 4, final answer composed (not the retry message) |
| PevScenarios.EmptyFirstPlanCrashes | PEV/pev.py:75-86 | an empty first plan skips execution, and the verifier then raises on the missing `last_tool_result`; with `PevRun.Run`'s crash clause, the run crashes exactly when the first plan is empty |
| PevScenarios.QuotedTagReplans | PEV/pev.py:106 | an accepted result that contains "Verification Failed" also sends control back to the planner once the plan is used up |
| StepParser.WordEnd | Planning/planning.py:67 | greedy `\w+`: the end of the maximal word run from a position |
| StepParser.CloseFrom | Planning/planning.py:67 | lazy `(.*?)` then a quote and `)`: the first quote-then-`)` with no newline before it, or none when a newline comes first |
| StepParser.MatchAt | Planning/planning.py:67 | the match at a start position, if any: it is a match, its name is the only possible one, and its query is the shortest; none means no match starts there |
| StepParser.NameIsWordRun | Planning/planning.py:67 | every match at a position names the whole word run there |
| StepParser.SearchFrom | Planning/planning.py:67 | `re.search`: the leftmost start with a match and the shortest query there, or no match anywhere |
| StepParser.ParseStep | Planning/planning.py:65-72 | no match gives `("web_search", step)`; otherwise the two groups of the leftmost, shortest-query match, which exists whenever any match does |
| StepParser.LeftmostUnique | Planning/planning.py:67 | the reported match is unique |
| StepParser.CallPrefix | Planning/planning.py:67-72 | `name(` + quote + query + quote + `)` + anything parses to `(name, query)`: quotes need not match and trailing text is ignored |
| StepParser.RoundTrip | Planning/planning.py:67-72 | `name('query')` parses back to `(name, query)` for a word-character name and a one-line query with no quote-then-`)` inside |
| StepParser.NoCallFallsBack | Planning/planning.py:68-70 | a step with no `(` is searched as it stands with the web-search tool |
| Chat.AddMessages | Tool_Use/tool_use.py:31 | the message reducer keeps the old messages as a prefix and puts the new ones after them |
| Planning.Merge | Planning/planning.py:31-35 | a partial update replaces exactly the fields it names, leaves the others, and never writes `user_request` |
| Planning.Initial | Planning/planning.py:123 | the initial input: the request, no tool messages and no final answer |
| Planning.Step | Planning/planning.py:107-115 | a runtime step keeps the request and moves to the wiring's choice. The planner sets the plan to the model's steps, the executor pops exactly one step and adds one message, and the synthesizer leaves the plan and ends |
| Planning.Planner | Planning/planning.py:37-61 | only `plan` changes |
| Planning.StepMessage | Planning/planning.py:65-81 | the recorded tool message is named by the parsed tool and holds the search result for the parsed query |
| Planning.Executor | Planning/planning.py:63-85 | requires a non-empty plan; pops the first step and appends exactly one tool message, nothing else changes |
| Planning.Synthesizer | Planning/planning.py:87-97 | only `final_answer` changes |
| Planning.Route | Planning/planning.py:99-105 | synthesize exactly when the plan is empty, execute exactly when it is not |
| Planning.Next | Planning/planning.py:107-115 | the executor is entered only with a non-empty plan, END only from the synthesizer, the planner never again |
| Planning.Messages | Planning/planning.py:77-84 | one message per step, the i-th being the executor's message for step i |
| Planning.PlanStep | Planning/planning.py:108-113 | after the planner the plan is the model's steps and no message is recorded yet |
| Planning.ExecuteNext | Planning/planning.py:63-85 | after k steps an executor step leaves plan `steps[k+1..]` and the messages for `steps[..k+1]` |
| Planning.SynthesizeStep | Planning/planning.py:87-97 | the synthesizer sets the answer from the messages and the run goes to END |
| Planning.ProgressStep | Planning/planning.py:107-115 | every step keeps the run's progress invariant |
| Planning.FullTrace | Planning/planning.py:107-115 | a complete run is the planner, then `k` executor calls, then the synthesizer |
| Planning.FullTracePrefix | Planning/planning.py:107-115 | a run cut off after the planner and `k` executor calls has done the start of the complete run |
| Planning.Run | Planning/planning.py:117-125 | `planner_agent_app.invoke` under a recursion limit. It finishes exactly when `len(plan) + 2` invocations fit in the limit. A finished run is the planner once, the executor exactly `len(plan)` times, the synthesizer once, then END; the messages are the executor's for each step in order and the answer is composed from them. Otherwise it stops after `limit` invocations of that same sequence, holding the messages of the steps it ran |
| ToolUse.Router | Tool_Use/tool_use.py:55-66 | `call_tool` iff the last message is an AI message with tool calls; `final_answer` iff it is a tool message; END iff it is an AI message without calls, a human or a system message |
| ToolUse.RouterReadsLastOnly | Tool_Use/tool_use.py:56 | the router's decision depends only on the last message |
| ToolUse.Next | Tool_Use/tool_use.py:77-85 | only `agent` is routed; `call_tool` returns to the agent and `final_answer` ends |
| ToolUse.AgentNode | Tool_Use/tool_use.py:42-45 | exactly one new message, the model's AI reply with its tool calls |
| ToolUse.FinalAnswerNode | Tool_Use/tool_use.py:49-52 | exactly one new message, an AI reply without tool calls |
| ToolUse.Step | Tool_Use/tool_use.py:71-85 | a step only appends to the message list |
| ToolUse.Run | Tool_Use/tool_use.py:87-97 | the run never loses messages and makes at most its step allowance of invocations |
| ToolUse.StepKeepsReachable | Tool_Use/tool_use.py:55-85 | from a reachable configuration every step reaches another one |
| ToolUse.NeverFinalAnswer | Tool_Use/tool_use.py:61-63 | the router only ever sees the agent's AI reply, so the `final_answer` node is never invoked. A finished run ends on a reply without tool calls |
| ToolUse.ToolRoundsFollowedByAgent | Tool_Use/tool_use.py:84 | every tool round is followed by the agent |
| ToolUse.FromEntry | Tool_Use/tool_use.py:94-97 | the run from the user's query has these properties for every model and tool behaviour |
| React.Router | React/react.py:38-44 | requires the last message to be an AI message (it reads `tool_calls` unguarded); `tools` iff it carries tool calls, END otherwise, never anything else |
| React.Next | React/react.py:47-53 | only `agent` is routed and `tools` always returns to the agent |
| React.AgentNode | React/react.py:31-34 | exactly one new message, the model's AI reply |
| React.Step | React/react.py:36-53 | a step only appends, and after the agent the last message is its AI reply, so the router's demand always holds |
| React.Run | React/react.py:55-77 | the run never loses messages and makes at most its step allowance of invocations |
| React.StepKeepsReachable | React/react.py:38-53 | from a reachable configuration every step reaches another one |
| React.RunShape | React/react.py:38-53 | the tools always hand back to the agent, and a finished run ends on a reply without tool calls |
| React.Initial | React/react.py:68-74 | the initial input: the system prompt, then the user's query as the last message, which is not an AI message |
| React.FromEntry | React/react.py:68-77 | the run from the system prompt and the user's query has this shape for every model and tool behaviour |

## Left out

- Model calls (`ChatGroq`, `ChatGoogleGenerativeAI`, `with_structured_output`, `invoke`) and prompt text. Every output is an oracle parameter.
- Pydantic validation of the structured outputs. Only the five-step bound on a PEV plan is kept, as `PevRun.WellFormed`.
- Tavily search, `json.dumps`/`str` of its result, and LangGraph's `ToolNode`. The search text and the tool node's messages are oracle parameters.
- The `hash(query)` in the Planning tool message's `tool_call_id`: message ids are not modelled.
- Console and `rich` output, Markdown rendering, `dotenv` and environment variables, `input()`/`Prompt.ask`, and the streaming loop that prints each state.
- The ReAct main block runs the graph only for a non-empty query; that guard is not modelled.
- LangGraph internals are assumptions, not models:
  - graph compilation and path-map validation;
  - the undefined-node configuration error;
  - how the library counts super-steps against the recursion limit: the model
    counts node invocations, one per super-step, and does not fix the exact
    boundary.
- ToolUse.Run: the runtime's recursion limit is an abstract step allowance `fuel`, and the run reports `OutOfSteps` when it is used up.
- React.Run: the same abstract step allowance stands in for the recursion limit.
- Text.Lower: only ASCII letters are lower-cased, where Python's `str.lower` is Unicode-aware.
- StepParser.ParseStep: `\w` is ASCII letters, digits and underscore, where Python's `re` on `str` also accepts Unicode word characters.
- Planning's `plan` may be `None` in the state type, but the planner always writes a list before the router reads it, so the model uses a list.
- Cancellation and concurrency: the scripts have none.
- Reflection/reflection.py and Multi_Agent/multi_agent.py are not part of this model. They are straight-line pipelines of model calls with no branching.
