/**
 * The Plan-Execute-Verify controller of PEV/pev.py: its state record, the four
 * node updates, the router and the graph wiring. Every language-model or search
 * output is a parameter; the nodes are pure functions from the state (and that
 * output) to a partial update, which the runtime merges field by field.
 */
module Pev {
  import opened Wrappers
  import opened Text

  /** `Plan.steps` carries `max_length=5`. */
  const MaxSteps: nat := 5
  /** The planner refuses to plan once `retries > 3`. */
  const RetryCeiling: int := 3
  const RetryMessage: string := "Error: Unable to complete task after multiple retries."
  const ApiError: string := "Error: Could not retrieve data. The API endpoint is currently unavailable."
  const FlakyTopic: string := "employee count"
  const FailureTag: string := "Verification Failed"
  const FailurePrefix: string := "Verification Failed: "

  /** Reading a key that no node has written yet raises KeyError. */
  datatype Fault = MissingKey(key: string)

  /**
   * `PEVState`. `lastToolResult` is None until the executor first writes it;
   * `retries` is None when the caller leaves it out. `plan` is written by the
   * entry node before any node reads it, so it starts as the empty plan.
   */
  datatype State = State(
    userInput: string,
    plan: seq<string>,
    lastToolResult: Option<string>,
    intermediateSteps: seq<string>,
    finalAnswer: Option<string>,
    retries: Option<int>)

  /** A node's partial update: Some(v) replaces the field, None leaves it alone. */
  datatype Update = Update(
    plan: Option<seq<string>>,
    lastToolResult: Option<string>,
    intermediateSteps: Option<seq<string>>,
    finalAnswer: Option<string>,
    retries: Option<int>)

  /** The empty dictionary `{}`. */
  const NoChange: Update := Update(None, None, None, None, None)

  datatype Node = Plan | Execute | Verify | Synthesize | End

  /**
   * The runtime's merge of a node's partial update: each field the update names
   * takes the new value, every other field keeps the old one, and the user input
   * is never written.
   */
  function Merge(s: State, u: Update): (t: State)
    ensures t.userInput == s.userInput
    ensures t.plan == (if u.plan.Some? then u.plan.value else s.plan)
    ensures u.lastToolResult.Some? ==> t.lastToolResult == u.lastToolResult
    ensures u.lastToolResult.None? ==> t.lastToolResult == s.lastToolResult
    ensures t.intermediateSteps == (if u.intermediateSteps.Some? then u.intermediateSteps.value else s.intermediateSteps)
    ensures u.finalAnswer.Some? ==> t.finalAnswer == u.finalAnswer
    ensures u.finalAnswer.None? ==> t.finalAnswer == s.finalAnswer
    ensures u.retries.Some? ==> t.retries == u.retries
    ensures u.retries.None? ==> t.retries == s.retries
  {
    State(
      s.userInput,
      if u.plan.Some? then u.plan.value else s.plan,
      if u.lastToolResult.Some? then u.lastToolResult else s.lastToolResult,
      if u.intermediateSteps.Some? then u.intermediateSteps.value else s.intermediateSteps,
      if u.finalAnswer.Some? then u.finalAnswer else s.finalAnswer,
      if u.retries.Some? then u.retries else s.retries)
  }

  /**
   * `initial_input`: the user's query, an empty history and zero retries. No
   * tool result has been written and there is no final answer yet.
   */
  function Initial(userInput: string): (s: State)
    ensures s.userInput == userInput && s.plan == [] && s.intermediateSteps == []
    ensures RetriesOf(s) == 0 && s.lastToolResult.None? && !Truthy(s.finalAnswer)
  {
    State(userInput, [], None, [], None, Some(0))
  }

  /** `state.get("retries", 0)`: the stored count, or 0 when the key is absent. */
  function RetriesOf(s: State): (r: int)
    ensures s.retries == Some(r) || (s.retries.None? && r == 0)
  {
    match s.retries
    case Some(r) => r
    case None => 0
  }

  /** Python truthiness of an optional string: present and non-empty. */
  predicate Truthy(a: Option<string>)
    ensures Truthy(a) ==> a.Some?
    ensures a.Some? ==> (Truthy(a) <==> |a.value| > 0)
  {
    a.Some? && a.value != ""
  }

  /**
   * `state["intermediate_steps"] and "Verification Failed" in
   * state["intermediate_steps"][-1]`: the history is non-empty and the failure
   * tag occurs somewhere in its last entry.
   */
  predicate LastFailed(history: seq<string>)
    ensures LastFailed(history) <==>
      history != [] &&
      var last := history[|history| - 1];
      exists i :: 0 <= i <= |last| && FailureTag <= last[i..]
  {
    history != [] &&
    var last := history[|history| - 1];
    ContainsAt(last, FailureTag);
    Contains(last, FailureTag)
  }

  /**
   * `flaky_web_search`: a query that mentions "employee count" in any ASCII case
   * gets the fixed error text, and the backend is not consulted; any other query
   * gets whatever the backend returns.
   */
  function FlakyWebSearch(query: string, backend: string -> string): (r: string)
    ensures Contains(Lower(query), FlakyTopic) ==> r == ApiError
    ensures !Contains(Lower(query), FlakyTopic) ==> r == backend(query)
  {
    if Contains(Lower(query), FlakyTopic) then ApiError else backend(query)
  }

  /** Any spelling whose lower-case form is "employee count", anywhere in the query, fails. */
  lemma FlakyAnyCase(before: string, topic: string, after: string, backend: string -> string)
    requires Lower(topic) == FlakyTopic
    ensures FlakyWebSearch(before + topic + after, backend) == ApiError
  {
    LowerAppend(before + topic, after);
    LowerAppend(before, topic);
    ContainsInfix(Lower(before), FlakyTopic, Lower(after));
  }

  /**
   * `planner_node`. With more than three retries it stops: an empty plan and the
   * fixed failure message, retries untouched, and the oracle `steps` unused (no
   * model call). Otherwise the plan becomes `steps` and retries goes up by one.
   */
  function Planner(s: State, steps: seq<string>): (u: Update)
    requires |steps| <= MaxSteps
    ensures RetriesOf(s) > RetryCeiling ==>
      Merge(s, u) == s.(plan := [], finalAnswer := Some(RetryMessage))
    ensures RetriesOf(s) <= RetryCeiling ==>
      Merge(s, u) == s.(plan := steps, retries := Some(RetriesOf(s) + 1))
    ensures |Merge(s, u).plan| <= MaxSteps
  {
    var retries := RetriesOf(s);
    if retries > RetryCeiling then
      Update(Some([]), None, None, Some(RetryMessage), None)
    else
      Update(Some(steps), None, None, None, Some(retries + 1))
  }

  /**
   * `excutor_node`. An empty plan gives the empty update. Otherwise it pops the
   * first step, searches for it, and stores the raw result; nothing else changes.
   */
  function Executor(s: State, backend: string -> string): (u: Update)
    ensures s.plan == [] ==> u == NoChange && Merge(s, u) == s
    ensures s.plan != [] ==>
      Merge(s, u) == s.(plan := s.plan[1..],
                        lastToolResult := Some(FlakyWebSearch(s.plan[0], backend)))
    ensures |Merge(s, u).plan| < |s.plan| || s.plan == []
  {
    if s.plan == [] then NoChange
    else Update(Some(s.plan[1..]), Some(FlakyWebSearch(s.plan[0], backend)), None, None, None)
  }

  /**
   * `verifier_node`. It reads `last_tool_result`, so it fails when no search has
   * run. Otherwise the history grows by exactly one entry and keeps the old
   * history as a prefix: the result itself on success (plan untouched), or the
   * tagged failure note on failure, which also empties the plan.
   */
  function Verifier(s: State, verdict: bool): (r: Result<Update, Fault>)
    ensures r.Err? <==> s.lastToolResult.None?
    ensures r.Err? ==> r.error == MissingKey("last_tool_result")
    ensures r.Ok? ==>
      var t := Merge(s, r.value);
      |t.intermediateSteps| == |s.intermediateSteps| + 1 &&
      s.intermediateSteps <= t.intermediateSteps &&
      t.userInput == s.userInput && t.lastToolResult == s.lastToolResult &&
      t.finalAnswer == s.finalAnswer && t.retries == s.retries
    ensures r.Ok? && verdict ==>
      var t := Merge(s, r.value);
      t.plan == s.plan && t.intermediateSteps[|s.intermediateSteps|] == s.lastToolResult.value
    ensures r.Ok? && !verdict ==>
      var t := Merge(s, r.value);
      t.plan == [] &&
      t.intermediateSteps[|s.intermediateSteps|] == FailurePrefix + s.lastToolResult.value
  {
    match s.lastToolResult
    case None => Err(MissingKey("last_tool_result"))
    case Some(result) =>
      if verdict then
        Ok(Update(None, None, Some(s.intermediateSteps + [result]), None, None))
      else
        Ok(Update(Some([]), None, Some(s.intermediateSteps + [FailurePrefix + result]), None, None))
  }

  /** `synthesizer_node`: only `final_answer` changes, to the model's answer. */
  function Synthesizer(s: State, answer: string): (u: Update)
    ensures Merge(s, u) == s.(finalAnswer := Some(answer))
  {
    Update(None, None, None, Some(answer), None)
  }

  /**
   * `router`, checked in order: a truthy final answer wins; then an empty plan
   * whose last history entry mentions a verification failure re-plans; then an
   * empty plan synthesizes; otherwise execution continues.
   */
  function Route(s: State): (n: Node)
    ensures n == Synthesize <==>
      Truthy(s.finalAnswer) || (s.plan == [] && !LastFailed(s.intermediateSteps))
    ensures n == Plan <==>
      !Truthy(s.finalAnswer) && s.plan == [] && LastFailed(s.intermediateSteps)
    ensures n == Execute <==> !Truthy(s.finalAnswer) && s.plan != []
  {
    if Truthy(s.finalAnswer) then Synthesize
    else if s.plan == [] then
      if LastFailed(s.intermediateSteps) then Plan else Synthesize
    else Execute
  }

  /** The graph's entry point. */
  const Entry: Node := Plan

  /**
   * The graph wiring: fixed edges plan -> execute -> verify and synthesize -> END;
   * only `verify` is routed. END is reached only from `synthesize`, and `plan`
   * is re-entered only from `verify`.
   */
  function Next(n: Node, s: State): (m: Node)
    requires n != End
    ensures m == End <==> n == Synthesize
    ensures m == Verify <==> n == Execute
    ensures n == Plan ==> m == Execute
    ensures m == Plan ==> n == Verify && !Truthy(s.finalAnswer)
    ensures n == Verify ==> m == Route(s)
  {
    match n
    case Plan => Execute
    case Execute => Verify
    case Verify => Route(s)
    case Synthesize => End
  }

  /** A verification failure always sends control back to planning, unless a final answer is set. */
  lemma FailureReplans(s: State)
    requires s.lastToolResult.Some? && !Truthy(s.finalAnswer)
    ensures Verifier(s, false).Ok?
    ensures Route(Merge(s, Verifier(s, false).value)) == Plan
  {
    var t := Merge(s, Verifier(s, false).value);
    assert t.intermediateSteps[|t.intermediateSteps| - 1] == FailurePrefix + s.lastToolResult.value;
    ContainsInfix([], FailureTag, ": " + s.lastToolResult.value);
    assert [] + FailureTag + (": " + s.lastToolResult.value) == FailurePrefix + s.lastToolResult.value;
  }
}
