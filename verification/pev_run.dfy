/**
 * The runtime that drives the PEV graph (pev.py:116-133): from the entry node it
 * invokes the current node, merges its update into the state by field
 * replacement, follows the fixed edge or asks the router, and stops at END. The
 * language model and the search backend are oracles, given as functions of the
 * part of their prompt that varies within one run.
 */
module PevRun {
  import opened Wrappers
  import opened Text
  import opened Pev

  /**
   * planFor: the planner's steps for a given history; backend: the search result
   * for a query; judge: the verifier's verdict on a tool result; compose: the
   * synthesized answer for a history.
   */
  datatype Oracles = Oracles(
    planFor: seq<string> -> seq<string>,
    backend: string -> string,
    judge: string -> bool,
    compose: seq<string> -> string)

  /** The structured planner output passes validation: at most five steps. */
  ghost predicate WellFormed(o: Oracles) {
    forall h :: |o.planFor(h)| <= MaxSteps
  }

  /**
   * How a run ends: END reached, a node raised while reading the state, or the
   * runtime's recursion limit was reached before node `at` could run.
   */
  datatype Outcome =
    | Finished(state: State)
    | Crashed(at: Node, fault: Fault, state: State)
    | OutOfSteps(at: Node, state: State)

  /** Invokes one node with the oracle answers it would receive. */
  function Invoke(n: Node, s: State, o: Oracles): (r: Result<Update, Fault>)
    requires n != End && WellFormed(o)
    ensures r.Err? <==> n == Verify && s.lastToolResult.None?
    ensures r.Err? ==> r.error == MissingKey("last_tool_result")
  {
    match n
    case Plan => Ok(Planner(s, o.planFor(s.intermediateSteps)))
    case Execute => Ok(Executor(s, o.backend))
    case Verify => Verifier(s, s.lastToolResult.Some? && o.judge(s.lastToolResult.value))
    case Synthesize => Ok(Synthesizer(s, o.compose(s.intermediateSteps)))
  }

  /** One step of the runtime: invoke, merge, choose the next node. */
  function Step(n: Node, s: State, o: Oracles): (r: Result<(Node, State), Fault>)
    requires n != End && WellFormed(o)
    ensures r.Err? <==> n == Verify && s.lastToolResult.None?
    ensures r.Ok? ==> r.value.0 == Next(n, r.value.1) && r.value.1.userInput == s.userInput
  {
    match Invoke(n, s, o)
    case Err(f) => Err(f)
    case Ok(u) => var t := Merge(s, u); Ok((Next(n, t), t))
  }

  /** Real planning rounds still allowed before the retry guard fires. */
  function Budget(s: State): nat {
    if RetriesOf(s) > RetryCeiling then 0 else (RetryCeiling + 1 - RetriesOf(s)) as nat
  }

  /**
   * A measure that every step lowers, and a bound on the invocations left.
   * Once the final answer is set, at most execute, verify and synthesize
   * remain. Before that, each real planning round spends one unit of budget and
   * costs at most 11 invocations (the planner and five execute/verify pairs);
   * the guarded round costs 4 (plan, execute, verify, synthesize).
   */
  function Rank(n: Node, s: State): nat {
    match n
    case End => 0
    case Synthesize => 1
    case Verify =>
      if Truthy(s.finalAnswer) then 2 else 5 + 11 * Budget(s) + 2 * |s.plan|
    case Execute =>
      if Truthy(s.finalAnswer) then 3
      else 4 + 11 * Budget(s) + (if s.plan == [] then 2 else 2 * |s.plan|)
    case Plan =>
      if Truthy(s.finalAnswer) then 4 else 4 + 11 * Budget(s)
  }

  /** Every successful step keeps the plan bound and lowers the rank. */
  lemma StepDecreases(n: Node, s: State, o: Oracles)
    requires n != End && WellFormed(o) && |s.plan| <= MaxSteps
    requires Step(n, s, o).Ok?
    ensures |Step(n, s, o).value.1.plan| <= MaxSteps
    ensures Step(n, s, o).value.1.userInput == s.userInput
    ensures Rank(Step(n, s, o).value.0, Step(n, s, o).value.1) < Rank(n, s)
  {
    var t := Step(n, s, o).value.1;
    match n
    case Plan =>
      assert Truthy(s.finalAnswer) ==> Truthy(t.finalAnswer);
    case Execute =>
    case Verify =>
    case Synthesize =>
  }

  /** Node invocations a run made: the completed ones, plus the one that raised. */
  function Invocations(r: (Outcome, seq<Node>)): nat {
    |r.1| + (if r.0.Crashed? then 1 else 0)
  }

  /**
   * The run from a configuration with no limit on its length, given the nodes
   * that have already completed: its outcome and the whole list of completed
   * nodes, in order.
   */
  function RunFrom(n: Node, s: State, o: Oracles, done: seq<Node>): (Outcome, seq<Node>)
    requires WellFormed(o) && |s.plan| <= MaxSteps
    decreases Rank(n, s)
  {
    if n == End then (Finished(s), done)
    else
      match Step(n, s, o)
      case Err(f) => (Crashed(n, f, s), done)
      case Ok(next) =>
        StepDecreases(n, s, o);
        RunFrom(next.0, next.1, o, done + [n])
  }

  /**
   * The unlimited run never reports the recursion limit, extends the nodes
   * already done, and from any node other than END invokes at least one more.
   */
  lemma {:induction false} RunExtends(n: Node, s: State, o: Oracles, done: seq<Node>)
    requires WellFormed(o) && |s.plan| <= MaxSteps
    ensures !RunFrom(n, s, o, done).0.OutOfSteps?
    ensures done <= RunFrom(n, s, o, done).1
    ensures n != End ==> Invocations(RunFrom(n, s, o, done)) > |done|
    decreases Rank(n, s)
  {
    if n != End && Step(n, s, o).Ok? {
      var next := Step(n, s, o).value;
      StepDecreases(n, s, o);
      RunExtends(next.0, next.1, o, done + [n]);
    }
  }

  /** One unfolding of the run; the only step that can fail is a verifier without a tool result. */
  lemma RunFromUnfold(n: Node, s: State, o: Oracles, done: seq<Node>)
    requires n != End && WellFormed(o) && |s.plan| <= MaxSteps
    ensures Step(n, s, o).Err? ==>
      n == Verify && s.lastToolResult.None? && Step(n, s, o).error == MissingKey("last_tool_result") &&
      RunFrom(n, s, o, done) == (Crashed(n, Step(n, s, o).error, s), done)
    ensures Step(n, s, o).Ok? ==>
      var next := Step(n, s, o).value;
      |next.1.plan| <= MaxSteps && next.1.userInput == s.userInput &&
      RunFrom(n, s, o, done) == RunFrom(next.0, next.1, o, done + [n])
  {
    if Step(n, s, o).Ok? {
      StepDecreases(n, s, o);
    }
  }

  /** A planning step below the ceiling: the oracle's steps become the plan and retries goes up by one. */
  lemma PlanStep(s: State, o: Oracles)
    requires WellFormed(o) && RetriesOf(s) <= RetryCeiling
    ensures Step(Plan, s, o) ==
      Ok((Execute, s.(plan := o.planFor(s.intermediateSteps), retries := Some(RetriesOf(s) + 1))))
  {
  }

  /** A planning step over the ceiling: the plan empties and the retry message is set; then execute. */
  lemma GuardStep(s: State, o: Oracles)
    requires WellFormed(o) && RetriesOf(s) > RetryCeiling
    ensures Step(Plan, s, o) == Ok((Execute, s.(plan := [], finalAnswer := Some(RetryMessage))))
  {
  }

  /** An execution step pops one query and stores its result; then verify. */
  lemma ExecuteStep(s: State, o: Oracles)
    requires WellFormed(o)
    ensures s.plan == [] ==> Step(Execute, s, o) == Ok((Verify, s))
    ensures s.plan != [] ==>
      Step(Execute, s, o) ==
        Ok((Verify, s.(plan := s.plan[1..], lastToolResult := Some(FlakyWebSearch(s.plan[0], o.backend)))))
  {
  }

  /**
   * A verification step with a stored result: the judged entry is appended to
   * the history, the plan is emptied on rejection, and the router picks the
   * next node from the new state.
   */
  lemma VerifyStep(s: State, o: Oracles)
    requires WellFormed(o) && s.lastToolResult.Some?
    ensures
      var r := s.lastToolResult.value;
      var t := if o.judge(r) then s.(intermediateSteps := s.intermediateSteps + [r])
               else s.(plan := [], intermediateSteps := s.intermediateSteps + [FailurePrefix + r]);
      Step(Verify, s, o) == Ok((Route(t), t))
  {
  }

  /** A synthesis step sets the final answer from the whole history; then END. */
  lemma SynthesizeStep(s: State, o: Oracles)
    requires WellFormed(o)
    ensures Step(Synthesize, s, o) == Ok((End, s.(finalAnswer := Some(o.compose(s.intermediateSteps)))))
  {
  }

  /** Following a successful step adds the node to the completed list and continues the run. */
  lemma Advance(n: Node, s: State, o: Oracles, done: seq<Node>, n': Node, s': State)
    requires n != End && WellFormed(o) && |s.plan| <= MaxSteps
    requires Step(n, s, o) == Ok((n', s'))
    ensures |s'.plan| <= MaxSteps
    ensures RunFrom(n, s, o, done) == RunFrom(n', s', o, done + [n])
  {
    StepDecreases(n, s, o);
  }

  /** The run at END has finished with the state it has. */
  lemma AtEnd(s: State, o: Oracles, done: seq<Node>)
    requires WellFormed(o) && |s.plan| <= MaxSteps
    ensures RunFrom(End, s, o, done) == (Finished(s), done)
  {
  }

  /** The most node invocations a run from the initial state can make. */
  const MaxInvocations: nat := 4 + 11 * 4

  /** A run makes at most as many further invocations as the rank of its starting configuration. */
  lemma {:induction false} RunLength(n: Node, s: State, o: Oracles, done: seq<Node>)
    requires WellFormed(o) && |s.plan| <= MaxSteps
    ensures |RunFrom(n, s, o, done).1| <= |done| + Rank(n, s)
    decreases Rank(n, s)
  {
    if n != End && Step(n, s, o).Ok? {
      var next := Step(n, s, o).value;
      StepDecreases(n, s, o);
      RunLength(next.0, next.1, o, done + [n]);
    }
  }

  /** How many times node `x` occurs in `trace`. */
  function Count(trace: seq<Node>, x: Node): nat {
    if trace == [] then 0
    else Count(trace[..|trace| - 1], x) + (if trace[|trace| - 1] == x then 1 else 0)
  }

  /** Executor invocations since the last planner invocation in `trace`. */
  function ExecSinceLastPlan(trace: seq<Node>): nat {
    if trace == [] then 0
    else if trace[|trace| - 1] == Plan then 0
    else ExecSinceLastPlan(trace[..|trace| - 1]) + (if trace[|trace| - 1] == Execute then 1 else 0)
  }

  /** At every point of `trace`, the executor has run at most five times since the last planner call. */
  ghost predicate RoundsBounded(trace: seq<Node>) {
    forall k :: 0 <= k <= |trace| ==> ExecSinceLastPlan(trace[..k]) <= MaxSteps
  }

  /** `RoundsBounded` extends by one node when the whole longer trace keeps the bound. */
  lemma RoundsBoundedStep(trace: seq<Node>, n: Node)
    requires RoundsBounded(trace) && ExecSinceLastPlan(trace + [n]) <= MaxSteps
    ensures RoundsBounded(trace + [n])
  {
    var t := trace + [n];
    forall k | 0 <= k <= |t|
      ensures ExecSinceLastPlan(t[..k]) <= MaxSteps
    {
      if k <= |trace| {
        assert t[..k] == trace[..k];
      } else {
        assert t[..k] == t;
      }
    }
  }

  /** Whether this step is the planner refusing to plan. */
  predicate GuardFires(n: Node, s: State) {
    n == Plan && RetriesOf(s) > RetryCeiling
  }

  /**
   * Executor invocations still owed to the current plan: one per remaining step
   * before the executor (at least one, since an empty plan still runs it), one
   * per remaining step before the verifier.
   */
  function Pending(n: Node, s: State): nat {
    match n
    case Execute => if s.plan == [] then 1 else |s.plan|
    case Verify => |s.plan|
    case _ => 0
  }

  /**
   * What a run has done so far, as seen in its state: retries count the real
   * planning rounds, the guard fires at most once and leaves a truthy final
   * answer for the router, each plan is executed at most five times, the
   * history has one entry per verifier call, and the synthesizer's answer is
   * the final answer once END is reached. While no tool result has been
   * written, the run is still in its first round, on the first plan, and
   * reaches the verifier that way only when that plan is empty.
   */
  ghost predicate Tracked(n: Node, s: State, trace: seq<Node>, guarded: bool, o: Oracles) {
    && 0 <= RetriesOf(s) <= RetryCeiling + 1
    && Count(trace, Plan) == RetriesOf(s) + (if guarded then 1 else 0)
    && (guarded ==> RetriesOf(s) == RetryCeiling + 1 && n != Plan)
    && (guarded && (n == Execute || n == Verify) ==> Truthy(s.finalAnswer))
    && Count(trace, Execute) + Pending(n, s) <= MaxSteps * Count(trace, Plan)
    && ExecSinceLastPlan(trace) + Pending(n, s) <= MaxSteps
    && RoundsBounded(trace)
    && (s.lastToolResult.None? ==>
          || (n == Plan && trace == [])
          || (n == Execute && trace == [Plan] && s.plan == o.planFor([]))
          || (n == Verify && trace == [Plan, Execute] && o.planFor([]) == []))
    && |s.intermediateSteps| == Count(trace, Verify)
    && (trace == [] ==> n == Plan)
    && (trace != [] ==> trace[0] == Plan)
    && (n != End ==> Count(trace, Synthesize) == 0)
    && (n == End ==>
          trace != [] && trace[|trace| - 1] == Synthesize && Count(trace, Synthesize) == 1 &&
          s.finalAnswer == Some(o.compose(s.intermediateSteps)))
  }

  lemma TrackedStep(n: Node, s: State, trace: seq<Node>, guarded: bool, o: Oracles)
    requires n != End && WellFormed(o) && Step(n, s, o).Ok?
    requires Tracked(n, s, trace, guarded, o)
    ensures Tracked(Step(n, s, o).value.0, Step(n, s, o).value.1, trace + [n], guarded || GuardFires(n, s), o)
  {
    var trace' := trace + [n];
    assert trace'[..|trace|] == trace;
    assert trace'[0] == if trace == [] then n else trace[0];
    RoundsBoundedStep(trace, n);
  }

  /** What the whole run promises about its trace and its last state. */
  ghost predicate RunFacts(userInput: string, outcome: Outcome, trace: seq<Node>, o: Oracles) {
    && Count(trace, Plan) <= RetryCeiling + 2
    && Count(trace, Execute) <= MaxSteps * Count(trace, Plan)
    && RoundsBounded(trace)
    && 0 <= RetriesOf(outcome.state) <= RetryCeiling + 1
    && |outcome.state.intermediateSteps| == Count(trace, Verify)
    && outcome.state.userInput == userInput
    && (outcome.Finished? ==>
          trace != [] && trace[0] == Plan && trace[|trace| - 1] == Synthesize &&
          Count(trace, Synthesize) == 1 &&
          outcome.state.finalAnswer == Some(o.compose(outcome.state.intermediateSteps)))
    && (outcome.Crashed? ==>
          outcome.at == Verify && outcome.fault == MissingKey("last_tool_result") &&
          outcome.state.lastToolResult.None? && Count(trace, Synthesize) == 0 &&
          trace == [Plan, Execute] && o.planFor([]) == [])
  }

  /** Whatever the oracles answer, the rest of a tracked run ends with the run's promises kept. */
  lemma {:induction false} RunKeepsFacts(n: Node, s: State, trace: seq<Node>, guarded: bool, o: Oracles)
    requires WellFormed(o) && |s.plan| <= MaxSteps
    requires Tracked(n, s, trace, guarded, o)
    ensures RunFacts(s.userInput, RunFrom(n, s, o, trace).0, RunFrom(n, s, o, trace).1, o)
    decreases Rank(n, s)
  {
    if n != End {
      RunFromUnfold(n, s, o, trace);
      var step := Step(n, s, o);
      if step.Ok? {
        StepDecreases(n, s, o);
        TrackedStep(n, s, trace, guarded, o);
        RunKeepsFacts(step.value.0, step.value.1, trace + [n], guarded || GuardFires(n, s), o);
      }
    }
  }

  /**
   * Where the runtime loop stands: the plan bound, the user input, the run
   * invariant, and invocations made plus those still possible within 48.
   */
  ghost predicate Running(n: Node, s: State, trace: seq<Node>, guarded: bool, o: Oracles, userInput: string) {
    && |s.plan| <= MaxSteps && s.userInput == userInput
    && Tracked(n, s, trace, guarded, o)
    && |trace| + Rank(n, s) <= MaxInvocations
  }

  /** A successful step of the loop keeps `Running`. */
  lemma RunningStep(n: Node, s: State, trace: seq<Node>, guarded: bool, o: Oracles, userInput: string)
    requires n != End && WellFormed(o) && Step(n, s, o).Ok?
    requires Running(n, s, trace, guarded, o, userInput)
    ensures Running(Step(n, s, o).value.0, Step(n, s, o).value.1, trace + [n], guarded || GuardFires(n, s), o, userInput)
    ensures Rank(Step(n, s, o).value.0, Step(n, s, o).value.1) < Rank(n, s)
  {
    StepDecreases(n, s, o);
    TrackedStep(n, s, trace, guarded, o);
  }

  /**
   * `pev_agent_app.invoke(initial_input)` under the runtime's recursion limit
   * `limit`, counted in node invocations (each super-step of this graph runs
   * one node). The run stops with `OutOfSteps` exactly when the unlimited run
   * needs more than `limit` invocations; otherwise it is the unlimited run.
   * Either way it makes at most 48 invocations and at most five planner
   * invocations (four real plans and the guarded one), and runs the executor at
   * most five times per plan. When it reaches END the last node was the
   * synthesizer, which ran exactly once and whose answer is the final answer,
   * replacing any retry message. The history holds one entry per verifier
   * call and retries never exceed four. The only node failure is the verifier
   * reading a tool result that was never written.
   */
  method Run(userInput: string, o: Oracles, limit: nat) returns (outcome: Outcome, trace: seq<Node>)
    requires WellFormed(o)
    ensures !outcome.OutOfSteps? ==> (outcome, trace) == RunFrom(Entry, Initial(userInput), o, [])
    ensures outcome.OutOfSteps? <==> Invocations(RunFrom(Entry, Initial(userInput), o, [])) > limit
    ensures outcome.OutOfSteps? ==>
      |trace| == limit && trace <= RunFrom(Entry, Initial(userInput), o, []).1 && outcome.at != End
    ensures |trace| <= MaxInvocations
    ensures Count(trace, Plan) <= RetryCeiling + 2
    ensures Count(trace, Execute) <= MaxSteps * Count(trace, Plan)
    ensures forall k :: 0 <= k <= |trace| ==> ExecSinceLastPlan(trace[..k]) <= MaxSteps
    ensures 0 <= RetriesOf(outcome.state) <= RetryCeiling + 1
    ensures |outcome.state.intermediateSteps| == Count(trace, Verify)
    ensures outcome.state.userInput == userInput
    ensures outcome.Finished? ==>
      trace != [] && trace[0] == Plan && trace[|trace| - 1] == Synthesize &&
      Count(trace, Synthesize) == 1 &&
      outcome.state.finalAnswer == Some(o.compose(outcome.state.intermediateSteps))
    ensures outcome.Crashed? ==>
      outcome.at == Verify && outcome.fault == MissingKey("last_tool_result") &&
      outcome.state.lastToolResult.None? && Count(trace, Synthesize) == 0 &&
      trace == [Plan, Execute] && o.planFor([]) == []
  {
    var n := Entry;
    var s := Initial(userInput);
    trace := [];
    ghost var guarded := false;
    ghost var whole := RunFrom(n, s, o, trace);
    while n != End && |trace| < limit
      invariant Running(n, s, trace, guarded, o, userInput)
      invariant whole == RunFrom(n, s, o, trace)
      invariant |trace| <= limit
      decreases Rank(n, s)
    {
      var step := Step(n, s, o);
      RunFromUnfold(n, s, o, trace);
      if step.Err? {
        outcome := Crashed(n, step.error, s);
        return;
      }
      RunningStep(n, s, trace, guarded, o, userInput);
      guarded := guarded || GuardFires(n, s);
      trace := trace + [n];
      n, s := step.value.0, step.value.1;
    }
    RunExtends(n, s, o, trace);
    if n == End {
      outcome := Finished(s);
    } else {
      outcome := OutOfSteps(n, s);
    }
  }
}
