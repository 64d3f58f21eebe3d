/**
 * Whole runs of the PEV graph under particular oracle behaviour: the happy
 * path, retry exhaustion, a first plan with no steps, and a successful result
 * that happens to quote the failure tag.
 */
module PevScenarios {
  import opened Wrappers
  import opened Text
  import opened Pev
  import opened PevRun

  /** `k` copies of the node sequence `x`, one after another. */
  function Repeat(x: seq<Node>, k: nat): (r: seq<Node>)
    ensures |r| == k * |x|
  {
    if k == 0 then [] else x + Repeat(x, k - 1)
  }

  /** Regrouping a concatenation of four node lists. */
  lemma AppendAssoc(a: seq<Node>, b: seq<Node>, c: seq<Node>, d: seq<Node>)
    ensures a + b + c + d == a + (b + c) + d
  {
  }

  /** One failed planning round. */
  const FailedRound: seq<Node> := [Plan, Execute, Verify]
  /** One executed and verified step. */
  const StepRound: seq<Node> := [Execute, Verify]

  /** The search results for the queries, in order. */
  function Searches(queries: seq<string>, backend: string -> string): (r: seq<string>)
    ensures |r| == |queries|
    ensures forall i :: 0 <= i < |queries| ==> r[i] == FlakyWebSearch(queries[i], backend)
  {
    if queries == [] then []
    else [FlakyWebSearch(queries[0], backend)] + Searches(queries[1..], backend)
  }

  /** Every step's result is accepted by the verifier and does not quote the failure tag. */
  predicate AllAccepted(queries: seq<string>, o: Oracles) {
    forall i :: 0 <= i < |queries| ==>
      o.judge(FlakyWebSearch(queries[i], o.backend)) &&
      !Contains(FlakyWebSearch(queries[i], o.backend), FailureTag)
  }

  /** The synthesizer's run: it sets the final answer from the history and the run ends. */
  lemma SynthesizeRun(s: State, o: Oracles, done: seq<Node>)
    requires WellFormed(o) && |s.plan| <= MaxSteps
    ensures RunFrom(Synthesize, s, o, done) ==
      (Finished(s.(finalAnswer := Some(o.compose(s.intermediateSteps)))), done + [Synthesize])
  {
    var s1 := s.(finalAnswer := Some(o.compose(s.intermediateSteps)));
    SynthesizeStep(s, o);
    Advance(Synthesize, s, o, done, End, s1);
    AtEnd(s1, o, done + [Synthesize]);
  }

  /** One execute/verify pair whose result is accepted: the result joins the history and the router decides. */
  lemma AcceptedPair(s: State, o: Oracles, done: seq<Node>)
    requires WellFormed(o) && |s.plan| <= MaxSteps && s.plan != []
    requires o.judge(FlakyWebSearch(s.plan[0], o.backend))
    ensures
      var r := FlakyWebSearch(s.plan[0], o.backend);
      var t := s.(plan := s.plan[1..], lastToolResult := Some(r), intermediateSteps := s.intermediateSteps + [r]);
      RunFrom(Execute, s, o, done) == RunFrom(Route(t), t, o, done + StepRound)
  {
    var r := FlakyWebSearch(s.plan[0], o.backend);
    var s1 := s.(plan := s.plan[1..], lastToolResult := Some(r));
    var t := s1.(intermediateSteps := s.intermediateSteps + [r]);
    ExecuteStep(s, o);
    Advance(Execute, s, o, done, Verify, s1);
    VerifyStep(s1, o);
    Advance(Verify, s1, o, done + [Execute], Route(t), t);
    assert done + [Execute] + [Verify] == done + StepRound;
  }

  /** The state after every step of a non-empty plan was executed and accepted, and the answer composed. */
  function AfterAccepted(s: State, o: Oracles): (t: State)
    requires s.plan != []
    ensures t.intermediateSteps == s.intermediateSteps + Searches(s.plan, o.backend)
    ensures t.plan == [] && t.finalAnswer == Some(o.compose(t.intermediateSteps))
  {
    var h := s.intermediateSteps + Searches(s.plan, o.backend);
    s.(plan := [], lastToolResult := Some(h[|h| - 1]), intermediateSteps := h,
       finalAnswer := Some(o.compose(h)))
  }

  /** The state after the accepted first step of a plan of two or more leads to the same end state. */
  lemma AfterAcceptedShift(s: State, o: Oracles)
    requires |s.plan| >= 2
    ensures
      var r := FlakyWebSearch(s.plan[0], o.backend);
      AfterAccepted(s.(plan := s.plan[1..], lastToolResult := Some(r),
                       intermediateSteps := s.intermediateSteps + [r]), o) == AfterAccepted(s, o)
  {
    var r := FlakyWebSearch(s.plan[0], o.backend);
    assert Searches(s.plan, o.backend) == [r] + Searches(s.plan[1..], o.backend);
    assert s.intermediateSteps + [r] + Searches(s.plan[1..], o.backend) ==
           s.intermediateSteps + Searches(s.plan, o.backend);
  }

  /** A plan with one accepted step: execute, verify, synthesize. */
  lemma LastAccepted(s: State, o: Oracles, done: seq<Node>)
    requires WellFormed(o) && |s.plan| == 1 && !Truthy(s.finalAnswer)
    requires AllAccepted(s.plan, o)
    ensures RunFrom(Execute, s, o, done) ==
      (Finished(AfterAccepted(s, o)), done + Repeat(StepRound, 1) + [Synthesize])
  {
    var r := FlakyWebSearch(s.plan[0], o.backend);
    var h := s.intermediateSteps + [r];
    var t := s.(plan := [], lastToolResult := Some(r), intermediateSteps := h);
    assert s.plan[1..] == [];
    AcceptedPair(s, o, done);
    assert !LastFailed(h) by { assert h[|h| - 1] == r; }
    SynthesizeRun(t, o, done + StepRound);
    assert Searches(s.plan, o.backend) == [r];
    assert Repeat(StepRound, 1) == StepRound;
  }

  /**
   * From `execute` with a non-empty plan whose every step is accepted: one
   * execute/verify pair per step, then synthesize. The history gains the raw
   * results in order and the final answer is composed from the whole history.
   */
  lemma {:induction false} AcceptedSteps(s: State, o: Oracles, done: seq<Node>)
    requires WellFormed(o) && |s.plan| <= MaxSteps
    requires s.plan != [] && !Truthy(s.finalAnswer) && AllAccepted(s.plan, o)
    ensures RunFrom(Execute, s, o, done) ==
      (Finished(AfterAccepted(s, o)), done + Repeat(StepRound, |s.plan|) + [Synthesize])
    decreases |s.plan|
  {
    if |s.plan| == 1 {
      LastAccepted(s, o, done);
    } else {
      var r := FlakyWebSearch(s.plan[0], o.backend);
      var rest := s.plan[1..];
      var t := s.(plan := rest, lastToolResult := Some(r), intermediateSteps := s.intermediateSteps + [r]);
      AcceptedPair(s, o, done);
      assert Route(t) == Execute;
      assert AllAccepted(rest, o) by {
        forall i | 0 <= i < |rest|
          ensures o.judge(FlakyWebSearch(rest[i], o.backend))
          ensures !Contains(FlakyWebSearch(rest[i], o.backend), FailureTag)
        {
          assert rest[i] == s.plan[i + 1];
        }
      }
      AcceptedSteps(t, o, done + StepRound);
      AfterAcceptedShift(s, o);
      assert Repeat(StepRound, |s.plan|) == StepRound + Repeat(StepRound, |rest|);
      AppendAssoc(done, StepRound, Repeat(StepRound, |rest|), [Synthesize]);
    }
  }

  /**
   * The happy path from the initial state: one plan of `k > 0` steps, each
   * accepted, gives plan, `k` execute/verify pairs, synthesize, END. The history
   * is exactly the search results, retries is one, and the final answer is
   * composed from those results.
   */
  lemma HappyPath(userInput: string, o: Oracles)
    requires WellFormed(o)
    requires o.planFor([]) != [] && AllAccepted(o.planFor([]), o)
    ensures
      var steps := o.planFor([]);
      var h := Searches(steps, o.backend);
      RunFrom(Entry, Initial(userInput), o, []) ==
        (Finished(State(userInput, [], Some(h[|h| - 1]), h, Some(o.compose(h)), Some(1))),
         [Plan] + Repeat(StepRound, |steps|) + [Synthesize])
  {
    var s := Initial(userInput);
    var steps := o.planFor([]);
    var s1 := s.(plan := steps, retries := Some(1));
    PlanStep(s, o);
    Advance(Plan, s, o, [], Execute, s1);
    assert [] + [Plan] == [Plan];
    AcceptedSteps(s1, o, [Plan]);
    assert [] + Searches(steps, o.backend) == Searches(steps, o.backend);
  }

  /**
   * The guarded round: the planner sets the retry message, the executor does
   * nothing, the verifier judges the old result again (either way, only the
   * entry it appends differs), and the router goes to the synthesizer because
   * a final answer is set.
   */
  lemma GuardedRound(s: State, o: Oracles, done: seq<Node>)
    requires WellFormed(o) && |s.plan| <= MaxSteps
    requires RetriesOf(s) > RetryCeiling && s.lastToolResult.Some?
    ensures
      var r := s.lastToolResult.value;
      var h := s.intermediateSteps + [if o.judge(r) then r else FailurePrefix + r];
      RunFrom(Plan, s, o, done) ==
        (Finished(s.(plan := [], intermediateSteps := h, finalAnswer := Some(o.compose(h)))),
         done + Repeat(FailedRound, 1) + [Synthesize])
  {
    var s1 := s.(plan := [], finalAnswer := Some(RetryMessage));
    GuardStep(s, o);
    Advance(Plan, s, o, done, Execute, s1);
    ExecuteStep(s1, o);
    Advance(Execute, s1, o, done + [Plan], Verify, s1);
    var r := s.lastToolResult.value;
    var h := s.intermediateSteps + [if o.judge(r) then r else FailurePrefix + r];
    var s2 := s1.(intermediateSteps := h);
    VerifyStep(s1, o);
    Advance(Verify, s1, o, done + [Plan] + [Execute], Synthesize, s2);
    SynthesizeRun(s2, o, done + [Plan] + [Execute] + [Verify]);
    assert Repeat(FailedRound, 1) == FailedRound;
    assert done + [Plan] + [Execute] + [Verify] == done + FailedRound;
  }

  /** One real planning round whose result is rejected: plan, execute, verify, and back to plan. */
  lemma RejectedRound(s: State, o: Oracles, done: seq<Node>)
    requires WellFormed(o) && |s.plan| <= MaxSteps
    requires RetriesOf(s) <= RetryCeiling && !Truthy(s.finalAnswer)
    requires o.planFor(s.intermediateSteps) != []
    requires !o.judge(FlakyWebSearch(o.planFor(s.intermediateSteps)[0], o.backend))
    ensures
      var r := FlakyWebSearch(o.planFor(s.intermediateSteps)[0], o.backend);
      var t := s.(plan := [], lastToolResult := Some(r), retries := Some(RetriesOf(s) + 1),
                  intermediateSteps := s.intermediateSteps + [FailurePrefix + r]);
      |t.plan| <= MaxSteps && RunFrom(Plan, s, o, done) == RunFrom(Plan, t, o, done + FailedRound)
  {
    var steps := o.planFor(s.intermediateSteps);
    var s1 := s.(plan := steps, retries := Some(RetriesOf(s) + 1));
    PlanStep(s, o);
    Advance(Plan, s, o, done, Execute, s1);
    var r := FlakyWebSearch(steps[0], o.backend);
    var s2 := s1.(plan := steps[1..], lastToolResult := Some(r));
    ExecuteStep(s1, o);
    Advance(Execute, s1, o, done + [Plan], Verify, s2);
    FailureReplans(s2);
    var s3 := s2.(plan := [], intermediateSteps := s.intermediateSteps + [FailurePrefix + r]);
    VerifyStep(s2, o);
    Advance(Verify, s2, o, done + [Plan] + [Execute], Plan, s3);
    assert done + [Plan] + [Execute] + [Verify] == done + FailedRound;
  }

  /**
   * When the planner always proposes at least one step and the verifier rejects
   * every result, each real planning round is plan, execute, verify and returns
   * to the planner; the guarded round then still executes (a no-op) and
   * verifies before synthesizing. Every new history entry is a failure note,
   * and the synthesizer's answer replaces the retry message.
   */
  lemma {:induction false} RejectedRounds(s: State, o: Oracles, done: seq<Node>)
    requires WellFormed(o) && |s.plan| <= MaxSteps
    requires forall h :: o.planFor(h) != []
    requires forall r :: !o.judge(r)
    requires 0 <= RetriesOf(s) <= RetryCeiling + 1 && !Truthy(s.finalAnswer)
    requires RetriesOf(s) <= RetryCeiling || s.lastToolResult.Some?
    ensures
      var out := RunFrom(Plan, s, o, done);
      var h := out.0.state.intermediateSteps;
      && out.0.Finished?
      && out.1 == done + Repeat(FailedRound, (RetryCeiling + 2 - RetriesOf(s)) as nat) + [Synthesize]
      && RetriesOf(out.0.state) == RetryCeiling + 1
      && out.0.state.plan == []
      && s.intermediateSteps <= h
      && |h| == |s.intermediateSteps| + RetryCeiling + 2 - RetriesOf(s)
      && (forall i :: |s.intermediateSteps| <= i < |h| ==> FailurePrefix <= h[i])
      && out.0.state.finalAnswer == Some(o.compose(h))
    decreases RetryCeiling + 1 - RetriesOf(s)
  {
    var R := RetriesOf(s);
    if R > RetryCeiling {
      GuardedRound(s, o, done);
    } else {
      var steps := o.planFor(s.intermediateSteps);
      var r := FlakyWebSearch(steps[0], o.backend);
      var s3 := s.(plan := [], lastToolResult := Some(r), retries := Some(R + 1),
                   intermediateSteps := s.intermediateSteps + [FailurePrefix + r]);
      RejectedRound(s, o, done);
      RejectedRounds(s3, o, done + FailedRound);
      var k := (RetryCeiling + 1 - R) as nat;
      assert RetriesOf(s3) == R + 1 && (RetryCeiling + 2 - RetriesOf(s3)) as nat == k;
      assert Repeat(FailedRound, k + 1) == FailedRound + Repeat(FailedRound, k);
      AppendAssoc(done, FailedRound, Repeat(FailedRound, k), [Synthesize]);
      var h := RunFrom(Plan, s3, o, done + FailedRound).0.state.intermediateSteps;
      forall i | |s.intermediateSteps| <= i < |h|
        ensures FailurePrefix <= h[i]
      {
        if i == |s.intermediateSteps| {
          assert h[i] == s3.intermediateSteps[i];
        }
      }
    }
  }

  /**
   * Retry exhaustion from the initial state: five planner invocations (four
   * real rounds and the guarded one), sixteen node invocations in all, five
   * failure notes, and a final answer composed from them rather than the
   * fixed retry message.
   */
  lemma RetryExhaustion(userInput: string, o: Oracles)
    requires WellFormed(o)
    requires forall h :: o.planFor(h) != []
    requires forall r :: !o.judge(r)
    ensures
      var out := RunFrom(Entry, Initial(userInput), o, []);
      var h := out.0.state.intermediateSteps;
      && out.0.Finished?
      && out.1 == Repeat(FailedRound, 5) + [Synthesize]
      && |out.1| == 16
      && RetriesOf(out.0.state) == 4
      && |h| == 5
      && (forall i :: 0 <= i < 5 ==> FailurePrefix <= h[i])
      && out.0.state.finalAnswer == Some(o.compose(h))
  {
    RejectedRounds(Initial(userInput), o, []);
  }

  /**
   * A first plan with no steps: the executor leaves the state alone, and the
   * verifier reads a tool result that was never written.
   */
  lemma EmptyFirstPlanCrashes(userInput: string, o: Oracles)
    requires WellFormed(o) && o.planFor([]) == []
    ensures RunFrom(Entry, Initial(userInput), o, []) ==
      (Crashed(Verify, MissingKey("last_tool_result"), Initial(userInput).(retries := Some(1))),
       [Plan, Execute])
  {
    var s := Initial(userInput);
    var s1 := s.(retries := Some(1));
    PlanStep(s, o);
    assert Step(Plan, s, o) == Ok((Execute, s1));
    Advance(Plan, s, o, [], Execute, s1);
    assert [] + [Plan] == [Plan];
    ExecuteStep(s1, o);
    Advance(Execute, s1, o, [Plan], Verify, s1);
    RunFromUnfold(Verify, s1, o, [Plan] + [Execute]);
    assert [Plan] + [Execute] == [Plan, Execute];
    assert RunFrom(Execute, s1, o, [Plan]) == RunFrom(Verify, s1, o, [Plan, Execute]);
    assert Step(Verify, s1, o).Err?;
  }

  /**
   * The router looks for the failure tag anywhere in the last history entry, so
   * an accepted result that quotes it sends control back to the planner once
   * the plan is used up, just as a rejected one does.
   */
  lemma QuotedTagReplans(s: State, before: string, after: string)
    requires s.lastToolResult == Some(before + FailureTag + after)
    requires s.plan == [] && !Truthy(s.finalAnswer)
    ensures Verifier(s, true).Ok?
    ensures Route(Merge(s, Verifier(s, true).value)) == Plan
  {
    var t := Merge(s, Verifier(s, true).value);
    assert t.intermediateSteps[|t.intermediateSteps| - 1] == before + FailureTag + after;
    ContainsInfix(before, FailureTag, after);
  }
}
