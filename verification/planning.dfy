/**
 * The Planning graph of Planning/planning.py: a planner writes a list of step
 * strings once, the executor runs them one by one (parsing each with the step
 * parser and appending one tool message), and a synthesizer answers once the
 * plan is empty. Model and search outputs are parameters.
 */
module Planning {
  import opened Wrappers
  import opened StepParser
  import opened Chat

  /**
   * `PlanningState`. `plan` is written by the entry node before any node reads
   * it, so it starts as the empty plan.
   */
  datatype State = State(
    userRequest: string,
    plan: seq<string>,
    intermediateSteps: seq<Message>,
    finalAnswer: Option<string>)

  /** A node's partial update: Some(v) replaces the field, None leaves it alone. */
  datatype Update = Update(
    plan: Option<seq<string>>,
    intermediateSteps: Option<seq<Message>>,
    finalAnswer: Option<string>)

  datatype Node = Plan | Execute | Synthesize | End

  /** How a run ends: END reached, or the recursion limit reached before node `at` could run. */
  datatype Outcome = Finished(state: State) | OutOfSteps(at: Node, state: State)

  /**
   * The runtime's merge of a node's partial update: each field the update names
   * takes the new value, every other field keeps the old one, and the request is
   * never written.
   */
  function Merge(s: State, u: Update): (t: State)
    ensures t.userRequest == s.userRequest
    ensures t.plan == (if u.plan.Some? then u.plan.value else s.plan)
    ensures t.intermediateSteps == (if u.intermediateSteps.Some? then u.intermediateSteps.value else s.intermediateSteps)
    ensures u.finalAnswer.Some? ==> t.finalAnswer == u.finalAnswer
    ensures u.finalAnswer.None? ==> t.finalAnswer == s.finalAnswer
  {
    State(
      s.userRequest,
      if u.plan.Some? then u.plan.value else s.plan,
      if u.intermediateSteps.Some? then u.intermediateSteps.value else s.intermediateSteps,
      if u.finalAnswer.Some? then u.finalAnswer else s.finalAnswer)
  }

  /** `initial_input`: the request and no tool messages yet; no answer. */
  function Initial(userRequest: string): (s: State)
    ensures s.userRequest == userRequest && s.intermediateSteps == [] && s.finalAnswer.None?
  {
    State(userRequest, [], [], None)
  }

  /** `planner_node`: only the plan changes, to the model's steps. */
  function Planner(s: State, steps: seq<string>): (u: Update)
    ensures Merge(s, u) == s.(plan := steps)
  {
    Update(Some(steps), None, None)
  }

  /** The tool message the executor records for one step, given the search backend. */
  function StepMessage(step: string, search: string -> string): (m: Message)
    ensures m.Tool?
    ensures m.name == ParseStep(step).0 && m.content == search(ParseStep(step).1)
  {
    var (tool, query) := ParseStep(step);
    Tool(search(query), tool)
  }

  /**
   * `executor_node`. It reads `plan[0]`, so the plan must not be empty. It pops
   * that step and appends exactly one tool message for it; nothing else changes.
   */
  function Executor(s: State, search: string -> string): (u: Update)
    requires s.plan != []
    ensures var t := Merge(s, u);
      t.plan == s.plan[1..] &&
      t.intermediateSteps == AddMessages(s.intermediateSteps, [StepMessage(s.plan[0], search)]) &&
      t.userRequest == s.userRequest && t.finalAnswer == s.finalAnswer
  {
    Update(Some(s.plan[1..]), Some(s.intermediateSteps + [StepMessage(s.plan[0], search)]), None)
  }

  /** `synthesizer_node`: only the final answer changes, to the model's answer. */
  function Synthesizer(s: State, answer: string): (u: Update)
    ensures Merge(s, u) == s.(finalAnswer := Some(answer))
  {
    Update(None, None, Some(answer))
  }

  /** `planning_router`: synthesize exactly when the plan is empty. */
  function Route(s: State): (n: Node)
    ensures n == Synthesize <==> s.plan == []
    ensures n == Execute <==> s.plan != []
  {
    if s.plan == [] then Synthesize else Execute
  }

  const Entry: Node := Plan

  /**
   * The graph wiring: `plan` and `execute` are routed, `synthesize` goes to END.
   * The executor is entered only with a non-empty plan, and END only from the
   * synthesizer.
   */
  function Next(n: Node, s: State): (m: Node)
    requires n != End
    ensures m == Execute ==> s.plan != []
    ensures m == End <==> n == Synthesize
    ensures m != Plan
  {
    match n
    case Plan => Route(s)
    case Execute => Route(s)
    case Synthesize => End
  }

  /**
   * steps: the planner's structured output for the request; search: the text
   * of the search result for a query; compose: the synthesized answer for the
   * collected messages.
   */
  datatype Oracles = Oracles(steps: seq<string>, search: string -> string, compose: seq<Message> -> string)

  /**
   * Invokes one node, merges its update and picks the next node. The request is
   * kept, and only the executor shortens the plan, by one step.
   */
  function Step(n: Node, s: State, o: Oracles): (r: (Node, State))
    requires n != End && (n == Execute ==> s.plan != [])
    ensures r.0 == Next(n, r.1) && r.1.userRequest == s.userRequest
    ensures n == Execute ==> r.1.plan == s.plan[1..] && |r.1.intermediateSteps| == |s.intermediateSteps| + 1
    ensures n == Plan ==> r.1.plan == o.steps
    ensures n == Synthesize ==> r.1.plan == s.plan && r.0 == End
  {
    var t := match n
      case Plan => Merge(s, Planner(s, o.steps))
      case Execute => Merge(s, Executor(s, o.search))
      case Synthesize => Merge(s, Synthesizer(s, o.compose(s.intermediateSteps)));
    (Next(n, t), t)
  }

  /** The messages the executor leaves after running `steps` in order. */
  function Messages(steps: seq<string>, search: string -> string): (r: seq<Message>)
    ensures |r| == |steps|
    ensures forall i :: 0 <= i < |steps| ==> r[i] == StepMessage(steps[i], search)
  {
    if steps == [] then []
    else
      var init := steps[..|steps| - 1];
      assert forall i :: 0 <= i < |init| ==> init[i] == steps[i];
      Messages(init, search) + [StepMessage(steps[|steps| - 1], search)]
  }

  /** After `k` executor steps: the rest of the plan is left and the first `k` messages are in. */
  predicate Executed(s: State, o: Oracles, k: nat, userRequest: string) {
    && k <= |o.steps|
    && s.plan == o.steps[k..]
    && s.userRequest == userRequest
    && s.intermediateSteps == Messages(o.steps[..k], o.search)
  }

  /** The planner's step from the initial state: the plan is the model's steps, then the router decides. */
  lemma PlanStep(userRequest: string, o: Oracles)
    ensures var (m, t) := Step(Plan, Initial(userRequest), o);
      m == Route(t) && Executed(t, o, 0, userRequest) && t.finalAnswer.None?
  {
    assert o.steps[0..] == o.steps && o.steps[..0] == [];
  }

  /** One executor step after `k` steps have run: the plan loses step `k` and its message is added. */
  lemma ExecuteNext(s: State, o: Oracles, k: nat, userRequest: string)
    requires Executed(s, o, k, userRequest) && s.plan != []
    ensures var (m, t) := Step(Execute, s, o);
      m == Route(t) && Executed(t, o, k + 1, userRequest) && t.finalAnswer == s.finalAnswer
  {
    assert o.steps[..k + 1][..k] == o.steps[..k];
    assert o.steps[k..][1..] == o.steps[k + 1..];
  }

  /** The synthesizer's step: the answer composed from the messages, then END. */
  lemma SynthesizeStep(s: State, o: Oracles)
    ensures Step(Synthesize, s, o) == (End, s.(finalAnswer := Some(o.compose(s.intermediateSteps))))
  {
  }

  /** A measure every step lowers. */
  function Rank(n: Node, s: State, o: Oracles): nat {
    match n
    case Plan => |o.steps| + 2
    case Execute => |s.plan| + 1
    case Synthesize => 1
    case End => 0
  }

  /** `k` executor invocations in a row. */
  function Executes(k: nat): (r: seq<Node>)
    ensures |r| == k && forall i :: 0 <= i < k ==> r[i] == Execute
  {
    if k == 0 then [] else Executes(k - 1) + [Execute]
  }

  /**
   * Where a run from the initial state stands at node `n` after the nodes in
   * `trace`, with `k` plan steps executed.
   */
  predicate Progress(n: Node, s: State, trace: seq<Node>, k: nat, o: Oracles, userRequest: string) {
    match n
    case Plan => trace == [] && s == Initial(userRequest) && k == 0
    case Execute =>
      Executed(s, o, k, userRequest) && s.plan != [] &&
      trace == [Plan] + Executes(k) && s.finalAnswer.None?
    case Synthesize =>
      Executed(s, o, k, userRequest) && k == |o.steps| &&
      trace == [Plan] + Executes(k) && s.finalAnswer.None?
    case End =>
      Executed(s, o, k, userRequest) && k == |o.steps| &&
      trace == [Plan] + Executes(k) + [Synthesize] &&
      s.finalAnswer == Some(o.compose(s.intermediateSteps))
  }

  /** Each step of the run keeps `Progress`, counting one more executed step after the executor. */
  lemma ProgressStep(n: Node, s: State, trace: seq<Node>, k: nat, o: Oracles, userRequest: string)
    requires n != End && Progress(n, s, trace, k, o, userRequest)
    ensures n == Execute ==> s.plan != []
    ensures var (m, t) := Step(n, s, o);
      Progress(m, t, trace + [n], if n == Execute then k + 1 else k, o, userRequest)
  {
    match n {
      case Plan => PlanStep(userRequest, o);
      case Execute => ExecuteNext(s, o, k, userRequest);
      case Synthesize => SynthesizeStep(s, o);
    }
  }

  /** The nodes of a complete run for a plan of `k` steps. */
  function FullTrace(k: nat): (r: seq<Node>)
    ensures |r| == k + 2 && r[0] == Plan && r[k + 1] == Synthesize
    ensures forall i :: 1 <= i <= k ==> r[i] == Execute
  {
    [Plan] + Executes(k) + [Synthesize]
  }

  /** A run cut off after the planner and `k` executor steps has done the start of a complete run. */
  lemma FullTracePrefix(k: nat, m: nat)
    requires k <= m
    ensures FullTrace(m)[..k + 1] == [Plan] + Executes(k)
  {
    var a, b := FullTrace(m)[..k + 1], [Plan] + Executes(k);
    assert |a| == |b|;
    forall i | 0 <= i < |a|
      ensures a[i] == b[i]
    {
      if i > 0 {
        assert b[i] == Executes(k)[i - 1];
      }
    }
  }

  /**
   * `planner_agent_app.invoke(initial_input)` under the runtime's recursion
   * limit `limit`, counted in node invocations (each super-step of this graph
   * runs one node). The complete run is the planner once, the executor once per
   * planned step, the synthesizer once, then END; its messages are the
   * executor's for each step in order, and the final answer is composed from
   * them. The run is complete exactly when those `len(plan) + 2` invocations fit
   * in the limit; otherwise it stops after `limit` of them, having done the
   * start of the complete run.
   */
  method Run(userRequest: string, o: Oracles, limit: nat) returns (outcome: Outcome, trace: seq<Node>)
    ensures outcome.Finished? <==> |o.steps| + 2 <= limit
    ensures outcome.Finished? ==> trace == FullTrace(|o.steps|)
    ensures outcome.state.userRequest == userRequest
    ensures outcome.Finished? ==>
      outcome.state.plan == [] &&
      outcome.state.intermediateSteps == Messages(o.steps, o.search) &&
      outcome.state.finalAnswer == Some(o.compose(Messages(o.steps, o.search)))
    ensures outcome.OutOfSteps? ==>
      |trace| == limit && trace == FullTrace(|o.steps|)[..limit] &&
      outcome.state.intermediateSteps == Messages(o.steps[..if limit == 0 then 0 else limit - 1], o.search)
  {
    var n := Entry;
    var s := Initial(userRequest);
    trace := [];
    ghost var k: nat := 0;
    while n != End && |trace| < limit
      invariant Progress(n, s, trace, k, o, userRequest)
      invariant |trace| <= limit
      decreases Rank(n, s, o)
    {
      ProgressStep(n, s, trace, k, o, userRequest);
      var (m, t) := Step(n, s, o);
      if n == Execute {
        k := k + 1;
      }
      trace := trace + [n];
      n, s := m, t;
    }
    if n == End {
      outcome := Finished(s);
      assert o.steps[..|o.steps|] == o.steps;
    } else {
      outcome := OutOfSteps(n, s);
      if n != Plan {
        FullTracePrefix(k, |o.steps|);
      }
    }
  }
}
