/**
 * The Tool_Use graph of Tool_Use/tool_use.py: an agent that may request tool
 * calls, a tool node, and a final-answer node that the router can pick when
 * the last message is a tool result. Messages accumulate through the list
 * reducer; model and tool outputs are parameters.
 */
module ToolUse {
  import opened Chat

  datatype Node = Agent | CallTool | FinalAnswer | End

  /**
   * `router_function`, on the last message: an AI message with tool calls goes
   * to the tools, a tool message to the final answer, anything else ends.
   */
  function Router(messages: seq<Message>): (n: Node)
    requires messages != []
    ensures n == CallTool <==> Last(messages).AI? && Last(messages).toolCalls != []
    ensures n == FinalAnswer <==> Last(messages).Tool?
    ensures n == End <==>
      (Last(messages).AI? && Last(messages).toolCalls == []) ||
      Last(messages).Human? || Last(messages).System?
    ensures n != Agent
  {
    var last := Last(messages);
    if last.AI? && last.toolCalls != [] then CallTool
    else if last.Tool? then FinalAnswer
    else End
  }

  /** The router reads nothing but the last message. */
  lemma RouterReadsLastOnly(earlier: seq<Message>, other: seq<Message>, last: Message)
    ensures Router(earlier + [last]) == Router(other + [last])
  {
    assert Last(earlier + [last]) == last == Last(other + [last]);
  }

  const Entry: Node := Agent

  /**
   * The graph wiring: only `agent` is routed; `call_tool` returns to the agent
   * and `final_answer` ends the run.
   */
  function Next(n: Node, messages: seq<Message>): (m: Node)
    requires n != End && messages != []
    ensures n == CallTool ==> m == Agent
    ensures n == FinalAnswer ==> m == End
    ensures n == Agent ==> m == Router(messages)
  {
    match n
    case Agent => Router(messages)
    case CallTool => Agent
    case FinalAnswer => End
  }

  /**
   * reply: the tool-bound model's answer to the conversation (its text and
   * tool calls); tools: the tool node's result messages; answer: the plain
   * model's text.
   */
  datatype Oracles = Oracles(
    reply: seq<Message> -> (string, seq<ToolCall>),
    tools: seq<Message> -> seq<Message>,
    answer: seq<Message> -> string)

  /** `agent_node`: exactly one new message, the model's AI reply. */
  function AgentNode(messages: seq<Message>, o: Oracles): (added: seq<Message>)
    ensures |added| == 1 && added[0].AI?
    ensures added[0].toolCalls == o.reply(messages).1
  {
    [AI(o.reply(messages).0, o.reply(messages).1)]
  }

  /** `final_answer_node`: exactly one new message, an AI reply with no tool calls. */
  function FinalAnswerNode(messages: seq<Message>, o: Oracles): (added: seq<Message>)
    ensures |added| == 1 && added[0].AI? && added[0].toolCalls == []
  {
    [AI(o.answer(messages), [])]
  }

  /** Invokes one node, appends its messages and picks the next node. */
  function Step(n: Node, messages: seq<Message>, o: Oracles): (r: (Node, seq<Message>))
    requires n != End && messages != []
    ensures messages <= r.1
  {
    var added := match n
      case Agent => AgentNode(messages, o)
      case CallTool => o.tools(messages)
      case FinalAnswer => FinalAnswerNode(messages, o);
    var t := AddMessages(messages, added);
    (Next(n, t), t)
  }

  /** How a run ends: END reached, or the step allowance used up at some node. */
  datatype Outcome = Finished(messages: seq<Message>) | OutOfSteps(at: Node, messages: seq<Message>)

  /** The run from a node, with at most `fuel` node invocations, and the nodes it invokes. */
  function Run(n: Node, messages: seq<Message>, o: Oracles, fuel: nat): (r: (Outcome, seq<Node>))
    requires messages != []
    ensures messages <= r.0.messages
    ensures |r.1| <= fuel
    decreases fuel
  {
    if n == End then (Finished(messages), [])
    else if fuel == 0 then (OutOfSteps(n, messages), [])
    else
      var (m, t) := Step(n, messages, o);
      var rest := Run(m, t, o, fuel - 1);
      (rest.0, [n] + rest.1)
  }

  /**
   * What holds whenever control is at a node during a run from the agent: a
   * tool round is pending only after an AI message with tool calls, END only
   * after an AI message without, and the final-answer node never.
   */
  predicate Reachable(n: Node, messages: seq<Message>) {
    messages != [] &&
    match n
    case Agent => true
    case CallTool => Last(messages).AI? && Last(messages).toolCalls != []
    case FinalAnswer => false
    case End => Last(messages).AI? && Last(messages).toolCalls == []
  }

  /** Every step from a reachable configuration reaches another one. */
  lemma StepKeepsReachable(n: Node, messages: seq<Message>, o: Oracles)
    requires n != End && Reachable(n, messages)
    ensures Reachable(Step(n, messages, o).0, Step(n, messages, o).1)
  {
    if n == Agent {
      var t := messages + AgentNode(messages, o);
      assert Last(t) == AgentNode(messages, o)[0];
    }
  }

  /**
   * From any reachable configuration, in particular the entry, the run never
   * invokes the final-answer node, and a finished run ends on the agent's
   * reply without tool calls.
   */
  lemma {:induction false} NeverFinalAnswer(n: Node, messages: seq<Message>, o: Oracles, fuel: nat)
    requires Reachable(n, messages)
    ensures var (out, trace) := Run(n, messages, o, fuel);
      && (forall i :: 0 <= i < |trace| ==> trace[i] != FinalAnswer)
      && (out.Finished? ==> Last(out.messages).AI? && Last(out.messages).toolCalls == [])
    decreases fuel
  {
    if n != End && fuel > 0 {
      var (m, t) := Step(n, messages, o);
      StepKeepsReachable(n, messages, o);
      NeverFinalAnswer(m, t, o, fuel - 1);
    }
  }

  /** Every tool round in the list of invoked nodes is followed by the agent. */
  predicate ToolRoundsReturn(trace: seq<Node>) {
    forall i :: 0 <= i < |trace| - 1 && trace[i] == CallTool ==> trace[i + 1] == Agent
  }

  /** In a run from the entry every tool round hands control back to the agent. */
  lemma {:induction false} ToolRoundsFollowedByAgent(n: Node, messages: seq<Message>, o: Oracles, fuel: nat)
    requires Reachable(n, messages)
    ensures ToolRoundsReturn(Run(n, messages, o, fuel).1)
    decreases fuel
  {
    if n != End && fuel > 0 {
      var (m, t) := Step(n, messages, o);
      StepKeepsReachable(n, messages, o);
      ToolRoundsFollowedByAgent(m, t, o, fuel - 1);
      var rest := Run(m, t, o, fuel - 1).1;
      var trace := [n] + rest;
      forall i | 0 <= i < |trace| - 1 && trace[i] == CallTool
        ensures trace[i + 1] == Agent
      {
        if i == 0 {
          var next := Step(m, t, o);
          assert rest == [m] + Run(next.0, next.1, o, fuel - 2).1;
        } else {
          assert trace[i] == rest[i - 1] && trace[i + 1] == rest[i];
        }
      }
    }
  }

  /** The program's start: the user's query as the only message, at the agent. */
  lemma FromEntry(query: string, o: Oracles, fuel: nat)
    ensures var (out, trace) := Run(Entry, [Human(query)], o, fuel);
      (forall i :: 0 <= i < |trace| ==> trace[i] != FinalAnswer) &&
      ToolRoundsReturn(trace) &&
      (out.Finished? ==> Last(out.messages).AI? && Last(out.messages).toolCalls == [])
  {
    NeverFinalAnswer(Entry, [Human(query)], o, fuel);
    ToolRoundsFollowedByAgent(Entry, [Human(query)], o, fuel);
  }
}
