/**
 * The ReAct graph of React/react.py: the agent replies, the router sends a
 * reply with tool calls to the tool node, whose results go back to the agent,
 * and ends the run on a reply without tool calls. Messages accumulate through
 * the list reducer; model and tool outputs are parameters.
 */
module React {
  import opened Chat

  datatype Node = Agent | Tools | End

  /**
   * `react_router`: it reads `tool_calls` of the last message without checking
   * its type, so that message must be an AI message. Tools exactly when it
   * carries tool calls; END otherwise, which is the only other entry of the
   * path map.
   */
  function Router(messages: seq<Message>): (n: Node)
    requires messages != [] && Last(messages).AI?
    ensures n == Tools <==> Last(messages).toolCalls != []
    ensures n == End <==> Last(messages).toolCalls == []
    ensures n != Agent
  {
    if Last(messages).toolCalls != [] then Tools else End
  }

  const Entry: Node := Agent

  /**
   * The graph wiring: only `agent` is routed, and `tools` always returns to the
   * agent.
   */
  function Next(n: Node, messages: seq<Message>): (m: Node)
    requires n != End && messages != []
    requires n == Agent ==> Last(messages).AI?
    ensures n == Tools ==> m == Agent
    ensures n == Agent ==> m == Router(messages)
  {
    match n
    case Agent => Router(messages)
    case Tools => Agent
  }

  /**
   * reply: the tool-bound model's answer to the conversation (its text and
   * tool calls); tools: the tool node's result messages.
   */
  datatype Oracles = Oracles(
    reply: seq<Message> -> (string, seq<ToolCall>),
    tools: seq<Message> -> seq<Message>)

  /** `react_agent_node`: exactly one new message, the model's AI reply. */
  function AgentNode(messages: seq<Message>, o: Oracles): (added: seq<Message>)
    ensures |added| == 1 && added[0].AI?
    ensures added[0].toolCalls == o.reply(messages).1
  {
    [AI(o.reply(messages).0, o.reply(messages).1)]
  }

  /**
   * Invokes one node, appends its messages and picks the next node. After the
   * agent the last message is its reply, so the router's demand is always met.
   */
  function Step(n: Node, messages: seq<Message>, o: Oracles): (r: (Node, seq<Message>))
    requires n != End && messages != []
    ensures messages <= r.1
    ensures n == Agent ==> r.1 == AddMessages(messages, AgentNode(messages, o)) && Last(r.1).AI?
  {
    match n
    case Agent =>
      var t := AddMessages(messages, AgentNode(messages, o));
      assert Last(t) == AgentNode(messages, o)[0];
      (Next(Agent, t), t)
    case Tools =>
      var t := AddMessages(messages, o.tools(messages));
      (Next(Tools, t), t)
  }

  /** How a run ends: END reached, or the step allowance used up at some node. */
  datatype Outcome = Finished(messages: seq<Message>) | OutOfSteps(at: Node, messages: seq<Message>)

  /** The run from a node, with at most `fuel` node invocations, and the nodes it invokes. */
  function Run(n: Node, messages: seq<Message>, o: Oracles, fuel: nat): (r: (Outcome, seq<Node>))
    requires messages != []
    ensures messages <= r.0.messages
    ensures |r.1| <= fuel
    decreases fuel
  {
    if n == End then (Finished(messages), [])
    else if fuel == 0 then (OutOfSteps(n, messages), [])
    else
      var (m, t) := Step(n, messages, o);
      var rest := Run(m, t, o, fuel - 1);
      (rest.0, [n] + rest.1)
  }

  /**
   * What holds at a node during a run from the agent: a tool round is pending
   * only after an AI message with tool calls, END only after an AI message
   * without.
   */
  predicate Reachable(n: Node, messages: seq<Message>) {
    messages != [] &&
    match n
    case Agent => true
    case Tools => Last(messages).AI? && Last(messages).toolCalls != []
    case End => Last(messages).AI? && Last(messages).toolCalls == []
  }

  /** Every tool round in the list of invoked nodes is followed by the agent. */
  predicate ToolsReturnToAgent(trace: seq<Node>) {
    forall i :: 0 <= i < |trace| - 1 && trace[i] == Tools ==> trace[i + 1] == Agent
  }

  /** Every step from a reachable configuration reaches another one. */
  lemma StepKeepsReachable(n: Node, messages: seq<Message>, o: Oracles)
    requires n != End && Reachable(n, messages)
    ensures Reachable(Step(n, messages, o).0, Step(n, messages, o).1)
  {
  }

  /**
   * From any reachable configuration, in particular the entry, nodes alternate
   * as the wiring says (the tools always hand back to the agent) and a
   * finished run ends on the agent's reply without tool calls.
   */
  lemma {:induction false} RunShape(n: Node, messages: seq<Message>, o: Oracles, fuel: nat)
    requires Reachable(n, messages)
    ensures ToolsReturnToAgent(Run(n, messages, o, fuel).1)
    ensures Run(n, messages, o, fuel).0.Finished? ==>
      var final := Run(n, messages, o, fuel).0.messages;
      Last(final).AI? && Last(final).toolCalls == []
    decreases fuel
  {
    if n != End && fuel > 0 {
      var (m, t) := Step(n, messages, o);
      StepKeepsReachable(n, messages, o);
      RunShape(m, t, o, fuel - 1);
      var rest := Run(m, t, o, fuel - 1).1;
      var trace := [n] + rest;
      forall i | 0 <= i < |trace| - 1 && trace[i] == Tools
        ensures trace[i + 1] == Agent
      {
        if i == 0 {
          var next := Step(m, t, o);
          assert rest == [m] + Run(next.0, next.1, o, fuel - 2).1;
        } else {
          assert trace[i] == rest[i - 1] && trace[i + 1] == rest[i];
        }
      }
    }
  }

  /**
   * The program's start: the system prompt, then the user's query as the last
   * message. It ends on no AI message, so the graph must begin at the agent.
   */
  function Initial(prompt: string, query: string): (m: seq<Message>)
    ensures |m| == 2 && m[0] == System(prompt) && Last(m) == Human(query)
    ensures !Last(m).AI?
  {
    [System(prompt), Human(query)]
  }

  /** The run from the program's start has the shape above, whatever the model and the tools answer. */
  lemma FromEntry(prompt: string, query: string, o: Oracles, fuel: nat)
    ensures ToolsReturnToAgent(Run(Entry, Initial(prompt, query), o, fuel).1)
    ensures Run(Entry, Initial(prompt, query), o, fuel).0.Finished? ==>
      var final := Run(Entry, Initial(prompt, query), o, fuel).0.messages;
      Last(final).AI? && Last(final).toolCalls == []
  {
    RunShape(Entry, Initial(prompt, query), o, fuel);
  }
}
