/**
 * The chat messages that the Planning, Tool_Use and ReAct graphs keep in their
 * state, and the list reducer that appends a node's new messages.
 */
module Chat {
  /** A tool call requested by the model: tool name, arguments and call id. */
  datatype ToolCall = ToolCall(name: string, args: string, id: string)

  /**
   * `HumanMessage`, `SystemMessage`, `AIMessage` (with its possibly empty list
   * of tool calls) and `ToolMessage` (a tool's output, under the tool's name).
   */
  datatype Message =
    | Human(content: string)
    | System(content: string)
    | AI(content: string, toolCalls: seq<ToolCall>)
    | Tool(content: string, name: string)

  /** `messages[-1]` */
  function Last(messages: seq<Message>): Message
    requires messages != []
  {
    messages[|messages| - 1]
  }

  /**
   * The `add_messages` reducer on new messages without ids: they go after the
   * old ones, in order.
   */
  function AddMessages(messages: seq<Message>, added: seq<Message>): (r: seq<Message>)
    ensures |r| == |messages| + |added|
    ensures messages <= r && r[|messages|..] == added
  {
    messages + added
  }
}
