/**
 * The messages exchanged with the chat-completion service: the role-tagged
 * conversation entries, the tool-call requests the model emits, the one
 * completion the service returns per request, and the ways a turn can fail.
 */
module Protocol {

  /**
   * A tool call's `arguments` after `json.loads`: a JSON object (its members
   * already decoded to strings), some other JSON value, or text that is not JSON.
   */
  datatype Arguments =
    | Object(fields: map<string, string>)
    | NotAnObject
    | Malformed

  /** One tool-call request: the service's opaque id, the tool name and its arguments. */
  datatype ToolCall = ToolCall(id: string, name: string, arguments: Arguments)

  /** One conversation entry. Only assistant entries carry tool calls; only tool entries answer one. */
  datatype Message =
    | System(content: string)
    | User(content: string)
    | Assistant(content: string, toolCalls: seq<ToolCall>)
    | Tool(content: string, toolCallId: string)
  {
    /** The `role` field the entry is sent with. */
    function Role(): string
    {
      match this
      case System(_) => "system"
      case User(_) => "user"
      case Assistant(_, _) => "assistant"
      case Tool(_, _) => "tool"
    }
  }

  /** The first choice of one chat-completion response. */
  datatype Completion = Completion(finishReason: string, content: string, toolCalls: seq<ToolCall>)

  /** The finish reason with which the model asks for its tool calls to be run. */
  const ToolCallsReason: string := "tool_calls"

  /** Why a turn ends without an answer. */
  datatype TurnError =
    | TransportFailure              // the request to the chat-completion service raised
    | MalformedArguments(callId: string)  // `json.loads` raised on a tool call's arguments
    | ArgumentMismatch(tool: string)      // the handler refused the keyword arguments (a TypeError)
    | OutOfFuel                     // the model's bound on service requests was reached

  /** `replies` answers `calls` one to one, in order: reply j is a tool entry for call j's id. */
  predicate Answers(replies: seq<Message>, calls: seq<ToolCall>)
  {
    && |replies| == |calls|
    && forall j :: 0 <= j < |calls| ==> replies[j].Tool? && replies[j].toolCallId == calls[j].id
  }

  /**
   * The assistant entry at `i` is followed, right away, by one tool entry per
   * tool call it carries, answering the calls' ids in order, and by no
   * further tool entry after that block.
   */
  ghost predicate AnsweredAt(msgs: seq<Message>, i: int)
    requires 0 <= i < |msgs| && msgs[i].Assistant?
  {
    var calls := msgs[i].toolCalls;
    && i + |calls| < |msgs|
    && Answers(msgs[i + 1..i + 1 + |calls|], calls)
    && (i + 1 + |calls| < |msgs| ==> !msgs[i + 1 + |calls|].Tool?)
  }

  /** Entry `i` is an assistant entry, the only kind that can request tools. */
  predicate IsRequest(msgs: seq<Message>, i: int)
  {
    0 <= i < |msgs| && msgs[i].Assistant?
  }

  /** Every assistant entry in the conversation has its tool calls answered in order. */
  ghost predicate WellPaired(msgs: seq<Message>)
  {
    forall i :: IsRequest(msgs, i) ==> AnsweredAt(msgs, i)
  }
}
