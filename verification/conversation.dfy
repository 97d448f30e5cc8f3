/** The chat-completions vocabulary shared by the Jarvis agent and the CLI:
    messages, proposed tool calls, request options and the model's reply.
    The remote model itself is an oracle `Complete`. */
module Conversation {
  import opened Wrappers
  import opened Json
  import opened Declarations

  /** A call the model proposes: `{id, function: {name, arguments}}`, where
      `arguments` is JSON text. */
  datatype ToolCall = ToolCall(id: string, name: string, arguments: string)

  datatype Message =
    | SystemMsg(content: string)
    | UserMsg(content: string)
    | AssistantMsg(reply: Option<string>, toolCalls: seq<ToolCall>)
    | ToolMsg(toolCallId: string, content: string)

  /** `choices[0].message` with the response's `usage` and `model`. */
  datatype Reply = Reply(content: Option<string>, toolCalls: seq<ToolCall>, usage: Json, model: string)

  /** The options of one `chat.completions.create` request; `tools` and
      `toolChoice` are absent when `None`. */
  datatype Request = Request(
    model: string,
    messages: seq<Message>,
    maxTokens: int,
    temperature: real,
    tools: Option<seq<Tool>>,
    toolChoice: Option<string>)

  /** The remote completion call: a reply, or the message of the error it throws. */
  type Complete = Request -> Result<Reply, string>

  /** The assistant message a reply appends to the log. */
  function AssistantOf(r: Reply): Message
  {
    AssistantMsg(r.content, r.toolCalls)
  }
}
