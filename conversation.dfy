/** The conversation the turn loop replays to the completion service: the
    replies that service gives and the entries of the history. */
module Conversation {

  import opened Wrappers

  /** One structured tool call of a reply: its id, the tool's name and the
      JSON text of its arguments (`None` when the service sent none). */
  datatype ToolCall = ToolCall(id: string, name: string, arguments: Option<string>)

  /** The assistant message of a completion (`resp.choices[0].message`): its
      text content, possibly absent, and its structured tool calls (an empty
      sequence when the service sent none). */
  datatype Reply = Reply(content: Option<string>, toolCalls: seq<ToolCall>)

  /** One call to the completion service: it raised, or it returned a reply. */
  datatype Completion = ServiceError | Responded(reply: Reply)

  /** The role of a role/content entry; tool entries are `ToolEntry`. */
  datatype Role = System | User | Assistant

  /** An entry of the history: a `{"role", "content"}` dictionary, the raw
      assistant message of a structured call, or a `role: "tool"` dictionary
      that answers a structured call by its id. */
  datatype Message =
    | Entry(role: Role, content: string)
    | Raw(reply: Reply)
    | ToolEntry(toolCallId: string, name: string, content: string)

  /** Every tool entry directly follows the assistant message whose first
      tool call it answers, and carries that call's id and tool name. */
  predicate Correlated(h: seq<Message>) {
    forall k :: 0 <= k < |h| && h[k].ToolEntry? ==>
      && 0 < k && h[k - 1].Raw? && h[k - 1].reply.toolCalls != []
      && h[k - 1].reply.toolCalls[0].id == h[k].toolCallId
      && h[k - 1].reply.toolCalls[0].name == h[k].name
  }
}
