/** The values exchanged between the response generator, the language-model
    provider and the tool manager: reply content blocks, conversation turns,
    requests and the outcome of one provider call. */
module Content {

  datatype Option<+T> = None | Some(value: T)

  /** One argument value of a tool call's input mapping. */
  datatype ArgValue = Str(s: string) | Int(n: int)

  /** The keyword arguments a tool-use block passes to its tool. */
  type ToolInput = map<string, ArgValue>

  /** The type tag of a block that is neither a text block nor a tool-use block. */
  type OtherKind = k: string | k != "text" && k != "tool_use" witness "other"

  /** A content block of a provider reply. Block kinds are a tagged union:
      `Text` is a block of type "text", `ToolUse` a block of type "tool_use",
      and `Other` any other kind, which may or may not carry a text field. */
  datatype Block =
    | Text(text: string)
    | ToolUse(name: string, id: string, input: ToolInput)
    | Other(kind: OtherKind, textField: Option<string>)

  /** A provider reply: its stop reason ("tool_use", "end_turn", ...) and its content. */
  datatype Response = Response(stopReason: string, content: seq<Block>)

  /** A tool definition passed through to the provider unchanged. */
  datatype ToolDef = ToolDef(name: string, schema: string)

  /** One entry of a results turn: a "tool_result" for the tool-use block `toolUseId`. */
  datatype ToolResult = ToolResult(toolUseId: string, content: string)

  /** A turn of the conversation sent to the provider. */
  datatype Message =
    | UserQuery(query: string)                    // role "user", the query text
    | AssistantTurn(blocks: seq<Block>)           // role "assistant", a reply's content
    | ToolResultsTurn(results: seq<ToolResult>)   // role "user", a batch of tool results

  /** The parts of a provider request that the generator decides. `offer` is
      `Some(tools)` when the request carries "tools" together with the
      automatic "tool_choice", and `None` when it carries neither. */
  datatype Request = Request(system: string, messages: seq<Message>, offer: Option<seq<ToolDef>>)

  /** What one provider call yields: a reply, or a failure with its message. */
  datatype Outcome = Reply(response: Response) | Failure(message: string)

  /** The provider as a script: the outcome of the k-th call (the first call is 0). */
  type Provider = nat -> Outcome

  /** The tool manager's dispatch: tool name and input to result text. */
  type Dispatcher = (string, ToolInput) -> string

  /** A tool call requested by a tool-use block. */
  datatype Invocation = Invocation(name: string, id: string, input: ToolInput)
}
