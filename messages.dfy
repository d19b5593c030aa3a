/** The chat messages the two onboarding graphs keep in their state. */
module Messages {
  import opened Wrappers
  import opened Llm
  import Questions

  /** What a tool message carries. The source stringifies a tool's return value; the model
      keeps the value itself: the question list or lookup the question tools select, or the
      text of a built query. */
  datatype ToolOutput =
    | QuestionList(questions: seq<Questions.Question>)
    | QuestionLookup(found: Option<Questions.Question>)
    | QueryText(text: string)

  datatype Message =
    | Human(content: string)
    | Ai(content: string, toolCalls: seq<ToolCall>)
    | System(content: string)
    | Tool(output: ToolOutput, toolCallId: string)
    /** A message of any other kind, holding only its content. */
    | Other(content: string)

  /** The tool calls a message requests; only model answers carry any. */
  function ToolCallsOf(m: Message): seq<ToolCall> {
    if m.Ai? then m.toolCalls else []
  }

  /** The message a model answer is appended as. */
  function FromReply(reply: Reply): Message {
    Ai(reply.content, reply.toolCalls)
  }
}
