/** The language model as an opaque oracle. A model answer is reduced to its text and its
    list of requested tool calls; prompts are not modelled. A `ChatModel` replays a script of
    answers, one per call, so that callers can be specified by how many calls they make and
    by which answer they receive. */
module Llm {
  import opened Wrappers

  /** The arguments a tool call may carry (the injected `state` argument is not an argument
      of the model's choosing and is not represented). */
  datatype ToolArgs = ToolArgs(count: Option<int>, stepId: Option<string>, questionId: Option<string>)

  /** One requested tool invocation: the tool's name, the call id, and its arguments. */
  datatype ToolCall = ToolCall(name: string, id: string, args: ToolArgs)

  /** What the model returns: a message text and the tool calls it requests, in order. */
  datatype Reply = Reply(content: string, toolCalls: seq<ToolCall>)

  /** A model call either answers or raises. */
  datatype ModelOutcome = Responded(reply: Reply) | Unavailable(error: string)

  /** The error given once the script of answers is used up. */
  const ScriptExhausted: string := "model unavailable"

  /** The answer the next call receives. */
  function NextOutcome(script: seq<ModelOutcome>): ModelOutcome {
    if script == [] then Unavailable(ScriptExhausted) else script[0]
  }

  /** The script left after one call. */
  function RestOfScript(script: seq<ModelOutcome>): (r: seq<ModelOutcome>)
    ensures |r| == if script == [] then 0 else |script| - 1
  {
    if script == [] then [] else script[1..]
  }

  class ChatModel {
    /** The answers still to be given, in order. */
    var script: seq<ModelOutcome>
    /** How many times the model has been called. */
    var calls: nat

    constructor (script: seq<ModelOutcome>)
      ensures this.script == script && calls == 0
    {
      this.script := script;
      calls := 0;
    }

    /** One model call (`invoke` / `ainvoke`): consumes one scripted answer. */
    method Invoke() returns (r: ModelOutcome)
      modifies this
      ensures r == NextOutcome(old(script))
      ensures script == RestOfScript(old(script))
      ensures calls == old(calls) + 1
    {
      r := NextOutcome(script);
      script := RestOfScript(script);
      calls := calls + 1;
    }
  }
}
