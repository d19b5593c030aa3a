/** The question-answering graph: a model node that routes on the tool calls of its answer,
    a tool node that runs the question tools by name, and a query-builder node that answers
    the `buildQuery` calls. Both worker nodes hand control back to the model node, which
    alone can end the run. */
module ResearchGraph {
  import opened Wrappers
  import opened Llm
  import opened Messages
  import Seqs
  import Questions

  datatype Goto = CallModelNode | ToolNode | QueryBuilderNode | End

  const SeedText: string := "Let's start by getting the steps."

  // ---------------------------------------------------------------------------------------
  // The tools and their names

  datatype Tool = GetQuestionsTool | GetQuestionsByStepTool | GetQuestionByIdTool

  /** The name each tool is declared with. */
  function ToolName(t: Tool): string {
    match t
    case GetQuestionsTool => "getQuestions"
    case GetQuestionsByStepTool => "getQuestionsByStep"
    case GetQuestionByIdTool => "getQuestionById"
  }

  const Tools: seq<Tool> := [GetQuestionsTool, GetQuestionsByStepTool, GetQuestionByIdTool]

  /** The dict comprehension `{tool.name: tool for tool in tools}`: entries are added in
      list order, so a later tool of the same name replaces an earlier one. */
  function ByName(ts: seq<Tool>): map<string, Tool> {
    if ts == [] then map[]
    else ByName(ts[..|ts| - 1])[ToolName(ts[|ts| - 1]) := ts[|ts| - 1]]
  }

  const ToolsByName: map<string, Tool> := ByName(Tools)

  /** The keys are exactly the declared names, each mapped to a tool of that name. */
  lemma {:induction false} ByNameKeys(ts: seq<Tool>)
    ensures forall name :: name in ByName(ts) <==> exists k :: 0 <= k < |ts| && ToolName(ts[k]) == name
    ensures forall name :: name in ByName(ts) ==> ToolName(ByName(ts)[name]) == name
  {
    if ts != [] {
      var n := |ts| - 1;
      ByNameKeys(ts[..n]);
      forall name | name in ByName(ts)
        ensures exists k :: 0 <= k < |ts| && ToolName(ts[k]) == name
      {
        if name != ToolName(ts[n]) {
          assert name in ByName(ts[..n]);
          var k :| 0 <= k < n && ToolName(ts[..n][k]) == name;
          assert ts[k] == ts[..n][k];
        }
      }
      forall name, k | 0 <= k < |ts| && ToolName(ts[k]) == name
        ensures name in ByName(ts)
      {
        if k < n {
          assert ts[..n][k] == ts[k];
        }
      }
    }
  }

  /** When names are distinct, each tool is found under its own name. */
  lemma {:induction false} ByNameFinds(ts: seq<Tool>, k: nat)
    requires k < |ts|
    requires forall i, j :: 0 <= i < j < |ts| ==> ToolName(ts[i]) != ToolName(ts[j])
    ensures ToolName(ts[k]) in ByName(ts) && ByName(ts)[ToolName(ts[k])] == ts[k]
  {
    var n := |ts| - 1;
    if k < n {
      ByNameFinds(ts[..n], k);
    }
  }

  /** `tools_by_name` holds the three question tools under their declared names. */
  lemma ToolsByNameExact()
    ensures ToolsByName.Keys == {"getQuestions", "getQuestionsByStep", "getQuestionById"}
    ensures forall k :: 0 <= k < |Tools| ==> ToolsByName[ToolName(Tools[k])] == Tools[k]
  {
    ByNameKeys(Tools);
    forall k | 0 <= k < |Tools|
      ensures ToolsByName[ToolName(Tools[k])] == Tools[k]
    {
      ByNameFinds(Tools, k);
    }
    assert ToolName(Tools[0]) == "getQuestions";
    assert ToolName(Tools[1]) == "getQuestionsByStep";
    assert ToolName(Tools[2]) == "getQuestionById";
  }

  // ---------------------------------------------------------------------------------------
  // The model node

  /** The messages the model is shown: a seed message when there are none, and a last
      message of an unrecognised kind replaced by a human message with its content. */
  function Prepared(ms: seq<Message>): seq<Message> {
    var ms1 := if ms == [] then [Human(SeedText)] else ms;
    var last := ms1[|ms1| - 1];
    if last.Other? then ms1[|ms1| - 1 := Human(last.content)] else ms1
  }

  lemma PreparedFacts(ms: seq<Message>)
    ensures var p := Prepared(ms);
      && p != [] && !p[|p| - 1].Other?
      && (ms == [] ==> p == [Human(SeedText)])
      && (ms != [] ==>
            |p| == |ms| && p[..|ms| - 1] == ms[..|ms| - 1]
            && p[|ms| - 1] == (if ms[|ms| - 1].Other? then Human(ms[|ms| - 1].content) else ms[|ms| - 1]))
  {
  }

  predicate IsQueryCall(c: ToolCall) {
    c.name == "buildQuery" || c.name == "executeQuery"
  }

  /** Python's `any(c["name"] in [...] for c in calls)`. */
  function AnyQueryCall(calls: seq<ToolCall>): bool {
    if calls == [] then false else IsQueryCall(calls[0]) || AnyQueryCall(calls[1..])
  }

  lemma {:induction false} AnyQueryCallExists(calls: seq<ToolCall>)
    ensures AnyQueryCall(calls) <==> exists i :: 0 <= i < |calls| && IsQueryCall(calls[i])
  {
    if calls != [] {
      AnyQueryCallExists(calls[1..]);
      if exists i :: 0 <= i < |calls| && IsQueryCall(calls[i]) {
        var i :| 0 <= i < |calls| && IsQueryCall(calls[i]);
        if i > 0 {
          assert calls[1..][i - 1] == calls[i];
        }
      }
    }
  }

  /** Where the model node goes after an answer with these tool calls. */
  function ModelRoute(calls: seq<ToolCall>): Goto {
    if calls == [] then End
    else if AnyQueryCall(calls) then QueryBuilderNode
    else ToolNode
  }

  /** The run ends exactly when the answer has no tool calls; a query call at any position
      sends the run to the query builder; other tool calls go to the tool node. */
  lemma ModelRouteMeaning(calls: seq<ToolCall>)
    ensures ModelRoute(calls) == End <==> calls == []
    ensures ModelRoute(calls) == QueryBuilderNode <==> exists i :: 0 <= i < |calls| && IsQueryCall(calls[i])
    ensures ModelRoute(calls) == ToolNode <==>
      calls != [] && forall i :: 0 <= i < |calls| ==> !IsQueryCall(calls[i])
    ensures ModelRoute(calls) != CallModelNode
  {
    AnyQueryCallExists(calls);
  }

  // ---------------------------------------------------------------------------------------
  // The tool node

  /** The error a dict lookup with a missing key raises (`str(KeyError(name))`). */
  function UnknownTool(name: string): string {
    "'" + name + "'"
  }

  /** The input validation of a tool: a required argument the call does not supply. */
  function MissingArgument(field: string): string {
    "missing required argument " + field
  }

  /** An invocation of a tool: its output, and the question list it stores in the graph
      state (the lookup tool's write goes to a field the graph state does not declare). */
  datatype ToolEffect = ToolEffect(output: ToolOutput, questions: Option<seq<Questions.Question>>)

  /** What one tool does with the arguments of a call. */
  function Invoke(t: Tool, args: ToolArgs): Result<ToolEffect> {
    match t
    case GetQuestionsTool =>
      (match Seqs.SelectCount(Questions.Table, args.count)
       case Err(e) => Err(e)
       case Ok(qs) => Ok(ToolEffect(QuestionList(qs), Some(qs))))
    case GetQuestionsByStepTool =>
      if args.stepId.None? then Err(MissingArgument("stepId"))
      else
        (match Questions.QuestionsByStep(args.stepId.value)
         case Err(e) => Err(e)
         case Ok(qs) => Ok(ToolEffect(QuestionList(qs), Some(qs))))
    case GetQuestionByIdTool =>
      if args.questionId.None? then Err(MissingArgument("questionId"))
      else
        (match Questions.LookupQuestion(args.questionId.value)
         case Err(e) => Err(e)
         case Ok(found) => Ok(ToolEffect(QuestionLookup(found), None)))
  }

  /** One call dispatched through `tools_by_name`. The source indexes the tool list by the
      name, which cannot work; the model takes the evident intent, the name lookup. */
  function CallTool(c: ToolCall): Result<ToolEffect> {
    if c.name !in ToolsByName then Err(UnknownTool(c.name)) else Invoke(ToolsByName[c.name], c.args)
  }

  /** The questions after a tool's write, if it makes one. */
  function StoredQuestions(e: ToolEffect, qs: seq<Questions.Question>): seq<Questions.Question> {
    if e.questions.Some? then e.questions.value else qs
  }

  /** The tool node over `calls`, from the questions `qs`: the tool messages to add (or the
      first error, which escapes the node) and the questions the tools have stored by then. */
  function RunCalls(calls: seq<ToolCall>, qs: seq<Questions.Question>): (Result<seq<Message>>, seq<Questions.Question>) {
    if calls == [] then (Ok([]), qs)
    else
      var prev := RunCalls(calls[..|calls| - 1], qs);
      var c := calls[|calls| - 1];
      if prev.0.Err? then prev
      else
        match CallTool(c)
        case Err(e) => (Err(e), prev.1)
        case Ok(eff) => (Ok(prev.0.value + [Tool(eff.output, c.id)]), StoredQuestions(eff, prev.1))
  }

  lemma RunCallsAppend(calls: seq<ToolCall>, c: ToolCall, qs: seq<Questions.Question>)
    ensures RunCalls(calls + [c], qs) ==
      var prev := RunCalls(calls, qs);
      if prev.0.Err? then prev
      else
        match CallTool(c)
        case Err(e) => (Err(e), prev.1)
        case Ok(eff) => (Ok(prev.0.value + [Tool(eff.output, c.id)]), StoredQuestions(eff, prev.1))
  {
    assert (calls + [c])[..|calls|] == calls;
  }

  /** One more call of a prefix of `calls`. */
  lemma RunCallsPrefixStep(calls: seq<ToolCall>, i: nat, qs: seq<Questions.Question>)
    requires i < |calls|
    ensures RunCalls(calls[..i + 1], qs) ==
      var prev := RunCalls(calls[..i], qs);
      if prev.0.Err? then prev
      else
        match CallTool(calls[i])
        case Err(e) => (Err(e), prev.1)
        case Ok(eff) => (Ok(prev.0.value + [Tool(eff.output, calls[i].id)]), StoredQuestions(eff, prev.1))
  {
    RunCallsAppend(calls[..i], calls[i], qs);
    assert calls[..i + 1] == calls[..i] + [calls[i]];
  }

  /** Once a call fails, later calls change nothing. */
  lemma {:induction false} RunCallsStops(calls: seq<ToolCall>, more: seq<ToolCall>, qs: seq<Questions.Question>)
    requires RunCalls(calls, qs).0.Err?
    ensures RunCalls(calls + more, qs) == RunCalls(calls, qs)
    decreases |more|
  {
    if more != [] {
      var front := more[..|more| - 1];
      RunCallsStops(calls, front, qs);
      assert calls + more == (calls + front) + [more[|more| - 1]];
      RunCallsAppend(calls + front, more[|more| - 1], qs);
    } else {
      assert calls + more == calls;
    }
  }
  /** A failure on a prefix of `calls` is the result of all of `calls`. */
  lemma RunCallsPrefixStops(calls: seq<ToolCall>, i: nat, qs: seq<Questions.Question>)
    requires i <= |calls| && RunCalls(calls[..i], qs).0.Err?
    ensures RunCalls(calls, qs) == RunCalls(calls[..i], qs)
  {
    RunCallsStops(calls[..i], calls[i..], qs);
    assert calls[..i] + calls[i..] == calls;
  }


  /** A tool node that succeeds adds exactly one tool message per call, in call order, each
      carrying its call's id and that tool's output; every call named a known tool. */
  lemma {:induction false} RunCallsOnePerCall(calls: seq<ToolCall>, qs: seq<Questions.Question>)
    requires RunCalls(calls, qs).0.Ok?
    ensures var msgs := RunCalls(calls, qs).0.value;
      && |msgs| == |calls|
      && forall i :: 0 <= i < |calls| ==>
           calls[i].name in ToolsByName && CallTool(calls[i]).Ok?
           && msgs[i] == Tool(CallTool(calls[i]).value.output, calls[i].id)
  {
    if calls != [] {
      var n := |calls| - 1;
      RunCallsOnePerCall(calls[..n], qs);
      var msgs0 := RunCalls(calls[..n], qs).0.value;
      var msgs := RunCalls(calls, qs).0.value;
      assert msgs == msgs0 + [Tool(CallTool(calls[n]).value.output, calls[n].id)];
      forall i | 0 <= i < |calls|
        ensures calls[i].name in ToolsByName && CallTool(calls[i]).Ok?
        ensures msgs[i] == Tool(CallTool(calls[i]).value.output, calls[i].id)
      {
        if i < n {
          assert calls[..n][i] == calls[i];
        }
      }
    }
  }

  /** A call of a name outside `tools_by_name` makes the tool node fail. */
  lemma UnknownToolFails(calls: seq<ToolCall>, qs: seq<Questions.Question>, i: nat)
    requires i < |calls| && calls[i].name !in ToolsByName
    ensures RunCalls(calls, qs).0.Err?
  {
    if RunCalls(calls, qs).0.Ok? {
      RunCallsOnePerCall(calls, qs);
    }
  }

  // ---------------------------------------------------------------------------------------
  // The tool node as written

  /** What Python raises when a list is indexed by a string. */
  const ListIndexError: string := "list indices must be integers or slices, not str"

  /** The tool node as the source writes it: the dispatch `self.tools[name]` indexes the
      tool list by the call's name, so the first call raises and no message is added. */
  function RunCallsAsWritten(calls: seq<ToolCall>): Result<seq<Message>> {
    if calls == [] then Ok([]) else Err(ListIndexError)
  }

  /** A single `getQuestions` call without a count: the node as written fails on it, the
      lookup through `tools_by_name` answers it with the whole question table. */
  lemma ListDispatchFails(qs: seq<Questions.Question>)
    ensures var c := ToolCall("getQuestions", "call_1", ToolArgs(None, None, None));
      && RunCallsAsWritten([c]) == Err(ListIndexError)
      && RunCalls([c], qs) == (Ok([Tool(QuestionList(Questions.Table), "call_1")]), Questions.Table)
  {
    var c := ToolCall("getQuestions", "call_1", ToolArgs(None, None, None));
    ToolsByNameExact();
    assert ToolName(Tools[0]) == "getQuestions";
    assert CallTool(c) == Ok(ToolEffect(QuestionList(Questions.Table), Some(Questions.Table)));
    assert [c][..0] == [];
    assert RunCalls([], qs) == (Ok([]), qs);
    assert [] + [Tool(QuestionList(Questions.Table), "call_1")] == [Tool(QuestionList(Questions.Table), "call_1")];
  }

  // ---------------------------------------------------------------------------------------
  // The query-builder node

  /** The tool messages for the `buildQuery` calls only, in order, each holding what the
      builder returns for the call's arguments; the first builder error escapes the node. */
  function BuildMessages(calls: seq<ToolCall>, build: ToolArgs -> Result<string>): Result<seq<Message>> {
    if calls == [] then Ok([])
    else
      var c := calls[|calls| - 1];
      match BuildMessages(calls[..|calls| - 1], build)
      case Err(e) => Err(e)
      case Ok(msgs) =>
        if c.name != "buildQuery" then Ok(msgs)
        else
          match build(c.args)
          case Err(e) => Err(e)
          case Ok(text) => Ok(msgs + [Tool(QueryText(text), c.id)])
  }

  /** The `buildQuery` calls among `calls`, in order. */
  function BuildCalls(calls: seq<ToolCall>): seq<ToolCall> {
    if calls == [] then []
    else BuildCalls(calls[..|calls| - 1]) + (if calls[|calls| - 1].name == "buildQuery" then [calls[|calls| - 1]] else [])
  }

  /** On success, one message per `buildQuery` call and none for any other call, in call
      order, each carrying its call's id and the builder's text for it. */
  lemma {:induction false} BuildMessagesExact(calls: seq<ToolCall>, build: ToolArgs -> Result<string>)
    requires BuildMessages(calls, build).Ok?
    ensures var msgs := BuildMessages(calls, build).value;
      var bc := BuildCalls(calls);
      && |msgs| == |bc|
      && forall i :: 0 <= i < |bc| ==>
           bc[i].name == "buildQuery" && build(bc[i].args).Ok?
           && msgs[i] == Tool(QueryText(build(bc[i].args).value), bc[i].id)
  {
    if calls != [] {
      var n := |calls| - 1;
      BuildMessagesExact(calls[..n], build);
      var bc0 := BuildCalls(calls[..n]);
      var msgs0 := BuildMessages(calls[..n], build).value;
      var bc := BuildCalls(calls);
      var msgs := BuildMessages(calls, build).value;
      if calls[n].name == "buildQuery" {
        assert bc == bc0 + [calls[n]];
        assert msgs == msgs0 + [Tool(QueryText(build(calls[n].args).value), calls[n].id)];
        forall i | 0 <= i < |bc|
          ensures bc[i].name == "buildQuery" && build(bc[i].args).Ok?
          ensures msgs[i] == Tool(QueryText(build(bc[i].args).value), bc[i].id)
        {
          if i < |bc0| {
            assert bc[i] == bc0[i] && msgs[i] == msgs0[i];
          }
        }
      } else {
        assert bc == bc0;
      }
    }
  }

  /** Without `buildQuery` calls the node adds nothing. */
  lemma {:induction false} NoBuildCallsNoMessages(calls: seq<ToolCall>, build: ToolArgs -> Result<string>)
    requires forall i :: 0 <= i < |calls| ==> calls[i].name != "buildQuery"
    ensures BuildMessages(calls, build) == Ok([])
  {
    if calls != [] {
      NoBuildCallsNoMessages(calls[..|calls| - 1], build);
    }
  }

  // ---------------------------------------------------------------------------------------
  // The graph state and the nodes

  datatype StateValue = StateValue(messages: seq<Message>, questions: seq<Questions.Question>,
                                   currentStep: Option<string>)

  class ResearchState {
    var messages: seq<Message>
    var questions: seq<Questions.Question>
    var currentStep: Option<string>

    function Value(): StateValue
      reads this
    {
      StateValue(messages, questions, currentStep)
    }

    constructor (v: StateValue)
      ensures Value() == v
    {
      messages, questions, currentStep := v.messages, v.questions, v.currentStep;
    }
  }

  /** The tool calls of the last message; none when there are no messages. */
  function LastCalls(ms: seq<Message>): seq<ToolCall> {
    if ms == [] then [] else ToolCallsOf(ms[|ms| - 1])
  }

  /** A step of the graph: workers go back to the model node, the model node to a worker
      or to the end, and nothing follows the end. */
  predicate Follows(a: Goto, b: Goto) {
    && a != End
    && (a == CallModelNode ==> b != CallModelNode)
    && (a != CallModelNode ==> b == CallModelNode)
  }

  /** What a run depends on and changes: the state and what is left of the model's answers. */
  datatype Config = Config(value: StateValue, script: seq<ModelOutcome>)

  /** One node visit on the state: the new configuration, and the node that runs next or
      the error that escapes the node. */
  function Step(node: Goto, c: Config, build: ToolArgs -> Result<string>): (Config, Result<Goto>) {
    match node
    case CallModelNode =>
      var ms := Prepared(c.value.messages);
      var rest := RestOfScript(c.script);
      (match NextOutcome(c.script)
       case Unavailable(e) => (Config(c.value.(messages := ms), rest), Err(e))
       case Responded(reply) =>
         (Config(c.value.(messages := ms + [FromReply(reply)]), rest), Ok(ModelRoute(reply.toolCalls))))
    case ToolNode =>
      var (res, qs) := RunCalls(LastCalls(c.value.messages), c.value.questions);
      (match res
       case Err(e) => (c.(value := c.value.(questions := qs)), Err(e))
       case Ok(out) => (c.(value := c.value.(messages := c.value.messages + out, questions := qs)), Ok(CallModelNode)))
    case QueryBuilderNode =>
      (match BuildMessages(LastCalls(c.value.messages), build)
       case Err(e) => (c, Err(e))
       case Ok(out) => (c.(value := c.value.(messages := c.value.messages + out)), Ok(CallModelNode)))
    case End => (c, Ok(End))
  }

  /** The graph run from `node` for at most `fuel` visits or until a node raises: the nodes
      visited, ending with the node that would run next, the final configuration and the
      error that escaped, if any. */
  function RunFrom(node: Goto, c: Config, build: ToolArgs -> Result<string>, fuel: nat): (seq<Goto>, Config, Option<string>)
    decreases fuel
  {
    if node == End || fuel == 0 then ([node], c, None)
    else
      var (c', r) := Step(node, c, build);
      match r
      case Err(e) => ([node], c', Some(e))
      case Ok(next) =>
        var (t, last, error) := RunFrom(next, c', build, fuel - 1);
        ([node] + t, last, error)
  }

  /** A run `rest` continuing the nodes already visited in `done`. */
  function After(done: seq<Goto>, rest: (seq<Goto>, Config, Option<string>)): (seq<Goto>, Config, Option<string>) {
    (done + rest.0, rest.1, rest.2)
  }

  /** A run from a node that raises stops there with the node's error. */
  lemma RunFromRaises(done: seq<Goto>, node: Goto, c: Config, c': Config, r: Result<Goto>,
                      build: ToolArgs -> Result<string>, fuel: nat)
    requires node != End && fuel > 0 && Step(node, c, build) == (c', r) && r.Err?
    ensures After(done, RunFrom(node, c, build, fuel)) == (done + [node], c', Some(r.error))
  {
  }

  /** A run from a node that does not raise is that node followed by the run from the next. */
  lemma RunFromPasses(done: seq<Goto>, node: Goto, c: Config, c': Config, r: Result<Goto>,
                      build: ToolArgs -> Result<string>, fuel: nat)
    requires node != End && fuel > 0 && Step(node, c, build) == (c', r) && r.Ok?
    ensures After(done, RunFrom(node, c, build, fuel)) == After(done + [node], RunFrom(r.value, c', build, fuel - 1))
  {
    var rest := RunFrom(r.value, c', build, fuel - 1);
    assert RunFrom(node, c, build, fuel) == ([node] + rest.0, rest.1, rest.2);
    assert done + ([node] + rest.0) == (done + [node]) + rest.0;
  }

  /** A step that does not raise goes to a node that may follow. */
  lemma StepFollows(node: Goto, c: Config, build: ToolArgs -> Result<string>)
    requires node != End && Step(node, c, build).1.Ok?
    ensures Follows(node, Step(node, c, build).1.value)
  {
    if node == CallModelNode {
      ModelRouteMeaning(NextOutcome(c.script).reply.toolCalls);
    }
  }

  /** A run visits at most `fuel` nodes after the first, stops early only at the end or on
      an error, and each node follows the one before. */
  lemma {:induction false} RunFromShape(node: Goto, c: Config, build: ToolArgs -> Result<string>, fuel: nat)
    ensures var (t, _, error) := RunFrom(node, c, build, fuel);
      && 1 <= |t| <= fuel + 1 && t[0] == node
      && (error.None? ==> t[|t| - 1] == End || |t| == fuel + 1)
      && forall i :: 0 <= i < |t| - 1 ==> Follows(t[i], t[i + 1])
    decreases fuel
  {
    if node != End && fuel != 0 {
      var (c', r) := Step(node, c, build);
      if r.Ok? {
        StepFollows(node, c, build);
        RunFromShape(r.value, c', build, fuel - 1);
        var (t, last, error) := RunFrom(r.value, c', build, fuel - 1);
        assert RunFrom(node, c, build, fuel) == ([node] + t, last, error);
        forall i | 0 <= i < |[node] + t| - 1
          ensures Follows(([node] + t)[i], ([node] + t)[i + 1])
        {
          if i > 0 {
            assert ([node] + t)[i] == t[i - 1] && ([node] + t)[i + 1] == t[i];
          }
        }
      }
    }
  }

  class ResearchAgent {
    const model: ChatModel

    constructor (model: ChatModel)
      ensures this.model == model
    {
      this.model := model;
    }

    /** `call_model_node`. A failing model call raises out of the node, after the messages
        were prepared. */
    method CallModel(state: ResearchState) returns (r: Result<Goto>)
      modifies state, model
      ensures model.calls == old(model.calls) + 1 && model.script == RestOfScript(old(model.script))
      ensures state.questions == old(state.questions) && state.currentStep == old(state.currentStep)
      ensures NextOutcome(old(model.script)).Unavailable? ==>
        r == Err(NextOutcome(old(model.script)).error) && state.messages == Prepared(old(state.messages))
      ensures NextOutcome(old(model.script)).Responded? ==>
        var reply := NextOutcome(old(model.script)).reply;
        r == Ok(ModelRoute(reply.toolCalls))
        && state.messages == Prepared(old(state.messages)) + [FromReply(reply)]
    {
      if state.messages == [] {
        state.messages := state.messages + [Human(SeedText)];
      }
      var last := state.messages[|state.messages| - 1];
      if last.Other? {
        state.messages := state.messages[|state.messages| - 1 := Human(last.content)];
      }
      var answer := model.Invoke();
      if answer.Unavailable? {
        return Err(answer.error);
      }
      state.messages := state.messages + [FromReply(answer.reply)];
      var calls := answer.reply.toolCalls;
      if calls != [] {
        if AnyQueryCall(calls) {
          return Ok(QueryBuilderNode);
        }
        return Ok(ToolNode);
      }
      r := Ok(End);
    }

    /** `tool_node`: runs each tool call of the last message in order and appends their tool
        messages together; an error escapes the node before any message is added. */
    method RunTools(state: ResearchState) returns (r: Result<Goto>)
      modifies state
      ensures state.currentStep == old(state.currentStep)
      ensures var (res, qs) := RunCalls(LastCalls(old(state.messages)), old(state.questions));
        && state.questions == qs
        && (res.Err? ==> r == Err(res.error) && state.messages == old(state.messages))
        && (res.Ok? ==> r == Ok(CallModelNode) && state.messages == old(state.messages) + res.value)
    {
      var calls := LastCalls(state.messages);
      if calls == [] {
        return Ok(CallModelNode);
      }
      ghost var qs0 := state.questions;
      var msgs: seq<Message> := [];
      var i := 0;
      while i < |calls|
        invariant 0 <= i <= |calls|
        invariant state.messages == old(state.messages) && state.currentStep == old(state.currentStep)
        invariant RunCalls(calls[..i], qs0) == (Ok(msgs), state.questions)
      {
        var c := calls[i];
        RunCallsPrefixStep(calls, i, qs0);
        var result := CallTool(c);
        if result.Err? {
          RunCallsPrefixStops(calls, i + 1, qs0);
          return Err(result.error);
        }
        var eff := result.value;
        if eff.questions.Some? {
          state.questions := eff.questions.value;
        }
        msgs := msgs + [Tool(eff.output, c.id)];
        i := i + 1;
      }
      assert calls[..i] == calls;
      state.messages := state.messages + msgs;
      r := Ok(CallModelNode);
    }

    /** `query_builder_node`: one tool message per `buildQuery` call of the last message. */
    method RunQueryBuilder(state: ResearchState, build: ToolArgs -> Result<string>) returns (r: Result<Goto>)
      modifies state
      ensures state.questions == old(state.questions) && state.currentStep == old(state.currentStep)
      ensures var res := BuildMessages(LastCalls(old(state.messages)), build);
        && (res.Err? ==> r == Err(res.error) && state.messages == old(state.messages))
        && (res.Ok? ==> r == Ok(CallModelNode) && state.messages == old(state.messages) + res.value)
    {
      var calls := LastCalls(state.messages);
      if calls == [] {
        return Ok(CallModelNode);
      }
      var msgs: seq<Message> := [];
      var i := 0;
      while i < |calls|
        invariant 0 <= i <= |calls|
        invariant state.messages == old(state.messages)
        invariant BuildMessages(calls[..i], build) == Ok(msgs)
      {
        var c := calls[i];
        assert calls[..i + 1][..i] == calls[..i];
        if c.name == "buildQuery" {
          var text := build(c.args);
          if text.Err? {
            BuildStops(calls[..i + 1], calls[i + 1..], build);
            assert calls[..i + 1] + calls[i + 1..] == calls;
            return Err(text.error);
          }
          msgs := msgs + [Tool(QueryText(text.value), c.id)];
        }
        i := i + 1;
      }
      assert calls[..i] == calls;
      state.messages := state.messages + msgs;
      r := Ok(CallModelNode);
    }

    /** One visit of `node`, which is not the end. */
    method Visit(node: Goto, state: ResearchState, build: ToolArgs -> Result<string>) returns (r: Result<Goto>)
      requires node != End
      modifies state, model
      ensures (Config(state.Value(), model.script), r) == Step(node, Config(old(state.Value()), old(model.script)), build)
    {
      match node {
        case CallModelNode => r := CallModel(state);
        case ToolNode => r := RunTools(state);
        case QueryBuilderNode => r := RunQueryBuilder(state, build);
      }
    }

    /** Runs the graph from the model node for at most `fuel` node visits (the source has no
        bound), or until a node raises. Returns the nodes visited in order, ending with the
        node that would run next, and the error if one escaped. */
    method Run(state: ResearchState, build: ToolArgs -> Result<string>, fuel: nat)
      returns (trace: seq<Goto>, error: Option<string>)
      modifies state, model
      ensures 1 <= |trace| <= fuel + 1 && trace[0] == CallModelNode
      ensures error.None? ==> trace[|trace| - 1] == End || |trace| == fuel + 1
      ensures forall i :: 0 <= i < |trace| - 1 ==> Follows(trace[i], trace[i + 1])
      ensures (trace, Config(state.Value(), model.script), error)
        == RunFrom(CallModelNode, Config(old(state.Value()), old(model.script)), build, fuel)
    {
      ghost var start := Config(state.Value(), model.script);
      ghost var total := RunFrom(CallModelNode, start, build, fuel);
      var node := CallModelNode;
      trace := [node];
      error := None;
      var left := fuel;
      ghost var done: seq<Goto> := [];
      ghost var cfg := start;
      assert done + total.0 == total.0;
      while error.None? && node != End && left > 0
        invariant trace == done + [node] && cfg == Config(state.Value(), model.script)
        invariant |trace| + left == fuel + 1
        invariant error.None? ==> total == After(done, RunFrom(node, cfg, build, left))
        invariant error.Some? ==> total == (trace, cfg, error)
        decreases left, if error.None? then 1 else 0
      {
        var r := Visit(node, state, build);
        ghost var cfg' := Config(state.Value(), model.script);
        if r.Err? {
          RunFromRaises(done, node, cfg, cfg', r, build, left);
          cfg := cfg';
          error := Some(r.error);
        } else {
          RunFromPasses(done, node, cfg, cfg', r, build, left);
          done := done + [node];
          cfg := cfg';
          trace := trace + [r.value];
          node := r.value;
          left := left - 1;
        }
      }
      if error.None? {
        assert total == After(done, ([node], cfg, None));
      }
      RunFromShape(CallModelNode, start, build, fuel);
    }
  }

  /** Once the builder fails, later calls change nothing. */
  lemma {:induction false} BuildStops(calls: seq<ToolCall>, more: seq<ToolCall>, build: ToolArgs -> Result<string>)
    requires BuildMessages(calls, build).Err?
    ensures BuildMessages(calls + more, build) == BuildMessages(calls, build)
    decreases |more|
  {
    if more != [] {
      var front := more[..|more| - 1];
      BuildStops(calls, front, build);
      assert (calls + more)[..|calls + more| - 1] == calls + front;
      assert BuildMessages(calls + front, build).Err?;
    } else {
      assert calls + more == calls;
    }
  }
}
