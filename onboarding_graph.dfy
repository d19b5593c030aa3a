/** The onboarding graph: an orchestrator that asks the model for the next move and routes
    on the first requested tool (or, failing that, on what the state still lacks), and three
    worker nodes that fill the state's steps, questions and query results and hand control
    back to the orchestrator. */
module OnboardingGraph {
  import opened Wrappers
  import opened Llm
  import opened Text
  import opened Messages
  import Seqs
  import Steps
  import Questions
  import opened QueryBuilder

  datatype Node = Orchestrator | StepsNode | QuestionsNode | QueryNode | End

  const SeedText: string := "Let's start by getting the steps."
  const InitialText: string := "Let's start the onboarding process."
  const ErrorPrefix: string := "An error occurred: "

  /** A snapshot of the graph state. */
  datatype StateValue = StateValue(messages: seq<Message>, steps: seq<Steps.Step>,
                                   questions: seq<Questions.Question>, currentStep: Option<string>,
                                   queryResults: Option<QueryEnvelope>)

  /** The state the graph is set up with. */
  const InitialState: StateValue := StateValue([Human(InitialText)], [], [], None, None)

  // ---------------------------------------------------------------------------------------
  // Routing

  /** The node a tool name sends the orchestrator to, if the name is one it knows. */
  function ToolRoute(name: string): Option<Node> {
    if name == "buildQuery" || name == "getQueryData" then Some(QueryNode)
    else if name == "getQuestions" || name == "getQuestionsByStep" || name == "getQuestionById" then Some(QuestionsNode)
    else if name == "getSteps" || name == "getStepById" then Some(StepsNode)
    else None
  }

  /** The route taken without a recognised tool call: the first thing the state lacks. */
  function FallbackRoute(v: StateValue): Node {
    if v.steps == [] then StepsNode
    else if v.questions == [] then QuestionsNode
    else if v.queryResults.None? then QueryNode
    else End
  }

  /** The orchestrator's routing decision for a model answer requesting `calls`. */
  function Route(calls: seq<ToolCall>, v: StateValue): Node {
    if calls != [] && ToolRoute(calls[0].name).Some? then ToolRoute(calls[0].name).value
    else FallbackRoute(v)
  }

  /** The seven tool names and where each leads; every other name is unrecognised. */
  lemma ToolRouteNames(name: string)
    ensures ToolRoute(name) == Some(QueryNode) <==> name == "buildQuery" || name == "getQueryData"
    ensures ToolRoute(name) == Some(QuestionsNode) <==>
      name == "getQuestions" || name == "getQuestionsByStep" || name == "getQuestionById"
    ensures ToolRoute(name) == Some(StepsNode) <==> name == "getSteps" || name == "getStepById"
    ensures ToolRoute(name) != Some(Orchestrator) && ToolRoute(name) != Some(End)
  {
  }

  /** Only the first call counts: calls after it never change the route, and a recognised
      first call decides it whatever the state. */
  lemma RouteByFirstCall(calls: seq<ToolCall>, more: seq<ToolCall>, v: StateValue, w: StateValue)
    requires calls != []
    ensures Route(calls + more, v) == Route(calls, v)
    ensures ToolRoute(calls[0].name).Some? ==> Route(calls, v) == Route(calls, w) == ToolRoute(calls[0].name).value
  {
    assert (calls + more)[0] == calls[0];
  }

  /** The run ends exactly when no recognised tool is requested and the state already has
      steps, questions and query results. The orchestrator never routes to itself, and an
      unrecognised name is no error. */
  lemma RouteEnds(calls: seq<ToolCall>, v: StateValue)
    ensures Route(calls, v) == End <==>
      (calls == [] || ToolRoute(calls[0].name).None?)
      && v.steps != [] && v.questions != [] && v.queryResults.Some?
    ensures Route(calls, v) != Orchestrator
  {
  }

  /** The counters the system prompt reports. */
  datatype PromptCounters = PromptCounters(stepsCount: nat, currentStep: string, questionsCount: nat, hasResults: string)

  function Counters(v: StateValue): (c: PromptCounters)
    ensures c.stepsCount == |v.steps| && c.questionsCount == |v.questions|
    ensures Truthy(v.currentStep) ==> c.currentStep == v.currentStep.value
    ensures !Truthy(v.currentStep) ==> c.currentStep == "None"
    ensures c.hasResults == "Available" <==> v.queryResults.Some?
  {
    PromptCounters(if v.steps == [] then 0 else |v.steps|,
                   if Truthy(v.currentStep) then v.currentStep.value else "None",
                   if v.questions == [] then 0 else |v.questions|,
                   if v.queryResults.Some? then "Available" else "None")
  }

  // ---------------------------------------------------------------------------------------
  // The nodes as functions on the state

  /** The orchestrator on an empty message list: one seed message, no model call. */
  function Seeded(v: StateValue): StateValue {
    v.(messages := [Human(SeedText)])
  }

  /** The orchestrator after its model call: the answer is appended and routed on, or the
      error is appended as a system message and the run ends. */
  function Orchestrated(v: StateValue, answer: ModelOutcome): (StateValue, Node) {
    match answer
    case Unavailable(e) => (v.(messages := v.messages + [System(ErrorPrefix + e)]), End)
    case Responded(reply) => (v.(messages := v.messages + [FromReply(reply)]), Route(reply.toolCalls, v))
  }

  /** `steps_node`: all steps, and the first step's id as current step if none is set. */
  function StepsDone(v: StateValue): StateValue {
    match Seqs.SelectCount(Steps.Table, None)
    case Err(_) => v
    case Ok(steps) =>
      v.(steps := steps,
         currentStep := if !Truthy(v.currentStep) && steps != [] then Some(steps[0].id) else v.currentStep)
  }

  /** `questions_node`: nothing without a current step, else the current step's questions. */
  function QuestionsDone(v: StateValue): StateValue {
    if !Truthy(v.currentStep) then v
    else
      match Questions.QuestionsByStep(v.currentStep.value)
      case Err(_) => v
      case Ok(qs) => v.(questions := qs)
  }

  /** `query_node`: nothing without questions; otherwise the query builder is run on the
      first question's description. `getQueryData` has already stored its envelope in
      `query_results` when the check in `execute` fails, so a failed check leaves that
      envelope behind; a success stores the final result. */
  function QueryDone(v: StateValue, answer: ModelOutcome, now: nat): StateValue {
    if v.questions == [] then v
    else
      match answer
      case Unavailable(_) => v
      case Responded(reply) =>
        match ExecuteResult(answer, now)
        case Ok(e) => v.(queryResults := Some(e))
        case Err(_) => v.(queryResults := Some(QueryData(Strip(reply.content), now)))
  }

  lemma OrchestratedFacts(v: StateValue, answer: ModelOutcome)
    ensures var (v', next) := Orchestrated(v, answer);
      && |v'.messages| == |v.messages| + 1 && v'.messages[..|v.messages|] == v.messages
      && v'.(messages := v.messages) == v
      && next != Orchestrator
      && (answer.Unavailable? ==> next == End && v'.messages[|v.messages|] == System(ErrorPrefix + answer.error))
      && (answer.Responded? ==>
            v'.messages[|v.messages|] == FromReply(answer.reply) && next == Route(answer.reply.toolCalls, v))
  {
  }

  /** `steps_node` fills in all steps; the current step becomes "step_1" only when unset,
      and an existing one is kept. Messages, questions and results are untouched. */
  lemma StepsDoneFacts(v: StateValue)
    ensures var v' := StepsDone(v);
      && v'.steps == Steps.Table
      && (!Truthy(v.currentStep) ==> v'.currentStep == Some("step_1"))
      && (Truthy(v.currentStep) ==> v'.currentStep == v.currentStep)
      && v'.(steps := v.steps, currentStep := v.currentStep) == v
  {
  }

  /** `questions_node` leaves the state alone without a current step; otherwise it stores
      exactly the questions of that step, and changes nothing else. */
  lemma QuestionsDoneFacts(v: StateValue)
    ensures !Truthy(v.currentStep) ==> QuestionsDone(v) == v
    ensures Truthy(v.currentStep) ==>
      QuestionsDone(v) == v.(questions := Questions.ForStep(Questions.Table, v.currentStep.value))
  {
  }

  /** `query_node` leaves the state alone without questions or without a model answer;
      a successful query stores a non-empty result naming one of the three objects. */
  lemma QueryDoneFacts(v: StateValue, answer: ModelOutcome, now: nat)
    ensures v.questions == [] || answer.Unavailable? ==> QueryDone(v, answer, now) == v
    ensures QueryDone(v, answer, now).(queryResults := v.queryResults) == v
    ensures v.questions != [] && ExecuteResult(answer, now).Ok? ==>
      var e := QueryDone(v, answer, now).queryResults.value;
      e.results != [] && DetectObject(e.query).Some?
  {
    if v.questions != [] && ExecuteResult(answer, now).Ok? {
      ExecuteSuccess(answer, now);
    }
  }

  // ---------------------------------------------------------------------------------------
  // An invariant of the graph state

  /** Stored query results are the mock rows of their own (stripped) query. */
  predicate ResultsMatchQuery(e: QueryEnvelope) {
    && e.query == Strip(e.query)
    && e.results == QueryData(e.query, e.timestamp).results
  }

  /** Steps are none or all of them; questions are only ever those of the current step;
      query results are always what the mock data gives for their query. */
  predicate GraphInvariant(v: StateValue) {
    && (v.steps == [] || v.steps == Steps.Table)
    && (v.questions != [] ==>
          Truthy(v.currentStep)
          && forall i :: 0 <= i < |v.questions| ==>
               v.questions[i].stepId == v.currentStep.value && v.questions[i] in Questions.Table)
    && (v.queryResults.Some? ==> ResultsMatchQuery(v.queryResults.value))
  }

  lemma InitialStateInvariant()
    ensures GraphInvariant(InitialState)
  {
  }

  lemma SeededInvariant(v: StateValue)
    requires GraphInvariant(v)
    ensures GraphInvariant(Seeded(v))
  {
  }

  lemma OrchestratedInvariant(v: StateValue, answer: ModelOutcome)
    requires GraphInvariant(v)
    ensures GraphInvariant(Orchestrated(v, answer).0)
  {
    OrchestratedFacts(v, answer);
  }

  lemma StepsDoneInvariant(v: StateValue)
    requires GraphInvariant(v)
    ensures GraphInvariant(StepsDone(v))
  {
    StepsDoneFacts(v);
  }

  lemma QuestionsDoneInvariant(v: StateValue)
    requires GraphInvariant(v)
    ensures GraphInvariant(QuestionsDone(v))
  {
    if Truthy(v.currentStep) {
      var qs := Questions.ForStep(Questions.Table, v.currentStep.value);
      forall i | 0 <= i < |qs|
        ensures qs[i].stepId == v.currentStep.value && qs[i] in Questions.Table
      {
        assert qs[i] in qs;
      }
    }
  }

  lemma QueryDoneInvariant(v: StateValue, answer: ModelOutcome, now: nat)
    requires GraphInvariant(v)
    ensures GraphInvariant(QueryDone(v, answer, now))
  {
    if v.questions != [] && answer.Responded? {
      StripIdempotent(answer.reply.content);
    }
  }

  // ---------------------------------------------------------------------------------------
  // The graph state object and the nodes as methods

  class OnboardingState {
    var messages: seq<Message>
    var steps: seq<Steps.Step>
    var questions: seq<Questions.Question>
    var currentStep: Option<string>
    var queryResults: Option<QueryEnvelope>

    function Value(): StateValue
      reads this
    {
      StateValue(messages, steps, questions, currentStep, queryResults)
    }

    constructor (v: StateValue)
      ensures Value() == v
    {
      messages, steps, questions, currentStep, queryResults := v.messages, v.steps, v.questions, v.currentStep, v.queryResults;
    }
  }

  /** A step of the graph: `a` may be followed by `b`. Workers go back to the orchestrator,
      the orchestrator goes to a worker or ends, and nothing follows the end. */
  predicate Follows(a: Node, b: Node) {
    && a != End
    && (a == Orchestrator ==> b != Orchestrator)
    && (a != Orchestrator ==> b == Orchestrator)
  }

  /** What a run depends on and changes: the state and what is left of each model's answers. */
  datatype Config = Config(value: StateValue, script: seq<ModelOutcome>, queryScript: seq<ModelOutcome>)

  /** One node visit on the state: the new configuration and the node that runs next. */
  function Step(node: Node, c: Config, now: nat): (Config, Node) {
    match node
    case Orchestrator =>
      if c.value.messages == [] then (c.(value := Seeded(c.value)), StepsNode)
      else
        var (v, next) := Orchestrated(c.value, NextOutcome(c.script));
        (c.(value := v, script := RestOfScript(c.script)), next)
    case StepsNode => (c.(value := StepsDone(c.value)), Orchestrator)
    case QuestionsNode => (c.(value := QuestionsDone(c.value)), Orchestrator)
    case QueryNode =>
      (c.(value := QueryDone(c.value, NextOutcome(c.queryScript), now),
          queryScript := if c.value.questions == [] then c.queryScript else RestOfScript(c.queryScript)),
       Orchestrator)
    case End => (c, End)
  }

  /** The graph run from `node` for at most `fuel` visits: the nodes visited, ending with
      the node that would run next, and the final configuration. */
  function RunFrom(node: Node, c: Config, fuel: nat, now: nat): (seq<Node>, Config)
    decreases fuel
  {
    if node == End || fuel == 0 then ([node], c)
    else
      var (c', next) := Step(node, c, now);
      var (t, last) := RunFrom(next, c', fuel - 1, now);
      ([node] + t, last)
  }

  /** A run `rest` continuing the nodes already visited in `done`. */
  function After(done: seq<Node>, rest: (seq<Node>, Config)): (seq<Node>, Config) {
    (done + rest.0, rest.1)
  }

  /** A run from a node other than the end is that node followed by the run from the next. */
  lemma RunFromPasses(done: seq<Node>, node: Node, c: Config, c': Config, next: Node, fuel: nat, now: nat)
    requires node != End && fuel > 0 && Step(node, c, now) == (c', next)
    ensures After(done, RunFrom(node, c, fuel, now)) == After(done + [node], RunFrom(next, c', fuel - 1, now))
  {
    var rest := RunFrom(next, c', fuel - 1, now);
    assert RunFrom(node, c, fuel, now) == ([node] + rest.0, rest.1);
    assert done + ([node] + rest.0) == (done + [node]) + rest.0;
  }

  /** Every step keeps the graph invariant and goes to a node that may follow. */
  lemma StepKeeps(node: Node, c: Config, now: nat)
    requires node != End
    ensures GraphInvariant(c.value) ==> GraphInvariant(Step(node, c, now).0.value)
    ensures Follows(node, Step(node, c, now).1)
  {
    if node == Orchestrator && c.value.messages != [] {
      OrchestratedFacts(c.value, NextOutcome(c.script));
    }
    if GraphInvariant(c.value) {
      match node
      case Orchestrator =>
        if c.value.messages == [] {
          SeededInvariant(c.value);
        } else {
          OrchestratedInvariant(c.value, NextOutcome(c.script));
        }
      case StepsNode => StepsDoneInvariant(c.value);
      case QuestionsNode => QuestionsDoneInvariant(c.value);
      case QueryNode => QueryDoneInvariant(c.value, NextOutcome(c.queryScript), now);
    }
  }

  /** A run keeps the graph invariant; it visits at most `fuel` nodes after the first and
      stops early only at the end, each node following the one before. */
  lemma {:induction false} RunFromKeeps(node: Node, c: Config, fuel: nat, now: nat)
    ensures var (t, last) := RunFrom(node, c, fuel, now);
      && (GraphInvariant(c.value) ==> GraphInvariant(last.value))
      && 1 <= |t| <= fuel + 1 && t[0] == node
      && (t[|t| - 1] == End || |t| == fuel + 1)
      && forall i :: 0 <= i < |t| - 1 ==> Follows(t[i], t[i + 1])
    decreases fuel
  {
    if node != End && fuel != 0 {
      var (c', next) := Step(node, c, now);
      StepKeeps(node, c, now);
      RunFromKeeps(next, c', fuel - 1, now);
      var (t, last) := RunFrom(next, c', fuel - 1, now);
      assert RunFrom(node, c, fuel, now) == ([node] + t, last);
      forall i | 0 <= i < |[node] + t| - 1
        ensures Follows(([node] + t)[i], ([node] + t)[i + 1])
      {
        if i > 0 {
          assert ([node] + t)[i] == t[i - 1] && ([node] + t)[i + 1] == t[i];
        }
      }
    }
  }

  class OnboardingAgent {
    /** The orchestrator's model. */
    const model: ChatModel
    /** The query builder's model. */
    const queryModel: ChatModel

    ghost predicate Valid()
      reads this
    {
      model != queryModel
    }

    constructor (model: ChatModel, queryModel: ChatModel)
      requires model != queryModel
      ensures Valid() && this.model == model && this.queryModel == queryModel
    {
      this.model := model;
      this.queryModel := queryModel;
    }

    method OrchestratorNode(state: OnboardingState) returns (next: Node)
      modifies state, model
      ensures old(state.messages) == [] ==>
        state.Value() == Seeded(old(state.Value())) && next == StepsNode
        && model.calls == old(model.calls) && model.script == old(model.script)
      ensures old(state.messages) != [] ==>
        (state.Value(), next) == Orchestrated(old(state.Value()), NextOutcome(old(model.script)))
        && model.calls == old(model.calls) + 1 && model.script == RestOfScript(old(model.script))
    {
      if state.messages == [] {
        state.messages := [Human(SeedText)];
        return StepsNode;
      }
      var before := state.Value();
      var answer := model.Invoke();
      match answer
      case Unavailable(e) =>
        state.messages := state.messages + [System(ErrorPrefix + e)];
        next := End;
      case Responded(reply) =>
        state.messages := state.messages + [FromReply(reply)];
        next := Route(reply.toolCalls, before);
    }

    method StepsNodeStep(state: OnboardingState) returns (next: Node)
      modifies state
      ensures next == Orchestrator
      ensures state.Value() == StepsDone(old(state.Value()))
    {
      var result := Seqs.SelectCount(Steps.Table, None);
      if result.Ok? {
        state.steps := result.value;
        if !Truthy(state.currentStep) && state.steps != [] {
          state.currentStep := Some(state.steps[0].id);
        }
      }
      next := Orchestrator;
    }

    method QuestionsNodeStep(state: OnboardingState) returns (next: Node)
      modifies state
      ensures next == Orchestrator
      ensures state.Value() == QuestionsDone(old(state.Value()))
    {
      next := Orchestrator;
      if !Truthy(state.currentStep) {
        return;
      }
      var result := Questions.QuestionsByStep(state.currentStep.value);
      if result.Ok? {
        state.questions := result.value;
      }
    }

    method QueryNodeStep(state: OnboardingState, now: nat) returns (next: Node)
      modifies state, queryModel
      ensures next == Orchestrator
      ensures state.Value() == QueryDone(old(state.Value()), NextOutcome(old(queryModel.script)), now)
      ensures old(state.questions) == [] ==>
        queryModel.calls == old(queryModel.calls) && queryModel.script == old(queryModel.script)
      ensures old(state.questions) != [] ==>
        queryModel.calls == old(queryModel.calls) + 1 && queryModel.script == RestOfScript(old(queryModel.script))
    {
      next := Orchestrator;
      if state.questions == [] {
        return;
      }
      // The first question's description is the model's input; prompts are not modelled.
      var answer := queryModel.Invoke();
      if answer.Unavailable? {
        return;
      }
      state.queryResults := Some(QueryData(Strip(answer.reply.content), now));
      var result := ExecuteResult(answer, now);
      if result.Ok? {
        state.queryResults := Some(result.value);
      }
    }

    /** One visit of `node`, which is not the end. */
    method Visit(node: Node, state: OnboardingState, now: nat) returns (next: Node)
      requires node != End && Valid()
      modifies state, model, queryModel
      ensures (Config(state.Value(), model.script, queryModel.script), next)
        == Step(node, Config(old(state.Value()), old(model.script), old(queryModel.script)), now)
    {
      match node {
        case Orchestrator => next := OrchestratorNode(state);
        case StepsNode => next := StepsNodeStep(state);
        case QuestionsNode => next := QuestionsNodeStep(state);
        case QueryNode => next := QueryNodeStep(state, now);
      }
    }

    /** Runs the graph from the orchestrator for at most `fuel` node visits (the source has
        no bound). Returns the nodes visited, in order, ending with the node that would run
        next. */
    method Run(state: OnboardingState, fuel: nat, now: nat) returns (trace: seq<Node>)
      requires Valid()
      modifies state, model, queryModel
      ensures GraphInvariant(old(state.Value())) ==> GraphInvariant(state.Value())
      ensures 1 <= |trace| <= fuel + 1 && trace[0] == Orchestrator
      ensures trace[|trace| - 1] == End || |trace| == fuel + 1
      ensures forall i :: 0 <= i < |trace| - 1 ==> Follows(trace[i], trace[i + 1])
      ensures (trace, Config(state.Value(), model.script, queryModel.script))
        == RunFrom(Orchestrator, Config(old(state.Value()), old(model.script), old(queryModel.script)), fuel, now)
    {
      ghost var start := Config(state.Value(), model.script, queryModel.script);
      ghost var total := RunFrom(Orchestrator, start, fuel, now);
      var node := Orchestrator;
      trace := [node];
      var left := fuel;
      ghost var done: seq<Node> := [];
      ghost var cfg := start;
      assert done + total.0 == total.0;
      while node != End && left > 0
        invariant trace == done + [node] && cfg == Config(state.Value(), model.script, queryModel.script)
        invariant |trace| + left == fuel + 1
        invariant total == After(done, RunFrom(node, cfg, left, now))
        decreases left
      {
        var next := Visit(node, state, now);
        ghost var cfg' := Config(state.Value(), model.script, queryModel.script);
        RunFromPasses(done, node, cfg, cfg', next, left, now);
        done := done + [node];
        cfg := cfg';
        trace := trace + [next];
        node := next;
        left := left - 1;
      }
      assert total == After(done, ([node], cfg));
      RunFromKeeps(Orchestrator, start, fuel, now);
    }
  }
}
