/** The onboarding questions table and the three question tools
    (`getQuestions`, `getQuestionsByStep`, `getQuestionById`). */
module Questions {
  import opened Wrappers
  import opened Seqs
  import Steps

  /** The preview configuration of a question; `placeholder` and `options` are present
      only for some data types. */
  datatype Preview = Preview(enabled: bool, dataType: string, placeholder: Option<string>, options: seq<string>)

  /** A question; `stepId` is the id under the question's `step` entry. */
  datatype Question = Question(id: string, name: string, description: string, isAnswered: bool,
                               stepId: string, preview: Preview)

  const Table: seq<Question> := [
    Question("question_1", "How do you identify your customer accounts?",
             "This helps Boomerang understand how to determine which accounts in your CRM represent actual customers versus prospects, partners, or other entities.",
             false, "step_1", Preview(true, "text", Some("Enter company name"), [])),
    Question("question_2", "Where do you capture the buying roles of the contacts (Decision Maker, Influencer, etc.)",
             "This helps Boomerang understand the roles and responsibilities of the contacts in the buying process.",
             false, "step_2",
             Preview(true, "select", None, ["Technology", "Healthcare", "Finance", "Manufacturing", "Retail", "Other"]))
  ]

  const EmptyStepId: string := "Step ID cannot be empty"
  const EmptyQuestionId: string := "Question ID cannot be empty"

  /** Question ids are distinct, and each question refers to a step of the steps table:
      question_1 to step_1 and question_2 to step_2. */
  lemma TableWellFormed()
    ensures forall i, j :: 0 <= i < j < |Table| ==> Table[i].id != Table[j].id
    ensures forall i :: 0 <= i < |Table| ==> Table[i].id != ""
    ensures Table[0].stepId == Steps.Table[0].id && Table[1].stepId == Steps.Table[1].id
    ensures forall i :: 0 <= i < |Table| ==>
      Steps.LookupStep(Table[i].stepId).Ok? && Steps.LookupStep(Table[i].stepId).value.Some?
  {
    Steps.LookupFindsEachStep(0);
    Steps.LookupFindsEachStep(1);
  }

  /** The list comprehension `[q for q in qs if q["step"]["id"] == stepId]`: exactly the
      questions of that step, in their order in `qs`. */
  function ForStep(qs: seq<Question>, stepId: string): (r: seq<Question>)
    ensures |r| <= |qs|
    ensures forall q :: q in r <==> q in qs && q.stepId == stepId
    ensures (forall k :: 0 <= k < |qs| ==> qs[k].stepId == stepId) ==> r == qs
  {
    if qs == [] then []
    else if qs[0].stepId == stepId then [qs[0]] + ForStep(qs[1..], stepId)
    else ForStep(qs[1..], stepId)
  }

  /** The filter on a single question keeps it exactly when it belongs to the step. */
  lemma ForStepOne(q: Question, stepId: string)
    ensures ForStep([q], stepId) == if q.stepId == stepId then [q] else []
  {
    assert [q][1..] == [];
  }

  /** The filter distributes over concatenation, so it keeps each question of the step as
      often as it occurs and in its order in `qs`. */
  lemma {:induction false} ForStepAppend(a: seq<Question>, b: seq<Question>, stepId: string)
    ensures ForStep(a + b, stepId) == ForStep(a, stepId) + ForStep(b, stepId)
  {
    if a == [] {
      assert a + b == b;
    } else {
      assert (a + b)[0] == a[0];
      assert (a + b)[1..] == a[1..] + b;
      ForStepAppend(a[1..], b, stepId);
      if a[0].stepId == stepId {
        calc {
          ForStep(a + b, stepId);
          [a[0]] + ForStep(a[1..] + b, stepId);
          [a[0]] + (ForStep(a[1..], stepId) + ForStep(b, stepId));
          ([a[0]] + ForStep(a[1..], stepId)) + ForStep(b, stepId);
          ForStep(a, stepId) + ForStep(b, stepId);
        }
      }
    }
  }

  /** The selection `getQuestionsByStep` makes: an error for an empty step id, otherwise
      the questions of that step (possibly none, which is not an error). */
  function QuestionsByStep(stepId: string): (r: Result<seq<Question>>)
    ensures stepId == "" <==> r == Err(EmptyStepId)
    ensures r.Ok? ==> r.value == ForStep(Table, stepId)
  {
    if stepId == "" then Err(EmptyStepId) else Ok(ForStep(Table, stepId))
  }

  /** The key the question lookup compares. */
  function QuestionId(q: Question): string {
    q.id
  }

  /** The lookup `getQuestionById` makes: an error for an empty id, otherwise the first
      matching question or None (`{}`). */
  function LookupQuestion(questionId: string): (r: Result<Option<Question>>)
    ensures questionId == "" <==> r == Err(EmptyQuestionId)
    ensures r.Ok? ==> r.value == FirstWith(Table, QuestionId, questionId)
  {
    if questionId == "" then Err(EmptyQuestionId) else Ok(FirstWith(Table, QuestionId, questionId))
  }

  /** Ids are distinct, so every table id finds its own question. */
  lemma LookupFindsEachQuestion(i: nat)
    requires i < |Table|
    ensures LookupQuestion(Table[i].id) == Ok(Some(Table[i]))
  {
    TableWellFormed();
  }

  /** The attributes the question tools set on the state they are given. In the source the
      tools assign attributes (`state.questions`), although the default state is a plain
      `{}` (on which attribute assignment fails) and the step tools write keys; the model
      takes the evident intent, an ordinary field update. */
  class QuestionState {
    var questions: Option<seq<Question>>
    var question: Option<Option<Question>>
    var timestamp: Option<nat>

    constructor ()
      ensures questions.None? && question.None? && timestamp.None?
    {
      questions, question, timestamp := None, None, None;
    }
  }

  /** The `getQuestions` tool: stores the selection in `state.questions` with a timestamp. */
  method GetQuestions(count: Option<int>, state: QuestionState?, now: nat)
    returns (r: Result<seq<Question>>, st: QuestionState)
    modifies state
    ensures state != null ==> st == state
    ensures state == null ==> fresh(st)
    ensures r == SelectCount(Table, count)
    ensures r.Ok? ==> st.questions == Some(r.value) && st.timestamp == Some(now)
    ensures r.Ok? ==> st.question == if state == null then None else old(state.question)
    ensures r.Err? && state != null ==> unchanged(state)
  {
    if state == null {
      st := new QuestionState();
    } else {
      st := state;
    }
    r := SelectCount(Table, count);
    if r.Ok? {
      st.questions := Some(r.value);
      st.timestamp := Some(now);
    }
  }

  /** The `getQuestionsByStep` tool: stores the step's questions in `state.questions`. */
  method GetQuestionsByStep(stepId: string, state: QuestionState?, now: nat)
    returns (r: Result<seq<Question>>, st: QuestionState)
    modifies state
    ensures state != null ==> st == state
    ensures state == null ==> fresh(st)
    ensures r == QuestionsByStep(stepId)
    ensures r.Ok? ==> st.questions == Some(r.value) && st.timestamp == Some(now)
    ensures r.Ok? ==> st.question == if state == null then None else old(state.question)
    ensures r.Err? && state != null ==> unchanged(state)
  {
    if state == null {
      st := new QuestionState();
    } else {
      st := state;
    }
    r := QuestionsByStep(stepId);
    if r.Ok? {
      st.questions := Some(r.value);
      st.timestamp := Some(now);
    }
  }

  /** The `getQuestionById` tool: stores the lookup result in `state.question` (not in
      `state.questions`, which is left as it was). */
  method GetQuestionById(questionId: string, state: QuestionState?, now: nat)
    returns (r: Result<Option<Question>>, st: QuestionState)
    modifies state
    ensures state != null ==> st == state
    ensures state == null ==> fresh(st)
    ensures r == LookupQuestion(questionId)
    ensures r.Ok? ==> st.question == Some(r.value) && st.timestamp == Some(now)
    ensures r.Ok? ==> st.questions == if state == null then None else old(state.questions)
    ensures r.Err? && state != null ==> unchanged(state)
  {
    if state == null {
      st := new QuestionState();
    } else {
      st := state;
    }
    r := LookupQuestion(questionId);
    if r.Ok? {
      st.question := Some(r.value);
      st.timestamp := Some(now);
    }
  }
}
