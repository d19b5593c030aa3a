/** The onboarding steps table and the two step tools (`getSteps`, `getStepById`). */
module Steps {
  import opened Wrappers
  import opened Seqs

  datatype Step = Step(id: string, name: string, description: string, isCompleted: bool, order: nat)

  /** The five onboarding steps, in table order. */
  const Table: seq<Step> := [
    Step("step_1", "Account Identification",
         "Identify and verify the target account for onboarding", false, 1),
    Step("step_2", "Buying Roles",
         "Identify key decision makers and their roles in the buying process", false, 2),
    Step("step_3", "Role Mapping",
         "Map identified roles to their responsibilities and influence", false, 3),
    Step("step_4", "Value Messaging",
         "Develop and align value propositions for different stakeholders", false, 4),
    Step("step_5", "Summary",
         "Review and summarize the onboarding process and next steps", false, 5)
  ]

  const EmptyStepId: string := "Step ID cannot be empty"

  /** The table holds five steps with distinct ids, none of them empty, and each step's
      `order` is its 1-based position. */
  lemma TableWellFormed()
    ensures |Table| == 5
    ensures forall i, j :: 0 <= i < j < |Table| ==> Table[i].id != Table[j].id
    ensures forall i :: 0 <= i < |Table| ==> Table[i].order == i + 1 && Table[i].id != ""
  {
  }

  /** The key the step lookup compares. */
  function StepId(s: Step): string {
    s.id
  }

  /** The lookup `getStepById` makes: an error for an empty id, otherwise the matching
      step, or None (`{}`) when no step has that id. */
  function LookupStep(stepId: string): (r: Result<Option<Step>>)
    ensures stepId == "" <==> r == Err(EmptyStepId)
    ensures r.Ok? ==> r.value == FirstWith(Table, StepId, stepId)
  {
    if stepId == "" then Err(EmptyStepId) else Ok(FirstWith(Table, StepId, stepId))
  }

  /** Ids are distinct, so every table id finds its own step. */
  lemma LookupFindsEachStep(i: nat)
    requires i < |Table|
    ensures LookupStep(Table[i].id) == Ok(Some(Table[i]))
  {
    TableWellFormed();
  }

  /** The dictionary the step tools write into (the keys they set; other keys are untouched).
      An absent key is None; `step` holds None for the `{}` written when no step matched. */
  class StepState {
    var steps: Option<seq<Step>>
    var step: Option<Option<Step>>
    var timestamp: Option<nat>

    /** An empty dictionary `{}`. */
    constructor ()
      ensures steps.None? && step.None? && timestamp.None?
    {
      steps, step, timestamp := None, None, None;
    }
  }

  /** The `getSteps` tool: writes the selection under `steps` together with a timestamp
      into the given state (a fresh `{}` when none is given) and returns that state and the
      selection; a negative count raises before anything is written.
      In the source the tool returns the pair `(state, result)` while the graph nodes that
      call it expect the list itself (or a `{"result": ...}` dict); the model keeps the
      pair, and the graph models use the selection. */
  method GetSteps(count: Option<int>, state: StepState?, now: nat) returns (r: Result<seq<Step>>, st: StepState)
    modifies state
    ensures state != null ==> st == state
    ensures state == null ==> fresh(st)
    ensures r == SelectCount(Table, count)
    ensures r.Ok? ==> st.steps == Some(r.value) && st.timestamp == Some(now)
    ensures r.Ok? ==> st.step == if state == null then None else old(state.step)
    ensures r.Err? && state != null ==> unchanged(state)
  {
    if state == null {
      st := new StepState();
    } else {
      st := state;
    }
    r := SelectCount(Table, count);
    if r.Ok? {
      st.steps := Some(r.value);
      st.timestamp := Some(now);
    }
  }

  /** The `getStepById` tool: writes the lookup result under `step` with a timestamp and
      returns the state and the result; an empty id raises before anything is written. */
  method GetStepById(stepId: string, state: StepState?, now: nat) returns (r: Result<Option<Step>>, st: StepState)
    modifies state
    ensures state != null ==> st == state
    ensures state == null ==> fresh(st)
    ensures r == LookupStep(stepId)
    ensures r.Ok? ==> st.step == Some(r.value) && st.timestamp == Some(now)
    ensures r.Ok? ==> st.steps == if state == null then None else old(state.steps)
    ensures r.Err? && state != null ==> unchanged(state)
  {
    if state == null {
      st := new StepState();
    } else {
      st := state;
    }
    r := LookupStep(stepId);
    if r.Ok? {
      st.step := Some(r.value);
      st.timestamp := Some(now);
    }
  }
}
