/** The task sub-agent: a plan, estimate and status pipeline over a task record, with one
    model call per step. The record is an object whose fields the estimate step updates in
    place; `TaskValue` is a snapshot of those fields. */
module TaskPipeline {
  import opened Wrappers
  import opened Llm

  const Planned: string := "planned"
  const Estimated: string := "estimated"

  /** A snapshot of a task record. Times are natural numbers; `None` marks a key the
      record does not have yet. */
  datatype TaskValue = TaskValue(task: string, plan: string, createdAt: nat, status: string,
                                 estimates: Option<string>, estimatedAt: Option<nat>,
                                 statusReport: Option<string>, reportedAt: Option<nat>)

  /** The record `plan_task` builds from the description and the model's plan. */
  function PlanOf(description: string, plan: string, now: nat): TaskValue {
    TaskValue(description, plan, now, Planned, None, None, None, None)
  }

  /** The record after `estimate_task`'s update. */
  function EstimateOf(t: TaskValue, estimates: string, now: nat): TaskValue {
    t.(estimates := Some(estimates), estimatedAt := Some(now), status := Estimated)
  }

  /** The record `get_status` returns: every field of its input plus the report. */
  function StatusOf(t: TaskValue, report: string, now: nat): TaskValue {
    t.(statusReport := Some(report), reportedAt := Some(now))
  }

  /** What `execute_task` yields for the answers the model gives, in order: the first failing
      call's error, or the record after all three steps. */
  function ExecuteOutcome(script: seq<ModelOutcome>, description: string, now: nat): Result<TaskValue> {
    match NextOutcome(script)
    case Unavailable(e) => Err(e)
    case Responded(plan) =>
      var s1 := RestOfScript(script);
      match NextOutcome(s1)
      case Unavailable(e) => Err(e)
      case Responded(est) =>
        match NextOutcome(RestOfScript(s1))
        case Unavailable(e) => Err(e)
        case Responded(rep) =>
          Ok(StatusOf(EstimateOf(PlanOf(description, plan.content, now), est.content, now), rep.content, now))
  }

  /** How many model calls `execute_task` makes: it stops at the first failure. */
  function ExecuteCalls(script: seq<ModelOutcome>): nat {
    if NextOutcome(script).Unavailable? then 1
    else if NextOutcome(RestOfScript(script)).Unavailable? then 2
    else 3
  }

  /** The script left after `n` calls. */
  function ScriptAfter(script: seq<ModelOutcome>, n: nat): seq<ModelOutcome> {
    if n == 0 then script else ScriptAfter(RestOfScript(script), n - 1)
  }

  /** A fresh plan is "planned", holds the description and has no estimate or report. */
  lemma PlanOfFacts(description: string, plan: string, now: nat)
    ensures var t := PlanOf(description, plan, now);
      t.task == description && t.plan == plan && t.status == Planned
      && t.estimates.None? && t.statusReport.None?
  {
  }

  /** The estimate moves the status from "planned" to "estimated" and keeps the task, plan
      and creation time. */
  lemma EstimateOfFacts(t: TaskValue, estimates: string, now: nat)
    ensures var t' := EstimateOf(t, estimates, now);
      t'.status == Estimated && t'.estimates == Some(estimates) && t'.estimatedAt == Some(now)
      && t'.task == t.task && t'.plan == t.plan && t'.createdAt == t.createdAt
      && t'.statusReport == t.statusReport && t'.reportedAt == t.reportedAt
  {
  }

  /** The status report keeps every field of its input, the status among them. */
  lemma StatusOfKeeps(t: TaskValue, report: string, now: nat)
    ensures var t' := StatusOf(t, report, now);
      t'.(statusReport := t.statusReport, reportedAt := t.reportedAt) == t
      && t'.status == t.status && t'.statusReport == Some(report)
  {
  }

  /** A successful run made three calls and yields an "estimated" record for the
      description, holding the plan, the estimates and the report from the three answers in
      that order. */
  lemma ExecuteOutcomeFacts(script: seq<ModelOutcome>, description: string, now: nat)
    requires ExecuteOutcome(script, description, now).Ok?
    ensures ExecuteCalls(script) == 3 && |script| >= 3
    ensures var t := ExecuteOutcome(script, description, now).value;
      && t.task == description && t.status == Estimated
      && t.plan == script[0].reply.content
      && t.estimates == Some(script[1].reply.content)
      && t.statusReport == Some(script[2].reply.content)
  {
  }

  /** A task record; the methods below update its fields in place. */
  class TaskRecord {
    var task: string
    var plan: string
    var createdAt: nat
    var status: string
    var estimates: Option<string>
    var estimatedAt: Option<nat>
    var statusReport: Option<string>
    var reportedAt: Option<nat>

    function Value(): TaskValue
      reads this
    {
      TaskValue(task, plan, createdAt, status, estimates, estimatedAt, statusReport, reportedAt)
    }

    constructor (v: TaskValue)
      ensures Value() == v
    {
      task, plan, createdAt, status := v.task, v.plan, v.createdAt, v.status;
      estimates, estimatedAt, statusReport, reportedAt := v.estimates, v.estimatedAt, v.statusReport, v.reportedAt;
    }
  }

  class TaskAgent {
    const chat: ChatModel

    constructor (chat: ChatModel)
      ensures this.chat == chat
    {
      this.chat := chat;
    }

    /** `plan_task`: one model call; a fresh record from the description and the answer. */
    method PlanTask(description: string, now: nat) returns (r: Result<TaskRecord>)
      modifies chat
      ensures chat.calls == old(chat.calls) + 1 && chat.script == RestOfScript(old(chat.script))
      ensures NextOutcome(old(chat.script)).Unavailable? ==> r == Err(NextOutcome(old(chat.script)).error)
      ensures NextOutcome(old(chat.script)).Responded? ==>
        r.Ok? && fresh(r.value) && r.value.Value() == PlanOf(description, NextOutcome(old(chat.script)).reply.content, now)
    {
      var answer := chat.Invoke();
      match answer
      case Unavailable(e) =>
        r := Err(e);
      case Responded(reply) =>
        var t := new TaskRecord(PlanOf(description, reply.content, now));
        r := Ok(t);
    }

    /** `estimate_task`: one model call; on an answer, updates the given record in place and
        returns that same record. */
    method EstimateTask(t: TaskRecord, now: nat) returns (r: Result<TaskRecord>)
      modifies chat, t
      ensures chat.calls == old(chat.calls) + 1 && chat.script == RestOfScript(old(chat.script))
      ensures NextOutcome(old(chat.script)).Unavailable? ==>
        r == Err(NextOutcome(old(chat.script)).error) && t.Value() == old(t.Value())
      ensures NextOutcome(old(chat.script)).Responded? ==>
        r == Ok(t) && t.Value() == EstimateOf(old(t.Value()), NextOutcome(old(chat.script)).reply.content, now)
    {
      var answer := chat.Invoke();
      match answer
      case Unavailable(e) =>
        r := Err(e);
      case Responded(reply) =>
        t.estimates, t.estimatedAt, t.status := Some(reply.content), Some(now), Estimated;
        r := Ok(t);
    }

    /** `get_status`: one model call; a fresh copy of the record with the report added. The
        given record is not changed. */
    method GetStatus(t: TaskRecord, now: nat) returns (r: Result<TaskRecord>)
      modifies chat
      ensures chat.calls == old(chat.calls) + 1 && chat.script == RestOfScript(old(chat.script))
      ensures t.Value() == old(t.Value())
      ensures NextOutcome(old(chat.script)).Unavailable? ==> r == Err(NextOutcome(old(chat.script)).error)
      ensures NextOutcome(old(chat.script)).Responded? ==>
        r.Ok? && fresh(r.value) && r.value.Value() == StatusOf(t.Value(), NextOutcome(old(chat.script)).reply.content, now)
    {
      var answer := chat.Invoke();
      match answer
      case Unavailable(e) =>
        r := Err(e);
      case Responded(reply) =>
        var copy := new TaskRecord(StatusOf(t.Value(), reply.content, now));
        r := Ok(copy);
    }

    /** `execute_task`: plan, estimate and report, once each and in that order; an exception
        from any step ends the pipeline. */
    method ExecuteTask(description: string, now: nat) returns (r: Result<TaskRecord>)
      modifies chat
      ensures chat.calls == old(chat.calls) + ExecuteCalls(old(chat.script))
      ensures chat.script == ScriptAfter(old(chat.script), ExecuteCalls(old(chat.script)))
      ensures r.Ok? <==> ExecuteOutcome(old(chat.script), description, now).Ok?
      ensures r.Ok? ==> fresh(r.value) && r.value.Value() == ExecuteOutcome(old(chat.script), description, now).value
      ensures r.Err? ==> r.error == ExecuteOutcome(old(chat.script), description, now).error
    {
      ghost var s0 := chat.script;
      var planned := PlanTask(description, now);
      assert ScriptAfter(s0, 1) == RestOfScript(s0);
      if planned.Err? {
        return Err(planned.error);
      }
      var estimated := EstimateTask(planned.value, now);
      assert ScriptAfter(s0, 2) == ScriptAfter(RestOfScript(s0), 1) == RestOfScript(RestOfScript(s0));
      if estimated.Err? {
        return Err(estimated.error);
      }
      r := GetStatus(estimated.value, now);
      assert ScriptAfter(s0, 3) == ScriptAfter(RestOfScript(s0), 2)
        == ScriptAfter(RestOfScript(RestOfScript(s0)), 1)
        == RestOfScript(RestOfScript(RestOfScript(s0)));
    }
  }
}
