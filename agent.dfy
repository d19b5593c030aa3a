/** The single-turn agent: keyword detection, the demo login, message formatting, and the
    one-node graph that records a turn in the session store and answers it either through
    the task sub-agent or through the chat model. */
module Agent {
  import opened Wrappers
  import opened Text
  import opened Llm
  import opened SessionStore
  import opened TaskPipeline

  /** The message kinds the agent tells apart; any other kind is `OtherMessage`. */
  datatype ChatMessage =
    | HumanMessage(content: string)
    | AiMessage(content: string)
    | SystemMessage(content: string)
    | OtherMessage(content: string)

  // ---------------------------------------------------------------------------------------
  // Keyword detection

  const TaskKeywords: seq<string> :=
    ["task", "plan", "project", "schedule", "estimate", "breakdown", "steps", "track", "progress", "status"]

  /** Python's `any(k in s for k in keywords)`. */
  function AnyKeywordIn(s: string, keywords: seq<string>): bool {
    if keywords == [] then false else Contains(s, keywords[0]) || AnyKeywordIn(s, keywords[1..])
  }

  /** `is_task_request`: a keyword occurs in the lowercased message. */
  predicate IsTaskRequest(message: string) {
    AnyKeywordIn(Lower(message), TaskKeywords)
  }

  /** The scan finds a keyword exactly when some keyword of the list occurs. */
  lemma {:induction false} AnyKeywordInExists(s: string, keywords: seq<string>)
    ensures AnyKeywordIn(s, keywords) <==> exists k :: 0 <= k < |keywords| && Contains(s, keywords[k])
  {
    if keywords != [] {
      AnyKeywordInExists(s, keywords[1..]);
      if AnyKeywordIn(s, keywords[1..]) {
        var k :| 0 <= k < |keywords[1..]| && Contains(s, keywords[1..][k]);
        assert keywords[1..][k] == keywords[k + 1];
      }
      if exists k :: 0 <= k < |keywords| && Contains(s, keywords[k]) {
        var k :| 0 <= k < |keywords| && Contains(s, keywords[k]);
        if k > 0 {
          assert keywords[1..][k - 1] == keywords[k];
        }
      }
    }
  }

  /** A message is a task request exactly when one of the ten keywords occurs in its
      lowercased form. */
  lemma TaskRequestMeansKeyword(message: string)
    ensures IsTaskRequest(message) <==>
      exists k :: 0 <= k < |TaskKeywords| && Contains(Lower(message), TaskKeywords[k])
  {
    AnyKeywordInExists(Lower(message), TaskKeywords);
  }

  /** The check ignores letter case: the upper-cased and lower-cased message agree with it. */
  lemma TaskRequestIgnoresCase(message: string)
    ensures IsTaskRequest(Upper(message)) == IsTaskRequest(message)
    ensures IsTaskRequest(Lower(message)) == IsTaskRequest(message)
  {
    LowerOfUpper(message);
    LowerIdempotent(message);
  }

  /** Adding text around a task request keeps it one. */
  lemma TaskRequestExtended(message: string, before: string, after: string)
    requires IsTaskRequest(message)
    ensures IsTaskRequest(before + message + after)
  {
    TaskRequestMeansKeyword(message);
    var k :| 0 <= k < |TaskKeywords| && Contains(Lower(message), TaskKeywords[k]);
    LowerAppend(before + message, after);
    LowerAppend(before, message);
    ContainsExtended(Lower(message), TaskKeywords[k], Lower(before), Lower(after));
    TaskRequestMeansKeyword(before + message + after);
  }

  /** No keyword list of non-empty words finds anything in the empty string. */
  lemma {:induction false} NoKeywordInEmpty(keywords: seq<string>)
    requires forall k :: 0 <= k < |keywords| ==> keywords[k] != []
    ensures !AnyKeywordIn([], keywords)
  {
    if keywords != [] {
      NothingInEmpty(keywords[0]);
      NoKeywordInEmpty(keywords[1..]);
    }
  }

  /** The empty message is not a task request. */
  lemma EmptyIsNoTaskRequest()
    ensures !IsTaskRequest("")
  {
    assert Lower("") == [];
    NoKeywordInEmpty(TaskKeywords);
  }

  /** Any message in which one of the keywords occurs as written is a task request. */
  lemma KeywordMakesTaskRequest(before: string, k: nat, after: string)
    requires k < |TaskKeywords|
    ensures IsTaskRequest(before + TaskKeywords[k] + after)
  {
    var w := TaskKeywords[k];
    assert forall i :: 0 <= i < |w| ==> 'a' <= w[i] <= 'z';
    assert Lower(w) == w;
    ContainsSelf(w);
    TaskRequestMeansKeyword(w);
    TaskRequestExtended(w, before, after);
  }

  // ---------------------------------------------------------------------------------------
  // Login

  const InvalidCredentials: string := "Invalid credentials"

  datatype AuthResult =
    | Authenticated(username: string, role: string, timestamp: nat, permissions: seq<string>)
    | Rejected(error: string)

  /** `authenticate_user`: only the demo account is accepted. */
  function Authenticate(username: string, password: string, now: nat): (r: AuthResult)
    ensures r.Authenticated? <==> username == "demo" && password == "password"
    ensures r.Authenticated? ==>
      r.username == username && r.role == "user" && r.timestamp == now && r.permissions == ["basic_access"]
    ensures r.Rejected? ==> r.error == InvalidCredentials
  {
    if username == "demo" && password == "password" then Authenticated(username, "user", now, ["basic_access"])
    else Rejected(InvalidCredentials)
  }

  // ---------------------------------------------------------------------------------------
  // Formatting

  function KindPrefix(m: ChatMessage): string {
    match m
    case HumanMessage(_) => "Human: "
    case AiMessage(_) => "Assistant: "
    case SystemMessage(_) => "System: "
    case OtherMessage(_) => "Unknown: "
  }

  /** `format_message`: a prefix naming the kind, then the content unchanged. */
  function FormatMessage(m: ChatMessage): (r: string)
    ensures r == KindPrefix(m) + m.content
  {
    match m
    case HumanMessage(c) => "Human: " + c
    case AiMessage(c) => "Assistant: " + c
    case SystemMessage(c) => "System: " + c
    case OtherMessage(c) => "Unknown: " + c
  }

  predicate StartsWith(s: string, p: string) {
    |p| <= |s| && s[..|p|] == p
  }

  /** Reads a formatted line back into a message; lines with no known prefix give None. */
  function ParseFormatted(line: string): Option<ChatMessage> {
    if StartsWith(line, "Human: ") then Some(HumanMessage(line[7..]))
    else if StartsWith(line, "Assistant: ") then Some(AiMessage(line[11..]))
    else if StartsWith(line, "System: ") then Some(SystemMessage(line[8..]))
    else if StartsWith(line, "Unknown: ") then Some(OtherMessage(line[9..]))
    else None
  }

  /** Formatting loses nothing: the kind and the content can be read back. */
  lemma FormatRoundTrip(m: ChatMessage)
    ensures ParseFormatted(FormatMessage(m)) == Some(m)
  {
    var r := FormatMessage(m);
    var p := KindPrefix(m);
    assert r[..|p|] == p && r[|p|..] == m.content;
    assert r[0] == p[0];
    match m
    case HumanMessage(_) =>
    case AiMessage(_) =>
      assert !StartsWith(r, "Human: ");
    case SystemMessage(_) =>
      assert !StartsWith(r, "Human: ") && !StartsWith(r, "Assistant: ");
    case OtherMessage(_) =>
      assert !StartsWith(r, "Human: ") && !StartsWith(r, "Assistant: ") && !StartsWith(r, "System: ");
  }

  /** So two messages with the same formatting are the same message. */
  lemma FormatInjective(m1: ChatMessage, m2: ChatMessage)
    requires FormatMessage(m1) == FormatMessage(m2)
    ensures m1 == m2
  {
    FormatRoundTrip(m1);
    FormatRoundTrip(m2);
  }

  // ---------------------------------------------------------------------------------------
  // The agent node

  /** One titled section of the task reply. */
  function Section(title: string, body: string): string {
    "\n" + title + ":\n" + body + "\n"
  }

  /** The reply to a task request, assembled from the task result. */
  function TaskReply(plan: string, estimates: string, report: string): string {
    "Task Analysis:\n" + Section("Plan", plan) + Section("Estimates", estimates) + Section("Status", report)
  }

  lemma ContainsSelf(s: string)
    ensures Contains(s, s)
  {
    assert OccursAt(s, s, 0);
    ContainsAt(s, s, 0);
  }

  /** The middle part of a concatenation occurs in it right after the first part. */
  lemma MiddleOccurs(a: string, b: string, c: string)
    ensures OccursAt(a + b + c, b, |a|)
  {
    assert (a + b + c)[|a|..|a| + |b|] == b;
  }

  /** The task reply has its Plan, Estimates and Status sections, each holding its text. */
  lemma TaskReplySections(plan: string, estimates: string, report: string)
    ensures Contains(TaskReply(plan, estimates, report), Section("Plan", plan))
    ensures Contains(TaskReply(plan, estimates, report), Section("Estimates", estimates))
    ensures Contains(TaskReply(plan, estimates, report), Section("Status", report))
  {
    var r := TaskReply(plan, estimates, report);
    var h, p, e, s := "Task Analysis:\n", Section("Plan", plan), Section("Estimates", estimates), Section("Status", report);
    assert r == h + p + (e + s);
    MiddleOccurs(h, p, e + s);
    ContainsAt(r, p, |h|);
    assert r == (h + p) + e + s;
    MiddleOccurs(h + p, e, s);
    ContainsAt(r, e, |h + p|);
    assert r == (h + p + e) + s + [];
    MiddleOccurs(h + p + e, s, []);
    ContainsAt(r, s, |h + p + e|);
  }

  const Apology: string := "I apologize, but I encountered an error. Please try again."
  /** What `str(e)` gives for indexing an empty list. */
  const IndexOutOfRange: string := "list index out of range"
  const UserRole: string := "user"
  const AssistantRole: string := "assistant"

  datatype Auth = Auth(username: string, timestamp: nat)
  datatype SessionInfo = SessionInfo(sessionId: nat, sessionStart: nat, clientInfo: string)

  /** The graph state of the agent. */
  datatype AgentState = AgentState(messages: seq<ChatMessage>, auth: Auth, sessionMetadata: SessionInfo,
                                   error: Option<string>, taskState: Option<TaskValue>)

  /** What the node returns: the messages to add, the error and the task state. */
  datatype NodeUpdate = NodeUpdate(messages: seq<ChatMessage>, error: Option<string>, taskState: Option<TaskValue>)

  /** The role the incoming message is recorded with. */
  function RoleOf(m: ChatMessage): string {
    if m.HumanMessage? then UserRole else AssistantRole
  }

  /** The update of the `except` branch. */
  function Failure(error: string, taskState: Option<TaskValue>): NodeUpdate {
    NodeUpdate([AiMessage(Apology)], Some(error), taskState)
  }

  /** The turn is answered by the task sub-agent. */
  predicate TaskBranch(m: ChatMessage) {
    m.HumanMessage? && IsTaskRequest(m.content)
  }

  /** The reply text and resulting task state, or the error of the model call. */
  function Answer(last: ChatMessage, taskState: Option<TaskValue>,
                  taskScript: seq<ModelOutcome>, chatScript: seq<ModelOutcome>, now: nat): Result<(string, Option<TaskValue>)> {
    if TaskBranch(last) then
      match ExecuteOutcome(taskScript, last.content, now)
      case Err(e) => Err(e)
      case Ok(t) => Ok((TaskReply(t.plan, t.estimates.GetOr(""), t.statusReport.GetOr("")), Some(t)))
    else
      match NextOutcome(chatScript)
      case Unavailable(e) => Err(e)
      case Responded(reply) => Ok((reply.content, taskState))
  }

  /** `agent_node` on the store: the update it returns and the store it leaves. */
  function AgentTurn(state: AgentState, st: Store, taskScript: seq<ModelOutcome>,
                     chatScript: seq<ModelOutcome>, now: nat): (NodeUpdate, Store) {
    if state.messages == [] then (Failure(IndexOutOfRange, state.taskState), st)
    else
      var last := state.messages[|state.messages| - 1];
      match Appended(st, RoleOf(last), last.content, now)
      case Err(e) => (Failure(e, state.taskState), st)
      case Ok(st1) =>
        match Answer(last, state.taskState, taskScript, chatScript, now)
        case Err(e) => (Failure(e, state.taskState), st1)
        case Ok((content, taskState)) =>
          match Appended(st1, AssistantRole, content, now)
          case Err(e) => (Failure(e, taskState), st1)
          case Ok(st2) => (NodeUpdate([AiMessage(content)], None, taskState), st2)
  }

  /** A successful turn records exactly two messages in the current session, the incoming
      one (as "user" when human, else "assistant") and then the reply as "assistant", and
      returns that reply with no error. */
  lemma AgentTurnSuccess(state: AgentState, st: Store, taskScript: seq<ModelOutcome>,
                         chatScript: seq<ModelOutcome>, now: nat, sid: int)
    requires AgentTurn(state, st, taskScript, chatScript, now).0.error.None?
    ensures state.messages != [] && st.current.Some?
    ensures var (u, st') := AgentTurn(state, st, taskScript, chatScript, now);
      var last := state.messages[|state.messages| - 1];
      && |u.messages| == 1 && u.messages[0].AiMessage?
      && |st'.messages| == |st.messages| + 2
      && st'.current == st.current
      && (sid == st.current.value ==>
            RowsOf(st'.messages, sid) == RowsOf(st.messages, sid)
              + [MessageRow(RoleOf(last), last.content, now), MessageRow(AssistantRole, u.messages[0].content, now)])
      && (sid != st.current.value ==> RowsOf(st'.messages, sid) == RowsOf(st.messages, sid))
  {
    var last := state.messages[|state.messages| - 1];
    var st1 := Appended(st, RoleOf(last), last.content, now).value;
    AppendedRows(st, RoleOf(last), last.content, now, sid);
    var content := Answer(last, state.taskState, taskScript, chatScript, now).value.0;
    AppendedRows(st1, AssistantRole, content, now, sid);
  }

  /** A failed turn never raises: it returns the apology with the error text and the task
      state it was given, and records at most the incoming message. */
  lemma AgentTurnFailure(state: AgentState, st: Store, taskScript: seq<ModelOutcome>,
                         chatScript: seq<ModelOutcome>, now: nat)
    requires AgentTurn(state, st, taskScript, chatScript, now).0.error.Some?
    ensures var (u, st') := AgentTurn(state, st, taskScript, chatScript, now);
      && u.messages == [AiMessage(Apology)]
      && u.taskState == state.taskState
      && (state.messages == [] ==> u.error == Some(IndexOutOfRange) && st' == st)
      && (state.messages != [] && st.current.None? ==> u.error == Some(NoActiveSession) && st' == st)
      && (state.messages != [] && st.current.Some? ==>
            var last := state.messages[|state.messages| - 1];
            st' == Appended(st, RoleOf(last), last.content, now).value)
  {
  }

  /** The task state changes only on a human task request whose task sub-agent run
      succeeded, and then holds the "estimated" record for that request; when the turn
      succeeds the reply carries its Plan section. */
  lemma AgentTurnTask(state: AgentState, st: Store, taskScript: seq<ModelOutcome>,
                      chatScript: seq<ModelOutcome>, now: nat)
    requires AgentTurn(state, st, taskScript, chatScript, now).0.taskState != state.taskState
    ensures state.messages != [] && TaskBranch(state.messages[|state.messages| - 1])
    ensures var (u, _) := AgentTurn(state, st, taskScript, chatScript, now);
      var last := state.messages[|state.messages| - 1];
      && u.taskState == Some(ExecuteOutcome(taskScript, last.content, now).value)
      && u.taskState.value.status == Estimated && u.taskState.value.task == last.content
      && (u.error.None? ==>
            Contains(u.messages[0].content, Section("Plan", u.taskState.value.plan)))
  {
    var last := state.messages[|state.messages| - 1];
    var t := ExecuteOutcome(taskScript, last.content, now).value;
    ExecuteOutcomeFacts(taskScript, last.content, now);
    TaskReplySections(t.plan, t.estimates.GetOr(""), t.statusReport.GetOr(""));
  }

  /** A successful turn on a human task request answers with the task sub-agent's record:
      the task state becomes that record and the one reply is the task reply built from
      its plan, estimates and status report, each in its own section. */
  lemma AgentTurnTaskReply(state: AgentState, st: Store, taskScript: seq<ModelOutcome>,
                           chatScript: seq<ModelOutcome>, now: nat)
    requires state.messages != [] && TaskBranch(state.messages[|state.messages| - 1])
    requires AgentTurn(state, st, taskScript, chatScript, now).0.error.None?
    ensures var last := state.messages[|state.messages| - 1];
      ExecuteOutcome(taskScript, last.content, now).Ok?
    ensures var (u, _) := AgentTurn(state, st, taskScript, chatScript, now);
      var last := state.messages[|state.messages| - 1];
      var t := ExecuteOutcome(taskScript, last.content, now).value;
      && t.task == last.content && t.status == Estimated
      && u.taskState == Some(t)
      && u.messages == [AiMessage(TaskReply(t.plan, t.estimates.GetOr(""), t.statusReport.GetOr("")))]
      && Contains(u.messages[0].content, Section("Plan", t.plan))
      && Contains(u.messages[0].content, Section("Estimates", t.estimates.GetOr("")))
      && Contains(u.messages[0].content, Section("Status", t.statusReport.GetOr("")))
  {
    var last := state.messages[|state.messages| - 1];
    var t := ExecuteOutcome(taskScript, last.content, now).value;
    ExecuteOutcomeFacts(taskScript, last.content, now);
    TaskReplySections(t.plan, t.estimates.GetOr(""), t.statusReport.GetOr(""));
  }

  /** A turn keeps the store's invariant. */
  lemma AgentTurnConsistent(state: AgentState, st: Store, taskScript: seq<ModelOutcome>,
                            chatScript: seq<ModelOutcome>, now: nat)
    requires Consistent(st) && st.clock <= now
    ensures Consistent(AgentTurn(state, st, taskScript, chatScript, now).1)
    ensures AgentTurn(state, st, taskScript, chatScript, now).1.clock <= now
  {
    if state.messages != [] && st.current.Some? {
      var last := state.messages[|state.messages| - 1];
      AppendedConsistent(st, RoleOf(last), last.content, now);
      var st1 := Appended(st, RoleOf(last), last.content, now).value;
      match Answer(last, state.taskState, taskScript, chatScript, now)
      case Err(_) =>
      case Ok((content, _)) =>
        AppendedConsistent(st1, AssistantRole, content, now);
    }
  }

  /** `agent_node`. The chat model of the task sub-agent and the agent's own chat model
      are distinct objects. */
  method AgentNode(state: AgentState, store: StateManager, tasks: TaskAgent, chat: ChatModel, now: nat)
    returns (u: NodeUpdate)
    requires store.Valid() && store.clock <= now
    requires tasks.chat != chat
    modifies store, tasks.chat, chat
    ensures store.Valid()
    ensures (u, store.Model()) == AgentTurn(state, old(store.Model()), old(tasks.chat.script), old(chat.script), now)
    ensures var asks := state.messages != [] && old(store.currentSessionId).Some?;
      && tasks.chat.calls == old(tasks.chat.calls)
           + (if asks && TaskBranch(state.messages[|state.messages| - 1]) then ExecuteCalls(old(tasks.chat.script)) else 0)
      && chat.calls == old(chat.calls)
           + (if asks && !TaskBranch(state.messages[|state.messages| - 1]) then 1 else 0)
  {
    AgentTurnConsistent(state, store.Model(), tasks.chat.script, chat.script, now);
    if state.messages == [] {
      return Failure(IndexOutOfRange, state.taskState);
    }
    var last := state.messages[|state.messages| - 1];
    var recorded := store.AddMessage(RoleOf(last), last.content, now);
    if recorded.Fail? {
      return Failure(recorded.error, state.taskState);
    }
    var content: string;
    var taskState := state.taskState;
    if TaskBranch(last) {
      var result := tasks.ExecuteTask(last.content, now);
      if result.Err? {
        return Failure(result.error, state.taskState);
      }
      var t := result.value;
      content := TaskReply(t.plan, t.estimates.GetOr(""), t.statusReport.GetOr(""));
      taskState := Some(t.Value());
    } else {
      var answer := chat.Invoke();
      if answer.Unavailable? {
        return Failure(answer.error, state.taskState);
      }
      content := answer.reply.content;
    }
    var replied := store.AddMessage(AssistantRole, content, now);
    if replied.Fail? {
      // The session that took the incoming message is still current.
      assert false;
    }
    u := NodeUpdate([AiMessage(content)], None, taskState);
  }

  // ---------------------------------------------------------------------------------------
  // A whole run

  /** The metadata `run_agent` starts its session with. */
  function RunMetadata(now: nat): Metadata {
    map["client_info" := MetaValue.Text("web"), "start_time" := Time(now)]
  }

  /** The graph's result: the initial state with the node's update merged in (its messages
      added after the initial one; `auth` and `session_metadata` as they were). */
  datatype RunResult = RunResult(messages: seq<ChatMessage>, auth: Auth, sessionMetadata: SessionInfo,
                                 error: Option<string>, taskState: Option<TaskValue>)

  /** `run_agent` on the store: start a session, run the agent node on the initial state
      holding the one human message, and end the session only if the result's error is set. */
  function RunTurn(st: Store, username: string, message: string, taskScript: seq<ModelOutcome>,
                   chatScript: seq<ModelOutcome>, now: nat): (RunResult, Store) {
    var (st1, id) := Started(st, username, Some(RunMetadata(now)), now);
    var initial := AgentState([HumanMessage(message)], Auth(username, now), SessionInfo(id, now, "web"), None, None);
    var (u, st2) := AgentTurn(initial, st1, taskScript, chatScript, now);
    var result := RunResult(initial.messages + u.messages, initial.auth, initial.sessionMetadata, u.error, u.taskState);
    (result, if Truthy(u.error) then Ended(st2, now) else st2)
  }

  /** The store after a run's agent node: a new session for the user, still open and
      current, whose first row is the incoming message. */
  lemma RunTurnBeforeEnd(st: Store, username: string, message: string, taskScript: seq<ModelOutcome>,
                         chatScript: seq<ModelOutcome>, now: nat)
    requires Consistent(st) && st.clock <= now
    ensures var (st1, id) := Started(st, username, Some(RunMetadata(now)), now);
      var initial := AgentState([HumanMessage(message)], Auth(username, now), SessionInfo(id, now, "web"), None, None);
      var (u, st2) := AgentTurn(initial, st1, taskScript, chatScript, now);
      && id == |st.sessions| + 1
      && Consistent(st2) && st2.clock <= now
      && |st2.sessions| == id && st2.sessions[id - 1].username == username
      && st2.current == Some(id) && st2.sessions[id - 1].end.None?
      && |u.messages| == 1
      && RowsOf(st2.messages, id)[..1] == [MessageRow(UserRole, message, now)]
  {
    var (st1, id) := Started(st, username, Some(RunMetadata(now)), now);
    StartedConsistent(st, username, Some(RunMetadata(now)), now);
    StartedSession(st, username, Some(RunMetadata(now)), now);
    var initial := AgentState([HumanMessage(message)], Auth(username, now), SessionInfo(id, now, "web"), None, None);
    AgentTurnConsistent(initial, st1, taskScript, chatScript, now);
    AppendedRows(st1, UserRole, message, now, id);
    StartedEmpty(st, username, Some(RunMetadata(now)), now);
    var (u, st2) := AgentTurn(initial, st1, taskScript, chatScript, now);
    if u.error.None? {
      AgentTurnSuccess(initial, st1, taskScript, chatScript, now, id);
    } else {
      AgentTurnFailure(initial, st1, taskScript, chatScript, now);
    }
  }

  /** The session protocol of a run: a new session is started for the user; it is left
      open (and current) exactly when the result carries no truthy error, and ended
      otherwise. The only errors are those of the model calls, so the incoming message is
      always recorded and the result always holds the human message and one answer. */
  lemma RunTurnProtocol(st: Store, username: string, message: string, taskScript: seq<ModelOutcome>,
                        chatScript: seq<ModelOutcome>, now: nat)
    requires Consistent(st) && st.clock <= now
    ensures var (r, st') := RunTurn(st, username, message, taskScript, chatScript, now);
      var id := |st.sessions| + 1;
      && Consistent(st')
      && |st'.sessions| == id && st'.sessions[id - 1].username == username
      && (Truthy(r.error) ==> st'.current.None? && st'.sessions[id - 1].end == Some(now))
      && (!Truthy(r.error) ==> st'.current == Some(id) && st'.sessions[id - 1].end.None?)
      && |r.messages| == 2 && r.messages[0] == HumanMessage(message)
      && r.auth == Auth(username, now) && r.sessionMetadata == SessionInfo(id, now, "web")
      && RowsOf(st'.messages, id)[..1] == [MessageRow(UserRole, message, now)]
  {
    var (st1, id) := Started(st, username, Some(RunMetadata(now)), now);
    var initial := AgentState([HumanMessage(message)], Auth(username, now), SessionInfo(id, now, "web"), None, None);
    var (u, st2) := AgentTurn(initial, st1, taskScript, chatScript, now);
    RunTurnBeforeEnd(st, username, message, taskScript, chatScript, now);
    if Truthy(u.error) {
      EndedConsistent(st2, now);
    }
  }

  /** `run_agent`. The password is not checked (the login is not part of a run), and the
      `except` branch cannot be reached: starting a session cannot fail here and the agent
      node catches every error. */
  method RunAgent(username: string, password: string, message: string, store: StateManager,
                  tasks: TaskAgent, chat: ChatModel, now: nat)
    returns (r: RunResult)
    requires store.Valid() && store.clock <= now
    requires tasks.chat != chat
    modifies store, tasks.chat, chat
    ensures store.Valid()
    ensures (r, store.Model()) == RunTurn(old(store.Model()), username, message, old(tasks.chat.script), old(chat.script), now)
  {
    var id := store.StartSession(username, Some(RunMetadata(now)), now);
    var initial := AgentState([HumanMessage(message)], Auth(username, now), SessionInfo(id, now, "web"), None, None);
    var u := AgentNode(initial, store, tasks, chat, now);
    r := RunResult(initial.messages + u.messages, initial.auth, initial.sessionMetadata, u.error, u.taskState);
    if Truthy(u.error) {
      store.EndSession(now);
    }
  }
}
