# Onboarding and task agents: a Dafny model

This project models the deterministic core of a small collection of LLM agents. The agents are:

- **the session store** (`langgraph_agent/db.py`): user profiles, sessions, their messages
  and the current session id. It is a `Store` value with one transition function per
  operation, plus a class `StateManager` that holds the same data in fields and performs
  each operation in place.
- **the chat agent** (`langgraph_agent/agent.py`): keyword detection of task requests,
  the demo login, message formatting, the single `agent_node` turn and the `run_agent`
  session protocol around it.
- **the task sub-agent** (`langgraph_agent/sub_agents/task_agent.py`): plan, estimate and
  status steps, each a single model call, on a mutable task record.
- **the step and question tools** (`onboarding-langraph/tools/steps.py`, `questions.py`):
  fixed tables, count-limited selection, lookup by id, and their writes into a state record.
- **the SOQL query builder** (`onboarding/query_builder.py`): object detection by
  `FROM` clause, mock rows, assembly of the final envelope and the `execute` check.
- **the onboarding graph** (`onboarding/graph.py`): an orchestrator. It routes on the first
  tool call of the model's answer or falls back on the state, and three worker nodes
  each return to it.
- **the question-answering graph** (`onboarding-langraph/graph.py`): a model node that
  routes on any query call, a tool node dispatching through `tools_by_name`, and a
  query-builder node.

The language model is an oracle (`Llm.ChatModel`). It replays a script of outcomes, one per
call, and counts its calls. Each caller is specified by how many calls it makes and by
which answer it receives. Clock readings are a `now: nat` argument, and the session store
requires them never to decrease.

The model follows the code where the code and its design notes disagree:

- No routing error exists: unknown tool names fall back to state-based routing or fail
  the tool lookup.
- No visit cap exists. The whole-graph runs take a `fuel` bound instead.
- The onboarding orchestrator looks only at the first tool call. The question-answering
  model node looks for a query call at any position.

Where the code cannot run as written, the model takes the evident intent:

- tools return `(state, result)` pairs;
- attribute writes go to plain dicts and pydantic records;
- the onboarding graph's worker nodes call the tools as plain functions. The source awaits
  the decorated tool objects directly (`await getSteps(state=state)` at
  `onboarding/graph.py:158`);
- the onboarding graph follows only the `Command(goto=...)` target of each node. The static
  edges added at `onboarding/graph.py:68-71` are not modelled. In LangGraph they still fire
  beside the `Command` target, so as written `steps_node` runs after every orchestrator
  visit (even one that returns `goto="__end__"`), `questions_node` after `steps_node`,
  and `query_node` after `questions_node`;
- the worker nodes store the list of steps or questions. As written, the tools return a
  `(state, result)` pair (`onboarding-langraph/tools/steps.py:85`, `questions.py:123`),
  which fails the `isinstance(result, dict) and "result" in result` test at
  `onboarding/graph.py:159-162` and `181-184`. So the whole pair is stored, and
  `state.steps[0]["id"]` at `onboarding/graph.py:166` fails. `steps.py:80` also writes
  `state["steps"]` by key into the pydantic `OnboardingState`, which has no item
  assignment;
- writes to fields that `OnboardingState` (`onboarding/state.py:11-16`) does not declare
  are taken to succeed. pydantic rejects them: `state.generated_query` at `onboarding/query_builder.py:89`
  raises, so as written every `buildQuery` inside `query_node` fails, and so does the
  `state.timestamp` write of the question tools.

One such defect, the tool-list dispatch, is recorded under Findings with both readings
modelled.

## Model

| member | source | states |
|---|---|---|
| Seqs.Prefix | langgraph_agent/db.py:159-165 | `LIMIT n` keeps the first min(n, length) elements, in order |
| Seqs.SelectCount | onboarding-langraph/tools/steps.py:74-79 | the count selection of `getSteps` and of `getQuestions` (`questions.py:65-70`): no count gives the whole table, a negative count the "Count cannot be negative" error, any other count the table prefix of length min(count, table size) |
| Seqs.FirstWith | onboarding-langraph/tools/steps.py:123 | the `next(...)` lookup by id of `getStepById` and of `getQuestionById` (`questions.py:160`): none exactly when no entry has the id; otherwise an entry with that id, preceded by none with it |
| Seqs.Reverse | langgraph_agent/db.py:159-165 | reversal keeps the length |
| Seqs.ReverseAt | langgraph_agent/db.py:159-165 | element k of the reversal is element length-1-k of the input |
| Text.ContainsAt | langgraph_agent/agent.py:96 | an occurrence at some index makes the substring test true |
| Text.ContainsExtended | langgraph_agent/agent.py:96 | a substring stays a substring when text is added on either side |
| Text.NothingInEmpty | langgraph_agent/agent.py:96 | a non-empty string never occurs in the empty string |
| Text.LowerChar | langgraph_agent/agent.py:95 | ASCII capitals map to small letters, every other character is kept |
| Text.UpperChar | langgraph_agent/agent.py:89-96 | not called by the source: the raising counterpart of `lower()`, used to state that the keyword test ignores case; ASCII small letters map to capitals, every other character is kept |
| Text.Lower | langgraph_agent/agent.py:95 | `lower()` keeps the length and lowers each character in place |
| Text.Upper | langgraph_agent/agent.py:89-96 | not called by the source: the device for stating that the keyword test ignores case; raising keeps the length and raises each character in place |
| Text.LowerAppend | langgraph_agent/agent.py:95 | lowering distributes over concatenation |
| Text.LowerOfUpper | langgraph_agent/agent.py:89-96 | lowering after raising is the same as lowering |
| Text.LowerIdempotent | langgraph_agent/agent.py:95 | lowering twice is lowering once |
| Text.TrimStartFacts | onboarding/query_builder.py:86 | the left trim is a suffix of the input, removes only white space, and starts with a non-space |
| Text.TrimEndFacts | onboarding/query_builder.py:86 | the right trim is a prefix of the input, removes only white space, and ends with a non-space |
| Text.StripSlice | onboarding/query_builder.py:86 | `strip()` is a contiguous slice of the input with only white space cut on both sides, and non-empty results have no white space at either end |
| Text.StripIdempotent | onboarding/query_builder.py:86 | stripping twice is stripping once |
| Llm.RestOfScript | langgraph_agent/sub_agents/task_agent.py:50 | a model call uses up exactly one scripted answer when there is one |
| Llm.ChatModel.constructor | langgraph_agent/sub_agents/task_agent.py:50 | a fresh model holds the given script and has made no calls |
| Llm.ChatModel.Invoke | langgraph_agent/sub_agents/task_agent.py:50 | one call returns the next scripted answer (or unavailability once it is used up), consumes it and counts one call |
| Steps.TableWellFormed | onboarding-langraph/tools/steps.py:9-45 | five steps with distinct non-empty ids, each with `order` equal to its 1-based position |
| Steps.LookupStep | onboarding-langraph/tools/steps.py:120-123 | an empty id, and only it, gives "Step ID cannot be empty"; otherwise the first match or nothing (`{}`) |
| Steps.LookupFindsEachStep | onboarding-langraph/tools/steps.py:123 | every step of the table is found by its own id |
| Steps.StepState.constructor | onboarding-langraph/tools/steps.py:66-67 | a new state dict holds no steps, step or timestamp |
| Steps.GetSteps | onboarding-langraph/tools/steps.py:57-89 | returns the selection; on success writes it and the time to the given (or a new) state and keeps `step`; on error the state is untouched |
| Steps.GetStepById | onboarding-langraph/tools/steps.py:101-135 | returns the lookup; on success writes it under `step` with the time and keeps `steps`; on error the state is untouched |
| Questions.TableWellFormed | onboarding-langraph/tools/questions.py:10-36 | question ids are distinct and non-empty; question_1 belongs to step_1, question_2 to step_2, and every question's step exists |
| Questions.ForStep | onboarding-langraph/tools/questions.py:114 | the comprehension keeps exactly the questions of the step (no more, no fewer, by membership), possibly none; a list all of one step is kept whole |
| Questions.ForStepOne | onboarding-langraph/tools/questions.py:114 | on one question the comprehension keeps it exactly when its step id matches |
| Questions.ForStepAppend | onboarding-langraph/tools/questions.py:114 | the comprehension distributes over concatenation, so every question of the step is kept as often as it occurs and in its order |
| Questions.QuestionsByStep | onboarding-langraph/tools/questions.py:111-114 | an empty step id, and only it, raises "Step ID cannot be empty"; otherwise the step's questions |
| Questions.LookupQuestion | onboarding-langraph/tools/questions.py:157-160 | an empty id, and only it, raises; otherwise the first match or nothing |
| Questions.LookupFindsEachQuestion | onboarding-langraph/tools/questions.py:160 | every question of the table is found by its own id |
| Questions.QuestionState.constructor | onboarding-langraph/tools/questions.py:149-150 | a new state holds no questions, question or timestamp |
| Questions.GetQuestions | onboarding-langraph/tools/questions.py:48-80 | returns the selection; on success writes `questions` and the time and keeps `question`; on error the state is untouched |
| Questions.GetQuestionsByStep | onboarding-langraph/tools/questions.py:92-126 | returns the step's questions; on success writes `questions` and the time and keeps `question`; on error the state is untouched |
| Questions.GetQuestionById | onboarding-langraph/tools/questions.py:138-172 | returns the lookup; on success writes `question` (not `questions`) and the time; on error the state is untouched |
| QueryBuilder.DetectObject | onboarding/query_builder.py:210-217 | the detected object's `FROM` clause occurs in the query and no earlier-checked clause does; nothing is detected exactly when no clause occurs |
| QueryBuilder.DetectionSurvivesAppending | onboarding/query_builder.py:210-217 | text appended to a query with a detected object keeps an object detected, of the same or an earlier-checked kind |
| QueryBuilder.MockRowsWellFormed | onboarding/query_builder.py:143-208 | every object has two mock rows, each with an `Id` field |
| QueryBuilder.QueryData | onboarding/query_builder.py:210-226 | the envelope echoes the query and the time; results are empty exactly when no object is detected, and otherwise are that object's mock rows, each with an `Id` |
| QueryBuilder.BuiltQuery | onboarding/query_builder.py:86-100 | the final envelope carries the stripped model text and the mock rows for it |
| QueryBuilder.Checked | onboarding/query_builder.py:267-268 | an envelope passes exactly when its query and results are both non-empty, and is then returned unchanged; otherwise the fixed "Missing query or results" error |
| QueryBuilder.ExecuteSuccess | onboarding/query_builder.py:248-270 | a successful execute has a non-empty stripped query naming a detected object's `FROM` clause, and returns that object's rows |
| QueryBuilder.ExecuteRejectsUnknownObject | onboarding/query_builder.py:210-268 | a model answer naming no known object is rejected by the check |
| QueryBuilder.QueryState.constructor | onboarding/query_builder.py:54-55 | a new state holds no generated query, query results or final results |
| QueryBuilder.GetQueryData | onboarding/query_builder.py:122-231 | returns the mock envelope for the query, stores it as `query_results` of the given or a new state, and leaves the other fields alone |
| QueryBuilder.RecordAnswer | onboarding/query_builder.py:86-103 | after a model answer: the stripped text is stored as the generated query, its data as `query_results`, and the returned envelope as `final_results` |
| QueryBuilder.BuildQuery | onboarding/query_builder.py:42-110 | one model call; an unavailable model raises with the state untouched; an answer yields the built envelope and the three stored fields |
| QueryBuilder.Execute | onboarding/query_builder.py:248-274 | one model call; the result is the checked built envelope; an unavailable model leaves the state untouched; an answered call leaves `generated_query`, `query_results` and `final_results` set, whether or not the check passes |
| TaskPipeline.PlanOfFacts | langgraph_agent/sub_agents/task_agent.py:52-57 | a plan record holds the description as task, the model text as plan, status "planned", and no estimate or report |
| TaskPipeline.EstimateOfFacts | langgraph_agent/sub_agents/task_agent.py:78-84 | estimating adds the estimates and their time, sets status "estimated", and changes no other field |
| TaskPipeline.StatusOfKeeps | langgraph_agent/sub_agents/task_agent.py:107-111 | the status record holds every input field unchanged, `status` included, plus the report |
| TaskPipeline.ExecuteOutcomeFacts | langgraph_agent/sub_agents/task_agent.py:122-131 | a successful run took three model calls, in order plan, estimate, status, and ends "estimated" with the description as task and the three answers stored |
| TaskPipeline.TaskRecord.constructor | langgraph_agent/sub_agents/task_agent.py:52-57 | a new record holds the given value |
| TaskPipeline.TaskAgent.constructor | langgraph_agent/sub_agents/task_agent.py:50 | the agent uses the given chat model |
| TaskPipeline.TaskAgent.PlanTask | langgraph_agent/sub_agents/task_agent.py:36-57 | one model call; an answer gives a fresh plan record, unavailability the model's error |
| TaskPipeline.TaskAgent.EstimateTask | langgraph_agent/sub_agents/task_agent.py:59-84 | one model call; an answer updates the given record in place and returns that same record |
| TaskPipeline.TaskAgent.GetStatus | langgraph_agent/sub_agents/task_agent.py:86-111 | one model call; the input record is unchanged and an answer gives a fresh record with the report |
| TaskPipeline.TaskAgent.ExecuteTask | langgraph_agent/sub_agents/task_agent.py:113-131 | runs plan, estimate and status in order, consuming one answer per step that runs; succeeds exactly when all three answers come |
| Agent.AnyKeywordInExists | langgraph_agent/agent.py:96 | `any(...)` is true exactly when some keyword occurs in the text |
| Agent.TaskRequestMeansKeyword | langgraph_agent/agent.py:89-96 | a message is a task request exactly when one of the ten keywords occurs in its lowercased text |
| Agent.TaskRequestIgnoresCase | langgraph_agent/agent.py:95-96 | upper- or lower-casing a message does not change whether it is a task request (with ASCII case mapping; see Left out) |
| Agent.TaskRequestExtended | langgraph_agent/agent.py:96 | adding text on either side of a task request keeps it one |
| Agent.NoKeywordInEmpty | langgraph_agent/agent.py:96 | no non-empty keyword occurs in the empty text |
| Agent.EmptyIsNoTaskRequest | langgraph_agent/agent.py:89-96 | the empty message is not a task request |
| Agent.KeywordMakesTaskRequest | langgraph_agent/agent.py:91-96 | any text containing one of the keywords verbatim is a task request |
| Agent.Authenticate | langgraph_agent/agent.py:65-87 | success exactly for demo/password, with user role, the time and basic access; every other pair gets "Invalid credentials" |
| Agent.FormatMessage | langgraph_agent/agent.py:265-280 | the line is the kind's prefix followed by the unchanged content |
| Agent.FormatRoundTrip | langgraph_agent/agent.py:274-280 | both the message kind and the content can be read back from the formatted line |
| Agent.FormatInjective | langgraph_agent/agent.py:274-280 | distinct messages format to distinct lines |
| Agent.TaskReplySections | langgraph_agent/agent.py:123-133 | the task reply contains the Plan, Estimates and Status sections with their texts |
| Agent.AgentTurnSuccess | langgraph_agent/agent.py:109-177 | a turn without error records exactly two messages of the current session: the incoming one (user role if human) then the reply as assistant; no other session changes and it returns one AI message |
| Agent.AgentTurnFailure | langgraph_agent/agent.py:107-184 | a failing turn returns the fixed apology and the old task state; no messages gives the index error, no session "No active session", both with the store unchanged; a later failure keeps only the first write |
| Agent.AgentTurnTask | langgraph_agent/agent.py:118-138 | the task state changes only for a human task request, becomes the task result ("estimated", with the message as task), and a successful reply then contains its plan section |
| Agent.AgentTurnTaskReply | langgraph_agent/agent.py:118-138 | a successful turn on a human task request sets the task state to the sub-agent's "estimated" record for the message and replies with the task reply, which holds its Plan, Estimates and Status sections |
| Agent.AgentTurnConsistent | langgraph_agent/agent.py:98-184 | a turn keeps the store invariant and the clock |
| Agent.AgentNode | langgraph_agent/agent.py:98-184 | the node's update and new store are the turn function's; the task agent is used only for task requests and the chat model once otherwise |
| Agent.RunTurnBeforeEnd | langgraph_agent/agent.py:210-236 | after the session start and one turn: the store is consistent, the new session is current, open, and belongs to the user, and its first row is the user's message |
| Agent.RunTurnProtocol | langgraph_agent/agent.py:206-242 | a run opens one session for the user, ends it exactly when the result carries an error, and otherwise leaves it current; the result holds the question and one answer, with the run's `auth` and `session_metadata` unchanged |
| Agent.RunAgent | langgraph_agent/agent.py:206-251 | the result and the new store are the run function's, and the store invariant is kept |
| SessionStore.UserSessionsAppend | langgraph_agent/db.py:159-165 | a new session joins its user's list at the end and no other user's |
| SessionStore.UserSessionsNone | langgraph_agent/db.py:159-165 | a user with no sessions has an empty list |
| SessionStore.UserSessionsUpdate | langgraph_agent/db.py:206-223 | replacing a session by one of the same user keeps every user's session count |
| SessionStore.UserSessionsMembers | langgraph_agent/db.py:159-165 | a user's list holds stored sessions of that user only |
| SessionStore.UserSessionsIds | langgraph_agent/db.py:159-165 | the selection keeps ids increasing |
| SessionStore.UserSessionsStarts | langgraph_agent/db.py:159-165 | the selection keeps starts in order |
| SessionStore.RowsOfAppend | langgraph_agent/db.py:116-130 | a new message joins its own session's rows at the end and no other |
| SessionStore.RowsOfMembers | langgraph_agent/db.py:116-130 | a session's rows are exactly its stored messages |
| SessionStore.RowsOfSorted | langgraph_agent/db.py:116-130 | messages stored in time order give rows in time order |
| SessionStore.RowsOfNone | langgraph_agent/db.py:116-130 | a session without messages has no rows |
| SessionStore.EmptyStoreConsistent | langgraph_agent/db.py:19-53 | the empty store satisfies the invariant |
| SessionStore.StartedConsistent | langgraph_agent/db.py:59-87 | starting a session keeps the invariant |
| SessionStore.StartedProfile | langgraph_agent/db.py:66-72 | a new user gets count 1 and both times now; a known one gets one more, a refreshed `last_active` and the same `first_seen`; other profiles are unchanged and the count equals the user's sessions |
| SessionStore.StartedSession | langgraph_agent/db.py:75-81 | one session is appended with an id above every earlier id, no end and metadata defaulting to `{}`; it becomes current with its user and start readable; messages are unchanged |
| SessionStore.StartedEmpty | langgraph_agent/db.py:75-130 | a new session has no messages |
| SessionStore.AppendedNeedsSession | langgraph_agent/db.py:91-92 | without a current session `add_message` fails with "No active session" |
| SessionStore.AppendedConsistent | langgraph_agent/db.py:89-104 | adding a message keeps the invariant, and the current session it goes to is open |
| SessionStore.AppendedRows | langgraph_agent/db.py:98-101 | adding a message adds exactly one row, to the current session, and changes no other session's rows |
| SessionStore.AppendedAllInOrder | langgraph_agent/db.py:89-104 | with a current session, successive additions all succeed and appear in order in that session's rows |
| SessionStore.SessionMessagesExact | langgraph_agent/db.py:106-132 | no argument and no current session give no rows; otherwise exactly that session's messages, in time order |
| SessionStore.EndedConsistent | langgraph_agent/db.py:206-223 | ending keeps the invariant, stamps the end of the current session only, clears the current id and changes no message |
| SessionStore.EndedIdempotent | langgraph_agent/db.py:206-223 | a second `end_session` changes nothing |
| SessionStore.UserSessionsConsistent | langgraph_agent/db.py:59-165 | under the invariant a user's sessions are stored sessions of that user, with increasing ids and ordered starts |
| SessionStore.RecentFromEnd | langgraph_agent/db.py:159-165 | the selected sessions are the user's last min(count, 5), newest first |
| SessionStore.UserHistoryUnknown | langgraph_agent/db.py:147-156 | an unknown user gets zero sessions stamped now and no session list |
| SessionStore.RecentViewsFromEnd | langgraph_agent/db.py:159-202 | the history lists views of the user's last min(count, 5) sessions, newest first |
| SessionStore.ViewsNewestFirst | langgraph_agent/db.py:159-165 | views taken from the end of an ordered session list are newest first |
| SessionStore.ViewsStored | langgraph_agent/db.py:167-193 | each view names a stored session of the user and carries exactly that session's messages |
| SessionStore.HistoryViews | langgraph_agent/db.py:159-202 | the history's views are newest first, belong to the user, and carry only their own messages |
| SessionStore.UserHistoryRecent | langgraph_agent/db.py:134-204 | for a known user the count is the number of their sessions, and at most five views come newest first, each with only its own ordered messages |
| SessionStore.StateManager.constructor | langgraph_agent/db.py:50-53 | a new manager holds the empty store |
| SessionStore.StateManager.StartSession | langgraph_agent/db.py:59-87 | the new store and id are those of `Started`, and the invariant is kept |
| SessionStore.StateManager.AddMessage | langgraph_agent/db.py:89-104 | fails with "No active session" and writes nothing without a current session; otherwise the store of `Appended` |
| SessionStore.StateManager.GetSessionMessages | langgraph_agent/db.py:106-132 | returns the queried session's rows, in time order, and changes nothing |
| SessionStore.StateManager.GetUserHistory | langgraph_agent/db.py:134-204 | returns the user's history, computed by a loop over the recent sessions, and changes nothing |
| SessionStore.StateManager.EndSession | langgraph_agent/db.py:206-223 | the new store is that of `Ended`, and the invariant is kept |
| SessionStore.StateManager.GetSessionStart | langgraph_agent/db.py:225-242 | the current session's start, or now without one; nothing changes |
| SessionStore.StateManager.GetUsername | langgraph_agent/db.py:244-261 | the current session's user, and none exactly when there is no current session; nothing changes |
| OnboardingGraph.ToolRouteNames | onboarding/graph.py:130-135 | query tools route to the query node, the three question tools to the questions node, the two step tools to the steps node, and nothing else has a tool route |
| OnboardingGraph.RouteByFirstCall | onboarding/graph.py:125-135 | only the first tool call matters, and a recognised name decides the route whatever the state |
| OnboardingGraph.RouteEnds | onboarding/graph.py:137-145 | the run ends exactly when no recognised first call exists and steps, questions and query results are all present; the orchestrator never routes to itself |
| OnboardingGraph.Counters | onboarding/graph.py:99-104 | the prompt shows the step and question counts, the current step or "None", and "Available" exactly when query results exist |
| OnboardingGraph.OrchestratedFacts | onboarding/graph.py:113-152 | the orchestrator appends exactly one message and changes nothing else: the answer, routed on, or one system error message and the end |
| OnboardingGraph.StepsDoneFacts | onboarding/graph.py:154-171 | the steps node stores all steps and sets `current_step` to step_1 only when it is unset |
| OnboardingGraph.QuestionsDoneFacts | onboarding/graph.py:173-189 | the questions node does nothing without a current step, and otherwise stores exactly that step's questions |
| OnboardingGraph.QueryDoneFacts | onboarding/graph.py:191-208 | the query node changes only `query_results`, does nothing without questions or model, and a passed check stores non-empty results of a detected object |
| OnboardingGraph.InitialStateInvariant | onboarding/graph.py:77-83 | the initial state satisfies the graph invariant |
| OnboardingGraph.SeededInvariant | onboarding/graph.py:109-111 | seeding keeps the invariant |
| OnboardingGraph.OrchestratedInvariant | onboarding/graph.py:113-152 | the orchestrator keeps the invariant |
| OnboardingGraph.StepsDoneInvariant | onboarding/graph.py:154-171 | the steps node keeps the invariant |
| OnboardingGraph.QuestionsDoneInvariant | onboarding/graph.py:173-189 | the questions node keeps the invariant: questions are only ever those of the current step |
| OnboardingGraph.QueryDoneInvariant | onboarding/graph.py:191-208 | the query node keeps the invariant: stored results are the mock rows of their own query |
| OnboardingGraph.OnboardingState.constructor | onboarding/state.py:11-16 | a new state record holds the given value |
| OnboardingGraph.OnboardingAgent.constructor | onboarding/graph.py:106-118 | the agent holds its two separate models |
| OnboardingGraph.OnboardingAgent.OrchestratorNode | onboarding/graph.py:106-152 | an empty message list is seeded and goes to the steps node without a model call; otherwise one model call and the orchestrator function's state and route |
| OnboardingGraph.OnboardingAgent.StepsNodeStep | onboarding/graph.py:154-171 | the new state is the steps function's, and control returns to the orchestrator |
| OnboardingGraph.OnboardingAgent.QuestionsNodeStep | onboarding/graph.py:173-189 | the new state is the questions function's, and control returns to the orchestrator |
| OnboardingGraph.OnboardingAgent.QueryNodeStep | onboarding/graph.py:191-208 | the new state is the query function's; the query model is called only when there are questions; control returns to the orchestrator |
| OnboardingGraph.StepKeeps | onboarding/graph.py:106-208 | every node visit keeps the graph invariant and goes to a node that may follow it |
| OnboardingGraph.RunFromKeeps | onboarding/graph.py:54-208 | a whole run keeps the graph invariant, starts at its node, has each node following the one before, and stops early only at the end |
| OnboardingGraph.RunFromPasses | onboarding/graph.py:54-208 | a run from a node is that node's visit followed by the run from the node it routes to |
| OnboardingGraph.OnboardingAgent.Visit | onboarding/graph.py:106-208 | visiting a node changes the state and the two models' scripts exactly as the node step function says |
| OnboardingGraph.OnboardingAgent.Run | onboarding/graph.py:54-208 | the trace, the final state and what is left of both scripts are those of the pure run; starting at the orchestrator, each step goes from a worker to the orchestrator or from the orchestrator elsewhere; the run stops at the end or when the fuel runs out, and a state that starts in the invariant ends in it |
| ResearchGraph.ByNameKeys | onboarding-langraph/graph.py:35 | the comprehension's keys are exactly the tools' names, each mapped to a tool of that name |
| ResearchGraph.ByNameFinds | onboarding-langraph/graph.py:35 | with distinct names every tool is found under its own name |
| ResearchGraph.ToolsByNameExact | onboarding-langraph/graph.py:34-35 | `tools_by_name` holds the three question tools under their declared names and nothing else |
| ResearchGraph.PreparedFacts | onboarding-langraph/graph.py:78-84 | an empty list gets the seed message; otherwise only a last message of unknown kind is replaced, by a human message with its content, and earlier messages are untouched |
| ResearchGraph.AnyQueryCallExists | onboarding-langraph/graph.py:101 | `any(...)` is true exactly when some call is `buildQuery` or `executeQuery` |
| ResearchGraph.ModelRouteMeaning | onboarding-langraph/graph.py:99-104 | the run ends exactly when there are no tool calls; a query call at any position goes to the query builder, other calls to the tool node |
| ResearchGraph.RunCallsAppend | onboarding-langraph/graph.py:115-123 | the tool loop with one more call: one more message on success, the first error kept otherwise |
| ResearchGraph.RunCallsPrefixStep | onboarding-langraph/graph.py:115-123 | the same one-more-call step, on a prefix of the calls |
| ResearchGraph.RunCallsStops | onboarding-langraph/graph.py:115-123 | once a call raises, later calls change nothing |
| ResearchGraph.RunCallsPrefixStops | onboarding-langraph/graph.py:115-123 | an error in a prefix is the result of the whole loop |
| ResearchGraph.RunCallsOnePerCall | onboarding-langraph/graph.py:115-126 | a succeeding tool node adds one message per call, in call order, each with its call's id and its tool's output |
| ResearchGraph.UnknownToolFails | onboarding-langraph/graph.py:119 | a call naming no known tool makes the tool node fail |
| ResearchGraph.ListDispatchFails | onboarding-langraph/graph.py:119 | on one `getQuestions` call the list-indexing node fails where the name lookup returns the question table |
| ResearchGraph.BuildMessagesExact | onboarding-langraph/graph.py:136-143 | on success, one message per `buildQuery` call and none for other calls, in order, each with its call's id and the builder's text |
| ResearchGraph.NoBuildCallsNoMessages | onboarding-langraph/graph.py:137-143 | without `buildQuery` calls the query-builder node adds nothing |
| ResearchGraph.BuildStops | onboarding-langraph/graph.py:137-143 | once the builder raises, later calls change nothing |
| ResearchGraph.ResearchState.constructor | onboarding-langraph/state.py:4-8 | a new state record holds the given value |
| ResearchGraph.ResearchAgent.constructor | onboarding-langraph/graph.py:87 | the agent uses the given model |
| ResearchGraph.ResearchAgent.CallModel | onboarding-langraph/graph.py:73-104 | one model call on the prepared messages; an answer is appended once and routed on, and unavailability raises |
| ResearchGraph.ResearchAgent.RunTools | onboarding-langraph/graph.py:106-127 | the messages gain exactly the tool loop's messages, or none when a call raises; the stored questions follow the tools' writes |
| ResearchGraph.ResearchAgent.RunQueryBuilder | onboarding-langraph/graph.py:129-144 | the messages gain exactly the builder messages, or none when the builder raises; nothing else changes |
| ResearchGraph.StepFollows | onboarding-langraph/graph.py:73-144 | a node visit that does not raise goes to a node that may follow it |
| ResearchGraph.RunFromShape | onboarding-langraph/graph.py:41-144 | a whole run starts at its node, has each node following the one before, and without an error stops only at the end or when the fuel runs out |
| ResearchGraph.RunFromRaises | onboarding-langraph/graph.py:41-144 | a node that raises ends the run with its error |
| ResearchGraph.RunFromPasses | onboarding-langraph/graph.py:41-144 | a run from a node that does not raise is that node's visit followed by the run from the next node |
| ResearchGraph.ResearchAgent.Visit | onboarding-langraph/graph.py:73-144 | visiting a node changes the state and the model's script exactly as the node step function says |
| ResearchGraph.ResearchAgent.Run | onboarding-langraph/graph.py:41-144 | the trace, the final state, the rest of the script and the escaped error are those of the pure run; starting at the model node, workers return to it and only it routes elsewhere or ends; the run stops at the end, on an escaped error, or when the fuel runs out |

## Left out

- Persistence and I/O: the SQLite connection, the DDL, the data directory, JSON metadata encoding, environment loading, tracing, logging and the state-emission callbacks. The store is an in-memory value; metadata is an opaque map.
- Model prompts and system-prompt texts. The model sees no prompt; `ChatModel` replays scripted answers. Only the prompt counters of the onboarding orchestrator are modelled.
- The LangGraph runtime: graph compilation, `Command` objects and the message reducer merge. Node results are applied to the state directly. The static edges of the onboarding graph are not modelled: each visit has the single successor its `Command` names (see the evident-intent list above), and `OnboardingGraph.RouteEnds` describes those targets only.
- async/await and concurrency: everything runs in one sequence; the shared `StateManager` has no locking.
- Times: ISO time strings are natural numbers, and one `now` is taken per operation or run.
- `lower()` and the raising counterpart `Text.Upper` map ASCII letters only; Unicode case mapping is not modelled. `strip()` removes exactly the characters Python's `str.isspace` accepts, so Unicode white space is covered.
- Agent.TaskRequestIgnoresCase: its raising half holds for the ASCII case mapping of the model only. With Python's full `upper()` it fails: `"progreß".upper()` is `"PROGRESS"`, which holds the keyword `progress` once lowered, while `"progreß"` does not.
- `ORDER BY` ties: SQLite leaves their order open. The model takes messages of equal timestamp in insertion order, and sessions of equal start newest-inserted first, because `ORDER BY session_start DESC` is modelled by reversing the insertion order.
- pydantic validation of tool arguments is reduced to a missing-argument error; pydantic assignment validation is not modelled.
- Writes to fields the graph state records do not declare (`generated_query`, `final_results`, `question`, `timestamp`) are not kept in the graph states. The tool-local states model them. In the source pydantic rejects such a write with an error; the model takes the evident intent that it succeeds.
- Attribute writes on plain dicts (`state.x = ...` where `state` is `{}`) are modelled as the evident write. The as-written `AttributeError` is not.
- The tool-call stringification of tool results: tool messages carry the result value.
- ResearchGraph.ResearchAgent.RunTools: `tool_call["args"]["state"] = state` (`onboarding-langraph/graph.py:117`) writes the state into the arguments of the tool calls stored in the last message; the model's tool-call arguments stay as they were. No modelled result depends on them.
- `onboarding-langraph/query_builder.py` is not part of this model. The question-answering graph receives its build tool as a function argument.
- `get_conversation_history` and `get_session_info` in `langgraph_agent/agent.py` are not modelled. They are display helpers outside the agent protocol; the store queries they call are modelled.
- The context query `get_session_messages` inside `agent_node` only feeds the prompt and is not modelled.
- RunAgent: the outer `except` of `run_agent` is not modelled, because no modelled step raises out of the graph. The password argument is unused in the source and is ignored.
- OnboardingGraph.OnboardingAgent.Run: the node count is bounded by `fuel`; the source has no bound, so a run that never ends is only modelled up to the bound. The models' call counters are not part of the pure run; only their scripts are.
- ResearchGraph.ResearchAgent.Run: bounded by `fuel` in the same way.
- The Google ADK agents, the calculator demo, the broken package initialiser and the `__main__` demo block are not part of this model.

## Findings

| source | as written | input that shows it | evidently intended | confidence | as-written member | corrected member |
|---|---|---|---|---|---|---|
| onboarding-langraph/graph.py:119 | the tool node dispatches with `self.tools[tool_call["name"]]`, indexing the tool list by a string, which raises `TypeError` on the first call | a model answer with one call `getQuestions` and no arguments | dispatch through `self.tools_by_name`, built at lines 34-35 and otherwise unused | high; not executed | ResearchGraph.ListDispatchFails | ResearchGraph.RunCallsOnePerCall |
