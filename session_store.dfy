/** The session store: user profiles, sessions and messages, and the id of the current
    session. The database tables are modelled as a `Store` value; each operation is a
    function from the old store to the new one, and the class `StateManager` holds the same
    data in fields and performs the operations in place. Time is a natural number that
    never decreases (`now` arguments are at least the store's `clock`, the latest time
    written). */
module SessionStore {
  import opened Wrappers
  import opened Seqs

  /** Session metadata is opaque to the store (the source keeps it as JSON text). */
  datatype MetaValue = Text(s: string) | Time(t: nat)
  type Metadata = map<string, MetaValue>

  /** A `user_state` row; preferences are never written and are not modelled. */
  datatype Profile = Profile(firstSeen: nat, lastActive: nat, conversationCount: nat)

  /** A `sessions` row. */
  datatype Session = Session(id: nat, username: string, start: nat, end: Option<nat>, metadata: Metadata)

  /** A `messages` row. */
  datatype StoredMessage = StoredMessage(sessionId: nat, role: string, content: string, timestamp: nat)

  /** A message as the queries return it. */
  datatype MessageRow = MessageRow(role: string, content: string, timestamp: nat)

  datatype Store = Store(profiles: map<string, Profile>, sessions: seq<Session>,
                         messages: seq<StoredMessage>, current: Option<nat>, clock: nat)

  const NoActiveSession: string := "No active session"

  /** Sessions are read at most this many at a time by the history query. */
  const RecentLimit: nat := 5

  const EmptyStore: Store := Store(map[], [], [], None, 0)

  /** The sessions of user `u`, in insertion order. */
  function UserSessions(ss: seq<Session>, u: string): seq<Session> {
    if ss == [] then []
    else UserSessions(ss[..|ss| - 1], u) + (if ss[|ss| - 1].username == u then [ss[|ss| - 1]] else [])
  }

  function RowOf(m: StoredMessage): MessageRow {
    MessageRow(m.role, m.content, m.timestamp)
  }

  /** The rows of the messages of session `sid`, in insertion order. */
  function RowsOf(ms: seq<StoredMessage>, sid: int): seq<MessageRow> {
    if ms == [] then []
    else RowsOf(ms[..|ms| - 1], sid) + (if ms[|ms| - 1].sessionId == sid then [RowOf(ms[|ms| - 1])] else [])
  }

  /** Rows in timestamp order. */
  predicate RowsSorted(rs: seq<MessageRow>) {
    forall i, j :: 0 <= i < j < |rs| ==> rs[i].timestamp <= rs[j].timestamp
  }

  /** Messages in timestamp order. */
  predicate MessagesSorted(ms: seq<StoredMessage>) {
    forall i, j :: 0 <= i < j < |ms| ==> ms[i].timestamp <= ms[j].timestamp
  }

  ghost predicate SessionOk(st: Store, i: nat)
    requires i < |st.sessions|
  {
    var s := st.sessions[i];
    && s.id == i + 1
    && s.start <= st.clock
    && s.username in st.profiles
    && (s.end.Some? ==> s.start <= s.end.value <= st.clock)
  }

  ghost predicate ProfileOk(st: Store, u: string)
    requires u in st.profiles
  {
    var p := st.profiles[u];
    && p.firstSeen <= p.lastActive <= st.clock
    && p.conversationCount == |UserSessions(st.sessions, u)|
  }

  /** The invariant every operation keeps: session ids are 1, 2, ... in insertion order and
      their starts never decrease; every message belongs to an existing session and messages
      are stored in timestamp order; the current session exists and has not ended; each
      profile counts exactly the sessions of its user, and every session's user has one. */
  ghost predicate Consistent(st: Store) {
    && (forall i :: 0 <= i < |st.sessions| ==> SessionOk(st, i))
    && StartsOrdered(st.sessions)
    && (forall i :: 0 <= i < |st.messages| ==>
          1 <= st.messages[i].sessionId <= |st.sessions| && st.messages[i].timestamp <= st.clock)
    && MessagesSorted(st.messages)
    && (st.current.Some? ==>
          1 <= st.current.value <= |st.sessions| && st.sessions[st.current.value - 1].end.None?)
    && (forall u :: u in st.profiles ==> ProfileOk(st, u))
  }

  // ---------------------------------------------------------------------------------------
  // Operations on the store

  /** `start_session`: insert the profile with count 1, or refresh `last_active` and add 1
      to the count; insert a session with no end and metadata defaulting to `{}`; make it
      current. Returns the new store and the new session's id. */
  function Started(st: Store, username: string, metadata: Option<Metadata>, now: nat): (Store, nat) {
    var id := |st.sessions| + 1;
    var profile := if username in st.profiles
      then st.profiles[username].(lastActive := now,
                                  conversationCount := st.profiles[username].conversationCount + 1)
      else Profile(now, now, 1);
    var session := Session(id, username, now, None, metadata.GetOr(map[]));
    (st.(profiles := st.profiles[username := profile], sessions := st.sessions + [session],
         current := Some(id), clock := now), id)
  }

  /** `add_message`: without a current session it raises and writes nothing; otherwise it
      appends one message of the current session stamped `now`. */
  function Appended(st: Store, role: string, content: string, now: nat): Result<Store> {
    match st.current
    case None => Err(NoActiveSession)
    case Some(id) =>
      Ok(st.(messages := st.messages + [StoredMessage(id, role, content, now)], clock := now))
  }

  /** `end_session`: a no-op without a current session; otherwise it stamps the current
      session's end and clears the current id. */
  function Ended(st: Store, now: nat): Store {
    match st.current
    case None => st
    case Some(id) =>
      var sessions := if 1 <= id <= |st.sessions|
        then st.sessions[id - 1 := st.sessions[id - 1].(end := Some(now))]
        else st.sessions;
      st.(sessions := sessions, current := None, clock := now)
  }

  /** The session a message query reads: the argument if it is a non-zero id, else the
      current session (Python's `session_id or self.current_session_id`). */
  function QueriedSession(st: Store, sessionId: Option<int>): Option<int> {
    if sessionId.Some? && sessionId.value != 0 then sessionId
    else if st.current.Some? then Some(st.current.value as int)
    else None
  }

  /** `get_session_messages`: no session to read gives no rows; otherwise the rows of that
      session. */
  function SessionMessages(st: Store, sessionId: Option<int>): seq<MessageRow> {
    match QueriedSession(st, sessionId)
    case None => []
    case Some(sid) => if sid == 0 then [] else RowsOf(st.messages, sid)
  }

  datatype Stats = Stats(firstSeen: nat, lastActive: nat, conversationCount: nat)
  datatype SessionView = SessionView(sessionId: nat, start: nat, end: Option<nat>, metadata: Metadata,
                                     messages: seq<MessageRow>)
  datatype History = History(userStats: Stats, recentSessions: seq<SessionView>)

  /** The sessions the history query selects: the user's sessions newest first, at most five. */
  function RecentSessions(st: Store, username: string): seq<Session> {
    Prefix(Reverse(UserSessions(st.sessions, username)), RecentLimit)
  }

  /** A session as the history query reports it, with its own messages. */
  function View(st: Store, s: Session): SessionView {
    SessionView(s.id, s.start, s.end, s.metadata, RowsOf(st.messages, s.id))
  }

  /** `get_user_history`: zero stats stamped `now` and no sessions for an unknown user;
      otherwise the profile's stats and the views of the recent sessions. */
  function UserHistory(st: Store, username: string, now: nat): History {
    if username !in st.profiles then History(Stats(now, now, 0), [])
    else
      var p := st.profiles[username];
      var recent := RecentSessions(st, username);
      History(Stats(p.firstSeen, p.lastActive, p.conversationCount),
              seq(|recent|, k requires 0 <= k < |recent| => View(st, recent[k])))
  }

  /** `get_session_start`: the current session's start, or `now` without one. */
  function SessionStart(st: Store, now: nat): nat {
    match st.current
    case None => now
    case Some(id) => if 1 <= id <= |st.sessions| then st.sessions[id - 1].start else now
  }

  /** `get_username`: the current session's user, or None without one. */
  function Username(st: Store): Option<string> {
    match st.current
    case None => None
    case Some(id) => if 1 <= id <= |st.sessions| then Some(st.sessions[id - 1].username) else None
  }

  // ---------------------------------------------------------------------------------------
  // Facts about the sequences the store is made of

  lemma UserSessionsAppend(ss: seq<Session>, s: Session, u: string)
    ensures UserSessions(ss + [s], u) == UserSessions(ss, u) + (if s.username == u then [s] else [])
  {
    assert (ss + [s])[..|ss|] == ss;
  }

  /** A user none of whose sessions are in `ss` has no sessions there. */
  lemma {:induction false} UserSessionsNone(ss: seq<Session>, u: string)
    requires forall i :: 0 <= i < |ss| ==> ss[i].username != u
    ensures UserSessions(ss, u) == []
  {
    if ss != [] {
      UserSessionsNone(ss[..|ss| - 1], u);
    }
  }

  /** Changing a session without changing its user keeps every user's session count. */
  lemma {:induction false} UserSessionsUpdate(ss: seq<Session>, k: nat, s: Session, u: string)
    requires k < |ss| && s.username == ss[k].username
    ensures |UserSessions(ss[k := s], u)| == |UserSessions(ss, u)|
  {
    var n := |ss| - 1;
    if k == n {
      assert ss[k := s][..n] == ss[..n];
    } else {
      assert ss[k := s][..n] == ss[..n][k := s];
      UserSessionsUpdate(ss[..n], k, s, u);
    }
  }

  /** Session ids increase along the sequence. */
  predicate IdsIncreasing(ss: seq<Session>) {
    forall i, j :: 0 <= i < j < |ss| ==> ss[i].id < ss[j].id
  }

  /** Every session of `us` is the session of `ss` stored under its id, and belongs to `u`. */
  predicate StoredOf(ss: seq<Session>, us: seq<Session>, u: string) {
    forall i :: 0 <= i < |us| ==> 1 <= us[i].id <= |ss| && ss[us[i].id - 1] == us[i] && us[i].username == u
  }

  /** Session starts never decrease along the sequence. */
  predicate StartsOrdered(ss: seq<Session>) {
    forall i, j :: 0 <= i < j < |ss| ==> ss[i].start <= ss[j].start
  }

  /** The user's sessions are sessions of `ss`, all of user `u`. */
  lemma {:induction false} UserSessionsMembers(ss: seq<Session>, u: string)
    ensures var us := UserSessions(ss, u);
      |us| <= |ss| && forall i :: 0 <= i < |us| ==> us[i].username == u && us[i] in ss
  {
    if ss != [] {
      var n := |ss| - 1;
      UserSessionsMembers(ss[..n], u);
      var us0 := UserSessions(ss[..n], u);
      forall i | 0 <= i < |us0|
        ensures us0[i] in ss
      {
        assert us0[i] in ss[..n];
      }
    }
  }

  /** Every session of `ss` before the last one is a session of `ss[..|ss| - 1]`. */
  lemma FrontMember(ss: seq<Session>, s: Session) returns (k: nat)
    requires ss != [] && s in ss[..|ss| - 1]
    ensures k < |ss| - 1 && ss[k] == s
  {
    var front := ss[..|ss| - 1];
    k :| 0 <= k < |front| && front[k] == s;
  }

  /** The user's sessions keep the order of ids. */
  lemma {:induction false} UserSessionsIds(ss: seq<Session>, u: string)
    requires IdsIncreasing(ss)
    ensures IdsIncreasing(UserSessions(ss, u))
  {
    if ss != [] {
      var n := |ss| - 1;
      var front := ss[..n];
      assert IdsIncreasing(front) by {
        assert forall i :: 0 <= i < n ==> front[i] == ss[i];
      }
      UserSessionsIds(front, u);
      UserSessionsMembers(front, u);
      var us0 := UserSessions(front, u);
      forall i | 0 <= i < |us0|
        ensures us0[i].id < ss[n].id
      {
        var k := FrontMember(ss, us0[i]);
      }
    }
  }

  /** The user's sessions keep the order of starts. */
  lemma {:induction false} UserSessionsStarts(ss: seq<Session>, u: string)
    requires StartsOrdered(ss)
    ensures StartsOrdered(UserSessions(ss, u))
  {
    if ss != [] {
      var n := |ss| - 1;
      var front := ss[..n];
      assert StartsOrdered(front) by {
        assert forall i :: 0 <= i < n ==> front[i] == ss[i];
      }
      UserSessionsStarts(front, u);
      UserSessionsMembers(front, u);
      var us0 := UserSessions(front, u);
      forall i | 0 <= i < |us0|
        ensures us0[i].start <= ss[n].start
      {
        var k := FrontMember(ss, us0[i]);
      }
    }
  }

  lemma RowsOfAppend(ms: seq<StoredMessage>, m: StoredMessage, sid: int)
    ensures RowsOf(ms + [m], sid) == RowsOf(ms, sid) + (if m.sessionId == sid then [RowOf(m)] else [])
  {
    assert (ms + [m])[..|ms|] == ms;
  }

  /** The rows of a session are exactly the rows of the stored messages of that session. */
  lemma {:induction false} RowsOfMembers(ms: seq<StoredMessage>, sid: int)
    ensures forall r :: r in RowsOf(ms, sid) <==>
      exists i :: 0 <= i < |ms| && ms[i].sessionId == sid && RowOf(ms[i]) == r
  {
    if ms != [] {
      var n := |ms| - 1;
      RowsOfMembers(ms[..n], sid);
      forall r | r in RowsOf(ms, sid)
        ensures exists i :: 0 <= i < |ms| && ms[i].sessionId == sid && RowOf(ms[i]) == r
      {
        if r !in RowsOf(ms[..n], sid) {
          assert ms[n].sessionId == sid && RowOf(ms[n]) == r;
        } else {
          var i :| 0 <= i < n && ms[..n][i].sessionId == sid && RowOf(ms[..n][i]) == r;
          assert ms[i] == ms[..n][i];
        }
      }
      forall r, i | 0 <= i < |ms| && ms[i].sessionId == sid && RowOf(ms[i]) == r
        ensures r in RowsOf(ms, sid)
      {
        if i < n {
          assert ms[..n][i] == ms[i];
        }
      }
    }
  }

  /** Rows of messages stored in timestamp order are in timestamp order. */
  lemma {:induction false} RowsOfSorted(ms: seq<StoredMessage>, sid: int)
    requires MessagesSorted(ms)
    ensures RowsSorted(RowsOf(ms, sid))
  {
    if ms != [] {
      var n := |ms| - 1;
      RowsOfSorted(ms[..n], sid);
      RowsOfMembers(ms[..n], sid);
      var rs0 := RowsOf(ms[..n], sid);
      forall i | 0 <= i < |rs0|
        ensures rs0[i].timestamp <= ms[n].timestamp
      {
        assert rs0[i] in rs0;
        var k :| 0 <= k < n && ms[..n][k].sessionId == sid && RowOf(ms[..n][k]) == rs0[i];
        assert ms[..n][k] == ms[k];
      }
      var rs := RowsOf(ms, sid);
      assert rs == rs0 + (if ms[n].sessionId == sid then [RowOf(ms[n])] else []);
      forall i, j | 0 <= i < j < |rs|
        ensures rs[i].timestamp <= rs[j].timestamp
      {
        if j < |rs0| {
          assert rs[i] == rs0[i] && rs[j] == rs0[j];
          assert rs0[i].timestamp <= rs0[j].timestamp;
        } else {
          assert rs[i] == rs0[i] && rs[j] == RowOf(ms[n]);
          assert rs0[i].timestamp <= ms[n].timestamp;
        }
      }
    }
  }

  // ---------------------------------------------------------------------------------------
  // Properties of the operations

  lemma EmptyStoreConsistent()
    ensures Consistent(EmptyStore)
  {
  }

  /** `start_session` keeps the invariant. */
  lemma StartedConsistent(st: Store, username: string, metadata: Option<Metadata>, now: nat)
    requires Consistent(st) && st.clock <= now
    ensures Consistent(Started(st, username, metadata, now).0)
  {
    var (st', id) := Started(st, username, metadata, now);
    var s := st'.sessions[|st.sessions|];
    assert st'.sessions == st.sessions + [s];
    forall i | 0 <= i < |st.sessions|
      ensures st.sessions[i].start <= now && st.sessions[i].username in st.profiles
    {
      assert SessionOk(st, i);
    }
    forall u | u in st'.profiles
      ensures ProfileOk(st', u)
    {
      UserSessionsAppend(st.sessions, s, u);
      if u == username && username !in st.profiles {
        UserSessionsNone(st.sessions, u);
      }
    }
    forall i | 0 <= i < |st'.sessions|
      ensures SessionOk(st', i)
    {
      if i < |st.sessions| {
        assert SessionOk(st, i);
      }
    }
    forall i, j | 0 <= i < j < |st'.sessions|
      ensures st'.sessions[i].start <= st'.sessions[j].start
    {
      if j == |st.sessions| {
        assert st'.sessions[i] == st.sessions[i];
      }
    }
  }

  /** `start_session` on the profile: a new user gets count 1 and both timestamps `now`; a
      known user gets one more, a refreshed `last_active` and the same `first_seen`; other
      profiles are unchanged. Either way the count is the number of the user's sessions. */
  lemma StartedProfile(st: Store, username: string, metadata: Option<Metadata>, now: nat)
    requires Consistent(st) && st.clock <= now
    ensures var st' := Started(st, username, metadata, now).0;
      && username in st'.profiles
      && st'.profiles.Keys == st.profiles.Keys + {username}
      && (username !in st.profiles ==> st'.profiles[username] == Profile(now, now, 1))
      && (username in st.profiles ==>
            st'.profiles[username].conversationCount == st.profiles[username].conversationCount + 1
            && st'.profiles[username].firstSeen == st.profiles[username].firstSeen
            && st'.profiles[username].lastActive == now)
      && (forall u :: u in st.profiles && u != username ==> st'.profiles[u] == st.profiles[u])
      && st'.profiles[username].conversationCount == |UserSessions(st'.sessions, username)|
  {
    StartedConsistent(st, username, metadata, now);
  }

  /** `start_session` on the sessions: the new id is larger than every existing id and
      becomes current; the new session has no end and `{}` metadata when none is given;
      earlier sessions and all messages are unchanged. */
  lemma StartedSession(st: Store, username: string, metadata: Option<Metadata>, now: nat)
    requires Consistent(st)
    ensures var (st', id) := Started(st, username, metadata, now);
      && (forall i :: 0 <= i < |st.sessions| ==> st.sessions[i].id < id)
      && st'.current == Some(id)
      && st'.sessions == st.sessions + [Session(id, username, now, None, metadata.GetOr(map[]))]
      && (metadata == None ==> st'.sessions[id - 1].metadata == map[])
      && st'.messages == st.messages
      && Username(st') == Some(username) && SessionStart(st', 0) == now
  {
    forall i | 0 <= i < |st.sessions|
      ensures st.sessions[i].id < |st.sessions| + 1
    {
      assert SessionOk(st, i);
    }
  }

  /** Messages of no session with id `sid` give that session no rows. */
  lemma {:induction false} RowsOfNone(ms: seq<StoredMessage>, sid: int)
    requires forall i :: 0 <= i < |ms| ==> ms[i].sessionId != sid
    ensures RowsOf(ms, sid) == []
  {
    if ms != [] {
      RowsOfNone(ms[..|ms| - 1], sid);
    }
  }

  /** A session that was just started has no messages. */
  lemma StartedEmpty(st: Store, username: string, metadata: Option<Metadata>, now: nat)
    requires Consistent(st)
    ensures var (st', id) := Started(st, username, metadata, now);
      RowsOf(st'.messages, id) == [] && SessionMessages(st', None) == []
  {
    RowsOfNone(st.messages, |st.sessions| + 1);
  }

  /** Without a current session `add_message` raises "No active session" and writes nothing. */
  lemma AppendedNeedsSession(st: Store, role: string, content: string, now: nat)
    requires st.current.None?
    ensures Appended(st, role, content, now) == Err(NoActiveSession)
  {
  }

  /** `add_message` keeps the invariant; the message goes to a session that has not ended. */
  lemma AppendedConsistent(st: Store, role: string, content: string, now: nat)
    requires Consistent(st) && st.clock <= now
    ensures Appended(st, role, content, now).Ok? ==>
      var st' := Appended(st, role, content, now).value;
      Consistent(st') && st.sessions[st.current.value - 1].end.None?
  {
    if st.current.Some? {
      var st' := Appended(st, role, content, now).value;
      assert forall i :: 0 <= i < |st'.sessions| ==> SessionOk(st, i) ==> SessionOk(st', i);
      assert forall u :: u in st.profiles ==> ProfileOk(st, u) ==> ProfileOk(st', u);
    }
  }

  /** `add_message` appends exactly one row to the current session's messages and leaves
      the messages of every other session as they were. */
  lemma AppendedRows(st: Store, role: string, content: string, now: nat, sid: int)
    requires st.current.Some?
    ensures var st' := Appended(st, role, content, now).value;
      && |st'.messages| == |st.messages| + 1
      && (sid == st.current.value ==>
            RowsOf(st'.messages, sid) == RowsOf(st.messages, sid) + [MessageRow(role, content, now)])
      && (sid != st.current.value ==> RowsOf(st'.messages, sid) == RowsOf(st.messages, sid))
  {
    RowsOfAppend(st.messages, StoredMessage(st.current.value, role, content, now), sid);
  }

  /** A batch of messages of one run, each with its role, content and time. */
  datatype Entry = Entry(role: string, content: string, time: nat)

  /** The store after `add_message` for each entry in turn (stopping at the first error). */
  function AppendedAll(st: Store, entries: seq<Entry>): Result<Store>
    decreases |entries|
  {
    if entries == [] then Ok(st)
    else
      match Appended(st, entries[0].role, entries[0].content, entries[0].time)
      case Err(e) => Err(e)
      case Ok(st1) => AppendedAll(st1, entries[1..])
  }

  function EntryRows(entries: seq<Entry>): seq<MessageRow> {
    if entries == [] then [] else [MessageRow(entries[0].role, entries[0].content, entries[0].time)] + EntryRows(entries[1..])
  }

  /** Any run of `add_message` calls within a session is listed back in exactly the order
      submitted, after the session's earlier messages; the current session stays the same. */
  lemma {:induction false} AppendedAllInOrder(st: Store, entries: seq<Entry>)
    requires st.current.Some?
    ensures AppendedAll(st, entries).Ok?
    ensures AppendedAll(st, entries).value.current == st.current
    ensures RowsOf(AppendedAll(st, entries).value.messages, st.current.value)
      == RowsOf(st.messages, st.current.value) + EntryRows(entries)
    decreases |entries|
  {
    if entries != [] {
      var e := entries[0];
      var st1 := Appended(st, e.role, e.content, e.time).value;
      AppendedRows(st, e.role, e.content, e.time, st.current.value);
      AppendedAllInOrder(st1, entries[1..]);
      assert EntryRows(entries) == [MessageRow(e.role, e.content, e.time)] + EntryRows(entries[1..]);
    }
  }

  /** `get_session_messages` returns nothing when there is no session to read; otherwise
      exactly the rows of that session's messages, and in timestamp order (so `ORDER BY
      timestamp` is insertion order). */
  lemma SessionMessagesExact(st: Store, sessionId: Option<int>)
    requires Consistent(st)
    ensures QueriedSession(st, sessionId).None? ==> SessionMessages(st, sessionId) == []
    ensures QueriedSession(st, sessionId).Some? ==>
      var sid := QueriedSession(st, sessionId).value;
      forall r :: r in SessionMessages(st, sessionId) <==>
        exists i :: 0 <= i < |st.messages| && st.messages[i].sessionId == sid && RowOf(st.messages[i]) == r
    ensures RowsSorted(SessionMessages(st, sessionId))
  {
    match QueriedSession(st, sessionId)
    case None =>
    case Some(sid) =>
      RowsOfMembers(st.messages, sid);
      if sid == 0 {
        assert SessionMessages(st, sessionId) == [];
        assert forall i :: 0 <= i < |st.messages| ==> st.messages[i].sessionId != 0;
      } else {
        var rs := RowsOf(st.messages, sid);
        assert SessionMessages(st, sessionId) == rs;
        RowsOfSorted(st.messages, sid);
      }
  }

  /** `end_session` keeps the invariant; with a current session it stamps that session's
      end, clears the current id and changes no other session. */
  lemma EndedConsistent(st: Store, now: nat)
    requires Consistent(st) && st.clock <= now
    ensures Consistent(Ended(st, now))
    ensures Ended(st, now).current.None?
    ensures |Ended(st, now).sessions| == |st.sessions| && Ended(st, now).messages == st.messages
    ensures st.current.Some? ==> Ended(st, now).sessions[st.current.value - 1].end == Some(now)
    ensures forall i :: 0 <= i < |st.sessions| && Some(i + 1) != st.current ==>
      Ended(st, now).sessions[i] == st.sessions[i]
  {
    if st.current.Some? {
      var st' := Ended(st, now);
      var k := st.current.value - 1;
      forall u | u in st'.profiles
        ensures ProfileOk(st', u)
      {
        UserSessionsUpdate(st.sessions, k, st'.sessions[k], u);
      }
      forall i | 0 <= i < |st'.sessions|
        ensures SessionOk(st', i)
      {
        assert SessionOk(st, i);
      }
    }
  }

  /** A second `end_session` is a no-op. */
  lemma EndedIdempotent(st: Store, now: nat, later: nat)
    ensures Ended(Ended(st, now), later) == Ended(st, now)
  {
  }

  /** In a consistent store the user's sessions are stored sessions of that user, with
      strictly increasing ids and non-decreasing starts. */
  lemma UserSessionsConsistent(st: Store, username: string)
    requires Consistent(st)
    ensures var us := UserSessions(st.sessions, username);
      StoredOf(st.sessions, us, username) && IdsIncreasing(us) && StartsOrdered(us)
  {
    var ss := st.sessions;
    forall i | 0 <= i < |ss|
      ensures ss[i].id == i + 1
    {
      assert SessionOk(st, i);
    }
    UserSessionsMembers(ss, username);
    UserSessionsIds(ss, username);
    UserSessionsStarts(ss, username);
    var us := UserSessions(ss, username);
    forall i | 0 <= i < |us|
      ensures 1 <= us[i].id <= |ss| && ss[us[i].id - 1] == us[i]
    {
      assert us[i] in ss;
      var k :| 0 <= k < |ss| && ss[k] == us[i];
    }
  }


  /** The history's sessions are the user's last sessions taken from the end: newest first,
      at most five. */
  lemma RecentFromEnd(st: Store, username: string)
    ensures var us := UserSessions(st.sessions, username);
      var recent := RecentSessions(st, username);
      && |recent| == (if |us| < RecentLimit then |us| else RecentLimit)
      && (forall i :: 0 <= i < |recent| ==> recent[i] == us[|us| - 1 - i])
  {
    var us := UserSessions(st.sessions, username);
    var recent := RecentSessions(st, username);
    forall i | 0 <= i < |recent|
      ensures recent[i] == us[|us| - 1 - i]
    {
      ReverseAt(us, i);
    }
  }

  /** `get_user_history` for an unknown user: zero count, no sessions. */
  lemma UserHistoryUnknown(st: Store, username: string, now: nat)
    requires username !in st.profiles
    ensures UserHistory(st, username, now).userStats == Stats(now, now, 0)
    ensures UserHistory(st, username, now).recentSessions == []
  {
  }

  /** Sessions newest first. */
  predicate NewestFirst(rs: seq<SessionView>) {
    forall i, j :: 0 <= i < j < |rs| ==> rs[i].sessionId > rs[j].sessionId && rs[i].start >= rs[j].start
  }

  /** The views of the history are the views of the user's sessions taken from the end. */
  lemma RecentViewsFromEnd(st: Store, username: string, now: nat)
    requires username in st.profiles
    ensures var us := UserSessions(st.sessions, username);
      var rs := UserHistory(st, username, now).recentSessions;
      && |rs| == (if |us| < RecentLimit then |us| else RecentLimit)
      && forall i :: 0 <= i < |rs| ==> rs[i] == View(st, us[|us| - 1 - i])
  {
    RecentFromEnd(st, username);
  }

  /** Views taken from the end of sessions with increasing ids and ordered starts are
      newest first. */
  lemma ViewsNewestFirst(st: Store, us: seq<Session>, rs: seq<SessionView>)
    requires IdsIncreasing(us) && StartsOrdered(us) && |rs| <= |us|
    requires forall i :: 0 <= i < |rs| ==> rs[i] == View(st, us[|us| - 1 - i])
    ensures NewestFirst(rs)
  {
    forall i, j | 0 <= i < j < |rs|
      ensures rs[i].sessionId > rs[j].sessionId && rs[i].start >= rs[j].start
    {
      var a, b := |us| - 1 - j, |us| - 1 - i;
      assert rs[i] == View(st, us[b]) && rs[j] == View(st, us[a]);
    }
  }

  /** Views of stored sessions of a user name stored sessions of that user, each with
      exactly its own messages. */
  lemma ViewsStored(st: Store, username: string, us: seq<Session>, rs: seq<SessionView>)
    requires StoredOf(st.sessions, us, username) && |rs| <= |us|
    requires forall i :: 0 <= i < |rs| ==> rs[i] == View(st, us[|us| - 1 - i])
    ensures forall i :: 0 <= i < |rs| ==>
      1 <= rs[i].sessionId <= |st.sessions| && st.sessions[rs[i].sessionId - 1].username == username
      && rs[i].messages == SessionMessages(st, Some(rs[i].sessionId))
  {
    forall i | 0 <= i < |rs|
      ensures 1 <= rs[i].sessionId <= |st.sessions| && st.sessions[rs[i].sessionId - 1].username == username
      ensures rs[i].messages == SessionMessages(st, Some(rs[i].sessionId))
    {
      assert rs[i] == View(st, us[|us| - 1 - i]);
    }
  }

  /** The views of a known user's history, given the order of the user's sessions: newest
      first, each a stored session of the user with exactly its own messages. */
  lemma HistoryViews(st: Store, username: string, now: nat)
    requires username in st.profiles
    requires var us := UserSessions(st.sessions, username);
      StoredOf(st.sessions, us, username) && IdsIncreasing(us) && StartsOrdered(us)
    ensures var rs := UserHistory(st, username, now).recentSessions;
      && NewestFirst(rs)
      && (forall i :: 0 <= i < |rs| ==>
            1 <= rs[i].sessionId <= |st.sessions| && st.sessions[rs[i].sessionId - 1].username == username
            && rs[i].messages == SessionMessages(st, Some(rs[i].sessionId)))
  {
    var us := UserSessions(st.sessions, username);
    RecentViewsFromEnd(st, username, now);
    var rs := UserHistory(st, username, now).recentSessions;
    ViewsNewestFirst(st, us, rs);
    ViewsStored(st, username, us, rs);
  }

  /** `get_user_history` for a known user: the profile's count of the user's sessions, and
      the user's newest sessions, newest first, at most five, each with exactly its own
      messages. */
  lemma UserHistoryRecent(st: Store, username: string, now: nat)
    requires Consistent(st) && username in st.profiles
    ensures UserHistory(st, username, now).userStats.conversationCount == |UserSessions(st.sessions, username)|
    ensures var rs := UserHistory(st, username, now).recentSessions;
      && NewestFirst(rs)
      && (forall i :: 0 <= i < |rs| ==>
            1 <= rs[i].sessionId <= |st.sessions| && st.sessions[rs[i].sessionId - 1].username == username
            && rs[i].messages == SessionMessages(st, Some(rs[i].sessionId)))
  {
    assert ProfileOk(st, username);
    UserSessionsConsistent(st, username);
    HistoryViews(st, username, now);
  }

  // ---------------------------------------------------------------------------------------
  // The state manager: the same data held in fields and updated in place

  class StateManager {
    var profiles: map<string, Profile>
    var sessions: seq<Session>
    var messages: seq<StoredMessage>
    var currentSessionId: Option<nat>
    var clock: nat

    /** The store these fields hold. */
    function Model(): Store
      reads this
    {
      Store(profiles, sessions, messages, currentSessionId, clock)
    }

    ghost predicate Valid()
      reads this
    {
      Consistent(Model())
    }

    /** A manager over empty tables with no current session. */
    constructor ()
      ensures Valid() && Model() == EmptyStore
    {
      profiles, sessions, messages, currentSessionId, clock := map[], [], [], None, 0;
    }

    method StartSession(username: string, metadata: Option<Metadata>, now: nat) returns (id: nat)
      requires Valid() && clock <= now
      modifies this
      ensures Valid()
      ensures (Model(), id) == Started(old(Model()), username, metadata, now)
    {
      StartedConsistent(Model(), username, metadata, now);
      id := |sessions| + 1;
      var profile := if username in profiles
        then profiles[username].(lastActive := now, conversationCount := profiles[username].conversationCount + 1)
        else Profile(now, now, 1);
      profiles := profiles[username := profile];
      sessions := sessions + [Session(id, username, now, None, metadata.GetOr(map[]))];
      currentSessionId := Some(id);
      clock := now;
    }

    method AddMessage(role: string, content: string, now: nat) returns (r: Outcome)
      requires Valid() && clock <= now
      modifies this
      ensures Valid()
      ensures old(currentSessionId).None? ==> r == Fail(NoActiveSession) && Model() == old(Model())
      ensures old(currentSessionId).Some? ==>
        r == Pass && Model() == Appended(old(Model()), role, content, now).value
    {
      AppendedConsistent(Model(), role, content, now);
      if currentSessionId.None? {
        return Fail(NoActiveSession);
      }
      messages := messages + [StoredMessage(currentSessionId.value, role, content, now)];
      clock := now;
      r := Pass;
    }

    method GetSessionMessages(sessionId: Option<int>) returns (rows: seq<MessageRow>)
      requires Valid()
      ensures rows == SessionMessages(Model(), sessionId)
      ensures RowsSorted(rows)
    {
      SessionMessagesExact(Model(), sessionId);
      var sid := QueriedSession(Model(), sessionId);
      if sid.None? || sid.value == 0 {
        return [];
      }
      rows := RowsOf(messages, sid.value);
    }

    /** Builds the history one recent session at a time, as the source's loop does. */
    method GetUserHistory(username: string, now: nat) returns (h: History)
      requires Valid()
      ensures h == UserHistory(Model(), username, now)
    {
      if username !in profiles {
        return History(Stats(now, now, 0), []);
      }
      var p := profiles[username];
      var recent := RecentSessions(Model(), username);
      var views: seq<SessionView> := [];
      var i := 0;
      while i < |recent|
        invariant 0 <= i <= |recent|
        invariant |views| == i
        invariant forall k :: 0 <= k < i ==> views[k] == View(Model(), recent[k])
      {
        var s := recent[i];
        views := views + [SessionView(s.id, s.start, s.end, s.metadata, RowsOf(messages, s.id))];
        i := i + 1;
      }
      h := History(Stats(p.firstSeen, p.lastActive, p.conversationCount), views);
    }

    method EndSession(now: nat)
      requires Valid() && clock <= now
      modifies this
      ensures Valid()
      ensures Model() == Ended(old(Model()), now)
    {
      EndedConsistent(Model(), now);
      if currentSessionId.None? {
        return;
      }
      var id := currentSessionId.value;
      if 1 <= id <= |sessions| {
        sessions := sessions[id - 1 := sessions[id - 1].(end := Some(now))];
      }
      currentSessionId := None;
      clock := now;
    }

    method GetSessionStart(now: nat) returns (t: nat)
      requires Valid()
      ensures t == SessionStart(Model(), now)
      ensures currentSessionId.None? ==> t == now
      ensures currentSessionId.Some? ==> t == sessions[currentSessionId.value - 1].start
    {
      if currentSessionId.None? {
        return now;
      }
      t := sessions[currentSessionId.value - 1].start;
    }

    method GetUsername() returns (u: Option<string>)
      requires Valid()
      ensures u == Username(Model())
      ensures currentSessionId.None? <==> u.None?
      ensures currentSessionId.Some? ==> u == Some(sessions[currentSessionId.value - 1].username)
    {
      if currentSessionId.None? {
        return None;
      }
      u := Some(sessions[currentSessionId.value - 1].username);
    }
  }
}
