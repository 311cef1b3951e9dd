/**
 * The interchangeable session and memory backends
 * (ecoagent/sessions_and_memory_services.py): in-memory services over
 * dictionaries with a per-user id list, and persistent services that
 * read, change and re-save rows of a store.
 *
 * The store (an SQLite database in the source) is modelled by the class
 * `Store`: maps of session and memory rows keyed by id, with their keys in
 * insertion order, and an append-only log of session messages. Every write
 * succeeds exactly when the store is `online`; a failed write changes
 * nothing and returns false, as the source's `except Exception: return
 * False` does.
 */
module Services {
  import opened Prelude
  import opened Memories
  import opened Sessions

  // ---------------------------------------------------------------------------
  // InMemorySessionService

  class InMemorySessionService {
    var sessions: map<string, Session>
    /** `user_sessions`: each user's session ids in creation order. */
    var index: map<string, seq<string>>

    /**
     * Keys are session ids and every indexed id is stored. Unlike the
     * session manager, the index is not tied to each session's user:
     * `save_session` may store any session object under its id.
     */
    ghost predicate Valid()
      reads this
    {
      (forall k :: k in sessions ==> sessions[k].id == k)
      && (forall u :: u in index ==> Distinct(index[u]))
      && (forall u, i :: u in index && 0 <= i < |index[u]| ==> index[u][i] in sessions)
    }

    constructor ()
      ensures Valid() && sessions == map[] && index == map[]
    {
      sessions, index := map[], map[];
    }

    function Footprint(): set<Session>
      reads this
    {
      set k | k in sessions :: sessions[k]
    }

    /** `create_session`: stores a CREATED session and appends its id to the user's list. */
    method CreateSession(freshId: string, userId: string, ttlSeconds: int, metadata: Fields, now: Time)
      returns (s: Session)
      requires Valid() && freshId !in sessions
      modifies this
      ensures Valid() && fresh(s)
      ensures s.id == freshId && s.userId == userId
      ensures s.State() == Initial(ttlSeconds, metadata, now) && s.messages == []
      ensures sessions == old(sessions)[freshId := s]
      ensures index == old(index)[userId := IdsOf(old(index), userId) + [freshId]]
    {
      s := new Session(freshId, userId, ttlSeconds, metadata, now);
      sessions := sessions[freshId := s];
      index := index[userId := IdsOf(index, userId) + [freshId]];
    }

    /** `save_session`: stores the object under its id; always succeeds. */
    method SaveSession(s: Session) returns (ok: bool)
      requires Valid()
      modifies this
      ensures Valid() && ok
      ensures sessions == old(sessions)[s.id := s] && index == old(index)
    {
      sessions := sessions[s.id := s];
      ok := true;
    }

    /** `get_user_sessions`: the sessions behind the user's ids, in creation order. */
    function UserSessions(u: string): (r: seq<Session>)
      reads this
      requires Valid()
      ensures |r| == |IdsOf(index, u)|
      ensures forall i :: 0 <= i < |r| ==> r[i] == sessions[IdsOf(index, u)[i]]
    {
      Present(sessions, IdsOf(index, u))
    }

    /** `get_active_sessions` */
    function ActiveSessions(u: string, now: Time): (r: seq<Session>)
      reads this, Footprint()
      requires Valid()
      ensures forall i :: 0 <= i < |r| ==> r[i] in UserSessions(u) && r[i].IsActiveAt(now)
      ensures forall i :: 0 <= i < |UserSessions(u)| && UserSessions(u)[i].IsActiveAt(now) ==>
                UserSessions(u)[i] in r
    {
      var ss := UserSessions(u);
      assert (set s | s in ss) <= Footprint();
      ActiveOnes(ss, now)
    }

    method ActivateSession(id: string, now: Time) returns (s: Session?)
      requires Valid()
      modifies if id in sessions then {sessions[id]} else {}
      ensures id !in sessions ==> s == null
      ensures id in sessions ==> s == sessions[id] && s.State() == Activated(old(s.State()), now)
                                 && s.messages == old(s.messages)
    {
      if id in sessions {
        s := sessions[id];
        s.Activate(now);
      } else {
        s := null;
      }
    }

    method PauseSession(id: string, now: Time) returns (s: Session?)
      requires Valid()
      modifies if id in sessions then {sessions[id]} else {}
      ensures id !in sessions ==> s == null
      ensures id in sessions ==> s == sessions[id] && s.State() == PausedAt(old(s.State()), now)
                                 && s.messages == old(s.messages)
    {
      if id in sessions {
        s := sessions[id];
        s.Pause(now);
      } else {
        s := null;
      }
    }

    method ResumeSession(id: string, now: Time) returns (s: Session?)
      requires Valid()
      modifies if id in sessions then {sessions[id]} else {}
      ensures id !in sessions ==> s == null
      ensures id in sessions ==> s == sessions[id] && s.State() == Resumed(old(s.State()), now)
                                 && s.messages == old(s.messages)
    {
      if id in sessions {
        s := sessions[id];
        s.Resume(now);
      } else {
        s := null;
      }
    }

    method CloseSession(id: string, now: Time) returns (s: Session?)
      requires Valid()
      modifies if id in sessions then {sessions[id]} else {}
      ensures id !in sessions ==> s == null
      ensures id in sessions ==> s == sessions[id] && s.State() == ClosedAt(old(s.State()), now)
                                 && s.messages == old(s.messages)
    {
      if id in sessions {
        s := sessions[id];
        s.Close(now);
      } else {
        s := null;
      }
    }

    /**
     * `cleanup_expired`: closes every session past its deadline, whatever
     * its status (closed ones included), deletes nothing, and returns how
     * many it closed.
     */
    method CleanupExpired(now: Time) returns (count: nat)
      requires Valid()
      modifies Footprint()
      ensures count == |set k | k in sessions && old(sessions[k].IsExpiredAt(now))|
      ensures forall k :: k in sessions ==>
                sessions[k].State() == (if old(sessions[k].IsExpiredAt(now))
                                        then ClosedAt(old(sessions[k].State()), now)
                                        else old(sessions[k].State()))
                && sessions[k].messages == old(sessions[k].messages)
    {
      var expired := set k | k in sessions && sessions[k].IsExpiredAt(now);
      var todo := expired;
      while todo != {}
        invariant todo <= expired
        invariant forall k :: k in sessions ==>
                    sessions[k].State() == (if k in expired - todo
                                            then ClosedAt(old(sessions[k].State()), now)
                                            else old(sessions[k].State()))
                    && sessions[k].messages == old(sessions[k].messages)
        decreases todo
      {
        var k :| k in todo;
        sessions[k].Close(now);
        todo := todo - {k};
      }
      count := |expired|;
    }

    /** `get_summary` */
    function Summary(u: string, now: Time): (r: SessionSummary)
      reads this, Footprint()
      requires Valid()
      ensures r.totalSessions == |IdsOf(index, u)|
      ensures r.activeSessions == |ActiveSessions(u, now)|
      ensures r.closedSessions == |ClosedOnes(UserSessions(u))|
      ensures r.totalInteractions == InteractionSum(UserSessions(u))
      ensures r.activeSessions + r.closedSessions <= r.totalSessions
    {
      var ss := UserSessions(u);
      assert (set s | s in ss) <= Footprint();
      Summarize(ss, now)
    }
  }

  // ---------------------------------------------------------------------------
  // Rows of the store

  /** A row of the `sessions` table: timestamps as stamps, status as its value string. */
  datatype SessionRow = SessionRow(
    id: string, userId: string, status: string,
    createdAt: Option<Time>, startedAt: Option<Time>, pausedAt: Option<Time>,
    closedAt: Option<Time>, expiresAt: Option<Time>,
    ttlSeconds: int, totalInteractions: int, context: Fields, metadata: Fields)

  /** A row of the `session_messages` table. */
  datatype MessageRow = MessageRow(sessionId: string, role: string, content: string, metadata: Fields)

  /** What `save_session` writes for a session (its messages are not part of the row). */
  function SessionRowOf(id: string, userId: string, st: SessionState): SessionRow {
    SessionRow(id, userId, StatusValue(st.status), Some(st.createdAt), st.startedAt, st.pausedAt,
               st.closedAt, st.expiresAt, st.ttlSeconds, st.totalInteractions, st.context, st.metadata)
  }

  /** A session read back from the store. */
  datatype SessionData = SessionData(id: string, userId: string, state: SessionState)

  /**
   * `_deserialize_session`: None where `SessionStatus(...)` raises; a row
   * without a creation stamp gets `now`.
   */
  function DeserializeSession(row: SessionRow, now: Time): (r: Option<SessionData>)
    ensures r.Some? <==> StatusByValue(row.status).Some?
    ensures r.Some? ==> r.value.id == row.id && r.value.userId == row.userId
                        && StatusValue(r.value.state.status) == row.status
  {
    match StatusByValue(row.status)
    case None => None
    case Some(status) =>
      Some(SessionData(row.id, row.userId,
        SessionState(status, if row.createdAt.Some? then row.createdAt.value else now,
                     row.startedAt, row.pausedAt, row.closedAt, row.expiresAt,
                     row.ttlSeconds, row.totalInteractions, row.context, row.metadata)))
  }

  lemma StatusRoundTrip(s: SessionStatus)
    ensures StatusByValue(StatusValue(s)) == Some(s)
  {
    match s
    case Created =>
    case Active =>
    case Paused =>
    case Closed =>
    case Expired =>
  }

  /** Saving then reading a session restores every field of its row. */
  lemma SessionRowRoundTrip(id: string, userId: string, st: SessionState, now: Time)
    ensures DeserializeSession(SessionRowOf(id, userId, st), now) == Some(SessionData(id, userId, st))
  {
    StatusRoundTrip(st.status);
  }

  /** Newest first; rows without a creation stamp (NULL) sort last. */
  function CreatedDesc(row: SessionRow): Rank {
    if row.createdAt.Some? then Rank(1.0, row.createdAt.value) else Rank(0.0, 0.0)
  }

  /** The rows among keys whose user id is u, in key order. */
  function RowsOfUser(rows: map<string, SessionRow>, keys: seq<string>, u: string): (r: seq<SessionRow>)
    requires forall k :: k in keys ==> k in rows
    ensures forall x :: x in r ==> x in rows.Values && x.userId == u
    ensures forall k :: k in keys && rows[k].userId == u ==> rows[k] in r
    ensures |r| <= |keys|
  {
    if keys == [] then []
    else (if rows[keys[0]].userId == u then [rows[keys[0]]] else []) + RowsOfUser(rows, keys[1..], u)
  }

  /** A row of the `memories` table. */
  datatype MemoryRow = MemoryRow(
    id: string, userId: string, memoryType: string, content: string, context: Fields,
    importance: int, timestamp: Option<Time>, source: string, tags: seq<string>,
    accessCount: int, lastAccessed: Option<Time>, decayFactor: real,
    relationships: seq<string>, metadata: Fields)

  /** Newest first; rows without a timestamp (NULL) sort last. */
  function StampDesc(row: MemoryRow): Rank {
    if row.timestamp.Some? then Rank(1.0, row.timestamp.value) else Rank(0.0, 0.0)
  }

  /** `json.dumps` of a list of strings. */
  function TagsJson(tags: seq<string>): string {
    "[" + Join(", ", seq(|tags|, i requires 0 <= i < |tags| => JsonQuote(tags[i]))) + "]"
  }

  /** `text LIKE '%query%'`: ASCII case-insensitive substring. */
  predicate Like(text: string, query: string) {
    Contains(Lower(text), Lower(query))
  }

  /** The filter of the store's `search_memories` query. */
  predicate RowMatches(row: MemoryRow, u: string, query: string, memoryType: Option<string>) {
    row.userId == u
    && (memoryType.Some? ==> row.memoryType == memoryType.value)
    && (Like(row.content, query) || Like(TagsJson(row.tags), query))
  }

  function MatchingRows(rows: map<string, MemoryRow>, keys: seq<string>, u: string, query: string,
                        memoryType: Option<string>): (r: seq<MemoryRow>)
    requires forall k :: k in keys ==> k in rows
    ensures forall x :: x in r ==> x in rows.Values && RowMatches(x, u, query, memoryType)
    ensures forall k :: k in keys && RowMatches(rows[k], u, query, memoryType) ==> rows[k] in r
  {
    if keys == [] then []
    else (if RowMatches(rows[keys[0]], u, query, memoryType) then [rows[keys[0]]] else [])
         + MatchingRows(rows, keys[1..], u, query, memoryType)
  }

  // ---------------------------------------------------------------------------
  // The store

  class Store {
    /** Whether writes go through; a failing write returns false. */
    const online: bool
    var sessionRows: map<string, SessionRow>
    var sessionKeys: seq<string>
    /** The `session_messages` table, in insertion (timestamp) order. */
    var messages: seq<MessageRow>
    var memoryRows: map<string, MemoryRow>
    var memoryKeys: seq<string>

    ghost predicate Valid()
      reads this
    {
      Distinct(sessionKeys) && (forall k :: k in sessionKeys <==> k in sessionRows)
      && (forall k :: k in sessionRows ==> sessionRows[k].id == k)
      && Distinct(memoryKeys) && (forall k :: k in memoryKeys <==> k in memoryRows)
      && (forall k :: k in memoryRows ==> memoryRows[k].id == k)
    }

    constructor (online: bool)
      ensures Valid() && this.online == online
      ensures sessionRows == map[] && sessionKeys == [] && messages == []
      ensures memoryRows == map[] && memoryKeys == []
    {
      this.online := online;
      sessionRows, sessionKeys, messages, memoryRows, memoryKeys := map[], [], [], map[], [];
    }

    /** `INSERT OR REPLACE INTO sessions` */
    method SaveSession(row: SessionRow) returns (ok: bool)
      requires Valid()
      modifies this
      ensures Valid() && ok == online
      ensures messages == old(messages) && memoryRows == old(memoryRows) && memoryKeys == old(memoryKeys)
      ensures sessionRows == if ok then old(sessionRows)[row.id := row] else old(sessionRows)
      ensures sessionKeys == if ok && row.id !in old(sessionRows) then old(sessionKeys) + [row.id]
                             else old(sessionKeys)
    {
      ok := online;
      if ok {
        if row.id !in sessionRows {
          sessionKeys := sessionKeys + [row.id];
        }
        sessionRows := sessionRows[row.id := row];
      }
    }

    /** `get_session` of the store */
    function FindSession(id: string): (r: Option<SessionRow>)
      reads this
      ensures r.Some? <==> id in sessionRows
      ensures r.Some? ==> r.value == sessionRows[id]
    {
      if id in sessionRows then Some(sessionRows[id]) else None
    }

    /** `get_user_sessions` of the store: the user's rows, newest first, at most 50. */
    function UserSessionRows(u: string): (r: seq<SessionRow>)
      reads this
      requires Valid()
      ensures |r| <= 50
      ensures forall i :: 0 <= i < |r| ==> r[i] in sessionRows.Values && r[i].userId == u
      ensures SortedDesc(r, CreatedDesc)
      ensures var mine := RowsOfUser(sessionRows, sessionKeys, u);
              && |r| == Min(|mine|, 50)
              && multiset(r) <= multiset(mine)
              && (|mine| <= 50 ==> multiset(r) == multiset(mine))
              && forall x :: x in mine && x !in r ==> forall i :: 0 <= i < |r| ==> RankGe(CreatedDesc(r[i]), CreatedDesc(x))
    {
      TopN(RowsOfUser(sessionRows, sessionKeys, u), CreatedDesc, 50)
    }

    /** `add_session_message`: appends one row to the log (the session need not exist). */
    method AddSessionMessage(sessionId: string, role: string, content: string, metadata: Fields)
      returns (ok: bool)
      requires Valid()
      modifies this
      ensures Valid() && ok == online
      ensures sessionRows == old(sessionRows) && sessionKeys == old(sessionKeys)
      ensures memoryRows == old(memoryRows) && memoryKeys == old(memoryKeys)
      ensures messages == if ok then old(messages) + [MessageRow(sessionId, role, content, metadata)]
                          else old(messages)
    {
      ok := online;
      if ok {
        messages := messages + [MessageRow(sessionId, role, content, metadata)];
      }
    }

    /** `get_session_messages`: the session's messages in order, at most 100. */
    function SessionMessages(sessionId: string): (r: seq<MessageRow>)
      reads this
      ensures |r| <= 100
      ensures forall i :: 0 <= i < |r| ==> r[i] in messages && r[i].sessionId == sessionId
      ensures r <= MessagesOf(messages, sessionId)
      ensures |r| == Min(|MessagesOf(messages, sessionId)|, 100)
    {
      Take(MessagesOf(messages, sessionId), 100)
    }

    /** `INSERT OR REPLACE INTO memories` */
    method SaveMemory(row: MemoryRow) returns (ok: bool)
      requires Valid()
      modifies this
      ensures Valid() && ok == online
      ensures messages == old(messages) && sessionRows == old(sessionRows) && sessionKeys == old(sessionKeys)
      ensures memoryRows == if ok then old(memoryRows)[row.id := row] else old(memoryRows)
      ensures memoryKeys == if ok && row.id !in old(memoryRows) then old(memoryKeys) + [row.id]
                            else old(memoryKeys)
    {
      ok := online;
      if ok {
        if row.id !in memoryRows {
          memoryKeys := memoryKeys + [row.id];
        }
        memoryRows := memoryRows[row.id := row];
      }
    }

    /** `get_memory` of the store */
    function FindMemory(id: string): (r: Option<MemoryRow>)
      reads this
      ensures r.Some? <==> id in memoryRows
      ensures r.Some? ==> r.value == memoryRows[id]
    {
      if id in memoryRows then Some(memoryRows[id]) else None
    }

    /** `DELETE FROM memories WHERE id = ?` */
    method DeleteMemory(id: string) returns (ok: bool)
      requires Valid()
      modifies this
      ensures Valid() && ok == online
      ensures messages == old(messages) && sessionRows == old(sessionRows) && sessionKeys == old(sessionKeys)
      ensures memoryRows == if ok then old(memoryRows) - {id} else old(memoryRows)
      ensures memoryKeys == if ok then Without(old(memoryKeys), {id}) else old(memoryKeys)
    {
      ok := online;
      if ok {
        memoryRows := memoryRows - {id};
        memoryKeys := Without(memoryKeys, {id});
      }
    }

    /**
     * `search_memories` of the store: the user's rows (of the given type)
     * whose content or tag list contains the query, newest first, at most 20.
     */
    function SearchMemoryRows(u: string, query: string, memoryType: Option<string>): (r: seq<MemoryRow>)
      reads this
      requires Valid()
      ensures |r| <= 20
      ensures forall i :: 0 <= i < |r| ==> r[i] in memoryRows.Values && RowMatches(r[i], u, query, memoryType)
      ensures SortedDesc(r, StampDesc)
      ensures var found := MatchingRows(memoryRows, memoryKeys, u, query, memoryType);
              && |r| == Min(|found|, 20)
              && multiset(r) <= multiset(found)
              && (|found| <= 20 ==> multiset(r) == multiset(found))
              && forall x :: x in found && x !in r ==> forall i :: 0 <= i < |r| ==> RankGe(StampDesc(r[i]), StampDesc(x))
    {
      TopN(MatchingRows(memoryRows, memoryKeys, u, query, memoryType), StampDesc, 20)
    }
  }

  function MessagesOf(log: seq<MessageRow>, sessionId: string): (r: seq<MessageRow>)
    ensures forall i :: 0 <= i < |r| ==> r[i] in log && r[i].sessionId == sessionId
    ensures forall i :: 0 <= i < |log| && log[i].sessionId == sessionId ==> log[i] in r
  {
    if log == [] then []
    else (if log[0].sessionId == sessionId then [log[0]] else []) + MessagesOf(log[1..], sessionId)
  }

  /** Every session row of the store has a status `SessionStatus(...)` accepts. */
  ghost predicate SessionRowsParse(store: Store)
    reads store
  {
    forall k :: k in store.sessionRows ==> StatusByValue(store.sessionRows[k].status).Some?
  }

  // ---------------------------------------------------------------------------
  // PersistentSessionService

  class PersistentSessionService {
    const store: Store

    ghost predicate Valid()
      reads this, store
    {
      store.Valid() && SessionRowsParse(store)
    }

    constructor (store: Store)
      requires store.Valid() && SessionRowsParse(store)
      ensures Valid() && this.store == store
    {
      this.store := store;
    }

    /** `save_session`: writes the session's row. */
    method SaveSession(s: Session) returns (ok: bool)
      requires Valid()
      modifies store
      ensures Valid() && ok == store.online
      ensures store.messages == old(store.messages) && store.memoryRows == old(store.memoryRows)
      ensures store.memoryKeys == old(store.memoryKeys)
      ensures store.sessionRows == if ok then old(store.sessionRows)[s.id := SessionRowOf(s.id, s.userId, s.State())]
                                   else old(store.sessionRows)
    {
      StatusRoundTrip(s.status);
      ok := store.SaveSession(SessionRowOf(s.id, s.userId, s.State()));
    }

    /** `create_session`: a CREATED session, saved (the write's outcome is ignored). */
    method CreateSession(freshId: string, userId: string, ttlSeconds: int, metadata: Fields, now: Time)
      returns (s: Session)
      requires Valid()
      modifies store
      ensures Valid() && fresh(s)
      ensures s.id == freshId && s.userId == userId
      ensures s.State() == Initial(ttlSeconds, metadata, now) && s.messages == []
      ensures store.messages == old(store.messages) && store.memoryRows == old(store.memoryRows)
      ensures store.sessionRows == if store.online
                                   then old(store.sessionRows)[freshId := SessionRowOf(freshId, userId, s.State())]
                                   else old(store.sessionRows)
    {
      s := new Session(freshId, userId, ttlSeconds, metadata, now);
      var _ := SaveSession(s);
    }

    /** `get_session`: a fresh object rebuilt from the row, or null when there is none. */
    method GetSession(id: string, now: Time) returns (s: Session?)
      requires Valid()
      ensures id !in store.sessionRows ==> s == null
      ensures id in store.sessionRows ==>
                s != null && fresh(s) && s.messages == []
                && DeserializeSession(store.sessionRows[id], now)
                   == Some(SessionData(s.id, s.userId, s.State()))
    {
      var row := store.FindSession(id);
      if row.None? {
        return null;
      }
      var data := DeserializeSession(row.value, now);
      s := new Session.FromState(data.value.id, data.value.userId, data.value.state);
    }

    /** `activate_session`: read, activate, write back. */
    method ActivateSession(id: string, now: Time) returns (s: Session?)
      requires Valid()
      modifies store
      ensures Valid()
      ensures store.messages == old(store.messages) && store.memoryRows == old(store.memoryRows)
      ensures id !in old(store.sessionRows) ==> s == null && store.sessionRows == old(store.sessionRows)
      ensures id in old(store.sessionRows) ==>
                s != null && fresh(s) && s.messages == []
                && Some(SessionData(s.id, s.userId, s.State()))
                   == (var d := DeserializeSession(old(store.sessionRows)[id], now);
                       Some(d.value.(state := Activated(d.value.state, now))))
                && store.sessionRows == if store.online then old(store.sessionRows)[id := SessionRowOf(s.id, s.userId, s.State())]
                                        else old(store.sessionRows)
    {
      s := GetSession(id, now);
      if s != null {
        s.Activate(now);
        var _ := SaveSession(s);
      }
    }

    /** `pause_session`: read, pause, write back. */
    method PauseSession(id: string, now: Time) returns (s: Session?)
      requires Valid()
      modifies store
      ensures Valid()
      ensures store.messages == old(store.messages) && store.memoryRows == old(store.memoryRows)
      ensures id !in old(store.sessionRows) ==> s == null && store.sessionRows == old(store.sessionRows)
      ensures id in old(store.sessionRows) ==>
                s != null && fresh(s)
                && Some(SessionData(s.id, s.userId, s.State()))
                   == (var d := DeserializeSession(old(store.sessionRows)[id], now);
                       Some(d.value.(state := PausedAt(d.value.state, now))))
                && store.sessionRows == if store.online then old(store.sessionRows)[id := SessionRowOf(s.id, s.userId, s.State())]
                                        else old(store.sessionRows)
    {
      s := GetSession(id, now);
      if s != null {
        s.Pause(now);
        var _ := SaveSession(s);
      }
    }

    /** `resume_session`: read, resume (a no-op unless PAUSED), write back. */
    method ResumeSession(id: string, now: Time) returns (s: Session?)
      requires Valid()
      modifies store
      ensures Valid()
      ensures store.messages == old(store.messages) && store.memoryRows == old(store.memoryRows)
      ensures id !in old(store.sessionRows) ==> s == null && store.sessionRows == old(store.sessionRows)
      ensures id in old(store.sessionRows) ==>
                s != null && fresh(s)
                && Some(SessionData(s.id, s.userId, s.State()))
                   == (var d := DeserializeSession(old(store.sessionRows)[id], now);
                       Some(d.value.(state := Resumed(d.value.state, now))))
                && store.sessionRows == if store.online then old(store.sessionRows)[id := SessionRowOf(s.id, s.userId, s.State())]
                                        else old(store.sessionRows)
    {
      s := GetSession(id, now);
      if s != null {
        s.Resume(now);
        var _ := SaveSession(s);
      }
    }

    /** `close_session`: read, close, write back. */
    method CloseSession(id: string, now: Time) returns (s: Session?)
      requires Valid()
      modifies store
      ensures Valid()
      ensures store.messages == old(store.messages) && store.memoryRows == old(store.memoryRows)
      ensures id !in old(store.sessionRows) ==> s == null && store.sessionRows == old(store.sessionRows)
      ensures id in old(store.sessionRows) ==>
                s != null && fresh(s)
                && Some(SessionData(s.id, s.userId, s.State()))
                   == (var d := DeserializeSession(old(store.sessionRows)[id], now);
                       Some(d.value.(state := ClosedAt(d.value.state, now))))
                && store.sessionRows == if store.online then old(store.sessionRows)[id := SessionRowOf(s.id, s.userId, s.State())]
                                        else old(store.sessionRows)
    {
      s := GetSession(id, now);
      if s != null {
        s.Close(now);
        var _ := SaveSession(s);
      }
    }

    /**
     * `add_message`: the message goes to the log first; only when that write
     * succeeds is the session's row re-saved with one more interaction.
     */
    method AddMessage(id: string, role: string, content: string, metadata: Fields, now: Time)
      returns (ok: bool)
      requires Valid()
      modifies store
      ensures Valid() && ok == store.online
      ensures store.memoryRows == old(store.memoryRows)
      ensures store.messages == if ok then old(store.messages) + [MessageRow(id, role, content, metadata)]
                                else old(store.messages)
      ensures !ok || id !in old(store.sessionRows) ==> store.sessionRows == old(store.sessionRows)
      ensures ok && id in old(store.sessionRows) ==>
                var d := DeserializeSession(old(store.sessionRows)[id], now).value;
                store.sessionRows == old(store.sessionRows)[id := SessionRowOf(d.id, d.userId, WithInteraction(d.state))]
    {
      ok := store.AddSessionMessage(id, role, content, metadata);
      if ok {
        var s := GetSession(id, now);
        if s != null {
          s.AddMessage(role, content, metadata, now);
          var _ := SaveSession(s);
        }
      }
    }

    /** `get_messages` */
    function Messages(id: string): (r: seq<MessageRow>)
      reads this, store
      ensures |r| <= 100 && forall i :: 0 <= i < |r| ==> r[i].sessionId == id
      ensures r <= MessagesOf(store.messages, id) && |r| == Min(|MessagesOf(store.messages, id)|, 100)
    {
      store.SessionMessages(id)
    }

    /**
     * `cleanup_expired` as written: it reads the rows of the user named "*"
     * (at most 50 of them), then closes and re-saves those past their
     * deadline, and returns how many it closed.
     */
    method CleanupExpired(now: Time) returns (count: nat)
      requires Valid()
      modifies store
      ensures Valid()
      ensures count == ExpiredCount(old(store.UserSessionRows("*")), now)
      ensures store.sessionRows == if store.online then CloseAll(old(store.sessionRows), old(store.UserSessionRows("*")), now)
                                   else old(store.sessionRows)
    {
      var rows := store.UserSessionRows("*");
      count := CloseExpiredRows(rows, now);
    }

    /** `cleanup_expired` as evidently intended: every row of the store is scanned. */
    method CleanupExpiredAll(now: Time) returns (count: nat)
      requires Valid()
      modifies store
      ensures Valid()
      ensures count == ExpiredCount(old(SessionRowsIn(store.sessionRows, store.sessionKeys)), now)
      ensures store.sessionRows == if store.online
                                   then CloseAll(old(store.sessionRows), old(SessionRowsIn(store.sessionRows, store.sessionKeys)), now)
                                   else old(store.sessionRows)
    {
      var rows := SessionRowsIn(store.sessionRows, store.sessionKeys);
      count := CloseExpiredRows(rows, now);
    }

    /** The loop both cleanups share: close and re-save each expired row of rows, in order. */
    method CloseExpiredRows(rows: seq<SessionRow>, now: Time) returns (count: nat)
      requires Valid()
      requires forall i :: 0 <= i < |rows| ==> StatusByValue(rows[i].status).Some?
      modifies store
      ensures Valid()
      ensures count == ExpiredCount(rows, now)
      ensures store.sessionRows == if store.online then CloseAll(old(store.sessionRows), rows, now)
                                   else old(store.sessionRows)
    {
      count := 0;
      var i := 0;
      while i < |rows|
        invariant 0 <= i <= |rows|
        invariant Valid()
        invariant count == ExpiredCount(rows[..i], now)
        invariant store.sessionRows == if store.online then CloseAll(old(store.sessionRows), rows[..i], now)
                                       else old(store.sessionRows)
      {
        assert rows[..i + 1][..i] == rows[..i];
        var closed := CloseIfExpired(rows[i], now);
        if closed {
          count := count + 1;
        }
        i := i + 1;
      }
      assert rows[..i] == rows;
    }

    /** One step of that loop: an expired row is closed and re-saved, any other row is left alone. */
    method CloseIfExpired(row: SessionRow, now: Time) returns (closed: bool)
      requires Valid() && StatusByValue(row.status).Some?
      modifies store
      ensures Valid() && closed == ExpiredRow(row, now)
      ensures store.sessionRows == if store.online && closed then old(store.sessionRows)[row.id := ClosedRow(row, now)]
                                   else old(store.sessionRows)
    {
      closed := ExpiredRow(row, now);
      if closed {
        var d := DeserializeSession(row, now).value;
        var s := new Session.FromState(d.id, d.userId, d.state);
        s.Close(now);
        var _ := SaveSession(s);
      }
    }
  }

  /** The rows behind keys, in key order. */
  function SessionRowsIn(rows: map<string, SessionRow>, keys: seq<string>): (r: seq<SessionRow>)
    requires forall k :: k in keys ==> k in rows
    ensures |r| == |keys| && forall i :: 0 <= i < |keys| ==> r[i] == rows[keys[i]]
  {
    seq(|keys|, i requires 0 <= i < |keys| => rows[keys[i]])
  }

  /** A row whose session is past its deadline. */
  predicate ExpiredRow(row: SessionRow, now: Time) {
    match DeserializeSession(row, now)
    case None => false
    case Some(d) => IsExpired(d.state, now)
  }

  /** The row a cleanup writes back for an expired row. */
  function ClosedRow(row: SessionRow, now: Time): (r: SessionRow)
    requires StatusByValue(row.status).Some?
    ensures r.id == row.id && r.userId == row.userId && r.status == "closed" && r.closedAt == Some(now)
  {
    var d := DeserializeSession(row, now).value;
    SessionRowOf(d.id, d.userId, ClosedAt(d.state, now))
  }

  /** How many of rows are expired. */
  function ExpiredCount(rows: seq<SessionRow>, now: Time): (r: nat)
    ensures r <= |rows|
  {
    if rows == [] then 0
    else ExpiredCount(rows[..|rows| - 1], now) + (if ExpiredRow(rows[|rows| - 1], now) then 1 else 0)
  }

  /** The table after each expired row of rows is closed and re-saved, in order. */
  function CloseAll(base: map<string, SessionRow>, rows: seq<SessionRow>, now: Time): (r: map<string, SessionRow>)
    requires forall i :: 0 <= i < |rows| ==> StatusByValue(rows[i].status).Some?
    ensures base.Keys <= r.Keys
  {
    if rows == [] then base
    else
      var last := rows[|rows| - 1];
      var m := CloseAll(base, rows[..|rows| - 1], now);
      if ExpiredRow(last, now) then m[last.id := ClosedRow(last, now)] else m
  }

  /** Rows that are not expired are left as they were. */
  lemma {:induction false} CloseAllKeepsLive(base: map<string, SessionRow>, rows: seq<SessionRow>, now: Time, k: string)
    requires forall i :: 0 <= i < |rows| ==> StatusByValue(rows[i].status).Some?
    requires forall i :: 0 <= i < |rows| && rows[i].id == k ==> !ExpiredRow(rows[i], now)
    ensures k in base ==> k in CloseAll(base, rows, now) && CloseAll(base, rows, now)[k] == base[k]
    ensures k !in base ==> k !in CloseAll(base, rows, now)
  {
    if rows != [] {
      CloseAllKeepsLive(base, rows[..|rows| - 1], now, k);
    }
  }

  /** `get_user_sessions("*")` only returns rows of a user literally named "*". */
  lemma StarMatchesOnlyStar(rows: map<string, SessionRow>, keys: seq<string>)
    requires forall k :: k in keys ==> k in rows
    ensures forall x :: x in RowsOfUser(rows, keys, "*") ==> x.userId == "*"
  {
  }

  /**
   * The as-written cleanup misses an expired session of any real user: on a
   * store holding one expired ACTIVE session of user "alice", scanning the
   * rows of user "*" finds nothing to close, while scanning every row
   * closes it.
   */
  lemma CleanupStarMissesExpiredSession()
    ensures var row := SessionRow("s1", "alice", "active", Some(0.0), Some(0.0), None, None, Some(10.0),
                                  10, 0, [], []);
            var rows := map["s1" := row];
            ExpiredCount(Take(SortDesc(RowsOfUser(rows, ["s1"], "*"), CreatedDesc), 50), 20.0) == 0
            && ExpiredCount(SessionRowsIn(rows, ["s1"]), 20.0) == 1
  {
    var row := SessionRow("s1", "alice", "active", Some(0.0), Some(0.0), None, None, Some(10.0), 10, 0, [], []);
    var rows := map["s1" := row];
    assert RowsOfUser(rows, ["s1"][1..], "*") == [];
    assert RowsOfUser(rows, ["s1"], "*") == [];
    assert ExpiredRow(row, 20.0);
    var all := SessionRowsIn(rows, ["s1"]);
    assert all == [row];
    assert ExpiredCount(all[..0], 20.0) == 0;
  }

  // ---------------------------------------------------------------------------
  // InMemoryMemoryBank

  /** `[memories[mid] for mid in ids if mid in memories]`, built from the back. */
  function StoredMemories(memories: map<string, Memory>, ids: seq<string>): (r: seq<Memory>)
    ensures |r| <= |ids|
    ensures forall i :: 0 <= i < |r| ==> r[i] in memories.Values
    ensures forall i :: 0 <= i < |ids| && ids[i] in memories ==> memories[ids[i]] in r
    decreases |ids|
  {
    if ids == [] then []
    else
      var init := ids[..|ids| - 1];
      var last := ids[|ids| - 1];
      assert forall i :: 0 <= i < |ids| - 1 ==> ids[i] == init[i];
      if last in memories then StoredMemories(memories, init) + [memories[last]]
      else StoredMemories(memories, init)
  }

  class InMemoryMemoryBank {
    /** The dictionary of memories with its limit and pruning, as in `MemoryBank`. */
    const bank: MemoryBank
    /** `_user_memories`: each user's memory ids in the order added; pruning leaves them stale. */
    var userMemories: map<string, seq<string>>

    ghost predicate Valid()
      reads this, bank
    {
      bank.Valid()
    }

    /** An empty bank (the source's default limit is 1000). */
    constructor (maxMemories: int)
      ensures Valid() && fresh(bank) && bank.maxMemories == maxMemories
      ensures bank.memories == map[] && bank.order == [] && userMemories == map[]
    {
      bank := new MemoryBank(maxMemories);
      userMemories := map[];
    }

    /**
     * `add_memory`: stores a new memory, appends its id to the user's list,
     * then prunes the weakest when the bank holds more than its limit.
     */
    method AddMemory(freshId: string, userId: string, content: string, memoryType: MemoryType,
                     importance: Importance, source: string, tags: seq<string>, context: Fields, now: Time)
      returns (m: Memory)
      requires Valid() && freshId !in bank.memories
      modifies this, bank
      ensures Valid() && fresh(m)
      ensures m.id == freshId && m.content == content && m.memoryType == memoryType
      ensures m.importance == importance && m.source == source && m.tags == tags
      ensures m.context == context && m.timestamp == now && m.accessCount == 0
      ensures userMemories == old(userMemories)[userId := IdsOf(old(userMemories), userId) + [freshId]]
      ensures |old(bank.order)| + 1 <= bank.maxMemories ==> bank.memories == old(bank.memories)[freshId := m]
      ensures |old(bank.order)| + 1 > bank.maxMemories ==>
                |bank.order| == |old(bank.order)| + 1 - MemoryBank.PruneCount(|old(bank.order)| + 1)
      ensures forall k :: k in bank.memories ==> k in old(bank.memories) || k == freshId
      ensures forall k :: k in bank.memories ==> bank.memories[k] == old(bank.memories)[freshId := m][k]
      ensures |old(bank.order)| + 1 > bank.maxMemories ==>
                var added := old(bank.memories)[freshId := m];
                forall r, k :: r in added && r !in bank.memories && k in bank.memories ==>
                  added[r].StrengthAt(now) <= bank.memories[k].StrengthAt(now)
      ensures 0 <= bank.maxMemories && |old(bank.order)| <= bank.maxMemories ==> |bank.order| <= bank.maxMemories
      ensures freshId in bank.memories ==> bank.memories[freshId] == m && m in UserMemories(userId)
    {
      m := bank.AddMemory(freshId, content, memoryType, importance, source, tags, context, now);
      var ids := IdsOf(userMemories, userId) + [freshId];
      userMemories := userMemories[userId := ids];
      if freshId in bank.memories {
        assert ids[|ids| - 1] == freshId;
        assert bank.memories[ids[|ids| - 1]] in UserMemories(userId);
      }
    }

    /** `retrieve_memory` */
    method RetrieveMemory(id: string, now: Time) returns (m: Memory?)
      requires Valid()
      modifies if id in bank.memories then {bank.memories[id]} else {}
      ensures Valid()
      ensures id in bank.memories ==> m == bank.memories[id] && m.accessCount == old(m.accessCount) + 1
                                      && m.lastAccessed == Some(now)
      ensures id !in bank.memories ==> m == null
    {
      m := bank.RetrieveMemory(id, now);
    }

    /** `get_user_memories`: the user's memories that are still stored, ids without one skipped. */
    function UserMemories(u: string): (r: seq<Memory>)
      reads this, bank
      ensures forall i :: 0 <= i < |r| ==> r[i] in bank.memories.Values
      ensures forall i :: 0 <= i < |IdsOf(userMemories, u)| && IdsOf(userMemories, u)[i] in bank.memories ==>
                bank.memories[IdsOf(userMemories, u)[i]] in r
    {
      StoredMemories(bank.memories, IdsOf(userMemories, u))
    }

    /**
     * `search_memories`: scores only the memories on the user's list, with
     * no importance filter, and sorts them as the bank's own search does.
     */
    method SearchMemories(u: string, query: string, memoryType: Option<MemoryType>, tags: seq<string>,
                          now: Time) returns (results: seq<(Memory, real)>)
      requires Valid()
      ensures results == HitPairs(Ranked(UserMemories(u), Lower(query), memoryType, tags, None, now))
    {
      var hits := ScanMemories(StoredMemories(bank.memories, IdsOf(userMemories, u)), Lower(query), memoryType,
                               tags, None, now);
      results := HitPairs(SortDesc(hits, HitRank));
    }
  }

  /** Every search result of the in-memory bank is one of the caller's stored memories. */
  lemma InMemorySearchOnlyOwn(b: InMemoryMemoryBank, u: string, query: string, memoryType: Option<MemoryType>,
                              tags: seq<string>, now: Time, h: Hit)
    requires h in Ranked(b.UserMemories(u), Lower(query), memoryType, tags, None, now)
    ensures h.memory in b.UserMemories(u) && h.memory in b.bank.memories.Values
    ensures h.relevance > 0.0 && PassesFilters(h.memory, memoryType, tags, None)
  {
    RankedSound(b.UserMemories(u), Lower(query), memoryType, tags, None, now, h);
  }

  // ---------------------------------------------------------------------------
  // PersistentMemoryBank

  /** The fields of a memory, as one value. */
  datatype MemoryFields = MemoryFields(
    id: string, memoryType: MemoryType, content: string, context: Fields, importance: Importance,
    timestamp: Time, source: string, tags: seq<string>, accessCount: nat, lastAccessed: Option<Time>,
    decayFactor: real, relationships: seq<string>, metadata: Fields)

  function FieldsOf(m: Memory): MemoryFields
    reads m
  {
    MemoryFields(m.id, m.memoryType, m.content, m.context, m.importance, m.timestamp, m.source, m.tags,
                 m.accessCount, m.lastAccessed, m.decayFactor, m.relationships, m.metadata)
  }

  /** The row `add_memory` saves for a memory of user `userId`. */
  function MemoryRowOf(f: MemoryFields, userId: string): (r: MemoryRow)
    ensures r.id == f.id && r.userId == userId && r.timestamp == Some(f.timestamp)
  {
    MemoryRow(f.id, userId, TypeValue(f.memoryType), f.content, f.context, Level(f.importance),
              Some(f.timestamp), f.source, f.tags, f.accessCount, f.lastAccessed, f.decayFactor,
              f.relationships, f.metadata)
  }

  /** `MemoryType(value)`; None stands for the ValueError. */
  function TypeByValue(v: string): (r: Option<MemoryType>)
    ensures r.Some? ==> TypeValue(r.value) == v
    ensures r.None? ==> forall t :: TypeValue(t) != v
  {
    if v == "episodic" then Some(Episodic)
    else if v == "semantic" then Some(Semantic)
    else if v == "procedural" then Some(Procedural)
    else if v == "emotional" then Some(Emotional)
    else if v == "relational" then Some(Relational)
    else None
  }

  /** `MemoryImportance(value)` for the levels 1 to 5. */
  function ImportanceByLevel(n: int): (r: Option<Importance>)
    ensures r.Some? ==> Level(r.value) == n
    ensures r.None? <==> n < 1 || n > 5
  {
    if n == 5 then Some(Critical)
    else if n == 4 then Some(High)
    else if n == 3 then Some(Medium)
    else if n == 2 then Some(Low)
    else if n == 1 then Some(Trivial)
    else None
  }

  /**
   * `_deserialize_memory`: None when the type or importance does not
   * convert (the source raises ValueError); a missing timestamp becomes now.
   */
  function ParseMemoryRow(row: MemoryRow, now: Time): (r: Option<MemoryFields>)
    ensures r.Some? <==> TypeByValue(row.memoryType).Some? && 1 <= row.importance <= 5 && row.accessCount >= 0
    ensures r.Some? ==> r.value.id == row.id && TypeValue(r.value.memoryType) == row.memoryType
                        && Level(r.value.importance) == row.importance
                        && r.value.timestamp == (if row.timestamp.Some? then row.timestamp.value else now)
                        && r.value.accessCount == row.accessCount && r.value.lastAccessed == row.lastAccessed
    ensures r.Some? ==> r.value.content == row.content && r.value.context == row.context
                        && r.value.source == row.source && r.value.tags == row.tags
                        && r.value.decayFactor == row.decayFactor
                        && r.value.relationships == row.relationships && r.value.metadata == row.metadata
  {
    var t := TypeByValue(row.memoryType);
    var i := ImportanceByLevel(row.importance);
    if t.None? || i.None? || row.accessCount < 0 then None
    else
      Some(MemoryFields(row.id, t.value, row.content, row.context, i.value,
                        if row.timestamp.Some? then row.timestamp.value else now,
                        row.source, row.tags, row.accessCount, row.lastAccessed, row.decayFactor,
                        row.relationships, row.metadata))
  }

  /** Saving a memory and reading its row back gives the same fields, at any time. */
  lemma MemoryRowRoundTrip(f: MemoryFields, userId: string, now: Time)
    ensures ParseMemoryRow(MemoryRowOf(f, userId), now) == Some(f)
  {
    match f.memoryType
    case Episodic =>
    case Semantic =>
    case Procedural =>
    case Emotional =>
    case Relational =>
  }

  /** The row `retrieve_memory` saves back: one more access, stamped now. */
  function AccessedRow(row: MemoryRow, now: Time): (r: MemoryRow)
    ensures r.accessCount == row.accessCount + 1 && r.lastAccessed == Some(now)
    ensures r.(accessCount := row.accessCount, lastAccessed := row.lastAccessed) == row
  {
    row.(accessCount := row.accessCount + 1, lastAccessed := Some(now))
  }

  /** A retrieval's write-back is read back as the memory it returned. */
  lemma AccessedRowParses(row: MemoryRow, now: Time, later: Time)
    requires row.timestamp.Some?
    requires ParseMemoryRow(row, now).Some?
    ensures ParseMemoryRow(AccessedRow(row, now), later).Some?
    ensures ParseMemoryRow(AccessedRow(row, now), later).value
              == ParseMemoryRow(row, now).value.(accessCount := row.accessCount + 1, lastAccessed := Some(now))
  {
  }

  /** A memory rebuilt from its fields. */
  method Materialize(f: MemoryFields) returns (m: Memory)
    ensures fresh(m) && FieldsOf(m) == f
  {
    m := new Memory.Restore(f.id, f.memoryType, f.content, f.context, f.importance, f.timestamp, f.source,
                            f.tags, f.accessCount, f.lastAccessed, f.decayFactor, f.relationships, f.metadata);
  }

  /** What `retrieve_memory` of the persistent bank yields. */
  datatype Retrieval = Retrieved(memory: Memory) | NotFound | Unreadable

  function TypeValueOf(t: Option<MemoryType>): Option<string> {
    if t.Some? then Some(TypeValue(t.value)) else None
  }

  /** Each memory of ms was rebuilt from the row at the same position. */
  ghost predicate RebuiltFrom(ms: seq<Memory>, rows: seq<MemoryRow>, now: Time)
    reads set m | m in ms
    requires |ms| <= |rows|
  {
    forall j :: 0 <= j < |ms| ==> ParseMemoryRow(rows[j], now).Some? && FieldsOf(ms[j]) == ParseMemoryRow(rows[j], now).value
  }

  /** A memory rebuilt from the next row extends the rebuilt prefix. */
  lemma RebuiltExtend(ms: seq<Memory>, m: Memory, rows: seq<MemoryRow>, now: Time)
    requires |ms| < |rows| && RebuiltFrom(ms, rows, now)
    requires ParseMemoryRow(rows[|ms|], now).Some? && FieldsOf(m) == ParseMemoryRow(rows[|ms|], now).value
    ensures RebuiltFrom(ms + [m], rows, now)
  {
    assert forall j :: 0 <= j < |ms| ==> (ms + [m])[j] == ms[j];
  }

  /** The rows rebuilt as memories, in order; None when one of them does not convert. */
  method RebuildAll(rows: seq<MemoryRow>, now: Time) returns (r: Option<seq<Memory>>)
    ensures r.None? <==> exists i :: 0 <= i < |rows| && ParseMemoryRow(rows[i], now).None?
    ensures r.Some? ==> |r.value| == |rows| && RebuiltFrom(r.value, rows, now)
    ensures r.Some? ==> forall j :: 0 <= j < |rows| ==> fresh(r.value[j])
  {
    var ms: seq<Memory> := [];
    var i := 0;
    while i < |rows|
      invariant 0 <= i <= |rows| && |ms| == i
      invariant forall j :: 0 <= j < i ==> ParseMemoryRow(rows[j], now).Some?
      invariant RebuiltFrom(ms, rows, now)
      invariant forall j :: 0 <= j < i ==> fresh(ms[j])
    {
      var f := ParseMemoryRow(rows[i], now);
      if f.None? {
        return None;
      }
      var m := Materialize(f.value);
      RebuiltExtend(ms, m, rows, now);
      ms := ms + [m];
      i := i + 1;
    }
    r := Some(ms);
  }

  class PersistentMemoryBank {
    const store: Store

    ghost predicate Valid()
      reads this, store
    {
      store.Valid()
    }

    constructor (store: Store)
      requires store.Valid()
      ensures Valid() && this.store == store
    {
      this.store := store;
    }

    /** `add_memory`: a new memory, saved as a row; the memory is returned even if the save fails. */
    method AddMemory(freshId: string, userId: string, content: string, memoryType: MemoryType,
                     importance: Importance, source: string, tags: seq<string>, context: Fields, now: Time)
      returns (m: Memory)
      requires Valid()
      modifies store
      ensures Valid() && fresh(m)
      ensures FieldsOf(m) == MemoryFields(freshId, memoryType, content, context, importance, now, source,
                                          tags, 0, None, 1.0, [], [])
      ensures store.memoryRows == if store.online then old(store.memoryRows)[freshId := MemoryRowOf(FieldsOf(m), userId)]
                                  else old(store.memoryRows)
      ensures store.memoryKeys == if store.online && freshId !in old(store.memoryRows) then old(store.memoryKeys) + [freshId]
                                  else old(store.memoryKeys)
      ensures store.sessionRows == old(store.sessionRows) && store.sessionKeys == old(store.sessionKeys)
      ensures store.messages == old(store.messages)
    {
      m := new Memory(freshId, memoryType, content, context, importance, now, source, tags);
      var _ := store.SaveMemory(MemoryRowOf(FieldsOf(m), userId));
    }

    /**
     * `retrieve_memory`: rebuilds the stored memory, counts one access and
     * writes the new access count and time back to its row.
     */
    method RetrieveMemory(id: string, now: Time) returns (r: Retrieval)
      requires Valid()
      modifies store
      ensures Valid()
      ensures id !in old(store.memoryRows) ==> r == NotFound
      ensures id in old(store.memoryRows) && ParseMemoryRow(old(store.memoryRows)[id], now).None? ==> r == Unreadable
      ensures !r.Retrieved? ==> store.memoryRows == old(store.memoryRows) && store.memoryKeys == old(store.memoryKeys)
      ensures r.Retrieved? ==> id in old(store.memoryRows) && fresh(r.memory)
      ensures r.Retrieved? ==>
                (var f := ParseMemoryRow(old(store.memoryRows)[id], now);
                 f.Some? && FieldsOf(r.memory) == f.value.(accessCount := f.value.accessCount + 1, lastAccessed := Some(now)))
      ensures r.Retrieved? ==>
                store.memoryRows == if store.online then old(store.memoryRows)[id := AccessedRow(old(store.memoryRows)[id], now)]
                                    else old(store.memoryRows)
      ensures store.memoryKeys == old(store.memoryKeys)
      ensures store.sessionRows == old(store.sessionRows) && store.sessionKeys == old(store.sessionKeys)
      ensures store.messages == old(store.messages)
    {
      var row := store.FindMemory(id);
      if row.None? {
        return NotFound;
      }
      var f := ParseMemoryRow(row.value, now);
      if f.None? {
        return Unreadable;
      }
      var m := Materialize(f.value);
      m.UpdateAccess(now);
      var _ := store.SaveMemory(AccessedRow(row.value, now));
      r := Retrieved(m);
    }

    /** `delete_memory` */
    method DeleteMemory(id: string) returns (ok: bool)
      requires Valid()
      modifies store
      ensures Valid() && ok == store.online
      ensures ok ==> id !in store.memoryRows
      ensures store.memoryRows == if ok then old(store.memoryRows) - {id} else old(store.memoryRows)
      ensures store.memoryKeys == if ok then Without(old(store.memoryKeys), {id}) else old(store.memoryKeys)
      ensures store.sessionRows == old(store.sessionRows) && store.sessionKeys == old(store.sessionKeys)
      ensures store.messages == old(store.messages)
    {
      ok := store.DeleteMemory(id);
    }

    /**
     * `search_memories`: the store's matching rows (newest first, at most
     * 20) rebuilt as memories and ranked by relevance; the tag filter is
     * not applied. None stands for a row that does not convert.
     */
    method SearchMemories(u: string, query: string, memoryType: Option<MemoryType>, tags: seq<string>, now: Time)
      returns (results: Option<seq<(Memory, real)>>, ghost ms: seq<Memory>)
      requires Valid()
      ensures var rows := store.SearchMemoryRows(u, query, TypeValueOf(memoryType));
              results.None? <==> exists i :: 0 <= i < |rows| && ParseMemoryRow(rows[i], now).None?
      ensures var rows := store.SearchMemoryRows(u, query, TypeValueOf(memoryType));
              results.Some? ==> |ms| == |rows| && RebuiltFrom(ms, rows, now)
      ensures results.Some? ==> results.value == HitPairs(Ranked(ms, Lower(query), None, [], None, now))
    {
      var rows := store.SearchMemoryRows(u, query, TypeValueOf(memoryType));
      var built := RebuildAll(rows, now);
      if built.None? {
        assert rows == store.SearchMemoryRows(u, query, TypeValueOf(memoryType));
        return None, [];
      }
      ms := built.value;
      var hits := ScanMemories(built.value, Lower(query), None, [], None, now);
      results := Some(HitPairs(SortDesc(hits, HitRank)));
    }
  }

  // ---------------------------------------------------------------------------
  // SessionRegistry

  /**
   * The registry over one of the two session backends, chosen once. Its
   * memory-bank half only forwards calls and is not part of this model.
   */
  class SessionRegistry {
    const usePersistence: bool
    const local: InMemorySessionService?
    const persistent: PersistentSessionService?

    function Backend(): set<object>
      reads this, persistent
    {
      (if local != null then {local} else {}) + (if persistent != null then {persistent.store} else {})
    }

    ghost predicate Valid()
      reads this, local, persistent, Backend()
    {
      (usePersistence <==> persistent != null) && (usePersistence <==> local == null)
      && (local != null ==> local.Valid())
      && (persistent != null ==> persistent.Valid())
    }

    constructor (usePersistence: bool, store: Store)
      requires store.Valid() && SessionRowsParse(store)
      ensures Valid() && this.usePersistence == usePersistence
      ensures usePersistence ==> persistent.store == store
      ensures !usePersistence ==> fresh(local) && local.sessions == map[] && local.index == map[]
    {
      this.usePersistence := usePersistence;
      if usePersistence {
        local := null;
        persistent := new PersistentSessionService(store);
      } else {
        local := new InMemorySessionService();
        persistent := null;
      }
    }

    /**
     * `create_session` as written: creates, then activates by id when asked,
     * and returns the created object. With the persistent backend the
     * activation goes to a copy rebuilt from the row, so the returned
     * session is still CREATED while the stored row is ACTIVE.
     */
    method CreateSession(freshId: string, userId: string, ttlSeconds: int, metadata: Fields,
                         activate: bool, now: Time) returns (s: Session)
      requires Valid()
      requires local != null ==> freshId !in local.sessions
      requires persistent != null ==> freshId !in persistent.store.sessionRows
      modifies Backend()
      ensures Valid() && fresh(s) && s.id == freshId && s.userId == userId && s.messages == []
      ensures local != null ==>
                s.State() == (if activate then Activated(Initial(ttlSeconds, metadata, now), now)
                              else Initial(ttlSeconds, metadata, now))
                && local.sessions == old(local.sessions)[freshId := s]
                && local.index == old(local.index)[userId := IdsOf(old(local.index), userId) + [freshId]]
      ensures persistent != null ==>
                s.State() == Initial(ttlSeconds, metadata, now)
                && persistent.store.sessionRows
                   == if persistent.store.online
                      then old(persistent.store.sessionRows)[freshId := SessionRowOf(freshId, userId,
                             if activate then Activated(Initial(ttlSeconds, metadata, now), now)
                             else Initial(ttlSeconds, metadata, now))]
                      else old(persistent.store.sessionRows)
    {
      if local != null {
        s := local.CreateSession(freshId, userId, ttlSeconds, metadata, now);
        if activate {
          var _ := local.ActivateSession(s.id, now);
        }
      } else {
        s := persistent.CreateSession(freshId, userId, ttlSeconds, metadata, now);
        if activate {
          SessionRowRoundTrip(freshId, userId, Initial(ttlSeconds, metadata, now), now);
          var _ := persistent.ActivateSession(s.id, now);
        }
      }
    }

    /**
     * `create_session` as evidently intended: the session returned is the
     * activated one, with either backend.
     */
    method CreateSessionActivated(freshId: string, userId: string, ttlSeconds: int, metadata: Fields,
                                  activate: bool, now: Time) returns (s: Session)
      requires Valid()
      requires local != null ==> freshId !in local.sessions
      requires persistent != null ==> freshId !in persistent.store.sessionRows
      modifies Backend()
      ensures Valid() && fresh(s) && s.id == freshId && s.userId == userId && s.messages == []
      ensures activate && (local != null || persistent.store.online) ==>
                s.State() == Activated(Initial(ttlSeconds, metadata, now), now)
      ensures !activate || (persistent != null && !persistent.store.online) ==>
                s.State() == Initial(ttlSeconds, metadata, now)
      ensures local != null ==> local.sessions == old(local.sessions)[freshId := s]
      ensures persistent != null ==>
                persistent.store.sessionRows
                == if persistent.store.online
                   then old(persistent.store.sessionRows)[freshId := SessionRowOf(s.id, s.userId, s.State())]
                   else old(persistent.store.sessionRows)
    {
      if local != null {
        s := local.CreateSession(freshId, userId, ttlSeconds, metadata, now);
        if activate {
          var _ := local.ActivateSession(s.id, now);
        }
      } else {
        s := persistent.CreateSession(freshId, userId, ttlSeconds, metadata, now);
        if activate {
          SessionRowRoundTrip(freshId, userId, Initial(ttlSeconds, metadata, now), now);
          var a := persistent.ActivateSession(s.id, now);
          if a != null {
            s := a;
          }
        }
      }
    }
  }

  /** The persistent registry's returned session and its stored row always differ in status. */
  lemma CreatedIsNotActivated(ttlSeconds: int, metadata: Fields, now: Time)
    ensures Initial(ttlSeconds, metadata, now).status == Created
    ensures Activated(Initial(ttlSeconds, metadata, now), now).status == Active
    ensures SessionRowOf("s", "u", Initial(ttlSeconds, metadata, now))
            != SessionRowOf("s", "u", Activated(Initial(ttlSeconds, metadata, now), now))
  {
  }
}
