/**
 * Sessions (ecoagent/sessions_and_memory.py): the session status machine
 * with lazy expiry, the session manager's per-user index, and the
 * `create_session` tool.
 *
 * A session's fields, apart from its message list, are gathered in the
 * value `SessionState`; each transition of the `Session` class is tied to a
 * pure function on that value, and the properties of the status machine are
 * proved about those functions.
 */
module Sessions {
  import opened Prelude

  datatype SessionStatus = Created | Active | Paused | Closed | Expired

  /** The enum's value, as stored in a session row. */
  function StatusValue(s: SessionStatus): string {
    match s
    case Created => "created"
    case Active => "active"
    case Paused => "paused"
    case Closed => "closed"
    case Expired => "expired"
  }

  /** `SessionStatus(value)`; None where Python raises ValueError. */
  function StatusByValue(v: string): (r: Option<SessionStatus>)
    ensures r.Some? ==> StatusValue(r.value) == v
    ensures r.None? ==> forall s :: StatusValue(s) != v
  {
    if v == "created" then Some(Created)
    else if v == "active" then Some(Active)
    else if v == "paused" then Some(Paused)
    else if v == "closed" then Some(Closed)
    else if v == "expired" then Some(Expired)
    else None
  }

  /** One entry of a session's message list. */
  datatype Message = Message(role: string, content: string, timestamp: Time, metadata: Fields)

  /** A session's fields other than its identity and its messages. */
  datatype SessionState = SessionState(
    status: SessionStatus,
    createdAt: Time,
    startedAt: Option<Time>,
    pausedAt: Option<Time>,
    closedAt: Option<Time>,
    expiresAt: Option<Time>,
    ttlSeconds: int,
    totalInteractions: int,
    context: Fields,
    metadata: Fields)

  /** A session as the dataclass builds it: CREATED, nothing started, no deadline. */
  function Initial(ttlSeconds: int, metadata: Fields, now: Time): SessionState {
    SessionState(Created, now, None, None, None, None, ttlSeconds, 0, [], metadata)
  }

  /** `activate`: unconditional; starts the session and sets its deadline. */
  function Activated(st: SessionState, now: Time): (r: SessionState)
    ensures r.status == Active && r.startedAt == Some(now)
    ensures r.expiresAt == Some(now + st.ttlSeconds as real)
  {
    st.(status := Active, startedAt := Some(now), expiresAt := Some(now + st.ttlSeconds as real))
  }

  /** `pause`: unconditional. */
  function PausedAt(st: SessionState, now: Time): (r: SessionState)
    ensures r.status == Paused && r.pausedAt == Some(now) && r.expiresAt == st.expiresAt
  {
    st.(status := Paused, pausedAt := Some(now))
  }

  /** `resume`: only a PAUSED session changes; it becomes ACTIVE with a new deadline. */
  function Resumed(st: SessionState, now: Time): (r: SessionState)
    ensures r != st <==> st.status == Paused
    ensures st.status == Paused ==> r.status == Active && r.expiresAt == Some(now + st.ttlSeconds as real)
  {
    if st.status == Paused then st.(status := Active, expiresAt := Some(now + st.ttlSeconds as real))
    else st
  }

  /** `close`: unconditional. */
  function ClosedAt(st: SessionState, now: Time): (r: SessionState)
    ensures r.status == Closed && r.closedAt == Some(now) && r.expiresAt == st.expiresAt
  {
    st.(status := Closed, closedAt := Some(now))
  }

  /** `is_expired`: past a deadline; a session without one never expires. */
  predicate IsExpired(st: SessionState, now: Time) {
    st.expiresAt.Some? && now > st.expiresAt.value
  }

  /** `is_active` */
  predicate IsActive(st: SessionState, now: Time) {
    st.status == Active && !IsExpired(st, now)
  }

  /** What `add_message` does to a session's fields. */
  function WithInteraction(st: SessionState): (r: SessionState)
    ensures r.totalInteractions == st.totalInteractions + 1
  {
    st.(totalInteractions := st.totalInteractions + 1)
  }

  /** `get_duration_seconds`: from start (or creation) to close (or now). */
  function Duration(st: SessionState, now: Time): real {
    (if st.closedAt.Some? then st.closedAt.value else now)
    - (if st.startedAt.Some? then st.startedAt.value else st.createdAt)
  }

  /** Expiry is final: once past its deadline a session stays expired, and inactive, at every later time. */
  lemma ExpiryIsFinal(st: SessionState, t: Time, u: Time)
    requires IsExpired(st, t) && t <= u
    ensures IsExpired(st, u) && !IsActive(st, u)
  {
  }

  /** An open session's duration grows with the clock; a closed session's duration is fixed. */
  lemma DurationFollowsClock(st: SessionState, t: Time, u: Time)
    ensures st.closedAt.None? ==> Duration(st, u) - Duration(st, t) == u - t
    ensures st.closedAt.Some? ==> Duration(st, u) == Duration(st, t)
  {
  }

  /** An activated session is active exactly until its deadline `now + ttl`. */
  lemma ActivatedLiveUntilDeadline(st: SessionState, now: Time, t: Time)
    ensures IsActive(Activated(st, now), t) <==> t <= now + st.ttlSeconds as real
    ensures IsExpired(Activated(st, now), t) <==> t > now + st.ttlSeconds as real
  {
  }

  /** A session with no deadline is never expired, whatever its status. */
  lemma NoDeadlineNeverExpires(st: SessionState, t: Time)
    requires st.expiresAt.None?
    ensures !IsExpired(st, t)
    ensures IsActive(st, t) <==> st.status == Active
  {
  }

  /** No transition ever produces EXPIRED. */
  lemma ExpiredNeverAssigned(st: SessionState, now: Time)
    requires st.status != Expired
    ensures Activated(st, now).status != Expired && PausedAt(st, now).status != Expired
    ensures Resumed(st, now).status != Expired && ClosedAt(st, now).status != Expired
    ensures WithInteraction(st).status != Expired
  {
  }

  /**
   * Pausing then resuming makes the session ACTIVE again with a deadline
   * counted from the resume; the pause stamp is kept.
   */
  lemma PauseThenResume(st: SessionState, t1: Time, t2: Time)
    ensures Resumed(PausedAt(st, t1), t2)
            == st.(status := Active, pausedAt := Some(t1), expiresAt := Some(t2 + st.ttlSeconds as real))
  {
  }

  /** Resuming a closed session does nothing; closing does not move the deadline. */
  lemma ClosedStaysClosed(st: SessionState, t1: Time, t2: Time)
    ensures Resumed(ClosedAt(st, t1), t2) == ClosedAt(st, t1)
    ensures IsExpired(ClosedAt(st, t1), t2) <==> IsExpired(st, t2)
  {
  }

  /** The duration of a closed session no longer grows. */
  lemma ClosedDurationFixed(st: SessionState, t1: Time, t2: Time)
    requires st.closedAt.Some?
    ensures Duration(st, t1) == Duration(st, t2)
  {
  }

  class Session {
    const id: string
    const userId: string
    var status: SessionStatus
    var createdAt: Time
    var startedAt: Option<Time>
    var pausedAt: Option<Time>
    var closedAt: Option<Time>
    var expiresAt: Option<Time>
    var ttlSeconds: int
    var messages: seq<Message>
    var context: Fields
    var metadata: Fields
    var totalInteractions: int

    /** The session's fields other than its identity and messages. */
    function State(): SessionState
      reads this
    {
      SessionState(status, createdAt, startedAt, pausedAt, closedAt, expiresAt, ttlSeconds,
                   totalInteractions, context, metadata)
    }

    /** A new session, CREATED at `now` (default ttl 3600 seconds). */
    constructor (id: string, userId: string, ttlSeconds: int, metadata: Fields, now: Time)
      ensures this.id == id && this.userId == userId
      ensures State() == Initial(ttlSeconds, metadata, now) && messages == []
    {
      this.id, this.userId := id, userId;
      status, createdAt, startedAt, pausedAt, closedAt, expiresAt := Created, now, None, None, None, None;
      this.ttlSeconds, messages, context, this.metadata, totalInteractions := ttlSeconds, [], [], metadata, 0;
    }

    /** A session rebuilt from stored fields, with no messages. */
    constructor FromState(id: string, userId: string, st: SessionState)
      ensures this.id == id && this.userId == userId
      ensures State() == st && messages == []
    {
      this.id, this.userId := id, userId;
      status, createdAt, startedAt, pausedAt, closedAt := st.status, st.createdAt, st.startedAt, st.pausedAt, st.closedAt;
      expiresAt, ttlSeconds, totalInteractions := st.expiresAt, st.ttlSeconds, st.totalInteractions;
      context, metadata, messages := st.context, st.metadata, [];
    }

    method Activate(now: Time)
      modifies this
      ensures State() == Activated(old(State()), now) && messages == old(messages)
    {
      status := Active;
      startedAt := Some(now);
      expiresAt := Some(now + ttlSeconds as real);
    }

    method Pause(now: Time)
      modifies this
      ensures State() == PausedAt(old(State()), now) && messages == old(messages)
    {
      status := Paused;
      pausedAt := Some(now);
    }

    method Resume(now: Time)
      modifies this
      ensures State() == Resumed(old(State()), now) && messages == old(messages)
    {
      if status == Paused {
        status := Active;
        expiresAt := Some(now + ttlSeconds as real);
      }
    }

    method Close(now: Time)
      modifies this
      ensures State() == ClosedAt(old(State()), now) && messages == old(messages)
    {
      status := Closed;
      closedAt := Some(now);
    }

    predicate IsExpiredAt(now: Time)
      reads this
    {
      IsExpired(State(), now)
    }

    predicate IsActiveAt(now: Time)
      reads this
    {
      IsActive(State(), now)
    }

    /** `add_message`: appends exactly one message and counts one more interaction. */
    method AddMessage(role: string, content: string, metadata: Fields, now: Time)
      modifies this
      ensures messages == old(messages) + [Message(role, content, now, metadata)]
      ensures State() == WithInteraction(old(State()))
    {
      messages := messages + [Message(role, content, now, metadata)];
      totalInteractions := totalInteractions + 1;
    }
  }

  // ---------------------------------------------------------------------------
  // Views over a session index, shared by the manager and the in-memory service

  /** The ids a user index lists for u (`dict.get(u, [])`). */
  function IdsOf(index: map<string, seq<string>>, u: string): seq<string> {
    if u in index then index[u] else []
  }

  /** `[sessions[sid] for sid in ids if sid in sessions]` */
  function Present(sessions: map<string, Session>, ids: seq<string>): (r: seq<Session>)
    ensures |r| <= |ids|
    ensures forall i :: 0 <= i < |r| ==> r[i] in sessions.Values
    ensures forall sid :: sid in ids && sid in sessions ==> sessions[sid] in r
    ensures (forall sid :: sid in ids ==> sid in sessions) ==>
              |r| == |ids| && forall i :: 0 <= i < |ids| ==> r[i] == sessions[ids[i]]
  {
    if ids == [] then []
    else
      var rest := Present(sessions, ids[1..]);
      if ids[0] in sessions then [sessions[ids[0]]] + rest else rest
  }

  /** The sessions of ss active at now, in order. */
  function ActiveOnes(ss: seq<Session>, now: Time): (r: seq<Session>)
    reads set s | s in ss
    ensures |r| <= |ss|
    ensures forall i :: 0 <= i < |r| ==> r[i] in ss && r[i].IsActiveAt(now)
    ensures forall i :: 0 <= i < |ss| && ss[i].IsActiveAt(now) ==> ss[i] in r
  {
    if ss == [] then []
    else (if ss[0].IsActiveAt(now) then [ss[0]] else []) + ActiveOnes(ss[1..], now)
  }

  /** The sessions of ss whose status is CLOSED, in order. */
  function ClosedOnes(ss: seq<Session>): (r: seq<Session>)
    reads set s | s in ss
    ensures |r| <= |ss|
    ensures forall i :: 0 <= i < |r| ==> r[i] in ss && r[i].status == Closed
    ensures forall i :: 0 <= i < |ss| && ss[i].status == Closed ==> ss[i] in r
  {
    if ss == [] then []
    else (if ss[0].status == Closed then [ss[0]] else []) + ClosedOnes(ss[1..])
  }

  /** `sum(s.total_interactions for s in ss)` */
  function InteractionSum(ss: seq<Session>): (r: int)
    reads set s | s in ss
    ensures (forall i :: 0 <= i < |ss| ==> ss[i].totalInteractions >= 0) ==> r >= 0
  {
    if ss == [] then 0 else ss[0].totalInteractions + InteractionSum(ss[1..])
  }

  /** The counts `get_summary` reports. */
  datatype SessionSummary = SessionSummary(totalSessions: nat, activeSessions: nat, closedSessions: nat,
                                           totalInteractions: int, timestamp: Time)

  /** The summary of ss: an active session is never counted as closed. */
  function Summarize(ss: seq<Session>, now: Time): (r: SessionSummary)
    reads set s | s in ss
    ensures r.totalSessions == |ss| && r.timestamp == now
    ensures r.activeSessions == |ActiveOnes(ss, now)|
    ensures r.closedSessions == |ClosedOnes(ss)|
    ensures r.totalInteractions == InteractionSum(ss)
    ensures r.activeSessions + r.closedSessions <= r.totalSessions
    ensures (forall i :: 0 <= i < |ss| ==> ss[i].totalInteractions >= 0) ==> r.totalInteractions >= 0
  {
    if ss == [] then SessionSummary(0, 0, 0, 0, now)
    else
      var rest := Summarize(ss[1..], now);
      var s := ss[0];
      SessionSummary(rest.totalSessions + 1,
                     rest.activeSessions + (if s.IsActiveAt(now) then 1 else 0),
                     rest.closedSessions + (if s.status == Closed then 1 else 0),
                     rest.totalInteractions + s.totalInteractions, now)
  }

  class SessionManager {
    var sessions: map<string, Session>
    /** `user_sessions`: each user's session ids in creation order. */
    var index: map<string, seq<string>>

    ghost predicate Valid()
      reads this
    {
      (forall k :: k in sessions ==> sessions[k].id == k)
      && (forall u :: u in index ==> Distinct(index[u]))
      && (forall u, i :: u in index && 0 <= i < |index[u]| ==>
            index[u][i] in sessions && sessions[index[u][i]].userId == u)
      && (forall k :: k in sessions ==> sessions[k].userId in index && k in index[sessions[k].userId])
    }

    constructor ()
      ensures Valid() && sessions == map[] && index == map[]
    {
      sessions, index := map[], map[];
    }

    function Footprint(): set<Session>
      reads this
    {
      set k | k in sessions :: sessions[k]
    }

    /** `create_session`: stores a CREATED session and appends its id to the user's list. */
    method CreateSession(freshId: string, userId: string, ttlSeconds: int, metadata: Fields, now: Time)
      returns (s: Session)
      requires Valid() && freshId !in sessions
      modifies this
      ensures Valid() && fresh(s)
      ensures s.id == freshId && s.userId == userId
      ensures s.State() == Initial(ttlSeconds, metadata, now) && s.messages == []
      ensures sessions == old(sessions)[freshId := s]
      ensures index == old(index)[userId := IdsOf(old(index), userId) + [freshId]]
    {
      s := new Session(freshId, userId, ttlSeconds, metadata, now);
      sessions := sessions[freshId := s];
      index := index[userId := IdsOf(index, userId) + [freshId]];
    }

    method ActivateSession(id: string, now: Time) returns (s: Session?)
      requires Valid()
      modifies if id in sessions then {sessions[id]} else {}
      ensures id !in sessions ==> s == null
      ensures id in sessions ==> s == sessions[id] && s.State() == Activated(old(s.State()), now)
                                 && s.messages == old(s.messages)
    {
      if id in sessions {
        s := sessions[id];
        s.Activate(now);
      } else {
        s := null;
      }
    }

    method PauseSession(id: string, now: Time) returns (s: Session?)
      requires Valid()
      modifies if id in sessions then {sessions[id]} else {}
      ensures id !in sessions ==> s == null
      ensures id in sessions ==> s == sessions[id] && s.State() == PausedAt(old(s.State()), now)
                                 && s.messages == old(s.messages)
    {
      if id in sessions {
        s := sessions[id];
        s.Pause(now);
      } else {
        s := null;
      }
    }

    method ResumeSession(id: string, now: Time) returns (s: Session?)
      requires Valid()
      modifies if id in sessions then {sessions[id]} else {}
      ensures id !in sessions ==> s == null
      ensures id in sessions ==> s == sessions[id] && s.State() == Resumed(old(s.State()), now)
                                 && s.messages == old(s.messages)
    {
      if id in sessions {
        s := sessions[id];
        s.Resume(now);
      } else {
        s := null;
      }
    }

    method CloseSession(id: string, now: Time) returns (s: Session?)
      requires Valid()
      modifies if id in sessions then {sessions[id]} else {}
      ensures id !in sessions ==> s == null
      ensures id in sessions ==> s == sessions[id] && s.State() == ClosedAt(old(s.State()), now)
                                 && s.messages == old(s.messages)
    {
      if id in sessions {
        s := sessions[id];
        s.Close(now);
      } else {
        s := null;
      }
    }

    /** `get_session` */
    function GetSession(id: string): (r: Session?)
      reads this
      ensures r != null <==> id in sessions
    {
      if id in sessions then sessions[id] else null
    }

    /** `get_user_sessions`: exactly the user's sessions, in creation order. */
    function UserSessions(u: string): (r: seq<Session>)
      reads this
      requires Valid()
      ensures |r| == |IdsOf(index, u)|
      ensures forall i :: 0 <= i < |r| ==> r[i] == sessions[IdsOf(index, u)[i]] && r[i].userId == u
      ensures forall k :: k in sessions && sessions[k].userId == u ==> sessions[k] in r
    {
      Present(sessions, IdsOf(index, u))
    }

    /** `get_active_sessions` */
    function ActiveSessions(u: string, now: Time): (r: seq<Session>)
      reads this, Footprint()
      requires Valid()
      ensures forall i :: 0 <= i < |r| ==> r[i].userId == u && r[i].IsActiveAt(now)
      ensures forall k :: k in sessions && sessions[k].userId == u && sessions[k].IsActiveAt(now) ==>
                sessions[k] in r
    {
      var ss := UserSessions(u);
      assert (set s | s in ss) <= Footprint();
      ActiveOnes(ss, now)
    }

    /** `get_active_session`: the user's first active session in creation order. */
    method GetActiveSession(u: string, now: Time) returns (s: Session?)
      requires Valid()
      ensures s == null <==> forall i :: 0 <= i < |UserSessions(u)| ==> !UserSessions(u)[i].IsActiveAt(now)
      ensures s != null ==> s.userId == u && s.IsActiveAt(now)
      ensures s != null ==> exists i :: (0 <= i < |UserSessions(u)| && UserSessions(u)[i] == s
                && forall j :: 0 <= j < i ==> !UserSessions(u)[j].IsActiveAt(now))
    {
      var ids := IdsOf(index, u);
      ghost var ss := UserSessions(u);
      var i := 0;
      while i < |ids|
        invariant 0 <= i <= |ids|
        invariant forall j :: 0 <= j < i ==> !sessions[ids[j]].IsActiveAt(now)
      {
        var sid := ids[i];
        if sid in sessions && sessions[sid].IsActiveAt(now) {
          assert ss[i] == sessions[sid];
          return sessions[sid];
        }
        i := i + 1;
      }
      return null;
    }

    /** `get_summary` */
    function Summary(u: string, now: Time): (r: SessionSummary)
      reads this, Footprint()
      requires Valid()
      ensures r.totalSessions == |IdsOf(index, u)|
      ensures r.activeSessions == |ActiveSessions(u, now)|
      ensures r.closedSessions == |ClosedOnes(UserSessions(u))|
      ensures r.totalInteractions == InteractionSum(UserSessions(u))
      ensures r.activeSessions + r.closedSessions <= r.totalSessions
    {
      var ss := UserSessions(u);
      assert (set s | s in ss) <= Footprint();
      Summarize(ss, now)
    }

    /**
     * `cleanup_expired`: closes every session past its deadline, whatever
     * its status (closed ones included), deletes nothing, and returns how
     * many it closed.
     */
    method CleanupExpired(now: Time) returns (count: nat)
      requires Valid()
      modifies Footprint()
      ensures count == |set k | k in sessions && old(sessions[k].IsExpiredAt(now))|
      ensures forall k :: k in sessions ==>
                sessions[k].State() == (if old(sessions[k].IsExpiredAt(now))
                                        then ClosedAt(old(sessions[k].State()), now)
                                        else old(sessions[k].State()))
                && sessions[k].messages == old(sessions[k].messages)
    {
      var expired := set k | k in sessions && sessions[k].IsExpiredAt(now);
      var todo := expired;
      while todo != {}
        invariant todo <= expired
        invariant forall k :: k in sessions ==>
                    sessions[k].State() == (if k in expired - todo
                                            then ClosedAt(old(sessions[k].State()), now)
                                            else old(sessions[k].State()))
                    && sessions[k].messages == old(sessions[k].messages)
        decreases todo
      {
        var k :| k in todo;
        sessions[k].Close(now);
        todo := todo - {k};
      }
      count := |expired|;
    }
  }

  /** What the `create_session` tool returns. */
  datatype SessionCreatedReport = SessionCreated(sessionId: string, userId: string, createdAt: Time,
                                                 expiresAt: Option<Time>)

  /**
   * The `create_session` tool: creates the manager when the context has
   * none, creates the session and activates it at once.
   */
  method CreateSessionTool(slot: SessionManager?, freshId: string, userId: string, ttlSeconds: int,
                           metadata: Fields, now: Time) returns (manager: SessionManager, report: SessionCreatedReport)
    requires slot != null ==> slot.Valid() && freshId !in slot.sessions
    modifies slot
    ensures manager.Valid()
    ensures slot != null ==> manager == slot
    ensures slot == null ==> fresh(manager)
    ensures report == SessionCreated(freshId, userId, now, Some(now + ttlSeconds as real))
    ensures freshId in manager.sessions && manager.sessions[freshId].userId == userId
    ensures manager.sessions[freshId].State() == Activated(Initial(ttlSeconds, metadata, now), now)
    ensures slot == null ==> manager.sessions.Keys == {freshId} && manager.index == map[userId := [freshId]]
    ensures slot != null ==> manager.sessions == old(slot.sessions)[freshId := manager.sessions[freshId]]
                             && manager.index == old(slot.index)[userId := IdsOf(old(slot.index), userId) + [freshId]]
    ensures slot != null ==> forall k :: k in old(slot.sessions) ==>
              old(slot.sessions[k].State()) == manager.sessions[k].State()
  {
    if slot == null {
      manager := new SessionManager();
    } else {
      manager := slot;
    }
    var s := manager.CreateSession(freshId, userId, ttlSeconds, metadata, now);
    if slot == null {
      assert manager.index == map[userId := [] + [freshId]];
      assert [] + [freshId] == [freshId];
    }
    var _ := manager.ActivateSession(s.id, now);
    report := SessionCreated(s.id, userId, s.createdAt, s.expiresAt);
  }
}
