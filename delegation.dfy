/**
 * Delegation tracking (src/tools/delegation.py): a log of delegations
 * between agents, each identified by its index in the log, and a per-user
 * list of pending notifications that the user interface clears after
 * showing them.
 *
 * Timestamps are ISO strings passed in as `now`. The module-level
 * `delegation_tracker` is the `tracker` parameter of the free operations.
 */
module Delegation {
  import opened Prelude

  /** A delegation record. `status` is "initiated" or "completed". */
  datatype DelegationRecord = DelegationRecord(
    id: nat, timestamp: string, userId: string, fromAgent: string, toAgent: string,
    task: string, notification: string, status: string,
    completionTimestamp: Option<string>, resultSummary: Option<string>)

  /** The notifications logged for `user`, oldest first. */
  function NotificationsFor(ds: seq<DelegationRecord>, user: string): (r: seq<string>)
    ensures |r| <= |ds|
  {
    if ds == [] then []
    else
      var last := ds[|ds| - 1];
      NotificationsFor(ds[..|ds| - 1], user) + (if last.userId == user then [last.notification] else [])
  }

  /** Replacing a record by one with the same user and notification keeps every user's notifications. */
  lemma {:induction false} NotificationsForUpdate(ds: seq<DelegationRecord>, i: nat, d: DelegationRecord, user: string)
    requires i < |ds| && d.userId == ds[i].userId && d.notification == ds[i].notification
    ensures NotificationsFor(ds[i := d], user) == NotificationsFor(ds, user)
    decreases |ds|
  {
    var ds' := ds[i := d];
    if i < |ds| - 1 {
      assert ds'[..|ds'| - 1] == ds[..|ds| - 1][i := d];
      NotificationsForUpdate(ds[..|ds| - 1], i, d, user);
    } else {
      assert ds'[..|ds'| - 1] == ds[..|ds| - 1];
    }
  }

  /** Logging a record adds its notification to its own user's list only. */
  lemma NotificationsForAppend(ds: seq<DelegationRecord>, d: DelegationRecord, u: string)
    ensures NotificationsFor(ds + [d], u) == NotificationsFor(ds, u) + (if d.userId == u then [d.notification] else [])
  {
    assert (ds + [d])[..|ds|] == ds;
  }

  lemma SuffixAppend(a: seq<string>, b: seq<string>, x: string)
    requires IsSuffix(a, b)
    ensures IsSuffix(a + [x], b + [x])
  {
    assert (b + [x])[|b| - |a|..] == b[|b| - |a|..] + [x];
  }

  /** `[d for d in delegations if d["user_id"] == user]` */
  function ByUser(ds: seq<DelegationRecord>, user: string): (r: seq<DelegationRecord>)
    ensures |r| <= |ds|
    ensures forall d :: d in r <==> d in ds && d.userId == user
  {
    if ds == [] then []
    else
      var last := ds[|ds| - 1];
      assert ds == ds[..|ds| - 1] + [last];
      ByUser(ds[..|ds| - 1], user) + (if last.userId == user then [last] else [])
  }

  /** Python's truth test on the optional `user_id` argument. */
  predicate Truthy(user: Option<string>) {
    user.Some? && user.value != ""
  }

  /** The records `get_delegation_history` selects before the limit applies. */
  function Selected(ds: seq<DelegationRecord>, user: Option<string>): seq<DelegationRecord> {
    if Truthy(user) then ByUser(ds, user.value) else ds
  }

  /**
   * `get_delegation_history`: the selected records, cut to the last `limit`
   * when the limit is non-zero (with Python's meaning of a negative slice
   * bound).
   */
  function HistoryOf(ds: seq<DelegationRecord>, user: Option<string>, limit: int): (r: seq<DelegationRecord>)
    ensures IsSuffix(r, Selected(ds, user))
    ensures limit > 0 ==> |r| == if limit < |Selected(ds, user)| then limit else |Selected(ds, user)|
    ensures limit == 0 ==> r == Selected(ds, user)
    ensures forall d :: d in r ==> d in ds && (Truthy(user) ==> d.userId == user.value)
  {
    var history := Selected(ds, user);
    var r := if limit != 0 then SliceFromEnd(history, limit) else history;
    assert forall d :: d in r ==> d in history by {
      forall d | d in r
        ensures d in history
      {
        var k :| 0 <= k < |r| && r[k] == d;
        assert r[k] == history[|history| - |r| + k];
      }
    }
    r
  }

  /**
   * Every record's id is its index; every user with a delegation has a
   * notification list; and a user's list holds the newest notifications
   * logged for them.
   */
  ghost predicate Consistent(ds: seq<DelegationRecord>, notes: map<string, seq<string>>) {
    && (forall i :: 0 <= i < |ds| ==> ds[i].id == i)
    && (forall i :: 0 <= i < |ds| ==> ds[i].userId in notes)
    && (forall u :: u in notes ==> IsSuffix(notes[u], NotificationsFor(ds, u)))
  }

  /** Logging the next record and queueing its notification for its user keeps the log consistent. */
  lemma LogKeepsConsistent(ds: seq<DelegationRecord>, notes: map<string, seq<string>>, r: DelegationRecord,
                           pending: seq<string>)
    requires Consistent(ds, notes) && r.id == |ds|
    requires pending == if r.userId in notes then notes[r.userId] else []
    ensures Consistent(ds + [r], notes[r.userId := pending + [r.notification]])
  {
    var ds', notes' := ds + [r], notes[r.userId := pending + [r.notification]];
    forall i | 0 <= i < |ds'| ensures ds'[i].id == i && ds'[i].userId in notes' {
      if i < |ds| {
        assert ds'[i] == ds[i];
      }
    }
    forall u | u in notes' ensures IsSuffix(notes'[u], NotificationsFor(ds', u)) {
      if u == r.userId {
        QueueKeepsSuffix(ds, r, pending, u);
      } else {
        QueueKeepsSuffix(ds, r, notes[u], u);
      }
    }
  }

  /** A user's queue stays a suffix of their notifications when a record is logged, for them or not. */
  lemma QueueKeepsSuffix(ds: seq<DelegationRecord>, r: DelegationRecord, queue: seq<string>, u: string)
    requires IsSuffix(queue, NotificationsFor(ds, u))
    ensures IsSuffix(if r.userId == u then queue + [r.notification] else queue, NotificationsFor(ds + [r], u))
  {
    NotificationsForAppend(ds, r, u);
    if r.userId == u {
      SuffixAppend(queue, NotificationsFor(ds, u), r.notification);
    }
  }

  class DelegationTracker {
    var delegations: seq<DelegationRecord>
    var userNotifications: map<string, seq<string>>

    /**
     * Every record's id is its index; every user with a delegation has a
     * notification list; and a user's list holds the newest notifications
     * logged for them, since their last clear.
     */
    ghost predicate Valid()
      reads this
    {
      Consistent(delegations, userNotifications)
    }

    constructor()
      ensures Valid() && delegations == [] && userNotifications == map[]
    {
      delegations := [];
      userNotifications := map[];
    }

    /** `get_user_notifications`: the user's pending notifications, [] for an unknown user. */
    function GetUserNotifications(user: string): (r: seq<string>)
      reads this
      ensures Valid() ==> IsSuffix(r, NotificationsFor(delegations, user))
      ensures user !in userNotifications ==> r == []
    {
      if user in userNotifications then userNotifications[user] else []
    }

    /** `log_delegation`: appends a record whose id is its index and queues the notification. */
    method LogDelegation(user: string, fromAgent: string, toAgent: string, task: string, notification: string,
                         now: string) returns (r: DelegationRecord)
      requires Valid()
      modifies this
      ensures Valid()
      ensures r == DelegationRecord(|old(delegations)|, now, user, fromAgent, toAgent, task, notification,
                                    "initiated", None, None)
      ensures delegations == old(delegations) + [r] && delegations[r.id] == r
      ensures userNotifications == old(userNotifications)[user := old(GetUserNotifications(user)) + [notification]]
      ensures GetUserNotifications(user) == old(GetUserNotifications(user)) + [notification]
    {
      r := DelegationRecord(|delegations|, now, user, fromAgent, toAgent, task, notification, "initiated", None, None);
      var pending := GetUserNotifications(user);
      LogKeepsConsistent(delegations, userNotifications, r, pending);
      delegations := delegations + [r];
      userNotifications := userNotifications[user := pending + [notification]];
    }

    /**
     * `mark_delegation_complete`: an id inside the log completes that record
     * in place and returns it; any other id returns None and changes nothing.
     */
    method MarkDelegationComplete(id: int, resultSummary: Option<string>, now: string)
      returns (r: Option<DelegationRecord>)
      requires Valid()
      modifies this
      ensures Valid() && userNotifications == old(userNotifications)
      ensures 0 <= id < |old(delegations)| ==>
        && r == Some(old(delegations)[id].(status := "completed", completionTimestamp := Some(now),
                                           resultSummary := resultSummary))
        && delegations == old(delegations)[id := r.value]
      ensures !(0 <= id < |old(delegations)|) ==> r == None && delegations == old(delegations)
    {
      if 0 <= id < |delegations| {
        var d := delegations[id].(status := "completed", completionTimestamp := Some(now),
                                  resultSummary := resultSummary);
        ghost var before := delegations;
        delegations := delegations[id := d];
        forall u | u in userNotifications
          ensures IsSuffix(userNotifications[u], NotificationsFor(delegations, u))
        {
          NotificationsForUpdate(before, id, d, u);
        }
        return Some(d);
      }
      return None;
    }

    /** `clear_user_notifications`: empties the list of a known user; an unknown user gets no entry. */
    method ClearUserNotifications(user: string)
      requires Valid()
      modifies this
      ensures Valid() && delegations == old(delegations)
      ensures userNotifications == if user in old(userNotifications) then old(userNotifications)[user := []]
                                   else old(userNotifications)
      ensures GetUserNotifications(user) == []
      ensures forall u :: u != user ==> GetUserNotifications(u) == old(GetUserNotifications(u))
    {
      if user in userNotifications {
        userNotifications := userNotifications[user := []];
      }
    }

    /** `get_delegation_history` */
    function GetDelegationHistory(user: Option<string>, limit: int): (r: seq<DelegationRecord>)
      reads this
      ensures r == HistoryOf(delegations, user, limit)
      ensures forall d :: d in r ==> d in delegations
    {
      HistoryOf(delegations, user, limit)
    }
  }

  /** The text of the template `notify_user_of_delegation` picks for an agent, up to the reason. */
  function NoticeOpening(delegatedTo: string): string {
    if delegatedTo == "carbon_calculator_agent" then
      "I'm delegating this to our carbon footprint specialist who will provide detailed calculations for "
    else if delegatedTo == "recommendation_agent" then
      "I'm passing this to our recommendation specialist to provide personalized sustainability advice on "
    else if delegatedTo == "progress_tracker_agent" then
      "I'm delegating this to our progress tracking specialist to help you monitor and celebrate your "
    else if delegatedTo == "community_agent" then
      "I'm connecting you with our community specialist who can help with "
    else
      "I'm delegating this to a specialist to help with "
  }

  /** The notification for a delegation: every template ends with the reason and a full stop. */
  function NotificationFor(delegatedTo: string, reason: string): (r: string)
    ensures |r| > |reason| && r[|r| - |reason| - 1..] == reason + "."
  {
    var opening := NoticeOpening(delegatedTo);
    EndsWith(opening, reason + ".");
    opening + reason + "."
  }

  /** A concatenation ends with its second part. */
  lemma EndsWith(head: string, tail: string)
    ensures (head + tail)[|head + tail| - |tail|..] == tail
  {
  }

  /** Any agent outside the four named ones gets the generic notification. */
  lemma UnknownAgentGetsGenericNotice(delegatedTo: string, reason: string)
    requires delegatedTo !in {"carbon_calculator_agent", "recommendation_agent", "progress_tracker_agent", "community_agent"}
    ensures NotificationFor(delegatedTo, reason) == "I'm delegating this to a specialist to help with " + reason + "."
  {
  }

  /** The context's user id, or "user" when there is no context or it has no user id. */
  function NotifiedUser(context: Option<ToolContext>): (r: string)
    ensures context.None? ==> r == "user"
    ensures context.Some? && context.value.userId.Some? ==> r == context.value.userId.value
  {
    if context.Some? && context.value.userId.Some? then context.value.userId.value else "user"
  }

  /**
   * `notify_user_of_delegation`: logs a delegation from the root agent with
   * the agent's template as both the notification and the return value.
   */
  method NotifyUserOfDelegation(tracker: DelegationTracker, delegatedTo: string, reason: string,
                                context: Option<ToolContext>, now: string) returns (notification: string)
    requires tracker.Valid()
    modifies tracker
    ensures tracker.Valid()
    ensures notification == NotificationFor(delegatedTo, reason)
    ensures tracker.delegations == old(tracker.delegations) + [DelegationRecord(
      |old(tracker.delegations)|, now, NotifiedUser(context), "root_agent", delegatedTo, reason, notification,
      "initiated", None, None)]
    ensures tracker.GetUserNotifications(NotifiedUser(context))
      == old(tracker.GetUserNotifications(NotifiedUser(context))) + [notification]
  {
    notification := NotificationFor(delegatedTo, reason);
    var _ := tracker.LogDelegation(NotifiedUser(context), "root_agent", delegatedTo, reason, notification, now);
  }

  /** The dict `log_delegation_completion` returns. */
  datatype CompletionRecord = CompletionRecord(timestamp: string, userId: string, fromAgent: string,
                                               toAgent: string, resultSummary: string, status: string)

  /** `log_delegation_completion` builds a record and touches no tracker. */
  function LogDelegationCompletion(user: string, fromAgent: string, toAgent: string, resultSummary: string,
                                   now: string): (r: CompletionRecord)
    ensures r.status == "completed" && r.timestamp == now
    ensures r.userId == user && r.fromAgent == fromAgent && r.toAgent == toAgent && r.resultSummary == resultSummary
  {
    CompletionRecord(now, user, fromAgent, toAgent, resultSummary, "completed")
  }

  // ---------------------------------------------------------------------------
  // get_delegation_stats

  /** The dict `get_delegation_stats` returns; `byAgent` keeps the dict's insertion order. */
  datatype DelegationStats = DelegationStats(totalDelegations: nat, byAgent: seq<(string, nat)>,
                                             recentDelegations: seq<DelegationRecord>,
                                             pendingNotifications: seq<string>)

  /** `counts.get(agent, 0)` */
  function CountOf(counts: seq<(string, nat)>, agent: string): nat {
    if counts == [] then 0 else if counts[0].0 == agent then counts[0].1 else CountOf(counts[1..], agent)
  }

  /** `counts[agent] = counts.get(agent, 0) + 1` on an insertion-ordered dict. */
  function Bump(counts: seq<(string, nat)>, agent: string): seq<(string, nat)> {
    if counts == [] then [(agent, 1)]
    else if counts[0].0 == agent then [(agent, counts[0].1 + 1)] + counts[1..]
    else [counts[0]] + Bump(counts[1..], agent)
  }

  predicate DistinctAgents(counts: seq<(string, nat)>) {
    forall i, j :: 0 <= i < j < |counts| ==> counts[i].0 != counts[j].0
  }

  function Total(counts: seq<(string, nat)>): nat {
    if counts == [] then 0 else counts[0].1 + Total(counts[1..])
  }

  /** The counts the loop has built after the records of `h`. */
  function Tally(h: seq<DelegationRecord>): seq<(string, nat)> {
    if h == [] then [] else Bump(Tally(h[..|h| - 1]), h[|h| - 1].toAgent)
  }

  /** How many records of `h` went to `agent`. */
  function Occurrences(h: seq<DelegationRecord>, agent: string): nat {
    if h == [] then 0 else Occurrences(h[..|h| - 1], agent) + (if h[|h| - 1].toAgent == agent then 1 else 0)
  }

  /** The agents a count list holds. */
  function AgentsOf(counts: seq<(string, nat)>): set<string> {
    set i | 0 <= i < |counts| :: counts[i].0
  }

  lemma AgentsOfCons(x: (string, nat), counts: seq<(string, nat)>)
    ensures AgentsOf([x] + counts) == {x.0} + AgentsOf(counts)
  {
    var r := [x] + counts;
    forall a | a in AgentsOf(r)
      ensures a in {x.0} + AgentsOf(counts)
    {
      var i :| 0 <= i < |r| && r[i].0 == a;
      if i > 0 {
        assert counts[i - 1].0 == a;
      }
    }
    forall a | a in AgentsOf(counts)
      ensures a in AgentsOf(r)
    {
      var i :| 0 <= i < |counts| && counts[i].0 == a;
      assert r[i + 1].0 == a;
    }
    assert r[0].0 == x.0;
  }

  /** An agent the list does not hold counts 0. */
  lemma {:induction false} MissingCountsZero(counts: seq<(string, nat)>, b: string)
    requires b !in AgentsOf(counts)
    ensures CountOf(counts, b) == 0
  {
    if counts != [] {
      AgentsOfCons(counts[0], counts[1..]);
      assert counts == [counts[0]] + counts[1..];
      MissingCountsZero(counts[1..], b);
    }
  }

  /** One increment adds one to that agent's count and to the total, and keeps the agents distinct. */
  lemma {:induction false} BumpCounts(counts: seq<(string, nat)>, agent: string)
    requires DistinctAgents(counts)
    ensures AgentsOf(Bump(counts, agent)) == AgentsOf(counts) + {agent}
    ensures DistinctAgents(Bump(counts, agent))
    ensures forall b :: CountOf(Bump(counts, agent), b) == CountOf(counts, b) + (if b == agent then 1 else 0)
    ensures Total(Bump(counts, agent)) == Total(counts) + 1
  {
    var r := Bump(counts, agent);
    if counts == [] {
      assert AgentsOf(r) == {agent} by {
        assert r[0].0 == agent;
      }
    } else {
      var tail := counts[1..];
      assert counts == [counts[0]] + tail;
      AgentsOfCons(counts[0], tail);
      assert counts[0].0 !in AgentsOf(tail);
      if counts[0].0 == agent {
        assert r == [(agent, counts[0].1 + 1)] + tail;
        AgentsOfCons((agent, counts[0].1 + 1), tail);
        assert r[1..] == tail;
        MissingCountsZero(tail, agent);
      } else {
        assert DistinctAgents(tail) by {
          forall i, j | 0 <= i < j < |tail|
            ensures tail[i].0 != tail[j].0
          {
            assert tail[i] == counts[i + 1] && tail[j] == counts[j + 1];
          }
        }
        BumpCounts(tail, agent);
        var rest := Bump(tail, agent);
        assert r == [counts[0]] + rest;
        AgentsOfCons(counts[0], rest);
        assert r[1..] == rest;
        forall i, j | 0 <= i < j < |r|
          ensures r[i].0 != r[j].0
        {
          if i == 0 {
            assert r[j].0 in AgentsOf(rest) by {
              assert r[j] == rest[j - 1];
            }
          } else {
            assert r[i] == rest[i - 1] && r[j] == rest[j - 1];
          }
        }
      }
    }
  }

  /** The agents the records of `h` went to. */
  function TargetsOf(h: seq<DelegationRecord>): set<string> {
    set d | d in h :: d.toAgent
  }

  /**
   * The loop's counts hold each target agent once, count exactly the records
   * that went to it, and add up to the number of records.
   */
  lemma {:induction false} TallyCounts(h: seq<DelegationRecord>)
    ensures DistinctAgents(Tally(h))
    ensures AgentsOf(Tally(h)) == TargetsOf(h)
    ensures forall a :: CountOf(Tally(h), a) == Occurrences(h, a)
    ensures Total(Tally(h)) == |h|
  {
    if h == [] {
      assert AgentsOf([]) == {};
    } else {
      var init, last := h[..|h| - 1], h[|h| - 1];
      TallyCounts(init);
      BumpCounts(Tally(init), last.toAgent);
      assert h == init + [last];
      assert TargetsOf(h) == TargetsOf(init) + {last.toAgent} by {
        forall a | a in TargetsOf(h)
          ensures a in TargetsOf(init) + {last.toAgent}
        {
          var d :| d in h && d.toAgent == a;
          if d != last {
            assert d in init;
          }
        }
      }
    }
  }

  /**
   * The counting loop of `get_delegation_stats` over an already selected
   * history, with the last five records and the given pending list.
   */
  method TallyStats(history: seq<DelegationRecord>, pending: seq<string>) returns (stats: DelegationStats)
    ensures stats.totalDelegations == |history| == Total(stats.byAgent)
    ensures DistinctAgents(stats.byAgent) && AgentsOf(stats.byAgent) == TargetsOf(history)
    ensures forall a :: CountOf(stats.byAgent, a) == Occurrences(history, a)
    ensures stats.recentDelegations == TakeLast(history, 5)
    ensures stats.pendingNotifications == pending
  {
    var byAgent: seq<(string, nat)> := [];
    var i := 0;
    while i < |history|
      invariant 0 <= i <= |history|
      invariant byAgent == Tally(history[..i])
    {
      assert history[..i + 1][..i] == history[..i];
      byAgent := Bump(byAgent, history[i].toAgent);
      i := i + 1;
    }
    assert history[..i] == history;
    TallyCounts(history);
    var recent := if history != [] then TakeLast(history, 5) else [];
    stats := DelegationStats(|history|, byAgent, recent, pending);
  }

  /**
   * `get_delegation_stats`: the statistics of the user's history as
   * `get_delegation_history` returns it with its default limit of 10.
   */
  method GetDelegationStats(tracker: DelegationTracker, user: Option<string>) returns (stats: DelegationStats)
    ensures stats.totalDelegations == |tracker.GetDelegationHistory(user, 10)|
    ensures stats.totalDelegations <= 10 && stats.totalDelegations == Total(stats.byAgent)
    ensures forall a :: CountOf(stats.byAgent, a) == Occurrences(tracker.GetDelegationHistory(user, 10), a)
    ensures stats.recentDelegations == TakeLast(tracker.GetDelegationHistory(user, 10), 5)
    ensures stats.pendingNotifications == if Truthy(user) then tracker.GetUserNotifications(user.value) else []
  {
    var history := tracker.GetDelegationHistory(user, 10);
    var pending := if Truthy(user) then tracker.GetUserNotifications(user.value) else [];
    stats := TallyStats(history, pending);
  }

  /** As written, the statistics never see more than the last ten records: eleven are reported as ten. */
  lemma StatsSeeOnlyTen(ds: seq<DelegationRecord>, user: Option<string>)
    requires |Selected(ds, user)| == 11
    ensures |HistoryOf(ds, user, 10)| == 10 < |Selected(ds, user)|
  {
  }

  /** The statistics over the user's whole history, which the totals are evidently meant to cover. */
  method GetDelegationStatsIntended(tracker: DelegationTracker, user: Option<string>) returns (stats: DelegationStats)
    ensures stats.totalDelegations == |Selected(tracker.delegations, user)| == Total(stats.byAgent)
    ensures forall a :: CountOf(stats.byAgent, a) == Occurrences(Selected(tracker.delegations, user), a)
    ensures stats.recentDelegations == TakeLast(Selected(tracker.delegations, user), 5)
    ensures stats.pendingNotifications == if Truthy(user) then tracker.GetUserNotifications(user.value) else []
  {
    var history := tracker.GetDelegationHistory(user, 0);
    var pending := if Truthy(user) then tracker.GetUserNotifications(user.value) else [];
    stats := TallyStats(history, pending);
  }
}
