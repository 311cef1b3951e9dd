/**
 * The memory tools: an agent remembers values, lists, a user profile,
 * sustainability actions and goals, and a bounded carbon-footprint history
 * in the session state dict of its ADK tool context. The dict is modelled
 * as a class holding its entries in insertion order; every tool changes it
 * in place.
 */
module MemoryTools {
  import opened Prelude

  /** The most carbon-footprint entries the history keeps. */
  const HistoryCap: nat := 20

  /** A tool's result, or the Python exception it raises. */
  datatype Outcome<T> = Ok(value: T) | Raised(error: string)

  /** The error Python raises when `append` or `update` meets a value of the wrong type. */
  const AttributeError: string := "AttributeError"

  // ---------------------------------------------------------------------------
  // Dict and list steps

  /** Putting a key keeps the keys of a dict distinct. */
  lemma {:induction false} PutKeepsDistinct(f: Fields, k: string, v: Value)
    requires DistinctKeys(f)
    ensures DistinctKeys(Put(f, k, v))
    ensures k in Keys(Put(f, k, v))
    ensures forall j :: j in Keys(Put(f, k, v)) <==> j == k || j in Keys(f)
    decreases |f|
  {
    var r := Put(f, k, v);
    forall j ensures j in Keys(r) <==> j == k || j in Keys(f) {
      assert Get(r, j).Some? <==> j in Keys(r);
    }
    if f != [] && f[0].0 != k {
      PutKeepsDistinct(f[1..], k, v);
      var t := Put(f[1..], k, v);
      assert r == [f[0]] + t;
      forall i, j | 0 <= i < j < |r| ensures r[i].0 != r[j].0 {
        if i == 0 {
          assert r[j].0 == Keys(t)[j - 1];
          assert r[j].0 == k || r[j].0 in Keys(f[1..]);
          forall m | 0 <= m < |f[1..]| ensures f[1..][m].0 != f[0].0 {
            assert f[1..][m] == f[m + 1];
          }
        }
      }
    } else if f != [] {
      assert forall i :: 1 <= i < |r| ==> r[i] == f[i];
    }
  }

  /** A dict update: each updated entry is put in turn. */
  function Update(f: Fields, updates: Fields): (r: Fields)
    decreases |updates|
  {
    if updates == [] then f else Update(Put(f, updates[0].0, updates[0].1), updates[1..])
  }

  /**
   * After an update every updated key holds its new value and every other
   * key keeps the value it had.
   */
  lemma {:induction false} UpdateGet(f: Fields, updates: Fields, k: string)
    requires DistinctKeys(updates)
    ensures Get(Update(f, updates), k) == if k in Keys(updates) then Get(updates, k) else Get(f, k)
    decreases |updates|
  {
    if updates != [] {
      DistinctTail(updates);
      UpdateGet(Put(f, updates[0].0, updates[0].1), updates[1..], k);
    }
  }

  /** The tail of a dict with distinct keys has distinct keys, none of them the head's. */
  lemma DistinctTail(f: Fields)
    requires DistinctKeys(f) && f != []
    ensures DistinctKeys(f[1..])
    ensures f[0].0 !in Keys(f[1..])
    ensures Keys(f) == [f[0].0] + Keys(f[1..])
  {
    var rest := f[1..];
    forall i, j | 0 <= i < j < |rest| ensures rest[i].0 != rest[j].0 {
      assert rest[i] == f[i + 1] && rest[j] == f[j + 1];
    }
    forall m | 0 <= m < |rest| ensures Keys(rest)[m] != f[0].0 {
      assert rest[m] == f[m + 1];
    }
  }

  /** An update keeps the keys of a dict distinct. */
  lemma {:induction false} UpdateKeepsDistinct(f: Fields, updates: Fields)
    requires DistinctKeys(f)
    ensures DistinctKeys(Update(f, updates))
    decreases |updates|
  {
    if updates != [] {
      PutKeepsDistinct(f, updates[0].0, updates[0].1);
      UpdateKeepsDistinct(Put(f, updates[0].0, updates[0].1), updates[1..]);
    }
  }

  /** The list with the value added at the end unless it is already there. */
  function AppendNew(elems: seq<Value>, v: Value): (r: seq<Value>)
    ensures v in r
    ensures forall x :: x in r <==> x == v || x in elems
    ensures elems <= r
    ensures |r| == if v in elems then |elems| else |elems| + 1
    ensures Distinct(elems) ==> Distinct(r)
  {
    if v in elems then elems else elems + [v]
  }

  /** Adding a value already in the list changes nothing. */
  lemma AppendNewIdempotent(elems: seq<Value>, v: Value)
    ensures AppendNew(AppendNew(elems, v), v) == AppendNew(elems, v)
  {
  }

  /**
   * The history after one more entry: the last `HistoryCap` entries of the
   * old history followed by the new one.
   */
  function Bounded(history: seq<Value>, entry: Value): (r: seq<Value>)
    ensures IsSuffix(r, history + [entry])
    ensures |r| == if |history| < HistoryCap then |history| + 1 else HistoryCap
    ensures r[|r| - 1] == entry
    ensures |history| < HistoryCap ==> r == history + [entry]
  {
    var grown := history + [entry];
    if |grown| > HistoryCap then grown[|grown| - HistoryCap..] else grown
  }

  /** A full history drops its oldest entry and keeps the rest in order. */
  lemma BoundedDropsOldest(history: seq<Value>, entry: Value)
    requires |history| == HistoryCap
    ensures Bounded(history, entry) == history[1..] + [entry]
  {
  }

  /** The list a key holds: its elements, `[]` when absent, None when it is not a list. */
  function ListAt(state: Fields, key: string): (r: Option<seq<Value>>)
    ensures Get(state, key).None? ==> r == Some([])
    ensures r.Some? && Get(state, key).Some? ==> Get(state, key) == Some(List(r.value))
    ensures r.None? <==> Get(state, key).Some? && !Get(state, key).value.List?
  {
    match Get(state, key)
    case None => Some([])
    case Some(List(elems)) => Some(elems)
    case Some(_) => None
  }

  /** The value under a key, or the given default when the key is absent. */
  function GetOr(state: Fields, key: string, default: Value): (r: Value)
    ensures Get(state, key).Some? ==> r == Get(state, key).value
    ensures Get(state, key).None? ==> r == default
  {
    if Get(state, key).Some? then Get(state, key).value else default
  }

  // ---------------------------------------------------------------------------
  // The entries the tools append

  function ActionEntry(action: string, impact: string, now: string): Fields {
    [("action", Text(action)), ("impact", Text(impact)), ("date_added", Text(now))]
  }

  /** A new goal entry; its status always starts "in_progress". */
  function GoalEntry(goal: string, targetDate: string, now: string): (r: Fields)
    ensures DistinctKeys(r)
    ensures Get(r, "status") == Some(Text("in_progress"))
    ensures Get(r, "goal") == Some(Text(goal)) && Get(r, "target_date") == Some(Text(targetDate))
  {
    var r := [("goal", Text(goal)), ("target_date", Text(targetDate)), ("date_set", Text(now)),
              ("status", Text("in_progress"))];
    assert Keys(r) == ["goal", "target_date", "date_set", "status"];
    r
  }

  function FootprintEntry(footprintData: Fields, now: string): Fields {
    [("data", Dict(footprintData)), ("timestamp", Text(now))]
  }

  /** The status line: the key and the value, each in double quotes. */
  function StoredStatus(key: string, value: string): string {
    "Stored \"" + key + "\": \"" + value + "\""
  }

  datatype MemorizeReport = MemorizeReport(status: string, timestamp: string)
  datatype ListReport = ListReport(status: string, listLength: nat)
  datatype ProfileReport = ProfileReport(status: string, updatedFields: seq<string>)
  datatype ActionReport = ActionReport(status: string, action: string, impact: string)
  datatype GoalReport = GoalReport(status: string, goal: string, targetDate: string)
  datatype FootprintReport = FootprintReport(status: string, entryCount: nat)
  datatype SaveReport = SaveReport(status: string, dataKeys: seq<string>, timestamp: string)

  /** The session state dict of a tool context. */
  class ToolState {
    var state: Fields

    ghost predicate Valid()
      reads this
    {
      DistinctKeys(state)
    }

    constructor (initial: Fields)
      requires DistinctKeys(initial)
      ensures Valid() && state == initial
    {
      state := initial;
    }

    /** `recall`: the value stored under `key`, None when there is none. */
    function Recall(key: string): (r: Option<Value>)
      reads this
      ensures r.Some? <==> key in Keys(state)
      ensures r.Some? ==> exists i :: 0 <= i < |state| && state[i] == (key, r.value)
    {
      Get(state, key)
    }

    /** `recall_all`: a copy of the whole dict. */
    function RecallAll(): (r: Fields)
      reads this
      ensures Valid() ==> DistinctKeys(r)
      ensures forall k :: Get(r, k) == Recall(k)
    {
      state
    }

    /** `memorize`: store the value under the key, replacing any earlier value. */
    method Memorize(key: string, value: string, now: string) returns (r: MemorizeReport)
      requires Valid()
      modifies this
      ensures Valid()
      ensures state == Put(old(state), key, Text(value))
      ensures Recall(key) == Some(Text(value))
      ensures forall k :: k != key ==> Recall(k) == old(Recall(k))
      ensures r == MemorizeReport(StoredStatus(key, value), now)
    {
      PutKeepsDistinct(state, key, Text(value));
      state := Put(state, key, Text(value));
      r := MemorizeReport(StoredStatus(key, value), now);
    }

    /**
     * `memorize_list`: add the value to the key's list unless it is already
     * there, creating the list when the key is absent, and report the list's
     * length; a key holding something other than a list raises and leaves
     * the state as it was.
     */
    method MemorizeList(key: string, value: string) returns (r: Outcome<ListReport>)
      requires Valid()
      modifies this
      ensures Valid()
      ensures ListAt(old(state), key).None? ==> r == Raised(AttributeError) && state == old(state)
      ensures ListAt(old(state), key).Some? ==>
        var elems := AppendNew(ListAt(old(state), key).value, Text(value));
        state == Put(old(state), key, List(elems)) &&
        r == Ok(ListReport(StoredStatus(key, value), |elems|))
      ensures r.Ok? ==> Recall(key).Some? && Recall(key).value.List? && Text(value) in Recall(key).value.elems
      ensures r.Ok? ==> r.value.listLength == |Recall(key).value.elems|
    {
      var current := ListAt(state, key);
      if current.None? {
        r := Raised(AttributeError);
      } else {
        var elems := AppendNew(current.value, Text(value));
        PutKeepsDistinct(state, key, List(elems));
        state := Put(state, key, List(elems));
        r := Ok(ListReport(StoredStatus(key, value), |elems|));
      }
    }

    /** `get_user_profile`: the stored profile, an empty dict when there is none. */
    function GetUserProfile(): (r: Value)
      reads this
      ensures Recall("user_profile").None? ==> r == Dict([])
      ensures Recall("user_profile").Some? ==> r == Recall("user_profile").value
    {
      GetOr(state, "user_profile", Dict([]))
    }

    /**
     * `update_user_profile`: merge the updates into the stored profile (an
     * empty one when absent) and report the updated field names; a profile
     * that is not a dict raises and leaves the state as it was.
     */
    method UpdateUserProfile(updates: Fields) returns (r: Outcome<ProfileReport>)
      requires Valid()
      requires DistinctKeys(updates)
      modifies this
      ensures Valid()
      ensures !old(GetUserProfile()).Dict? ==> r == Raised(AttributeError) && state == old(state)
      ensures old(GetUserProfile()).Dict? ==>
        state == Put(old(state), "user_profile", Dict(Update(old(GetUserProfile()).entries, updates))) &&
        r == Ok(ProfileReport("Profile updated", Keys(updates)))
      ensures r.Ok? ==> GetUserProfile().Dict?
      ensures r.Ok? ==> forall k :: k in Keys(updates) ==> Get(GetUserProfile().entries, k) == Get(updates, k)
      ensures r.Ok? ==> forall k :: k !in Keys(updates) ==>
                          Get(GetUserProfile().entries, k) == Get(old(GetUserProfile()).entries, k)
      ensures forall k :: k != "user_profile" ==> Recall(k) == old(Recall(k))
    {
      var profile := GetOr(state, "user_profile", Dict([]));
      if !profile.Dict? {
        r := Raised(AttributeError);
      } else {
        var merged := Update(profile.entries, updates);
        forall k ensures Get(merged, k) == if k in Keys(updates) then Get(updates, k) else Get(profile.entries, k) {
          UpdateGet(profile.entries, updates, k);
        }
        PutKeepsDistinct(state, "user_profile", Dict(merged));
        state := Put(state, "user_profile", Dict(merged));
        r := Ok(ProfileReport("Profile updated", Keys(updates)));
      }
    }

    /** Append one entry to the list under `key`; a non-list value raises. */
    method AppendEntry(key: string, entry: Value) returns (ok: bool)
      requires Valid()
      modifies this
      ensures Valid()
      ensures ok <==> ListAt(old(state), key).Some?
      ensures !ok ==> state == old(state)
      ensures ok ==> state == Put(old(state), key, List(ListAt(old(state), key).value + [entry]))
    {
      var current := ListAt(state, key);
      ok := current.Some?;
      if ok {
        PutKeepsDistinct(state, key, List(current.value + [entry]));
        state := Put(state, key, List(current.value + [entry]));
      }
    }

    /** `add_sustainability_action`: append one action entry stamped `now`. */
    method AddSustainabilityAction(action: string, impact: string, now: string) returns (r: Outcome<ActionReport>)
      requires Valid()
      modifies this
      ensures Valid()
      ensures ListAt(old(state), "sustainability_actions").None? ==> r == Raised(AttributeError) && state == old(state)
      ensures ListAt(old(state), "sustainability_actions").Some? ==>
        r == Ok(ActionReport("Action added", action, impact)) &&
        Recall("sustainability_actions") ==
          Some(List(ListAt(old(state), "sustainability_actions").value + [Dict(ActionEntry(action, impact, now))]))
      ensures forall k :: k != "sustainability_actions" ==> Recall(k) == old(Recall(k))
    {
      var ok := AppendEntry("sustainability_actions", Dict(ActionEntry(action, impact, now)));
      r := if ok then Ok(ActionReport("Action added", action, impact)) else Raised(AttributeError);
    }

    /** `get_sustainability_actions`: the stored actions, `[]` when there are none. */
    function GetSustainabilityActions(): (r: Value)
      reads this
      ensures Recall("sustainability_actions").None? ==> r == List([])
      ensures Recall("sustainability_actions").Some? ==> r == Recall("sustainability_actions").value
    {
      GetOr(state, "sustainability_actions", List([]))
    }

    /** `set_sustainability_goal`: append one goal entry, status "in_progress". */
    method SetSustainabilityGoal(goal: string, targetDate: string, now: string) returns (r: Outcome<GoalReport>)
      requires Valid()
      modifies this
      ensures Valid()
      ensures ListAt(old(state), "sustainability_goals").None? ==> r == Raised(AttributeError) && state == old(state)
      ensures ListAt(old(state), "sustainability_goals").Some? ==>
        r == Ok(GoalReport("Goal set", goal, targetDate)) &&
        Recall("sustainability_goals") ==
          Some(List(ListAt(old(state), "sustainability_goals").value + [Dict(GoalEntry(goal, targetDate, now))]))
      ensures forall k :: k != "sustainability_goals" ==> Recall(k) == old(Recall(k))
    {
      var ok := AppendEntry("sustainability_goals", Dict(GoalEntry(goal, targetDate, now)));
      r := if ok then Ok(GoalReport("Goal set", goal, targetDate)) else Raised(AttributeError);
    }

    /** `get_sustainability_goals`: the stored goals, `[]` when there are none. */
    function GetSustainabilityGoals(): (r: Value)
      reads this
      ensures Recall("sustainability_goals").None? ==> r == List([])
      ensures Recall("sustainability_goals").Some? ==> r == Recall("sustainability_goals").value
    {
      GetOr(state, "sustainability_goals", List([]))
    }

    /**
     * `track_carbon_footprint`: append an entry stamped `now` to the history
     * and keep only its newest `HistoryCap` entries, reporting how many are
     * kept; a history that is not a list raises.
     */
    method TrackCarbonFootprint(footprintData: Fields, now: string) returns (r: Outcome<FootprintReport>)
      requires Valid()
      modifies this
      ensures Valid()
      ensures ListAt(old(state), "carbon_footprint_history").None? ==>
        r == Raised(AttributeError) && state == old(state)
      ensures ListAt(old(state), "carbon_footprint_history").Some? ==>
        var kept := Bounded(ListAt(old(state), "carbon_footprint_history").value, Dict(FootprintEntry(footprintData, now)));
        state == Put(old(state), "carbon_footprint_history", List(kept)) &&
        r == Ok(FootprintReport("Carbon footprint tracked", |kept|))
      ensures r.Ok? ==> r.value.entryCount <= HistoryCap
      ensures forall k :: k != "carbon_footprint_history" ==> Recall(k) == old(Recall(k))
    {
      var current := ListAt(state, "carbon_footprint_history");
      if current.None? {
        r := Raised(AttributeError);
      } else {
        var kept := Bounded(current.value, Dict(FootprintEntry(footprintData, now)));
        PutKeepsDistinct(state, "carbon_footprint_history", List(kept));
        state := Put(state, "carbon_footprint_history", List(kept));
        r := Ok(FootprintReport("Carbon footprint tracked", |kept|));
      }
    }

    /** `get_carbon_footprint_history`: the stored history, `[]` when there is none. */
    function GetCarbonFootprintHistory(): (r: Value)
      reads this
      ensures Recall("carbon_footprint_history").None? ==> r == List([])
      ensures Recall("carbon_footprint_history").Some? ==> r == Recall("carbon_footprint_history").value
    {
      GetOr(state, "carbon_footprint_history", List([]))
    }

    /** `save_session_state`: reports the state's keys; nothing is persisted. */
    function SaveSessionState(now: string): (r: SaveReport)
      reads this
      ensures r.status == "Session state saved" && r.timestamp == now
      ensures forall k :: k in r.dataKeys <==> Recall(k).Some?
      ensures |r.dataKeys| == |state|
    {
      SaveReport("Session state saved", Keys(state), now)
    }
  }

  /** `memorize` then `recall` of the same key gives back the stored text. */
  lemma MemorizeThenRecall(state: Fields, key: string, value: string)
    ensures Get(Put(state, key, Text(value)), key) == Some(Text(value))
  {
  }

  /** `memorize_list` with the same value twice stores it once. */
  lemma MemorizeListTwice(state: Fields, key: string, value: string)
    requires ListAt(state, key).Some?
    ensures var once := Put(state, key, List(AppendNew(ListAt(state, key).value, Text(value))));
      ListAt(once, key).Some? &&
      AppendNew(ListAt(once, key).value, Text(value)) == ListAt(once, key).value
  {
  }
}
