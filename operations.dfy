/**
 * The long-running operation manager (ecoagent/operations.py): operations
 * held in an in-memory map and mirrored to a store, each moved through the
 * PENDING / RUNNING / PAUSED / COMPLETED / FAILED / CANCELLED states by
 * guarded transitions, with checkpoints taken on pause and an append-only
 * history log.
 *
 * The database is the class OperationStore: the operations table as a row
 * map plus its rowid order, and the checkpoint and history tables as
 * append-only sequences. Times are the parameter `now`; operation ids are
 * the parameter `freshId`.
 */
module Operations {
  import opened Prelude

  datatype OpStatus = Pending | Running | Paused | Completed | Failed | Cancelled

  /** The enum's value, as stored in the `status` column. */
  function StatusValue(s: OpStatus): string {
    match s
    case Pending => "pending"
    case Running => "running"
    case Paused => "paused"
    case Completed => "completed"
    case Failed => "failed"
    case Cancelled => "cancelled"
  }

  /** The status a stored value names, if any. */
  function StatusByValue(v: string): (r: Option<OpStatus>)
    ensures r.Some? ==> StatusValue(r.value) == v
    ensures r.None? ==> forall s :: StatusValue(s) != v
  {
    if v == "pending" then Some(Pending)
    else if v == "running" then Some(Running)
    else if v == "paused" then Some(Paused)
    else if v == "completed" then Some(Completed)
    else if v == "failed" then Some(Failed)
    else if v == "cancelled" then Some(Cancelled)
    else None
  }

  lemma StatusValueRoundTrip(s: OpStatus)
    ensures StatusByValue(StatusValue(s)) == Some(s)
  {
  }

  /** The manager's transitions. */
  datatype Action = Start | PauseAction | ResumeAction | CompleteAction | FailAction | CancelAction

  /**
   * The transition table the manager's guards implement: the status an
   * action leads to from `s`, or None when the action is refused there.
   */
  function Next(a: Action, s: OpStatus): (r: Option<OpStatus>)
    ensures r.Some? ==> r.value != Pending
    ensures a == FailAction <==> r == Some(Failed)
    ensures r.Some? && r.value in {Completed, Cancelled} ==> s in {Running, Paused} || (s == Pending && a == CancelAction)
  {
    match a
    case Start => if s == Pending then Some(Running) else None
    case PauseAction => if s == Running then Some(Paused) else None
    case ResumeAction => if s == Paused then Some(Running) else None
    case CompleteAction => if s in {Running, Paused} then Some(Completed) else None
    case FailAction => Some(Failed)
    case CancelAction => if s in {Pending, Running, Paused} then Some(Cancelled) else None
  }

  /** Completed, failed and cancelled operations accept only `fail`. */
  lemma FinishedOnlyFail(a: Action, s: OpStatus)
    requires s in {Completed, Failed, Cancelled}
    ensures Next(a, s).Some? <==> a == FailAction
  {
  }

  /** A started operation cannot be started again. */
  lemma StartOnce(s: OpStatus)
    requires Next(Start, s).Some?
    ensures Next(Start, Next(Start, s).value).None?
  {
  }

  /** Pausing and resuming leads back to RUNNING; only a running operation can be paused. */
  lemma PauseResumeReturnsToRunning(s: OpStatus)
    ensures Next(PauseAction, s).Some? <==> s == Running
    ensures Next(PauseAction, s).Some? ==> Next(ResumeAction, Next(PauseAction, s).value) == Some(s)
  {
  }

  /** The operation dict the manager caches. */
  datatype Operation = Operation(
    operationId: string, userId: string, agentName: string, taskDescription: string,
    status: OpStatus, progress: real, state: Fields, metadata: Fields,
    createdAt: Time, startedAt: Option<Time>, pausedAt: Option<Time>, completedAt: Option<Time>,
    estimatedCompletion: Time, pauseReason: Option<string>, errorMessage: Option<string>)

  /**
   * A row of the operations table. It has no pause reason or error message
   * column, and its `created_at` takes the column default, the time of the
   * last save, because every save replaces the row.
   */
  datatype OperationRow = OperationRow(
    operationId: string, userId: string, agentName: string, taskDescription: string,
    status: OpStatus, progress: real, state: Fields, metadata: Fields,
    createdAt: Time, startedAt: Option<Time>, pausedAt: Option<Time>, completedAt: Option<Time>,
    estimatedCompletion: Time)

  /** `_save_operation`'s row for an operation saved at `savedAt`. */
  function RowOf(op: Operation, savedAt: Time): OperationRow {
    OperationRow(op.operationId, op.userId, op.agentName, op.taskDescription, op.status, op.progress,
                 op.state, op.metadata, savedAt, op.startedAt, op.pausedAt, op.completedAt,
                 op.estimatedCompletion)
  }

  /** A row holds an operation's columns as of some save. */
  predicate Synced(row: OperationRow, op: Operation) {
    row == RowOf(op, row.createdAt)
  }

  /** `OperationCheckpoint` */
  datatype Checkpoint = Checkpoint(operationId: string, timestamp: Time, progress: real, state: Fields,
                                   agentName: string, taskDescription: string)

  /** The `details` of a history record, by action. */
  datatype Details =
    | CreatedDetails(agentName: string, task: string)
    | NoDetails
    | PausedDetails(reason: Option<string>, progress: real)
    | ResumedDetails(progress: real, checkpointTimestamp: Time)
    | CompletedDetails(durationSeconds: int, result: Option<Fields>)
    | FailedDetails(error: string)

  datatype HistoryEntry = HistoryEntry(operationId: string, action: string, details: Details, timestamp: Time)

  /** The records of one operation, in the order they were logged. */
  function HistoryOf(history: seq<HistoryEntry>, id: string): seq<HistoryEntry> {
    if history == [] then []
    else
      var rest := HistoryOf(history[..|history| - 1], id);
      if history[|history| - 1].operationId == id then rest + [history[|history| - 1]] else rest
  }

  /** An operation's history holds exactly the log's records of that operation. */
  lemma {:induction false} HistoryOfMembers(history: seq<HistoryEntry>, id: string)
    ensures forall e :: e in HistoryOf(history, id) <==> e in history && e.operationId == id
    decreases |history|
  {
    if history != [] {
      var init := history[..|history| - 1];
      HistoryOfMembers(init, id);
      assert history == init + [history[|history| - 1]];
    }
  }

  /** An operation with no logged record has an empty history. */
  lemma {:induction false} HistoryOfNone(history: seq<HistoryEntry>, id: string)
    requires forall e :: e in history ==> e.operationId != id
    ensures HistoryOf(history, id) == []
    decreases |history|
  {
    if history != [] {
      HistoryOfNone(history[..|history| - 1], id);
    }
  }

  /** Logging a record extends exactly its own operation's history, at the end. */
  lemma HistoryOfAppend(history: seq<HistoryEntry>, e: HistoryEntry, id: string)
    ensures HistoryOf(history + [e], id) == HistoryOf(history, id) + (if e.operationId == id then [e] else [])
  {
    assert (history + [e])[..|history|] == history;
  }

  /** The checkpoints of one operation, oldest first. */
  function CheckpointsOf(cps: seq<Checkpoint>, id: string): seq<Checkpoint> {
    if cps == [] then []
    else
      var rest := CheckpointsOf(cps[..|cps| - 1], id);
      if cps[|cps| - 1].operationId == id then rest + [cps[|cps| - 1]] else rest
  }

  /** An operation's checkpoints are exactly the saved checkpoints of that operation. */
  lemma {:induction false} CheckpointsOfMembers(cps: seq<Checkpoint>, id: string)
    ensures forall c :: c in CheckpointsOf(cps, id) <==> c in cps && c.operationId == id
    decreases |cps|
  {
    if cps != [] {
      var init := cps[..|cps| - 1];
      CheckpointsOfMembers(init, id);
      assert cps == init + [cps[|cps| - 1]];
    }
  }

  /** `_get_latest_checkpoint`: the last checkpoint saved for the operation, if any. */
  function LatestCheckpoint(cps: seq<Checkpoint>, id: string): (r: Option<Checkpoint>)
    ensures r.None? <==> forall c :: c in cps ==> c.operationId != id
    ensures r.Some? ==> r.value in cps && r.value.operationId == id
  {
    var mine := CheckpointsOf(cps, id);
    CheckpointsOfMembers(cps, id);
    if mine == [] then None
    else
      assert mine[|mine| - 1] in mine;
      Some(mine[|mine| - 1])
  }

  /** The checkpoint just saved is the latest one for its operation. */
  lemma LatestAfterSave(cps: seq<Checkpoint>, cp: Checkpoint)
    ensures LatestCheckpoint(cps + [cp], cp.operationId) == Some(cp)
  {
    assert (cps + [cp])[..|cps|] == cps;
  }

  /** Another operation's checkpoint does not change which checkpoint is latest. */
  lemma LatestIgnoresOthers(cps: seq<Checkpoint>, cp: Checkpoint, id: string)
    requires cp.operationId != id
    ensures LatestCheckpoint(cps + [cp], id) == LatestCheckpoint(cps, id)
  {
    assert (cps + [cp])[..|cps|] == cps;
  }

  /** `cleanup_old_operations`' row filter: completed or failed before the cutoff. */
  predicate Deletable(row: OperationRow, cutoff: Time) {
    (row.status == Completed || row.status == Failed) && row.completedAt.Some? && row.completedAt.value < cutoff
  }

  /** Paused, pending, running and cancelled rows are never old enough to delete. */
  lemma OnlyFinishedAreDeletable(row: OperationRow, cutoff: Time)
    requires row.status in {Pending, Running, Paused, Cancelled}
    ensures !Deletable(row, cutoff)
  {
  }

  /** `get_user_operations`' WHERE clause: the user's rows, narrowed by a truthy status and agent name. */
  predicate RowMatches(row: OperationRow, userId: string, status: Option<string>, agentName: Option<string>) {
    row.userId == userId
    && (status.None? || status.value == "" || StatusValue(row.status) == status.value)
    && (agentName.None? || agentName.value == "" || row.agentName == agentName.value)
  }

  /** The matching rows of `order`, in order. */
  function FilterRows(rows: map<string, OperationRow>, order: seq<string>, userId: string,
                      status: Option<string>, agentName: Option<string>): (r: seq<OperationRow>)
    requires forall k :: k in order ==> k in rows
    ensures forall x :: x in r ==> RowMatches(x, userId, status, agentName)
    ensures forall x :: x in r ==> exists k :: k in order && rows[k] == x
    ensures forall k :: k in order && RowMatches(rows[k], userId, status, agentName) ==> rows[k] in r
  {
    if order == [] then []
    else
      var rest := FilterRows(rows, order[1..], userId, status, agentName);
      if RowMatches(rows[order[0]], userId, status, agentName) then [rows[order[0]]] + rest else rest
  }

  /** Rows keyed by their own ids are filtered without repeats. */
  lemma {:induction false} FilterRowsDistinct(rows: map<string, OperationRow>, order: seq<string>, userId: string,
                                              status: Option<string>, agentName: Option<string>)
    requires forall k :: k in order ==> k in rows && rows[k].operationId == k
    requires Distinct(order)
    ensures Distinct(FilterRows(rows, order, userId, status, agentName))
  {
    if order != [] {
      var rest := FilterRows(rows, order[1..], userId, status, agentName);
      FilterRowsDistinct(rows, order[1..], userId, status, agentName);
      forall x | x in rest ensures x.operationId != order[0] {
        var k :| k in order[1..] && rows[k] == x;
      }
    }
  }

  function ByCreatedAt(row: OperationRow): Rank { Rank(row.createdAt, 0.0) }

  /** The operations table, the checkpoint table and the history table. */
  class OperationStore {
    var rows: map<string, OperationRow>
    /** The ids of `rows` in rowid order. */
    var rowOrder: seq<string>
    var checkpoints: seq<Checkpoint>
    var history: seq<HistoryEntry>

    ghost predicate Valid()
      reads this
    {
      Distinct(rowOrder) && (forall k :: k in rowOrder ==> k in rows) && (forall k :: k in rows ==> k in rowOrder)
      && (forall k :: k in rows ==> rows[k].operationId == k)
    }

    constructor ()
      ensures Valid() && rows == map[] && rowOrder == [] && checkpoints == [] && history == []
    {
      rows, rowOrder, checkpoints, history := map[], [], [], [];
    }

    /** `_save_operation`: `INSERT OR REPLACE` replaces the row, which moves to the end of the rowid order. */
    method SaveOperation(op: Operation, now: Time)
      requires Valid()
      modifies this
      ensures Valid()
      ensures rows == old(rows)[op.operationId := RowOf(op, now)]
      ensures rowOrder == Without(old(rowOrder), {op.operationId}) + [op.operationId]
      ensures checkpoints == old(checkpoints) && history == old(history)
    {
      rows := rows[op.operationId := RowOf(op, now)];
      rowOrder := Without(rowOrder, {op.operationId}) + [op.operationId];
    }

    /** `_save_checkpoint` */
    method SaveCheckpoint(cp: Checkpoint)
      modifies this
      ensures checkpoints == old(checkpoints) + [cp]
      ensures rows == old(rows) && rowOrder == old(rowOrder) && history == old(history)
    {
      checkpoints := checkpoints + [cp];
    }

    /** `_log_operation_history` */
    method LogHistory(id: string, action: string, details: Details, now: Time)
      modifies this
      ensures history == old(history) + [HistoryEntry(id, action, details, now)]
      ensures rows == old(rows) && rowOrder == old(rowOrder) && checkpoints == old(checkpoints)
    {
      history := history + [HistoryEntry(id, action, details, now)];
    }

    /**
     * `get_user_operations`: exactly the matching rows, newest save first
     * (rows saved at the same instant keep their rowid order).
     */
    function UserOperations(userId: string, status: Option<string>, agentName: Option<string>): (r: seq<OperationRow>)
      reads this
      requires Valid()
      ensures forall x :: x in r ==> x in rows.Values && RowMatches(x, userId, status, agentName)
      ensures forall k :: k in rows && RowMatches(rows[k], userId, status, agentName) ==> rows[k] in r
      ensures SortedDesc(r, ByCreatedAt)
      ensures Distinct(r)
    {
      var filtered := FilterRows(rows, rowOrder, userId, status, agentName);
      FilterRowsDistinct(rows, rowOrder, userId, status, agentName);
      DistinctPermutation(filtered, SortDesc(filtered, ByCreatedAt));
      SortDescSameElements(filtered, ByCreatedAt);
      SortDescSorted(filtered, ByCreatedAt);
      SortDesc(filtered, ByCreatedAt)
    }

    /** The `DELETE` of `cleanup_old_operations`; returns the row count. */
    method DeleteOld(cutoff: Time) returns (count: nat)
      requires Valid()
      modifies this
      ensures Valid()
      ensures rows == map k | k in old(rows) && !Deletable(old(rows)[k], cutoff) :: old(rows)[k]
      ensures rowOrder == Without(old(rowOrder), set k | k in old(rows) && Deletable(old(rows)[k], cutoff))
      ensures count == |old(rows)| - |rows|
      ensures checkpoints == old(checkpoints) && history == old(history)
    {
      var doomed := set k | k in rows && Deletable(rows[k], cutoff);
      var kept := map k | k in rows && !Deletable(rows[k], cutoff) :: rows[k];
      SubsetCard(kept.Keys, rows.Keys);
      count := |rows| - |kept|;
      rows := kept;
      rowOrder := Without(rowOrder, doomed);
    }
  }

  /** `_calculate_duration`: whole seconds from start to completion, 0 when either is missing. */
  function CalculateDuration(op: Operation): (r: int)
    ensures op.startedAt.None? || op.completedAt.None? ==> r == 0
    ensures op.startedAt.Some? && op.completedAt.Some? && op.startedAt.value <= op.completedAt.value ==>
              0 <= r && r as real <= op.completedAt.value - op.startedAt.value
              && op.completedAt.value - op.startedAt.value < r as real + 1.0
  {
    if op.startedAt.None? || op.completedAt.None? then 0
    else Trunc(op.completedAt.value - op.startedAt.value)
  }

  /** `min(100.0, max(0.0, progress))` */
  function ClampProgress(p: real): (r: real)
    ensures 0.0 <= r <= 100.0
    ensures 0.0 <= p <= 100.0 ==> r == p
    ensures p < 0.0 ==> r == 0.0
    ensures p > 100.0 ==> r == 100.0
  {
    MinReal(100.0, MaxReal(0.0, p))
  }

  /** Whether `if state:` takes an optional dict: present and non-empty. */
  predicate Truthy(d: Option<Fields>) {
    d.Some? && d.value != []
  }

  /** The record `create_operation` caches. */
  function NewOperation(id: string, userId: string, agentName: string, taskDescription: string,
                        estimatedDurationMinutes: int, metadata: Option<Fields>, now: Time): (r: Operation)
    ensures r.operationId == id && r.status == Pending && r.progress == 0.0 && r.state == []
    ensures r.userId == userId && r.agentName == agentName && r.taskDescription == taskDescription
    ensures r.startedAt == None && r.pausedAt == None && r.completedAt == None
    ensures r.pauseReason == None && r.errorMessage == None && r.createdAt == now
    ensures r.metadata == (if metadata.Some? then metadata.value else [])
    ensures r.estimatedCompletion - now == estimatedDurationMinutes as real * 60.0
  {
    Operation(id, userId, agentName, taskDescription, Pending, 0.0, [],
              if metadata.Some? then metadata.value else [],
              now, None, None, None, now + estimatedDurationMinutes as real * 60.0, None, None)
  }

  /** `LongRunningOperation`: the operation cache over the store. */
  class LongRunningOperation {
    var operations: map<string, Operation>
    /** The in-memory checkpoint lists: created empty for each operation and never appended to. */
    var checkpointCache: map<string, seq<Checkpoint>>
    const store: OperationStore

    /**
     * Every cached operation is keyed by its id, every stored row of a
     * cached operation holds its columns, and every cached operation's
     * history starts with its "created" record.
     */
    ghost predicate Valid()
      reads this, store
    {
      store.Valid()
      && (forall id :: id in operations ==> operations[id].operationId == id)
      && (forall id :: id in operations && id in store.rows ==> Synced(store.rows[id], operations[id]))
      && (forall id :: id in operations ==>
            HistoryOf(store.history, id) != [] && HistoryOf(store.history, id)[0].action == "created")
    }

    /** The store is the database as found; the caches start empty. */
    constructor (store: OperationStore)
      requires store.Valid()
      ensures Valid() && this.store == store && operations == map[] && checkpointCache == map[]
    {
      this.store := store;
      operations, checkpointCache := map[], map[];
    }

    /** An id no cached operation, stored row or history record uses: what `uuid4` supplies. */
    ghost predicate Unused(id: string)
      reads this, store
    {
      id !in operations && id !in store.rows && forall e :: e in store.history ==> e.operationId != id
    }

    /** `get_operation` */
    function GetOperation(id: string): (r: Option<Operation>)
      reads this
      ensures r.Some? <==> id in operations
      ensures r.Some? ==> r.value == operations[id]
    {
      if id in operations then Some(operations[id]) else None
    }

    /** `get_operation_history`: the operation's records in the order they were logged. */
    function GetOperationHistory(id: string): (r: seq<HistoryEntry>)
      reads this, store
      requires Valid()
      ensures forall e :: e in r <==> e in store.history && e.operationId == id
      ensures id in operations ==> r != [] && r[0].action == "created"
    {
      HistoryOfMembers(store.history, id);
      HistoryOf(store.history, id)
    }

    /** Cache, save and log one transition of a known operation. */
    method Commit(op: Operation, action: string, details: Details, now: Time)
      requires Valid() && op.operationId in operations
      modifies this, store
      ensures Valid()
      ensures operations == old(operations)[op.operationId := op] && checkpointCache == old(checkpointCache)
      ensures store.rows == old(store.rows)[op.operationId := RowOf(op, now)]
      ensures store.history == old(store.history) + [HistoryEntry(op.operationId, action, details, now)]
      ensures HistoryOf(store.history, op.operationId)
                == old(HistoryOf(store.history, op.operationId)) + [HistoryEntry(op.operationId, action, details, now)]
      ensures store.checkpoints == old(store.checkpoints)
    {
      ghost var before := store.history;
      var entry := HistoryEntry(op.operationId, action, details, now);
      operations := operations[op.operationId := op];
      store.SaveOperation(op, now);
      store.LogHistory(op.operationId, action, details, now);
      forall id | id in operations
        ensures HistoryOf(store.history, id) != [] && HistoryOf(store.history, id)[0].action == "created"
      {
        HistoryOfAppend(before, entry, id);
      }
      HistoryOfAppend(before, entry, op.operationId);
    }

    /**
     * `create_operation`: a PENDING operation with progress 0, no state, an
     * empty checkpoint list and exactly one history record, "created".
     */
    method CreateOperation(freshId: string, userId: string, agentName: string, taskDescription: string,
                           estimatedDurationMinutes: int, metadata: Option<Fields>, now: Time)
      returns (id: string)
      requires Valid() && Unused(freshId)
      modifies this, store
      ensures Valid() && id == freshId
      ensures operations == old(operations)[id := NewOperation(id, userId, agentName, taskDescription,
                                                                estimatedDurationMinutes, metadata, now)]
      ensures checkpointCache == old(checkpointCache)[id := []]
      ensures store.rows == old(store.rows)[id := RowOf(operations[id], now)]
      ensures store.history == old(store.history) + [HistoryEntry(id, "created", CreatedDetails(agentName, taskDescription), now)]
      ensures HistoryOf(store.history, id) == [HistoryEntry(id, "created", CreatedDetails(agentName, taskDescription), now)]
      ensures store.checkpoints == old(store.checkpoints)
    {
      id := freshId;
      var op := NewOperation(id, userId, agentName, taskDescription, estimatedDurationMinutes, metadata, now);
      store.SaveOperation(op, now);
      operations := operations[id := op];
      checkpointCache := checkpointCache[id := []];
      ghost var before := store.history;
      var entry := HistoryEntry(id, "created", CreatedDetails(agentName, taskDescription), now);
      store.LogHistory(id, "created", CreatedDetails(agentName, taskDescription), now);
      HistoryOfNone(before, id);
      forall k | k in operations
        ensures HistoryOf(store.history, k) != [] && HistoryOf(store.history, k)[0].action == "created"
      {
        HistoryOfAppend(before, entry, k);
      }
      HistoryOfAppend(before, entry, id);
    }

    /** `start_operation`: PENDING to RUNNING, stamping `started_at`. */
    method StartOperation(id: string, now: Time) returns (ok: bool)
      requires Valid()
      modifies this, store
      ensures Valid()
      ensures ok <==> id in old(operations) && Next(Start, old(operations)[id].status).Some?
      ensures !ok ==> operations == old(operations) && store.rows == old(store.rows) && store.history == old(store.history)
      ensures ok ==> operations == old(operations)[id := old(operations)[id].(status := Running, startedAt := Some(now))]
                     && operations[id].status == Next(Start, old(operations)[id].status).value
                     && store.rows == old(store.rows)[id := RowOf(operations[id], now)]
                     && HistoryOf(store.history, id) == old(HistoryOf(store.history, id)) + [HistoryEntry(id, "started", NoDetails, now)]
                     && store.history == old(store.history) + [HistoryEntry(id, "started", NoDetails, now)]
      ensures store.checkpoints == old(store.checkpoints) && checkpointCache == old(checkpointCache)
    {
      if id !in operations || operations[id].status != Pending {
        return false;
      }
      Commit(operations[id].(status := Running, startedAt := Some(now)), "started", NoDetails, now);
      ok := true;
    }

    /**
     * `update_operation_progress`: in RUNNING or PAUSED only, clamps the
     * progress to [0, 100] and replaces the state by a non-empty one. It
     * logs no history.
     */
    method UpdateOperationProgress(id: string, progress: real, state: Option<Fields>, now: Time) returns (ok: bool)
      requires Valid()
      modifies this, store
      ensures Valid()
      ensures ok <==> id in old(operations) && old(operations)[id].status in {Running, Paused}
      ensures !ok ==> operations == old(operations) && store.rows == old(store.rows)
      ensures ok ==> var op := old(operations)[id];
                     operations == old(operations)[id := op.(progress := ClampProgress(progress),
                                                             state := if Truthy(state) then state.value else op.state)]
                     && store.rows == old(store.rows)[id := RowOf(operations[id], now)]
      ensures store.history == old(store.history) && store.checkpoints == old(store.checkpoints)
      ensures checkpointCache == old(checkpointCache)
    {
      if id !in operations || operations[id].status !in {Running, Paused} {
        return false;
      }
      var op := operations[id];
      op := op.(progress := ClampProgress(progress));
      if Truthy(state) {
        op := op.(state := state.value);
      }
      operations := operations[id := op];
      store.SaveOperation(op, now);
      ok := true;
    }

    /**
     * `pause_operation`: RUNNING to PAUSED, stamping `paused_at` and the
     * reason; a non-empty checkpoint state becomes the state; one checkpoint
     * of the progress and state is saved, which is then the latest.
     */
    method PauseOperation(id: string, reason: Option<string>, checkpointState: Option<Fields>, now: Time)
      returns (ok: bool)
      requires Valid()
      modifies this, store
      ensures Valid()
      ensures ok <==> id in old(operations) && Next(PauseAction, old(operations)[id].status).Some?
      ensures !ok ==> operations == old(operations) && store.rows == old(store.rows)
                      && store.history == old(store.history) && store.checkpoints == old(store.checkpoints)
      ensures ok ==> var op := old(operations)[id];
                     var paused := op.(status := Paused, pausedAt := Some(now), pauseReason := reason,
                                       state := if Truthy(checkpointState) then checkpointState.value else op.state);
                     operations == old(operations)[id := paused]
                     && paused.status == Next(PauseAction, op.status).value
                     && store.rows == old(store.rows)[id := RowOf(paused, now)]
                     && store.checkpoints == old(store.checkpoints)
                          + [Checkpoint(id, now, paused.progress, paused.state, paused.agentName, paused.taskDescription)]
                     && store.history == old(store.history) + [HistoryEntry(id, "paused", PausedDetails(reason, paused.progress), now)]
                     && HistoryOf(store.history, id)
                          == old(HistoryOf(store.history, id)) + [HistoryEntry(id, "paused", PausedDetails(reason, paused.progress), now)]
      ensures ok ==> LatestCheckpoint(store.checkpoints, id) ==
                       Some(Checkpoint(id, now, operations[id].progress, operations[id].state,
                                       operations[id].agentName, operations[id].taskDescription))
      ensures checkpointCache == old(checkpointCache)
    {
      if id !in operations || operations[id].status != Running {
        return false;
      }
      var op := operations[id];
      op := op.(status := Paused, pausedAt := Some(now), pauseReason := reason);
      if Truthy(checkpointState) {
        op := op.(state := checkpointState.value);
      }
      var cp := Checkpoint(id, now, op.progress, op.state, op.agentName, op.taskDescription);
      store.SaveCheckpoint(cp);
      LatestAfterSave(old(store.checkpoints), cp);
      Commit(op, "paused", PausedDetails(reason, op.progress), now);
      ok := true;
    }

    /**
     * `resume_operation`: from PAUSED with a saved checkpoint only, returns
     * the latest checkpoint and moves to RUNNING, clearing `paused_at` and
     * the reason.
     */
    method ResumeOperation(id: string, now: Time) returns (cp: Option<Checkpoint>)
      requires Valid()
      modifies this, store
      ensures Valid()
      ensures cp.Some? <==> id in old(operations) && Next(ResumeAction, old(operations)[id].status).Some?
                            && LatestCheckpoint(old(store.checkpoints), id).Some?
      ensures cp.None? ==> operations == old(operations) && store.rows == old(store.rows) && store.history == old(store.history)
      ensures cp.Some? ==> cp == LatestCheckpoint(old(store.checkpoints), id)
                           && operations == old(operations)[id := old(operations)[id].(status := Running, pausedAt := None, pauseReason := None)]
                           && operations[id].status == Next(ResumeAction, old(operations)[id].status).value
                           && store.rows == old(store.rows)[id := RowOf(operations[id], now)]
                           && store.history == old(store.history)
                                + [HistoryEntry(id, "resumed", ResumedDetails(operations[id].progress, cp.value.timestamp), now)]
                           && HistoryOf(store.history, id) == old(HistoryOf(store.history, id))
                                + [HistoryEntry(id, "resumed", ResumedDetails(operations[id].progress, cp.value.timestamp), now)]
      ensures store.checkpoints == old(store.checkpoints) && checkpointCache == old(checkpointCache)
    {
      if id !in operations || operations[id].status != Paused {
        return None;
      }
      cp := LatestCheckpoint(store.checkpoints, id);
      if cp.None? {
        return None;
      }
      var op := operations[id].(status := Running, pausedAt := None, pauseReason := None);
      Commit(op, "resumed", ResumedDetails(op.progress, cp.value.timestamp), now);
    }

    /**
     * `complete_operation`: from RUNNING or PAUSED only, sets COMPLETED with
     * progress 100 and `completed_at`; a non-empty result is stored under
     * `metadata["result"]`.
     */
    method CompleteOperation(id: string, result: Option<Fields>, now: Time) returns (ok: bool)
      requires Valid()
      modifies this, store
      ensures Valid()
      ensures ok <==> id in old(operations) && Next(CompleteAction, old(operations)[id].status).Some?
      ensures !ok ==> operations == old(operations) && store.rows == old(store.rows) && store.history == old(store.history)
      ensures ok ==> var op := old(operations)[id];
                     var done := op.(status := Completed, completedAt := Some(now), progress := 100.0,
                                     metadata := if Truthy(result) then Put(op.metadata, "result", Dict(result.value)) else op.metadata);
                     operations == old(operations)[id := done]
                     && done.status == Next(CompleteAction, op.status).value
                     && store.rows == old(store.rows)[id := RowOf(done, now)]
                     && store.history == old(store.history)
                          + [HistoryEntry(id, "completed", CompletedDetails(CalculateDuration(done), result), now)]
                     && HistoryOf(store.history, id) == old(HistoryOf(store.history, id))
                          + [HistoryEntry(id, "completed", CompletedDetails(CalculateDuration(done), result), now)]
      ensures store.checkpoints == old(store.checkpoints) && checkpointCache == old(checkpointCache)
    {
      if id !in operations || operations[id].status !in {Running, Paused} {
        return false;
      }
      var op := operations[id].(status := Completed, completedAt := Some(now), progress := 100.0);
      if Truthy(result) {
        op := op.(metadata := Put(op.metadata, "result", Dict(result.value)));
      }
      Commit(op, "completed", CompletedDetails(CalculateDuration(op), result), now);
      ok := true;
    }

    /** `fail_operation`: any known operation, whatever its status, becomes FAILED. */
    method FailOperation(id: string, errorMessage: string, now: Time) returns (ok: bool)
      requires Valid()
      modifies this, store
      ensures Valid()
      ensures ok <==> id in old(operations)
      ensures !ok ==> operations == old(operations) && store.rows == old(store.rows) && store.history == old(store.history)
      ensures ok ==> operations == old(operations)[id := old(operations)[id].(status := Failed, completedAt := Some(now),
                                                                              errorMessage := Some(errorMessage))]
                     && operations[id].status == Next(FailAction, old(operations)[id].status).value
                     && store.rows == old(store.rows)[id := RowOf(operations[id], now)]
                     && store.history == old(store.history) + [HistoryEntry(id, "failed", FailedDetails(errorMessage), now)]
                     && HistoryOf(store.history, id) == old(HistoryOf(store.history, id))
                          + [HistoryEntry(id, "failed", FailedDetails(errorMessage), now)]
      ensures store.checkpoints == old(store.checkpoints) && checkpointCache == old(checkpointCache)
    {
      if id !in operations {
        return false;
      }
      var op := operations[id].(status := Failed, completedAt := Some(now), errorMessage := Some(errorMessage));
      assert op.operationId == id;
      Commit(op, "failed", FailedDetails(errorMessage), now);
      ok := true;
    }

    /** `cancel_operation`: from PENDING, RUNNING or PAUSED only, sets CANCELLED and `completed_at`. */
    method CancelOperation(id: string, now: Time) returns (ok: bool)
      requires Valid()
      modifies this, store
      ensures Valid()
      ensures ok <==> id in old(operations) && Next(CancelAction, old(operations)[id].status).Some?
      ensures !ok ==> operations == old(operations) && store.rows == old(store.rows) && store.history == old(store.history)
      ensures ok ==> operations == old(operations)[id := old(operations)[id].(status := Cancelled, completedAt := Some(now))]
                     && operations[id].status == Next(CancelAction, old(operations)[id].status).value
                     && store.rows == old(store.rows)[id := RowOf(operations[id], now)]
                     && store.history == old(store.history) + [HistoryEntry(id, "cancelled", NoDetails, now)]
                     && HistoryOf(store.history, id) == old(HistoryOf(store.history, id))
                          + [HistoryEntry(id, "cancelled", NoDetails, now)]
      ensures store.checkpoints == old(store.checkpoints) && checkpointCache == old(checkpointCache)
    {
      if id !in operations || operations[id].status !in {Pending, Running, Paused} {
        return false;
      }
      Commit(operations[id].(status := Cancelled, completedAt := Some(now)), "cancelled", NoDetails, now);
      ok := true;
    }

    /** `get_active_operations`: the user's stored rows that are PENDING, RUNNING or PAUSED, newest first. */
    function ActiveOperations(userId: string): (r: seq<OperationRow>)
      reads this, store
      requires Valid()
      ensures forall x :: x in r ==> x in store.rows.Values && x.userId == userId && x.status in {Pending, Running, Paused}
      ensures forall k :: (k in store.rows && store.rows[k].userId == userId
                           && store.rows[k].status in {Pending, Running, Paused}) ==> store.rows[k] in r
    {
      var all := store.UserOperations(userId, None, None);
      Filter(all, (x: OperationRow) => x.status in {Pending, Running, Paused})
    }

    /** `get_paused_operations`: exactly the user's stored PAUSED rows, newest first. */
    function PausedOperations(userId: string): (r: seq<OperationRow>)
      reads this, store
      requires Valid()
      ensures forall x :: x in r ==> x in store.rows.Values && x.userId == userId && x.status == Paused
      ensures forall k :: (k in store.rows && store.rows[k].userId == userId && store.rows[k].status == Paused)
                ==> store.rows[k] in r
    {
      var r := store.UserOperations(userId, Some(StatusValue(Paused)), None);
      assert forall x: OperationRow :: StatusValue(x.status) == "paused" ==> x.status == Paused;
      r
    }

    /**
     * `cleanup_old_operations`: deletes the stored COMPLETED or FAILED rows
     * finished before `now` minus `days` days; the cache keeps them.
     */
    method CleanupOldOperations(days: int, now: Time) returns (count: nat)
      requires Valid()
      modifies store
      ensures Valid()
      ensures store.rows == map k | k in old(store.rows) && !Deletable(old(store.rows)[k], now - days as real * 86400.0)
                              :: old(store.rows)[k]
      ensures count == |old(store.rows)| - |store.rows|
      ensures store.history == old(store.history) && store.checkpoints == old(store.checkpoints)
    {
      count := store.DeleteOld(now - days as real * 86400.0);
    }
  }

  /** The elements of s that satisfy p, in order. */
  function Filter<T(!new)>(s: seq<T>, p: T -> bool): (r: seq<T>)
    ensures forall x :: x in r <==> x in s && p(x)
    ensures |r| <= |s|
  {
    if s == [] then [] else (if p(s[0]) then [s[0]] else []) + Filter(s[1..], p)
  }

  /**
   * tests/test_operations.py's round trip: the checkpoint a resume returns
   * holds the progress and state the operation had when it was paused.
   */
  method PauseResumeRoundTrip(m: LongRunningOperation, id: string, reason: Option<string>, now: Time, later: Time)
    returns (cp: Option<Checkpoint>)
    requires m.Valid() && id in m.operations && m.operations[id].status == Running
    modifies m, m.store
    ensures m.Valid()
    ensures cp.Some? && cp.value.progress == old(m.operations[id].progress) && cp.value.state == old(m.operations[id].state)
    ensures id in m.operations && m.operations[id].status == Running && m.operations[id].pauseReason == None
  {
    var ok := m.PauseOperation(id, reason, None, now);
    cp := m.ResumeOperation(id, later);
  }
}
