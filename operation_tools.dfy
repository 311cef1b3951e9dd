/**
 * The operation tools (ecoagent/tools/operations.py): thin wrappers over the
 * global operation manager that turn its boolean and optional results into
 * "success" / "error" reports. The manager is the parameter `m`; the caller's
 * user comes from the tool context, 'unknown' without one.
 */
module OperationTools {
  import opened Prelude
  import opened Operations

  /** What the state-changing tools return; every variant but ToolError has status "success". */
  datatype ToolReport =
    | Started(operationId: string, agent: string, task: string, message: string)
    | ProgressUpdated(operationId: string, progress: real, message: string)
    | PauseRecorded(operationId: string, pausedAt: Option<Time>, progress: real, pauseReason: Option<string>,
                    message: string)
    | ResumeRecorded(operationId: string, resumedAt: Option<Time>, progress: real, state: Fields,
                     message: string, checkpointTimestamp: Time)
    | CompletionRecorded(operationId: string, completedAt: Option<Time>, duration: Option<int>, message: string)
    | FailureRecorded(operationId: string, message: string)
    | CancelRecorded(operationId: string, message: string)
    | ToolError(operationId: string, message: string)

  function ReportStatus(r: ToolReport): string {
    if r.ToolError? then "error" else "success"
  }

  const UpdateFailed := "Failed to update progress. Operation may not exist or be in invalid state."
  const PauseFailed := "Failed to pause operation. It may not be running or may not exist."
  const ResumeFailed := "Failed to resume operation. It may not be paused or may not exist."
  const CompleteFailed := "Failed to complete operation."
  const FailFailed := "Failed to mark operation as failed."
  const CancelFailed := "Failed to cancel operation."

  /**
   * `start_long_running_operation`: creates the operation for the context's
   * user and starts it at once, so it is RUNNING; it always reports success.
   */
  method StartLongRunningOperation(m: LongRunningOperation, freshId: string, agentName: string, taskDescription: string,
                                   estimatedDurationMinutes: int, metadata: Option<Fields>,
                                   context: Option<ToolContext>, now: Time) returns (r: ToolReport)
    requires m.Valid() && m.Unused(freshId)
    modifies m, m.store
    ensures m.Valid()
    ensures r == Started(freshId, agentName, taskDescription,
                         "Operation " + freshId + " started for agent " + agentName)
    ensures ReportStatus(r) == "success"
    ensures freshId in m.operations && m.operations[freshId].status == Running
    ensures m.operations[freshId].userId == UserOf(context) && m.operations[freshId].startedAt == Some(now)
    ensures m.operations[freshId].progress == 0.0 && m.operations[freshId].agentName == agentName
    ensures forall id :: id != freshId ==> (id in m.operations <==> id in old(m.operations))
    ensures forall id :: id in old(m.operations) ==> m.operations[id] == old(m.operations[id])
    ensures HistoryOf(m.store.history, freshId) ==
              [HistoryEntry(freshId, "created", CreatedDetails(agentName, taskDescription), now),
               HistoryEntry(freshId, "started", NoDetails, now)]
  {
    var id := m.CreateOperation(freshId, UserOf(context), agentName, taskDescription, estimatedDurationMinutes,
                                metadata, now);
    var ok := m.StartOperation(id, now);
    r := Started(id, agentName, taskDescription, "Operation " + id + " started for agent " + agentName);
  }

  /**
   * `update_operation_progress`: success exactly when the manager accepted
   * the update. The message quotes the progress as given, before clamping;
   * `show` is how Python prints a number.
   */
  method UpdateOperationProgressTool(m: LongRunningOperation, id: string, progress: real, state: Option<Fields>,
                                     now: Time, show: real -> string) returns (r: ToolReport)
    requires m.Valid()
    modifies m, m.store
    ensures m.Valid()
    ensures r.ToolError? <==> !(id in old(m.operations) && old(m.operations)[id].status in {Running, Paused})
    ensures r.ToolError? ==> r == ToolError(id, UpdateFailed) && m.operations == old(m.operations)
    ensures !r.ToolError? ==> r == ProgressUpdated(id, ClampProgress(progress),
                                                   "Progress updated to " + show(progress) + "%")
                              && id in m.operations && m.operations[id].progress == ClampProgress(progress)
  {
    var ok := m.UpdateOperationProgress(id, progress, state, now);
    if ok {
      r := ProgressUpdated(id, m.operations[id].progress, "Progress updated to " + show(progress) + "%");
    } else {
      r := ToolError(id, UpdateFailed);
    }
  }

  /** `pause_operation`: success exactly when the manager paused a running operation. */
  method PauseOperationTool(m: LongRunningOperation, id: string, reason: Option<string>,
                            checkpointState: Option<Fields>, now: Time, show: real -> string) returns (r: ToolReport)
    requires m.Valid()
    modifies m, m.store
    ensures m.Valid()
    ensures r.ToolError? <==> !(id in old(m.operations) && old(m.operations)[id].status == Running)
    ensures r.ToolError? ==> r == ToolError(id, PauseFailed) && m.operations == old(m.operations)
    ensures !r.ToolError? ==>
              var p := old(m.operations)[id].progress;
              r == PauseRecorded(id, Some(now), p, reason, "Operation paused at " + show(p) + "% completion")
                              && id in m.operations && m.operations[id].status == Paused
                              && m.operations[id].pauseReason == reason
  {
    var ok := m.PauseOperation(id, reason, checkpointState, now);
    if ok {
      var op := m.operations[id];
      r := PauseRecorded(id, op.pausedAt, op.progress, reason,
                         "Operation paused at " + show(op.progress) + "% completion");
    } else {
      r := ToolError(id, PauseFailed);
    }
  }

  /**
   * `resume_operation`: on success reports the latest checkpoint's progress,
   * state and timestamp, and the operation's start time as the resume time.
   */
  method ResumeOperationTool(m: LongRunningOperation, id: string, now: Time, show: real -> string)
    returns (r: ToolReport)
    requires m.Valid()
    modifies m, m.store
    ensures m.Valid()
    ensures r.ToolError? <==> !(id in old(m.operations) && old(m.operations)[id].status == Paused
                                && LatestCheckpoint(old(m.store.checkpoints), id).Some?)
    ensures r.ToolError? ==> r == ToolError(id, ResumeFailed) && m.operations == old(m.operations)
    ensures !r.ToolError? ==>
              var cp := LatestCheckpoint(old(m.store.checkpoints), id).value;
              r == ResumeRecorded(id, old(m.operations)[id].startedAt, cp.progress, cp.state,
                                  "Operation resumed from " + show(cp.progress) + "% progress", cp.timestamp)
              && id in m.operations && m.operations[id].status == Running
  {
    var cp := m.ResumeOperation(id, now);
    if cp.Some? {
      r := ResumeRecorded(id, m.operations[id].startedAt, cp.value.progress, cp.value.state,
                          "Operation resumed from " + show(cp.value.progress) + "% progress", cp.value.timestamp);
    } else {
      r := ToolError(id, ResumeFailed);
    }
  }

  /**
   * `complete_operation`: success exactly when the manager completed the
   * operation. The reported duration reads a key the operation record does
   * not have, so it is always None.
   */
  method CompleteOperationTool(m: LongRunningOperation, id: string, result: Option<Fields>, now: Time)
    returns (r: ToolReport)
    requires m.Valid()
    modifies m, m.store
    ensures m.Valid()
    ensures r.ToolError? <==> !(id in old(m.operations) && old(m.operations)[id].status in {Running, Paused})
    ensures r.ToolError? ==> r == ToolError(id, CompleteFailed) && m.operations == old(m.operations)
    ensures !r.ToolError? ==> r == CompletionRecorded(id, Some(now), None, "Operation completed successfully")
                              && id in m.operations && m.operations[id].status == Completed
  {
    var ok := m.CompleteOperation(id, result, now);
    if ok {
      r := CompletionRecorded(id, m.operations[id].completedAt, None, "Operation completed successfully");
    } else {
      r := ToolError(id, CompleteFailed);
    }
  }

  /** The completion tool reporting the duration the manager logged for the completion. */
  method CompleteOperationToolIntended(m: LongRunningOperation, id: string, result: Option<Fields>, now: Time)
    returns (r: ToolReport)
    requires m.Valid()
    modifies m, m.store
    ensures m.Valid()
    ensures r.ToolError? <==> !(id in old(m.operations) && old(m.operations)[id].status in {Running, Paused})
    ensures r.ToolError? ==> r == ToolError(id, CompleteFailed) && m.operations == old(m.operations)
    ensures !r.ToolError? ==>
              id in m.operations && m.operations[id].status == Completed
              && r == CompletionRecorded(id, Some(now), Some(CalculateDuration(m.operations[id])),
                                         "Operation completed successfully")
              && m.store.history[|m.store.history| - 1].details
                   == CompletedDetails(CalculateDuration(m.operations[id]), result)
  {
    var ok := m.CompleteOperation(id, result, now);
    if ok {
      var op := m.operations[id];
      r := CompletionRecorded(id, op.completedAt, Some(CalculateDuration(op)), "Operation completed successfully");
    } else {
      r := ToolError(id, CompleteFailed);
    }
  }

  /** `fail_operation`: success for any known operation. */
  method FailOperationTool(m: LongRunningOperation, id: string, errorMessage: string, now: Time)
    returns (r: ToolReport)
    requires m.Valid()
    modifies m, m.store
    ensures m.Valid()
    ensures r.ToolError? <==> id !in old(m.operations)
    ensures r.ToolError? ==> r == ToolError(id, FailFailed) && m.operations == old(m.operations)
    ensures !r.ToolError? ==> r == FailureRecorded(id, "Operation marked as failed: " + errorMessage)
                              && id in m.operations && m.operations[id].status == Failed
  {
    var ok := m.FailOperation(id, errorMessage, now);
    if ok {
      r := FailureRecorded(id, "Operation marked as failed: " + errorMessage);
    } else {
      r := ToolError(id, FailFailed);
    }
  }

  /** `cancel_operation`: success exactly when the operation was pending, running or paused. */
  method CancelOperationTool(m: LongRunningOperation, id: string, now: Time) returns (r: ToolReport)
    requires m.Valid()
    modifies m, m.store
    ensures m.Valid()
    ensures r.ToolError? <==> !(id in old(m.operations) && old(m.operations)[id].status in {Pending, Running, Paused})
    ensures r.ToolError? ==> r == ToolError(id, CancelFailed) && m.operations == old(m.operations)
    ensures !r.ToolError? ==> r == CancelRecorded(id, "Operation cancelled successfully")
                              && id in m.operations && m.operations[id].status == Cancelled
  {
    var ok := m.CancelOperation(id, now);
    if ok {
      r := CancelRecorded(id, "Operation cancelled successfully");
    } else {
      r := ToolError(id, CancelFailed);
    }
  }

  /** What `get_operation_status` returns. */
  datatype StatusReport =
    | OperationFound(operationId: string, operationStatus: string, progress: real, agent: string, task: string,
                     createdAt: Time, startedAt: Option<Time>, pausedAt: Option<Time>, completedAt: Option<Time>,
                     pauseReason: Option<string>)
    | OperationNotFound(operationId: string, message: string)

  /** `get_operation_status`: the cached record's fields, or "Operation not found". */
  function GetOperationStatus(m: LongRunningOperation, id: string): (r: StatusReport)
    reads m
    ensures r.OperationNotFound? <==> id !in m.operations
    ensures r.OperationNotFound? ==> r.message == "Operation not found"
    ensures r.OperationFound? ==>
              var op := m.operations[id];
              StatusByValue(r.operationStatus) == Some(op.status) && r.progress == op.progress
              && r.pauseReason == op.pauseReason && r.pausedAt == op.pausedAt && r.completedAt == op.completedAt
  {
    match m.GetOperation(id)
    case None => OperationNotFound(id, "Operation not found")
    case Some(op) =>
      StatusValueRoundTrip(op.status);
      OperationFound(id, StatusValue(op.status), op.progress, op.agentName, op.taskDescription, op.createdAt,
                     op.startedAt, op.pausedAt, op.completedAt, op.pauseReason)
  }

  /** One entry of `list_user_operations`. */
  datatype OperationSummary = OperationSummary(operationId: string, agent: string, task: string, status: string,
                                               progress: real, createdAt: Time)

  datatype OperationList = OperationList(count: nat, operations: seq<OperationSummary>)

  function Summary(row: OperationRow): OperationSummary {
    OperationSummary(row.operationId, row.agentName, row.taskDescription, StatusValue(row.status), row.progress,
                     row.createdAt)
  }

  /**
   * `list_user_operations`: one summary per row `get_user_operations`
   * returns for the context's user and the filters, in its order, and their
   * count.
   */
  function ListUserOperations(m: LongRunningOperation, status: Option<string>, agentName: Option<string>,
                              context: Option<ToolContext>): (r: OperationList)
    reads m, m.store
    requires m.Valid()
    ensures var rows := m.store.UserOperations(UserOf(context), status, agentName);
            r.count == |r.operations| == |rows|
            && forall i :: 0 <= i < |rows| ==> r.operations[i] == Summary(rows[i])
  {
    var rows := m.store.UserOperations(UserOf(context), status, agentName);
    var summaries := seq(|rows|, i requires 0 <= i < |rows| => Summary(rows[i]));
    OperationList(|summaries|, summaries)
  }

  /** One entry of `list_paused_operations`. */
  datatype PausedSummary = PausedSummary(operationId: string, agent: string, task: string, progress: real,
                                         pausedAt: Option<Time>, pauseReason: Option<string>)

  datatype PausedList = PausedList(count: nat, pausedOperations: seq<PausedSummary>)

  /**
   * `list_paused_operations`: one entry per stored PAUSED row of the
   * context's user. The rows have no pause reason column, so every entry's
   * reason is None.
   */
  function ListPausedOperations(m: LongRunningOperation, context: Option<ToolContext>): (r: PausedList)
    reads m, m.store
    requires m.Valid()
    ensures var rows := m.PausedOperations(UserOf(context));
            r.count == |r.pausedOperations| == |rows|
            && forall i :: 0 <= i < |rows| ==>
                 r.pausedOperations[i].operationId == rows[i].operationId
                 && r.pausedOperations[i].progress == rows[i].progress
                 && r.pausedOperations[i].pausedAt == rows[i].pausedAt
                 && r.pausedOperations[i].pauseReason == None
  {
    var rows := m.PausedOperations(UserOf(context));
    var entries := seq(|rows|, i requires 0 <= i < |rows| =>
      PausedSummary(rows[i].operationId, rows[i].agentName, rows[i].taskDescription, rows[i].progress,
                    rows[i].pausedAt, None));
    PausedList(|entries|, entries)
  }

  /**
   * An operation paused with a reason is listed without it: the cached
   * record holds the reason, its listed entry says None.
   */
  lemma PausedListDropsReason(m: LongRunningOperation, context: Option<ToolContext>, id: string)
    requires m.Valid() && id in m.operations && m.operations[id].pauseReason.Some?
    requires id in m.store.rows && m.store.rows[id].userId == UserOf(context) && m.store.rows[id].status == Paused
    ensures exists s :: s in ListPausedOperations(m, context).pausedOperations && s.operationId == id
                        && s.pauseReason != m.operations[id].pauseReason
  {
    var rows := m.PausedOperations(UserOf(context));
    var i :| 0 <= i < |rows| && rows[i] == m.store.rows[id];
    assert ListPausedOperations(m, context).pausedOperations[i] in ListPausedOperations(m, context).pausedOperations;
  }

  /** The paused list with each entry's reason taken from the cached record, when there is one. */
  function ListPausedOperationsIntended(m: LongRunningOperation, context: Option<ToolContext>): (r: PausedList)
    reads m, m.store
    requires m.Valid()
    ensures var rows := m.PausedOperations(UserOf(context));
            r.count == |r.pausedOperations| == |rows|
            && forall i :: 0 <= i < |rows| ==>
                 r.pausedOperations[i].operationId == rows[i].operationId
                 && r.pausedOperations[i].progress == rows[i].progress
                 && r.pausedOperations[i].pausedAt == rows[i].pausedAt
                 && r.pausedOperations[i].pauseReason
                      == (if rows[i].operationId in m.operations then m.operations[rows[i].operationId].pauseReason else None)
  {
    var rows := m.PausedOperations(UserOf(context));
    var entries := seq(|rows|, i requires 0 <= i < |rows| reads m =>
      PausedSummary(rows[i].operationId, rows[i].agentName, rows[i].taskDescription, rows[i].progress,
                    rows[i].pausedAt,
                    if rows[i].operationId in m.operations then m.operations[rows[i].operationId].pauseReason else None));
    PausedList(|entries|, entries)
  }

  /** With the reason read from the cache, a listed paused operation reports the reason it was paused with. */
  lemma IntendedListKeepsReason(m: LongRunningOperation, context: Option<ToolContext>, id: string)
    requires m.Valid() && id in m.operations
    requires id in m.store.rows && m.store.rows[id].userId == UserOf(context) && m.store.rows[id].status == Paused
    ensures exists s :: s in ListPausedOperationsIntended(m, context).pausedOperations && s.operationId == id
                        && s.pauseReason == m.operations[id].pauseReason
  {
    var rows := m.PausedOperations(UserOf(context));
    var i :| 0 <= i < |rows| && rows[i] == m.store.rows[id];
    assert ListPausedOperationsIntended(m, context).pausedOperations[i]
             in ListPausedOperationsIntended(m, context).pausedOperations;
  }

  /** One entry of `get_operation_history`. */
  datatype HistoryLine = HistoryLine(action: string, timestamp: Time, details: Details)

  datatype HistoryReport = HistoryReport(operationId: string, historyCount: nat, history: seq<HistoryLine>)

  /**
   * `get_operation_history`: the operation's records in logging order; for
   * a known operation the first is "created".
   */
  function GetOperationHistoryTool(m: LongRunningOperation, id: string): (r: HistoryReport)
    reads m, m.store
    requires m.Valid()
    ensures r.historyCount == |r.history| == |m.GetOperationHistory(id)|
    ensures forall i :: 0 <= i < |r.history| ==>
              r.history[i].action == m.GetOperationHistory(id)[i].action
              && r.history[i].timestamp == m.GetOperationHistory(id)[i].timestamp
    ensures id in m.operations ==> r.history != [] && r.history[0].action == "created"
  {
    var h := m.GetOperationHistory(id);
    var lines := seq(|h|, i requires 0 <= i < |h| => HistoryLine(h[i].action, h[i].timestamp, h[i].details));
    HistoryReport(id, |lines|, lines)
  }
}
