/** Which writes the task transition table allows (src/domain-states.js). */
module TransitionLaws {
  import opened DomainStates
  import opened RetryPolicy
  import opened TaskRows
  import opened RegistrySteps
  import opened RegistryRuns

  /** Changes of status that some guarded UPDATE makes although the table has no such edge. */
  predicate RawWrite(from: TaskStatus, to: TaskStatus) {
    (from.Running? && to.Queued?)
    || (from.IntegrationPending? && to.RetryWaiting?)
    || ((from.RetryWaiting? || from.WaitingForLease?) && to.BlockedByPolicy?)
  }

  lemma FailureFollowsTable(t: Task, w: WorkerId, k: Token, f: Failure, ending: Ending, note: Option<Feedback>,
                            now: int)
    requires FinishFailureRow(t, w, k, f, ending, note, now).Some?
    ensures var to := FinishFailureRow(t, w, k, f, ending, note, now).value.status;
      TaskMayBecome(t.status, to, false) <==> !RawWrite(t.status, to)
  {
  }

  /** Exactly three changes of status that row calls make lie outside the table. */
  lemma RowCallsFollowTable(t: Task, op: RowOp, now: int)
    requires ApplyRow(t, op, now).Some?
    ensures var to := ApplyRow(t, op, now).value.status;
      TaskMayBecome(t.status, to, false) <==> !RawWrite(t.status, to)
  {
    match op
    case FinishFailure(w, k, f, ending, note) => FailureFollowsTable(t, w, k, f, ending, note, now);
    case FinishValidation(w, k, r) =>
      if !(r.decision.Accept? || r.decision.AcceptWithWarnings?) {
        FailureFollowsTable(t, w, k, ReviewFailure(r), ReviewEnding(r), ReviewNote(r), now);
      }
    case WaitForLease(w, k, delay) =>
      if FinishFailureRow(t, w, k, LeaseExpiry, RecoveryAttention, None, now).Some? {
        FailureFollowsTable(t, w, k, LeaseExpiry, RecoveryAttention, None, now);
      }
    case _ =>
  }

  /** The calls that check the table before each write never fail on it: sweeping, releasing,
      cancelling, failing a preparation, failing a consumer and repairing. */
  lemma CheckedWritesAllowed(db: Db, t: Task, r: RunId, c: Contract)
    ensures t.status.Blocked? ==> TaskMayBecome(t.status, SweepVerdict(db, t), false)
    ensures TaskMayBecome(t.status, ReleasedIn(t, r).status, false)
    ensures TaskMayBecome(t.status, CanceledIn(t, r).status, false)
    ensures TaskMayBecome(t.status, FailedIn(t, r).status, false)
    ensures TaskMayBecome(t.status, DoomedIn(t, r).status, false)
    ensures Repairable(t.status) ==> TaskMayBecome(t.status, RepairedRow(t, c).status, true)
  {
  }

  /** From where a task can come to a status: what is not over can always fail or be canceled, only
      held work succeeds, and only blocked work is skipped. */
  function WaysInto(to: TaskStatus): set<TaskStatus> {
    match to
    case Canceled => HELD + {Staged, Blocked, Queued, WaitingForLease, RetryWaiting, UpgradePending, RecoveryAttention}
    case Failed => HELD + {Staged, Blocked, Queued, WaitingForLease, RetryWaiting, UpgradePending}
    case RecoveryAttention => HELD + {Blocked, Queued, WaitingForLease, RetryWaiting, UpgradePending}
    case BlockedByPolicy => HELD + {Staged, Blocked, Queued}
    case Skipped => {Blocked}
    case Blocked => {Staged}
    case Queued => {Staged, Blocked, UpgradePending}
    case Running => {Queued, WaitingForLease, RetryWaiting, ApprovalWaiting, UpgradePending}
    case ApprovalWaiting => {Running}
    case AgentDone => {Running, ApprovalWaiting}
    case Validating => {AgentDone}
    case IntegrationPending => {Running, ApprovalWaiting, Validating}
    case WaitingForLease => {Running}
    case RetryWaiting => HELD - {IntegrationPending}
    case Staged => {}
    case UpgradePending => {}
    case _ => HELD
  }

  lemma WaysIntoEnded(from: TaskStatus, to: TaskStatus)
    requires to in ENDED
    ensures TaskTable(from, to) <==> from in WaysInto(to)
  {
  }

  lemma WaysIntoOpen(from: TaskStatus, to: TaskStatus)
    requires to !in ENDED
    ensures TaskTable(from, to) <==> from in WaysInto(to)
  {
  }

  lemma WaysIntoStatus(from: TaskStatus, to: TaskStatus)
    ensures TaskTable(from, to) <==> from in WaysInto(to)
  {
    if to in ENDED { WaysIntoEnded(from, to); } else { WaysIntoOpen(from, to); }
  }

  lemma WaysIntoRun(from: RunStatus, to: RunStatus)
    ensures to in {RunFailed, RunCancelled} ==> (RunTable(from, to) <==> from !in RUN_ENDED)
    ensures to == RunCompleted ==> (RunTable(from, to) <==> from == RunRunning)
    ensures to == RunRunning ==>
      (RunTable(from, to) <==> from in {RunDraft, RunPreparing, RunAgentsPrepared, RunAwaitingStart})
    ensures to == RunPreparing ==> (RunTable(from, to) <==> from in {RunDraft, RunPlanning, RunAwaitingStart})
    ensures to in {RunAgentsPrepared, RunAwaitingStart} ==> (RunTable(from, to) <==> from == RunPreparing)
    ensures to == RunPlanning ==> (RunTable(from, to) <==> from in {RunDraft, RunAccepted})
    ensures to == RunAccepted ==> (RunTable(from, to) <==> from == RunDraft)
    ensures to == RunDraft ==> !RunTable(from, to)
  {
  }

  lemma WaysIntoGlobal(from: GlobalStatus, to: GlobalStatus)
    ensures to in {GlobalFailed, GlobalCancelled} ==> (GlobalTable(from, to) <==> from !in GLOBAL_ENDED)
    ensures to == GlobalAttention ==> (GlobalTable(from, to) <==> from !in GLOBAL_ENDED + {GlobalAccepted})
    ensures to in {GlobalCompleted, GlobalWaiting} ==> (GlobalTable(from, to) <==> from == GlobalRunning)
    ensures to == GlobalRunning ==> (GlobalTable(from, to) <==> from in {GlobalPreparing, GlobalWaiting})
    ensures to == GlobalPreparing ==> (GlobalTable(from, to) <==> from == GlobalPlanning)
    ensures to == GlobalPlanning ==> (GlobalTable(from, to) <==> from == GlobalResolving)
    ensures to == GlobalResolving ==> (GlobalTable(from, to) <==> from == GlobalAccepted)
    ensures to == GlobalAccepted ==> !GlobalTable(from, to)
  {
  }
}
