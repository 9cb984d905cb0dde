/** Status alphabets, transition tables and derived statuses (src/domain-states.js).
    Each table is a predicate on a pair of statuses; a JavaScript throw is `false`. */
module DomainStates {

  datatype TaskStatus =
    | Staged | Blocked | Queued | WaitingForLease | RetryWaiting
    | Running | ApprovalWaiting | AgentDone | Validating | IntegrationPending | UpgradePending
    | RecoveryAttention | Completed | CompletedWithWarnings | Skipped | Rejected
    | ValidationFailed | Failed | Canceled | Interrupted | BlockedByPolicy | IntegrationBlocked

  datatype RunStatus =
    | RunDraft | RunAccepted | RunPlanning | RunPreparing | RunAgentsPrepared | RunAwaitingStart
    | RunRunning | RunCompleted | RunFailed | RunCancelled

  datatype GlobalStatus =
    | GlobalAccepted | GlobalResolving | GlobalPlanning | GlobalPreparing | GlobalRunning | GlobalWaiting
    | GlobalCompleted | GlobalFailed | GlobalCancelled | GlobalAttention

  // ---------- Task status sets ----------

  /** The success a dependent may build on: `skipped` is not in it. */
  predicate Achieved(s: TaskStatus) { s.Completed? || s.CompletedWithWarnings? }

  predicate Successful(s: TaskStatus) { Achieved(s) || s.Skipped? }

  predicate FailedStatus(s: TaskStatus) {
    s.Rejected? || s.ValidationFailed? || s.Failed? || s.Interrupted? || s.BlockedByPolicy?
    || s.IntegrationBlocked? || s.RecoveryAttention?
  }

  predicate Terminal(s: TaskStatus) { Successful(s) || FailedStatus(s) || s.Canceled? }

  predicate Repairable(s: TaskStatus) { FailedStatus(s) || s.Canceled? }

  /** Statuses in which a worker holds the claim. */
  predicate Owned(s: TaskStatus) {
    s.Running? || s.ApprovalWaiting? || s.AgentDone? || s.Validating? || s.IntegrationPending?
  }

  predicate Active(s: TaskStatus) { Owned(s) || s.UpgradePending? }

  predicate Claimable(s: TaskStatus) { s.Queued? || s.RetryWaiting? || s.WaitingForLease? }

  predicate Attention(s: TaskStatus) { s.RecoveryAttention? || s.IntegrationBlocked? }

  type Ending = s: TaskStatus | FailedStatus(s) witness Failed

  // ---------- Transition tables ----------

  predicate ExecutionTerminal(s: TaskStatus) { Terminal(s) && !s.Skipped? }

  predicate TaskTable(from: TaskStatus, to: TaskStatus) {
    match from
    case Staged => to in {Blocked, Queued, Canceled, Failed, BlockedByPolicy}
    case Blocked => to in {Queued, Skipped, Failed, Canceled, BlockedByPolicy, RecoveryAttention}
    case Queued => to in {Running, Failed, Canceled, BlockedByPolicy, RecoveryAttention}
    case WaitingForLease => to in {Running, Failed, Canceled, RecoveryAttention}
    case RetryWaiting => to in {Running, Failed, Canceled, RecoveryAttention}
    case Running =>
      to in {ApprovalWaiting, AgentDone, IntegrationPending, RetryWaiting, WaitingForLease} || ExecutionTerminal(to)
    case ApprovalWaiting => to in {Running, AgentDone, IntegrationPending, RetryWaiting} || ExecutionTerminal(to)
    case AgentDone => to in {Validating, RetryWaiting} || ExecutionTerminal(to)
    case Validating => to in {IntegrationPending, RetryWaiting} || ExecutionTerminal(to)
    case IntegrationPending => ExecutionTerminal(to)
    case UpgradePending => to in {Queued, Running, Failed, Canceled, RecoveryAttention}
    case RecoveryAttention => to == Canceled
    case _ => false
  }

  predicate TaskMayBecome(from: TaskStatus, to: TaskStatus, allowRepair: bool) {
    from == to || (allowRepair && Repairable(from) && to == Blocked) || TaskTable(from, to)
  }

  predicate RunTerminal(s: RunStatus) { s.RunCompleted? || s.RunFailed? || s.RunCancelled? }

  predicate RunTable(from: RunStatus, to: RunStatus) {
    match from
    case RunDraft => to in {RunAccepted, RunPlanning, RunPreparing, RunRunning, RunFailed, RunCancelled}
    case RunAccepted => to in {RunPlanning, RunFailed, RunCancelled}
    case RunPlanning => to in {RunPreparing, RunFailed, RunCancelled}
    case RunPreparing => to in {RunAgentsPrepared, RunAwaitingStart, RunRunning, RunFailed, RunCancelled}
    case RunAgentsPrepared => to in {RunRunning, RunFailed, RunCancelled}
    case RunAwaitingStart => to in {RunPreparing, RunRunning, RunFailed, RunCancelled}
    case RunRunning => to in {RunCompleted, RunFailed, RunCancelled}
    case _ => false
  }

  predicate RunMayBecome(from: RunStatus, to: RunStatus, allowRepair: bool) {
    from == to || (allowRepair && RunTerminal(from) && to == RunRunning) || RunTable(from, to)
  }

  predicate GlobalTerminal(s: GlobalStatus) {
    s.GlobalCompleted? || s.GlobalFailed? || s.GlobalCancelled? || s.GlobalAttention?
  }

  predicate GlobalTable(from: GlobalStatus, to: GlobalStatus) {
    match from
    case GlobalAccepted => to in {GlobalResolving, GlobalFailed, GlobalCancelled}
    case GlobalResolving => to in {GlobalPlanning, GlobalFailed, GlobalAttention, GlobalCancelled}
    case GlobalPlanning => to in {GlobalPreparing, GlobalFailed, GlobalAttention, GlobalCancelled}
    case GlobalPreparing => to in {GlobalRunning, GlobalFailed, GlobalAttention, GlobalCancelled}
    case GlobalRunning => to in {GlobalWaiting, GlobalCompleted, GlobalFailed, GlobalAttention, GlobalCancelled}
    case GlobalWaiting => to in {GlobalRunning, GlobalFailed, GlobalAttention, GlobalCancelled}
    case _ => false
  }

  predicate GlobalMayBecome(from: GlobalStatus, to: GlobalStatus) { from == to || GlobalTable(from, to) }

  // ---------- Derived statuses ----------

  datatype Option<+T> = None | Some(value: T)

  /** The statuses occurring among a run's tasks decide; no tasks, no verdict. */
  function DeriveRunStatus(statuses: set<TaskStatus>): Option<RunStatus> {
    if statuses == {} || exists s :: s in statuses && !Terminal(s) then None
    else if exists s :: s in statuses && FailedStatus(s) then Some(RunFailed)
    else if Canceled in statuses then Some(RunCancelled)
    else Some(RunCompleted)
  }

  datatype Membership = Membership(status: RunStatus, required: bool, attention: bool)

  function DeriveGlobalStatus(members: seq<Membership>, cancelRequested: bool): Option<GlobalStatus> {
    if members == [] || exists m :: m in members && !RunTerminal(m.status) then None
    else if cancelRequested then Some(GlobalCancelled)
    else if exists m :: m in members && m.attention then Some(GlobalAttention)
    else if exists m :: m in members && m.required && m.status != RunCompleted then Some(GlobalFailed)
    else Some(GlobalCompleted)
  }
}
