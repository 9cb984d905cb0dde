/** One row of the `tasks` table and every guarded write a worker, recovery or
    cancellation makes to it (src/registry.js). A write whose WHERE clause does not
    match is `None`: the call returns null or false and the row stays as it was. */
module TaskRows {
  import opened DomainStates
  import opened RetryPolicy

  type TaskId = nat
  type RunId = nat
  type GlobalId = nat
  type WorkerId = nat
  type Token = nat
  type Fingerprint = nat

  /** Two feedbacks are the same exactly when their sha256 hashes are. */
  type Feedback = nat

  datatype DependencyPolicy = AllSuccess | AllTerminal | OnFailure

  datatype ContractCheck = Sound | PolicyFault | OtherFault

  datatype Contract = Contract(
    validated: bool,
    recorded: Fingerprint,
    fingerprint: Fingerprint,
    check: ContractCheck,
    sideEffectFree: bool,
    readOnly: bool)

  /** Marker binding a task to one validated revision of a Global Run. */
  datatype Gate = Gate(
    global: GlobalId, revision: nat, graph: Fingerprint, authorization: Fingerprint, manifest: Fingerprint)

  datatype Task = Task(
    runId: RunId,
    policy: DependencyPolicy,
    dependsOn: set<TaskId>,
    gate: Option<Gate>,
    retryDelay: nat,
    timeout: nat,
    maxAttempts: nat,
    contract: Contract,
    status: TaskStatus,
    workerId: Option<WorkerId>,
    claimToken: Option<Token>,
    attempt: nat,
    nextRetryAt: Option<int>,
    startedAt: Option<int>,
    waitingSince: Option<int>,
    feedback: seq<Feedback>,
    feedbackRevision: nat,
    version: nat)

  datatype ReviewDecision = Accept | AcceptWithWarnings | ReviewError | RejectedReview

  /** A validator's result; `kind` is its failureKind after the prose fallback. */
  datatype Review = Review(decision: ReviewDecision, kind: FailureClass, note: Feedback)

  datatype RowOp =
    | BindClaim(w: WorkerId, k: Token)
    | SetClaimTurn(w: WorkerId, k: Token)
    | HeartbeatClaim(w: WorkerId, k: Token)
    | MarkAgentDone(w: WorkerId, k: Token)
    | MarkValidating(w: WorkerId, k: Token)
    | MarkIntegrationPending(w: WorkerId, k: Token)
    | CompleteClaim(w: WorkerId, k: Token)
    | FinishValidation(w: WorkerId, k: Token, review: Review)
    | FinishTurn(w: WorkerId, k: Token, interrupted: bool)
    | FinishFailure(w: WorkerId, k: Token, failure: Failure, ending: Ending, note: Option<Feedback>)
    | WaitForLease(w: WorkerId, k: Token, delay: nat)
    | RejectBeforeClaim(readVersion: nat, byPolicy: bool)
    | RecoverInterrupted(readVersion: nat, deferred: bool)
    | FinishRecoveredIntegration(accepted: bool, warned: bool)
    | CancelTask

  /** The five calls that end a claim. */
  predicate Ends(op: RowOp) {
    op.CompleteClaim? || op.FinishValidation? || op.FinishTurn? || op.FinishFailure? || op.WaitForLease?
  }

  predicate Tokened(op: RowOp) {
    Ends(op) || op.BindClaim? || op.SetClaimTurn? || op.HeartbeatClaim? || op.MarkAgentDone?
    || op.MarkValidating? || op.MarkIntegrationPending?
  }

  predicate Holds(t: Task, w: WorkerId, k: Token) {
    t.workerId == Some(w) && t.claimToken == Some(k)
  }

  /** Row `id` is in one of these statuses and held by this worker under this token. */
  predicate Owns(tasks: map<TaskId, Task>, id: TaskId, w: WorkerId, k: Token, statuses: set<TaskStatus>) {
    id in tasks && Holds(tasks[id], w, k) && tasks[id].status in statuses
  }

  /** The statuses in which a worker holds a claim. */
  const HELD: set<TaskStatus> := {Running, ApprovalWaiting, AgentDone, Validating, IntegrationPending}

  /** The statuses in which a task is over. */
  const ENDED: set<TaskStatus> := {
    Completed, CompletedWithWarnings, Skipped, Rejected, ValidationFailed, Failed, Canceled, Interrupted,
    BlockedByPolicy, IntegrationBlocked, RecoveryAttention }

  /** No other row changed; none at all unless `ok`. */
  predicate OneRow(before: map<TaskId, Task>, now: map<TaskId, Task>, id: TaskId, ok: bool) {
    if ok then id in before && id in now && now == before[id := now[id]] else now == before
  }

  /** The row changed hands: nobody holds it, and but for its status and the time of its next
      retry it is as it was. */
  predicate LetGo(t: Task, t': Task, status: TaskStatus, retryAt: Option<int>) {
    t' == t.(status := status, workerId := None, claimToken := None, nextRetryAt := retryAt, version := t.version + 1)
  }

  function Freed(t: Task, status: TaskStatus): Task {
    t.(status := status, workerId := None, claimToken := None, version := t.version + 1)
  }

  function Max(a: int, b: int): int { if a >= b then a else b }

  function Pow2(n: nat): nat { if n == 0 then 1 else 2 * Pow2(n - 1) }

  function Backoff(t: Task): nat { t.retryDelay * Pow2(Max(t.attempt - 1, 0)) }

  /** An attempt that failed: the row waits for a retry iff the failure deserves one, for as long as
      its delay says, and otherwise ends as told; feedback is remembered once. */
  predicate Failing(t: Task, t': Task, f: Failure, ending: TaskStatus, note: Option<Feedback>, now: int) {
    var unseen := note.Some? && note.value !in t.feedback;
    var retry := DeservesRetry(f, t.attempt < t.maxAttempts, unseen);
    t' == t.(status := if retry then RetryWaiting else ending, workerId := None, claimToken := None,
             nextRetryAt := if retry then Some(now + Backoff(t)) else None,
             feedback := if unseen then t.feedback + [note.value] else t.feedback,
             feedbackRevision := if unseen then t.feedbackRevision + 1 else t.feedbackRevision,
             version := t.version + 1)
  }

  /** A review that does not accept. Trouble with the contract or with policy ends the task; a review
      that broke down is repeated while an attempt is left; a rejection is reworked if, besides, its
      feedback is new. */
  predicate Reviewed(t: Task, t': Task, r: Review, now: int) {
    var rework := r.kind !in {Configuration, Policy} && r.decision != ReviewError;
    var unseen := rework && r.note !in t.feedback;
    var retry := r.kind !in {Configuration, Policy} && t.attempt < t.maxAttempts && (rework ==> unseen);
    var ending := if r.kind == Policy then BlockedByPolicy else if rework then Rejected else ValidationFailed;
    t' == t.(status := if retry then RetryWaiting else ending, workerId := None, claimToken := None,
             nextRetryAt := if retry then Some(now + Backoff(t)) else None,
             feedback := if unseen then t.feedback + [r.note] else t.feedback,
             feedbackRevision := if unseen then t.feedbackRevision + 1 else t.feedbackRevision,
             version := t.version + 1)
  }

  /** The claim is given back, with its attempt; the wait counts from its first moment. */
  predicate Waiting(t: Task, t': Task, now: int, delay: nat) {
    t' == t.(status := WaitingForLease, workerId := None, claimToken := None,
             attempt := if t.attempt == 0 then 0 else t.attempt - 1,
             waitingSince := if t.waitingSince.Some? then t.waitingSince else Some(now),
             nextRetryAt := Some(now + delay), version := t.version + 1)
  }

  /** The contract repair is for tasks that ended without success, and brings a new contract. */
  predicate MayRepair(tasks: map<TaskId, Task>, id: TaskId, c: Contract) {
    && id in tasks && tasks[id].status in ENDED - {Completed, CompletedWithWarnings, Skipped}
    && c.fingerprint != tasks[id].contract.fingerprint
  }

  /** Blocked again under the new contract, with at least one attempt left and nothing remembered. */
  predicate Repaired(t: Task, t': Task, c: Contract) {
    t' == t.(status := Blocked, contract := c.(validated := true, recorded := c.fingerprint),
             workerId := None, claimToken := None, startedAt := None, nextRetryAt := None,
             maxAttempts := if t.attempt < t.maxAttempts then t.maxAttempts else t.attempt + 1,
             feedback := [], feedbackRevision := 0, version := t.version + 1)
  }

  /** A claim: the worker runs the task under its token, with one attempt more. */
  predicate Taken(t: Task, t': Task, w: WorkerId, k: Token, now: int) {
    t' == t.(status := Running, workerId := Some(w), claimToken := Some(k), attempt := t.attempt + 1,
             startedAt := if t.startedAt.Some? then t.startedAt else Some(now), nextRetryAt := None,
             version := t.version + 1)
  }

  /** A held row after restart recovery: only reading work without side effects, under a contract
      that is current and sound, runs again by itself. */
  predicate AfterRestart(t: Task, t': Task) {
    var c := t.contract;
    var current := c.validated && c.recorded == c.fingerprint;
    && LetGo(t, t', t'.status, None) && t'.status in {Queued, BlockedByPolicy, Failed, RecoveryAttention}
    && (t'.status.Queued? <==> t.status.Running? && current && c.check.Sound? && c.sideEffectFree && c.readOnly)
    && (t'.status.BlockedByPolicy? <==> current && c.check.PolicyFault?)
    && (t'.status.Failed? <==> !current || c.check.OtherFault?)
  }

  lemma FailureFails(t: Task, w: WorkerId, k: Token, f: Failure, ending: Ending, note: Option<Feedback>, now: int)
    requires Holds(t, w, k) && Owned(t.status)
    ensures FinishFailureRow(t, w, k, f, ending, note, now).Some?
    ensures Failing(t, FinishFailureRow(t, w, k, f, ending, note, now).value, f, ending, note, now)
  {
    RetryIff(f, Max(t.maxAttempts - t.attempt, 0), note.Some?, note.Some? && note.value in t.feedback);
  }

  lemma ReviewReviews(t: Task, w: WorkerId, k: Token, r: Review, now: int)
    requires Holds(t, w, k) && Owned(t.status) && !Accepts(r)
    ensures FinishValidationRow(t, w, k, r, now).Some?
    ensures Reviewed(t, FinishValidationRow(t, w, k, r, now).value, r, now)
  {
    FailureFails(t, w, k, ReviewFailure(r), ReviewEnding(r), ReviewNote(r), now);
  }

  lemma ExpiryLetsGo(t: Task, w: WorkerId, k: Token, now: int)
    requires Holds(t, w, k) && Owned(t.status)
    ensures FinishFailureRow(t, w, k, LeaseExpiry, RecoveryAttention, None, now).Some?
    ensures LetGo(t, FinishFailureRow(t, w, k, LeaseExpiry, RecoveryAttention, None, now).value, RecoveryAttention,
                  None)
  {
    FailureFails(t, w, k, LeaseExpiry, RecoveryAttention, None, now);
  }

  /** The first attempt waits for the task's own delay, and every further one twice as long. */
  lemma DelayDoubles(t: Task)
    ensures Backoff(t.(attempt := 1)) == t.retryDelay && Backoff(t.(attempt := 0)) == t.retryDelay
    ensures t.attempt >= 1 ==> Backoff(t.(attempt := t.attempt + 1)) == 2 * Backoff(t)
  {
    if t.attempt >= 1 {
      assert Pow2(t.attempt) == 2 * Pow2(t.attempt - 1);
      assert t.retryDelay * (2 * Pow2(t.attempt - 1)) == 2 * (t.retryDelay * Pow2(t.attempt - 1));
    }
  }

  function Touch(t: Task): Task { t.(version := t.version + 1) }

  function CompleteRow(t: Task, w: WorkerId, k: Token): Option<Task> {
    if Holds(t, w, k) && t.status in {Running, ApprovalWaiting, IntegrationPending}
    then Some(Freed(t, Completed)) else None
  }

  function FinishTurnRow(t: Task, w: WorkerId, k: Token, interrupted: bool): Option<Task> {
    if Holds(t, w, k) && t.status in {Running, ApprovalWaiting}
    then Some(Freed(t, if interrupted then Interrupted else Failed)) else None
  }

  function FinishFailureRow(t: Task, w: WorkerId, k: Token, f: Failure, ending: Ending, note: Option<Feedback>,
                            now: int)
    : Option<Task>
  {
    if !Holds(t, w, k) || !Owned(t.status) then None else
      var duplicate := note.Some? && note.value in t.feedback;
      var remaining := Max(t.maxAttempts - t.attempt, 0);
      var d := DecideTaskRetry(f, remaining, note.Some?, duplicate);
      var learned := if note.Some? && !duplicate then t.feedback + [note.value] else t.feedback;
      var revision := if note.Some? && !duplicate then t.feedbackRevision + 1 else t.feedbackRevision;
      Some(Freed(t, if d.retry then RetryWaiting else ending)
           .(nextRetryAt := if d.retry then Some(now + Backoff(t)) else None,
             feedback := learned,
             feedbackRevision := revision))
  }

  predicate Accepts(r: Review) { r.decision.Accept? || r.decision.AcceptWithWarnings? }

  /** The failure record finishValidationClaim builds for a review that does not accept. */
  function ReviewFailure(r: Review): Failure {
    if ContractClass(r.kind) then Failure(Some(r.kind), Some(r.kind), false, Some(OtherAction))
    else if r.decision == ReviewError then Failure(Some(Infrastructure), Some(OtherClass), true, Some(Retry))
    else Failure(Some(Validation), Some(if r.kind == Product then Product else Validation), true, Some(Rework))
  }

  function ReviewEnding(r: Review): Ending {
    if r.kind == Policy then BlockedByPolicy
    else if ContractClass(r.kind) || r.decision == ReviewError then ValidationFailed
    else Rejected
  }

  function ReviewNote(r: Review): Option<Feedback> {
    if ContractClass(r.kind) || r.decision == ReviewError then None else Some(r.note)
  }

  function FinishValidationRow(t: Task, w: WorkerId, k: Token, r: Review, now: int): Option<Task> {
    if !Accepts(r) then
      FinishFailureRow(t, w, k, ReviewFailure(r), ReviewEnding(r), ReviewNote(r), now)
    else if Holds(t, w, k) && t.status in {Validating, IntegrationPending} then
      Some(Freed(t, if r.decision.Accept? then Completed else CompletedWithWarnings))
    else None
  }

  const LeaseExpiry := Failure(Some(Configuration), Some(Configuration), false, Some(OtherAction))

  /** The wait of row `id` is at or past its deadline. */
  predicate LeaseOver(tasks: map<TaskId, Task>, id: TaskId, now: int) {
    id in tasks
    && now - (if tasks[id].waitingSince.Some? then tasks[id].waitingSince.value else now) >= tasks[id].timeout
  }

  function WaitForLeaseRow(t: Task, w: WorkerId, k: Token, delay: nat, now: int): Option<Task> {
    var since := if t.waitingSince.Some? then t.waitingSince.value else now;
    if now - since >= t.timeout then
      FinishFailureRow(t, w, k, LeaseExpiry, RecoveryAttention, None, now)
    else if Holds(t, w, k) && t.status.Running? then
      Some(Freed(t, WaitingForLease)
           .(waitingSince := Some(since), attempt := Max(t.attempt - 1, 0), nextRetryAt := Some(now + delay)))
    else None
  }

  function RejectRow(t: Task, readVersion: nat, byPolicy: bool): Option<Task> {
    if Claimable(t.status) && t.version == readVersion
    then Some(Freed(t, if byPolicy then BlockedByPolicy else Failed).(nextRetryAt := None)) else None
  }

  predicate ContractCurrent(c: Contract) { c.validated && c.recorded == c.fingerprint }

  predicate ReplaySafe(c: Contract) {
    ContractCurrent(c) && c.check.Sound? && c.sideEffectFree && c.readOnly
  }

  function RecoveredStatus(t: Task): TaskStatus {
    var c := t.contract;
    if !ContractCurrent(c) then Failed
    else if c.check.PolicyFault? then BlockedByPolicy
    else if c.check.OtherFault? then Failed
    else if ReplaySafe(c) && t.status.Running? then Queued
    else RecoveryAttention
  }

  /** The scan's version stands for its whole read, since every write bumps the version;
      `deferred` stands for an active turn dispatch or an integration journal, either of
      which postpones the recovery. */
  function RecoverRow(t: Task, readVersion: nat, deferred: bool): Option<Task> {
    if Owned(t.status) && !deferred && t.version == readVersion
    then Some(Freed(t, RecoveredStatus(t)).(nextRetryAt := None)) else None
  }

  function RecoveredIntegrationRow(t: Task, accepted: bool, warned: bool): Option<Task> {
    if t.status.IntegrationPending? then
      Some(Freed(t, if !accepted then IntegrationBlocked else if warned then CompletedWithWarnings else Completed)
           .(nextRetryAt := None))
    else None
  }

  function CancelRow(t: Task): Option<Task> {
    if Terminal(t.status) then None else Some(Freed(t, Canceled).(nextRetryAt := None))
  }

  function ApplyRow(t: Task, op: RowOp, now: int): Option<Task> {
    match op
    case BindClaim(w, k) =>
      if Holds(t, w, k) && t.status in {Running, ApprovalWaiting, IntegrationPending}
      then Some(Touch(t).(startedAt := if t.startedAt.Some? then t.startedAt else Some(now))) else None
    case SetClaimTurn(w, k) =>
      if Holds(t, w, k) && t.status in {Running, ApprovalWaiting} then Some(Touch(t)) else None
    case HeartbeatClaim(w, k) =>
      if Holds(t, w, k) && Owned(t.status) then Some(Touch(t)) else None
    case MarkAgentDone(w, k) =>
      if Holds(t, w, k) && t.status in {Running, ApprovalWaiting} then Some(Touch(t).(status := AgentDone)) else None
    case MarkValidating(w, k) =>
      if Holds(t, w, k) && t.status.AgentDone? then Some(Touch(t).(status := Validating)) else None
    case MarkIntegrationPending(w, k) =>
      if Holds(t, w, k) && t.status in {Running, Validating}
      then Some(Touch(t).(status := IntegrationPending)) else None
    case CompleteClaim(w, k) => CompleteRow(t, w, k)
    case FinishValidation(w, k, review) => FinishValidationRow(t, w, k, review, now)
    case FinishTurn(w, k, interrupted) => FinishTurnRow(t, w, k, interrupted)
    case FinishFailure(w, k, failure, ending, note) => FinishFailureRow(t, w, k, failure, ending, note, now)
    case WaitForLease(w, k, delay) => WaitForLeaseRow(t, w, k, delay, now)
    case RejectBeforeClaim(v, byPolicy) => RejectRow(t, v, byPolicy)
    case RecoverInterrupted(v, deferred) => RecoverRow(t, v, deferred)
    case FinishRecoveredIntegration(accepted, warned) => RecoveredIntegrationRow(t, accepted, warned)
    case CancelTask => CancelRow(t)
  }
}
