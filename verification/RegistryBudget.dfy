/** Counting over histories: claims against the attempt budget, retry delays, and how long
    a task can keep waiting for a lease. */
module RegistryBudget {
  import opened DomainStates
  import opened RetryPolicy
  import opened TaskRows
  import opened RegistrySteps
  import opened RegistryInvariant
  import opened RegistryKeeps
  import opened RegistryHistory
  import opened RegistryEvents

  // ---------- Marks ----------

  datatype Mark = Granted | Waited | Requeued | Repaired

  /** What event `e` did to row `id`; a claim succeeded iff the row now carries the token
      that was next to be issued. */
  predicate Marks(m: Mark, next: Token, e: Event, id: TaskId, t: Task, t': Task) {
    match m
    case Granted => t'.claimToken == Some(next)
    case Waited => e.Row? && e.id == id && e.op.WaitForLease? && t.status.Running? && t'.status.WaitingForLease?
    case Requeued => e.Row? && e.id == id && e.op.RecoverInterrupted? && t.status.Running? && t'.status.Queued?
    case Repaired => e.RepairTask? && e.id == id && Repairable(t.status) && t'.status.Blocked?
  }

  ghost predicate Marked(m: Mark, a: Db, e: Event, b: Db, id: TaskId) {
    id in a.tasks && id in b.tasks && Marks(m, a.nextToken, e, id, a.tasks[id], b.tasks[id])
  }

  ghost function Tally(m: Mark, es: seq<Event>, id: TaskId): nat {
    if es == [] then 0 else
      var before := es[..|es| - 1];
      Tally(m, before, id) + if Marked(m, Replay(before), es[|es| - 1], Replay(es), id) then 1 else 0
  }

  /** `Granted` counts exactly the claimTask calls that returned the task. */
  lemma GrantedIff(a: Db, e: Event, o: Outcome, id: TaskId)
    requires Step(a, e, o)
    ensures Marked(Granted, a, e, o.db, id) <==> e.ClaimTask? && e.id == id && o.ok
  {
    if id in a.tasks {
      assert RowOk(a.tasks[id], a.nextToken);
      RowStepToken(a, e, id, a.tasks[id], o.db.tasks[id]);
    }
  }

  lemma {:induction false} NoRowNoMarks(m: Mark, es: seq<Event>, id: TaskId)
    requires id !in Replay(es).tasks
    ensures Tally(m, es, id) == 0
  {
    if es != [] {
      LastStep(es);
      NoRowNoMarks(m, es[..|es| - 1], id);
    }
  }

  /** How the last event of a history took a row there, and what the tallies gained. */
  lemma LastRow(es: seq<Event>, id: TaskId)
    requires es != [] && id in Replay(es).tasks
    ensures var a := Replay(es[..|es| - 1]);
      && RowsOk(a) && a.clock <= Replay(es).clock
      && (if id in a.tasks then RowStep(a, es[|es| - 1], id, a.tasks[id], Replay(es).tasks[id])
          else FreshTask(Replay(es).tasks[id]) && forall m :: Tally(m, es, id) == 0)
  {
    LastStep(es);
    var a := Replay(es[..|es| - 1]);
    if id !in a.tasks {
      forall m ensures Tally(m, es, id) == 0 { NoRowNoMarks(m, es[..|es| - 1], id); }
    }
  }

  function One(b: bool): nat { if b then 1 else 0 }

  // ---------- Attempt budget ----------

  predicate Startable(s: TaskStatus) { Unreleased(s) || Claimable(s) }

  /** A claim does not look at the budget, so even one of 0 lets a first attempt happen. */
  function Budget(t: Task): nat { Max(t.maxAttempts, 1) }

  ghost predicate WithinBudget(t: Task, granted: nat, waited: nat, requeued: nat) {
    && t.attempt == granted - waited
    && t.attempt <= Budget(t) + requeued
    && (Startable(t.status) ==> t.attempt < Budget(t) + requeued)
  }

  lemma FailureWithinBudget(t: Task, w: WorkerId, k: Token, f: Failure, ending: Ending, note: Option<Feedback>,
                            now: int,
                            granted: nat, waited: nat, requeued: nat)
    requires WithinBudget(t, granted, waited, requeued)
    requires FinishFailureRow(t, w, k, f, ending, note, now).Some?
    ensures WithinBudget(FinishFailureRow(t, w, k, f, ending, note, now).value, granted, waited, requeued)
    ensures FinishFailureRow(t, w, k, f, ending, note, now).value.status != WaitingForLease
  {
  }

  /** What this call adds to the lease waits and to the restart requeues. */
  predicate AsksWait(t: Task, op: RowOp, t': Task) {
    op.WaitForLease? && t.status.Running? && t'.status.WaitingForLease?
  }

  predicate IsRequeue(t: Task, op: RowOp, t': Task) { op.RecoverInterrupted? && t.status.Running? && t'.status.Queued? }

  lemma OtherWithinBudget(t: Task, op: RowOp, now: int, granted: nat, waited: nat, requeued: nat)
    requires WithinBudget(t, granted, waited, requeued) && ApplyRow(t, op, now).Some? && !WorkerEnding(op)
    ensures WithinBudget(ApplyRow(t, op, now).value, granted, waited, requeued
      + One(IsRequeue(t, op, ApplyRow(t, op, now).value)))
  {
  }

  lemma WaitWithinBudget(t: Task, w: WorkerId, k: Token, delay: nat, now: int, issued: Token, granted: nat, waited: nat,
                         requeued: nat)
    requires RowOk(t, issued) && WithinBudget(t, granted, waited, requeued)
    requires WaitForLeaseRow(t, w, k, delay, now).Some?
    ensures var t' := WaitForLeaseRow(t, w, k, delay, now).value;
      WithinBudget(t', granted, waited + One(t.status.Running? && t'.status.WaitingForLease?), requeued)
  {
    if FinishFailureRow(t, w, k, LeaseExpiry, RecoveryAttention, None, now).Some? {
      FailureWithinBudget(t, w, k, LeaseExpiry, RecoveryAttention, None, now, granted, waited, requeued);
    }
  }

  lemma ReviewWithinBudget(t: Task, w: WorkerId, k: Token, r: Review, now: int, granted: nat, waited: nat,
                           requeued: nat)
    requires WithinBudget(t, granted, waited, requeued) && FinishValidationRow(t, w, k, r, now).Some?
    ensures WithinBudget(FinishValidationRow(t, w, k, r, now).value, granted, waited, requeued)
  {
    if !Accepts(r) {
      FailureWithinBudget(t, w, k, ReviewFailure(r), ReviewEnding(r), ReviewNote(r), now, granted, waited, requeued);
    }
  }

  lemma WorkWithinBudget(t: Task, op: RowOp, now: int, issued: Token, granted: nat, waited: nat, requeued: nat)
    requires RowOk(t, issued) && WithinBudget(t, granted, waited, requeued) && ApplyRow(t, op, now).Some?
    ensures var t' := ApplyRow(t, op, now).value;
      WithinBudget(t', granted, waited + One(AsksWait(t, op, t')), requeued + One(IsRequeue(t, op, t')))
  {
    match op
    case FinishFailure(w, k, f, ending, note) =>
      FailureWithinBudget(t, w, k, f, ending, note, now, granted, waited, requeued);
    case FinishValidation(w, k, r) => ReviewWithinBudget(t, w, k, r, now, granted, waited, requeued);
    case WaitForLease(w, k, delay) => WaitWithinBudget(t, w, k, delay, now, issued, granted, waited, requeued);
    case _ => OtherWithinBudget(t, op, now, granted, waited, requeued);
  }

  lemma StepWithinBudget(a: Db, e: Event, id: TaskId, t: Task, t': Task, granted: nat, waited: nat, requeued: nat)
    requires RowOk(t, a.nextToken) && RowStep(a, e, id, t, t') && WithinBudget(t, granted, waited, requeued)
    ensures WithinBudget(t', granted + One(Marks(Granted, a.nextToken, e, id, t, t')),
                         waited + One(Marks(Waited, a.nextToken, e, id, t, t')),
                         requeued + One(Marks(Requeued, a.nextToken, e, id, t, t')))
  {
    if WorkedOn(e, id, t, t', a.clock) {
      WorkWithinBudget(t, e.op, a.clock, a.nextToken, granted, waited, requeued);
      CallTokens(t, e.op, a.clock);
    }
  }

  /** Attempt accounting over any history: the counter is the claims less the lease waits,
      and it exceeds the budget by at most the restart requeues; a task still to be claimed
      has an attempt left. Repair keeps this by raising the budget. */
  lemma {:induction false} AttemptBudget(es: seq<Event>, id: TaskId)
    requires id in Replay(es).tasks
    ensures WithinBudget(Replay(es).tasks[id], Tally(Granted, es, id), Tally(Waited, es, id), Tally(Requeued, es, id))
  {
    LastRow(es, id);
    var before := es[..|es| - 1];
    var a := Replay(before);
    if id in a.tasks {
      AttemptBudget(before, id);
      StepWithinBudget(a, es[|es| - 1], id, a.tasks[id], Replay(es).tasks[id],
                       Tally(Granted, before, id), Tally(Waited, before, id), Tally(Requeued, before, id));
    }
  }

  // ---------- Claims of a whole run ----------

  /** Successful claims of tasks of run `r`, counted event by event. */
  ghost function RunClaims(es: seq<Event>, r: RunId): nat {
    if es == [] then 0 else
      RunClaims(es[..|es| - 1], r) + One(ClaimsIn(Replay(es[..|es| - 1]), es[|es| - 1], Replay(es), r))
  }

  ghost predicate ClaimsIn(a: Db, e: Event, b: Db, r: RunId) {
    e.ClaimTask? && Marked(Granted, a, e, b, e.id) && a.tasks[e.id].runId == r
  }

  ghost predicate Lists(ids: seq<TaskId>, db: Db, r: RunId) {
    && (forall i, j :: 0 <= i < j < |ids| ==> ids[i] != ids[j])
    && (forall id :: id in ids <==> id in db.tasks && db.tasks[id].runId == r)
  }

  ghost function ClaimsOf(es: seq<Event>, ids: seq<TaskId>): nat {
    if ids == [] then 0 else Tally(Granted, es, ids[0]) + ClaimsOf(es, ids[1..])
  }

  ghost function Budgets(es: seq<Event>, ids: seq<TaskId>): nat
    requires forall id :: id in ids ==> id in Replay(es).tasks
  {
    if ids == [] then 0 else
      Budget(Replay(es).tasks[ids[0]]) + Tally(Requeued, es, ids[0]) + Tally(Waited, es, ids[0]) + Budgets(es, ids[1..])
  }

  lemma {:induction false} ClaimsGrow(es: seq<Event>, ids: seq<TaskId>)
    requires es != [] && forall i, j :: 0 <= i < j < |ids| ==> ids[i] != ids[j]
    ensures var before, e := es[..|es| - 1], es[|es| - 1];
      ClaimsOf(es, ids)
        == ClaimsOf(before, ids)
          + One(e.ClaimTask? && e.id in ids && Marked(Granted, Replay(before), e, Replay(es), e.id))
    decreases |ids|
  {
    if ids != [] {
      var before, e := es[..|es| - 1], es[|es| - 1];
      ClaimsGrow(es, ids[1..]);
      LastStep(es);
      var o :| Step(Replay(before), e, o) && o.db == Replay(es);
      GrantedIff(Replay(before), e, o, ids[0]);
      assert ids[0] !in ids[1..];
      assert ids == [ids[0]] + ids[1..];
    }
  }

  lemma RunIdsFixed(es: seq<Event>, id: TaskId)
    requires es != [] && id in Replay(es[..|es| - 1]).tasks
    ensures id in Replay(es).tasks && Replay(es).tasks[id].runId == Replay(es[..|es| - 1]).tasks[id].runId
  {
    ReachableGood(es[..|es| - 1]);
    EventKeepsGood(Replay(es[..|es| - 1]), es[|es| - 1]);
    ReplayStep(es);
  }

  lemma {:induction false} RunClaimsSplit(es: seq<Event>, ids: seq<TaskId>, r: RunId)
    requires forall i, j :: 0 <= i < j < |ids| ==> ids[i] != ids[j]
    requires forall id :: id in Replay(es).tasks ==> (id in ids <==> Replay(es).tasks[id].runId == r)
    ensures RunClaims(es, r) == ClaimsOf(es, ids)
  {
    if es == [] { NothingClaimed(ids); } else {
      var before := es[..|es| - 1];
      forall id | id in Replay(before).tasks ensures id in ids <==> Replay(before).tasks[id].runId == r {
        RunIdsFixed(es, id);
      }
      RunClaimsSplit(before, ids, r);
      ClaimsGrow(es, ids);
    }
  }

  lemma {:induction false} NothingClaimed(ids: seq<TaskId>)
    ensures ClaimsOf([], ids) == 0
    decreases |ids|
  {
    if ids != [] { NothingClaimed(ids[1..]); }
  }

  lemma {:induction false} ClaimsWithinBudgets(es: seq<Event>, ids: seq<TaskId>)
    requires forall id :: id in ids ==> id in Replay(es).tasks
    ensures ClaimsOf(es, ids) <= Budgets(es, ids)
    decreases |ids|
  {
    if ids != [] {
      AttemptBudget(es, ids[0]);
      ClaimsWithinBudgets(es, ids[1..]);
    }
  }

  /** Termination: however workers, recovery and repairs interleave, a run is claimed at most
      as often as its tasks' attempts, restart requeues and lease waits add up to. */
  lemma RunClaimsBounded(es: seq<Event>, ids: seq<TaskId>, r: RunId)
    requires Lists(ids, Replay(es), r)
    ensures RunClaims(es, r) <= Budgets(es, ids)
  {
    RunClaimsSplit(es, ids, r);
    ClaimsWithinBudgets(es, ids);
  }

  // ---------- Backoff ----------

  /** The clock at the first successful claim. */
  ghost function FirstClaim(es: seq<Event>, id: TaskId): Option<int> {
    if es == [] then None else
      var before := es[..|es| - 1];
      if FirstClaim(before, id).Some? then FirstClaim(before, id)
      else if Marked(Granted, Replay(before), es[|es| - 1], Replay(es), id) then Some(Replay(before).clock)
      else None
  }

  /** Sum of the delays before attempt `k`: d + 2d + ... + 2^(k-2)d. */
  function BackoffTotal(d: nat, k: nat): nat { if k <= 1 then 0 else BackoffTotal(d, k - 1) + d * Pow2(k - 2) }

  lemma {:induction false} BackoffTotalIs(d: nat, k: nat)
    requires k >= 1
    ensures BackoffTotal(d, k) == d * (Pow2(k - 1) - 1)
  {
    if k > 1 { BackoffTotalIs(d, k - 1); }
  }

  ghost predicate BackedOff(t: Task, first: Option<int>, now: int) {
    && t.startedAt == first
    && (first.None? ==> t.attempt == 0 && !Owned(t.status) && !t.status.RetryWaiting? && !t.status.WaitingForLease?)
    && (first.Some? ==>
          && !Unreleased(t.status)
          && (Owned(t.status) ==> now >= first.value + BackoffTotal(t.retryDelay, t.attempt))
          && (Claimable(t.status) ==>
                t.nextRetryAt.Some? && t.nextRetryAt.value >= first.value + BackoffTotal(t.retryDelay, t.attempt + 1)))
  }

  lemma FailureBacksOff(t: Task, w: WorkerId, k: Token, f: Failure, ending: Ending, note: Option<Feedback>, now: int,
                        first: Option<int>, issued: Token)
    requires RowOk(t, issued) && BackedOff(t, first, now)
    requires FinishFailureRow(t, w, k, f, ending, note, now).Some?
    ensures BackedOff(FinishFailureRow(t, w, k, f, ending, note, now).value, first, now)
  {
  }

  lemma WaitBacksOff(t: Task, w: WorkerId, k: Token, delay: nat, now: int, first: Option<int>, issued: Token)
    requires RowOk(t, issued) && BackedOff(t, first, now) && WaitForLeaseRow(t, w, k, delay, now).Some?
    ensures BackedOff(WaitForLeaseRow(t, w, k, delay, now).value, first, now)
  {
    if FinishFailureRow(t, w, k, LeaseExpiry, RecoveryAttention, None, now).Some? {
      FailureBacksOff(t, w, k, LeaseExpiry, RecoveryAttention, None, now, first, issued);
    }
  }

  lemma OtherBacksOff(t: Task, op: RowOp, now: int, first: Option<int>, issued: Token)
    requires RowOk(t, issued) && BackedOff(t, first, now) && ApplyRow(t, op, now).Some? && !WorkerEnding(op)
    requires !(op.RecoverInterrupted? && t.status.Running? && ApplyRow(t, op, now).value.status.Queued?)
    ensures BackedOff(ApplyRow(t, op, now).value, first, now)
  {
  }

  lemma WorkBacksOff(t: Task, op: RowOp, now: int, first: Option<int>, issued: Token)
    requires RowOk(t, issued) && BackedOff(t, first, now) && ApplyRow(t, op, now).Some?
    requires !(op.RecoverInterrupted? && t.status.Running? && ApplyRow(t, op, now).value.status.Queued?)
    ensures BackedOff(ApplyRow(t, op, now).value, first, now)
  {
    match op
    case FinishFailure(w, k, f, ending, note) => FailureBacksOff(t, w, k, f, ending, note, now, first, issued);
    case FinishValidation(w, k, r) =>
      if !(r.decision.Accept? || r.decision.AcceptWithWarnings?) {
        FailureBacksOff(t, w, k, ReviewFailure(r), ReviewEnding(r), ReviewNote(r), now, first, issued);
      }
    case WaitForLease(w, k, delay) => WaitBacksOff(t, w, k, delay, now, first, issued);
    case _ => OtherBacksOff(t, op, now, first, issued);
  }

  predicate ClaimBackedOff(t: Task, first: Option<int>, now: int) {
    t.attempt >= 1 && first.Some? && now >= first.value + BackoffTotal(t.retryDelay, t.attempt)
  }

  lemma StepBacksOff(a: Db, e: Event, id: TaskId, t: Task, t': Task, first: Option<int>)
    requires RowOk(t, a.nextToken) && RowStep(a, e, id, t, t') && BackedOff(t, first, a.clock)
    requires !Marks(Requeued, a.nextToken, e, id, t, t') && !Marks(Repaired, a.nextToken, e, id, t, t')
    ensures var granted := Marks(Granted, a.nextToken, e, id, t, t');
      && BackedOff(t', if first.Some? || !granted then first else Some(a.clock), a.clock)
      && (granted ==> ClaimBackedOff(t', if first.Some? then first else Some(a.clock), a.clock))
  {
    if WorkedOn(e, id, t, t', a.clock) {
      WorkBacksOff(t, e.op, a.clock, first, a.nextToken);
      CallTokens(t, e.op, a.clock);
    }
  }

  lemma {:induction false} HistoryBacksOff(es: seq<Event>, id: TaskId)
    requires id in Replay(es).tasks && Tally(Requeued, es, id) == 0 && Tally(Repaired, es, id) == 0
    ensures BackedOff(Replay(es).tasks[id], FirstClaim(es, id), Replay(es).clock)
    ensures Marked(Granted, Replay(es[..|es| - 1]), es[|es| - 1], Replay(es), id) ==>
      ClaimBackedOff(Replay(es).tasks[id], FirstClaim(es, id), Replay(es[..|es| - 1]).clock)
  {
    LastRow(es, id);
    var before := es[..|es| - 1];
    var a := Replay(before);
    if id in a.tasks {
      HistoryBacksOff(before, id);
      StepBacksOff(a, es[|es| - 1], id, a.tasks[id], Replay(es).tasks[id], FirstClaim(before, id));
    } else {
      NoRowNoClaim(before, id);
    }
  }

  lemma {:induction false} NoRowNoClaim(es: seq<Event>, id: TaskId)
    requires id !in Replay(es).tasks
    ensures FirstClaim(es, id).None?
  {
    if es != [] {
      LastStep(es);
      NoRowNoClaim(es[..|es| - 1], id);
    }
  }

  lemma ClaimBackoffTotal(t: Task, first: int, now: int)
    requires ClaimBackedOff(t, Some(first), now)
    ensures now >= first + t.retryDelay * (Pow2(t.attempt - 1) - 1)
  {
    BackoffTotalIs(t.retryDelay, t.attempt);
  }

  /** Without restart requeues and repairs of the task, the claim that raises its attempt to
      `k` comes no earlier than the first claim plus every delay up to it, lease waits
      in between or not. */
  lemma BackoffBound(es: seq<Event>, id: TaskId)
    requires es != [] && Marked(Granted, Replay(es[..|es| - 1]), es[|es| - 1], Replay(es), id)
    requires Tally(Requeued, es, id) == 0 && Tally(Repaired, es, id) == 0
    ensures var t, now := Replay(es).tasks[id], Replay(es[..|es| - 1]).clock;
      && t.attempt >= 1 && FirstClaim(es, id).Some?
      && now >= FirstClaim(es, id).value + t.retryDelay * (Pow2(t.attempt - 1) - 1)
  {
    HistoryBacksOff(es, id);
    ClaimBackoffTotal(Replay(es).tasks[id], FirstClaim(es, id).value, Replay(es[..|es| - 1]).clock);
  }

  // ---------- Lease waits ----------

  /** The owner's wait at or past the deadline ends the task instead of another wait. */
  lemma LeaseDeadline(t: Task, w: WorkerId, k: Token, delay: nat, now: int)
    requires Holds(t, w, k) && Owned(t.status) && t.waitingSince.Some? && now >= t.waitingSince.value + t.timeout
    ensures ApplyRow(t, WaitForLease(w, k, delay), now)
      == Some(t.(status := RecoveryAttention, workerId := None, claimToken := None, nextRetryAt := None,
                 version := t.version + 1))
  {
  }

  predicate LeaseTimes(t: Task, waits: nat, total: int, delay: nat, now: int) {
    && (waits == 0 ==> total <= 0)
    && (waits == 0 ==> t.waitingSince.None? && !t.status.WaitingForLease?)
    && (waits > 0 ==>
          && t.waitingSince.Some?
          && now >= t.waitingSince.value + total - delay
          && total - delay < t.timeout
          && (t.status.WaitingForLease? ==> t.nextRetryAt.Some? && t.nextRetryAt.value >= t.waitingSince.value + total)
          && (!Terminal(t.status) && !t.status.WaitingForLease? ==> now >= t.waitingSince.value + total))
  }

  /** Every lease wait asked for on this task has at least this delay. */
  ghost predicate WaitsAtLeast(e: Event, id: TaskId, delay: nat) {
    e.Row? && e.id == id && e.op.WaitForLease? ==> e.op.delay >= delay
  }

  /** `delay` for every wait, less `delay` for every repair. */
  function WaitTotal(waits: nat, repairs: nat, delay: nat): int {
    if waits > 0 then WaitTotal(waits - 1, repairs, delay) + delay
    else if repairs > 0 then WaitTotal(0, repairs - 1, delay) - delay
    else 0
  }

  lemma {:induction false} RepairShortens(waits: nat, repairs: nat, delay: nat)
    ensures WaitTotal(waits, repairs + 1, delay) == WaitTotal(waits, repairs, delay) - delay
  {
    if waits > 0 { RepairShortens(waits - 1, repairs, delay); }
  }

  lemma {:induction false} WaitTotalIs(waits: nat, repairs: nat, delay: nat)
    ensures WaitTotal(waits, repairs, delay) == (waits - repairs) * delay
  {
    if waits > 0 { WaitTotalIs(waits - 1, repairs, delay); } else if repairs > 0 { WaitTotalIs(0, repairs - 1, delay); }
  }

  lemma FailureLeaseTimes(t: Task, w: WorkerId, k: Token, f: Failure, ending: Ending, note: Option<Feedback>, now: int,
                          waits: nat, total: int, delay: nat)
    requires LeaseTimes(t, waits, total, delay, now)
    requires FinishFailureRow(t, w, k, f, ending, note, now).Some?
    ensures LeaseTimes(FinishFailureRow(t, w, k, f, ending, note, now).value, waits, total, delay, now)
    ensures FinishFailureRow(t, w, k, f, ending, note, now).value.status != WaitingForLease
  {
  }

  lemma WaitLeaseTimes(t: Task, w: WorkerId, k: Token, asked: nat, now: int, waits: nat, total: int, delay: nat)
    requires LeaseTimes(t, waits, total, delay, now) && asked >= delay
    requires WaitForLeaseRow(t, w, k, asked, now).Some?
    ensures var t' := WaitForLeaseRow(t, w, k, asked, now).value;
      if t.status.Running? && t'.status.WaitingForLease? then LeaseTimes(t', waits + 1, total + delay, delay, now)
      else LeaseTimes(t', waits, total, delay, now)
  {
    if FinishFailureRow(t, w, k, LeaseExpiry, RecoveryAttention, None, now).Some? {
      FailureLeaseTimes(t, w, k, LeaseExpiry, RecoveryAttention, None, now, waits, total, delay);
    }
  }

  lemma ReviewLeaseTimes(t: Task, w: WorkerId, k: Token, r: Review, now: int, waits: nat, total: int, delay: nat)
    requires LeaseTimes(t, waits, total, delay, now) && FinishValidationRow(t, w, k, r, now).Some?
    ensures LeaseTimes(FinishValidationRow(t, w, k, r, now).value, waits, total, delay, now)
  {
    if !Accepts(r) {
      FailureLeaseTimes(t, w, k, ReviewFailure(r), ReviewEnding(r), ReviewNote(r), now, waits, total, delay);
    }
  }

  lemma OtherLeaseTimes(t: Task, op: RowOp, now: int, waits: nat, total: int, delay: nat, issued: Token)
    requires RowOk(t, issued) && LeaseTimes(t, waits, total, delay, now) && ApplyRow(t, op, now).Some?
    requires !WorkerEnding(op)
    ensures LeaseTimes(ApplyRow(t, op, now).value, waits, total, delay, now)
  {
  }

  lemma WorkLeaseTimes(t: Task, op: RowOp, now: int, waits: nat, total: int, delay: nat, issued: Token)
    requires RowOk(t, issued) && LeaseTimes(t, waits, total, delay, now) && ApplyRow(t, op, now).Some?
    requires !op.WaitForLease?
    ensures LeaseTimes(ApplyRow(t, op, now).value, waits, total, delay, now)
  {
    match op
    case FinishFailure(w, k, f, ending, note) => FailureLeaseTimes(t, w, k, f, ending, note, now, waits, total, delay);
    case FinishValidation(w, k, r) => ReviewLeaseTimes(t, w, k, r, now, waits, total, delay);
    case _ => OtherLeaseTimes(t, op, now, waits, total, delay, issued);
  }

  lemma StepLeaseTimes(a: Db, e: Event, id: TaskId, t: Task, t': Task, waits: nat, repairs: nat, delay: nat)
    requires RowOk(t, a.nextToken) && RowStep(a, e, id, t, t') && WaitsAtLeast(e, id, delay)
    requires LeaseTimes(t, waits, WaitTotal(waits, repairs, delay), delay, a.clock)
    ensures var w, r := waits + One(Marks(Waited, a.nextToken, e, id, t, t')),
                        repairs + One(Marks(Repaired, a.nextToken, e, id, t, t'));
      LeaseTimes(t', w, WaitTotal(w, r, delay), delay, a.clock)
  {
    var total := WaitTotal(waits, repairs, delay);
    RepairShortens(waits, repairs, delay);
    if WorkedOn(e, id, t, t', a.clock) {
      if e.op.WaitForLease? {
        WaitLeaseTimes(t, e.op.w, e.op.k, e.op.delay, a.clock, waits, total, delay);
      } else {
        WorkLeaseTimes(t, e.op, a.clock, waits, total, delay, a.nextToken);
      }
    }
  }

  lemma LaterLeaseTimes(t: Task, waits: nat, total: int, delay: nat, now: int, later: int)
    requires LeaseTimes(t, waits, total, delay, now) && now <= later
    ensures LeaseTimes(t, waits, total, delay, later)
  {
  }

  lemma TallyGrows(m: Mark, es: seq<Event>, id: TaskId)
    requires es != [] && id in Replay(es[..|es| - 1]).tasks && id in Replay(es).tasks
    ensures var a, e := Replay(es[..|es| - 1]), es[|es| - 1];
      Tally(m, es, id)
        == Tally(m, es[..|es| - 1], id) + One(Marks(m, a.nextToken, e, id, a.tasks[id], Replay(es).tasks[id]))
  {
  }

  ghost predicate WaitsTimely(es: seq<Event>, id: TaskId, delay: nat, now: int)
    requires id in Replay(es).tasks
  {
    var w, r := Tally(Waited, es, id), Tally(Repaired, es, id);
    LeaseTimes(Replay(es).tasks[id], w, WaitTotal(w, r, delay), delay, now)
  }

  /** The same with the new counts given. */
  lemma CountedLeaseTimes(a: Db, e: Event, id: TaskId, t': Task, waits: nat, repairs: nat, w: nat, r: nat, delay: nat)
    requires id in a.tasks && RowOk(a.tasks[id], a.nextToken) && RowStep(a, e, id, a.tasks[id], t')
    requires WaitsAtLeast(e, id, delay)
    requires LeaseTimes(a.tasks[id], waits, WaitTotal(waits, repairs, delay), delay, a.clock)
    requires w == waits + One(Marks(Waited, a.nextToken, e, id, a.tasks[id], t'))
    requires r == repairs + One(Marks(Repaired, a.nextToken, e, id, a.tasks[id], t'))
    ensures LeaseTimes(t', w, WaitTotal(w, r, delay), delay, a.clock)
  {
    StepLeaseTimes(a, e, id, a.tasks[id], t', waits, repairs, delay);
  }

  lemma LastLeaseTimes(es: seq<Event>, id: TaskId, delay: nat)
    requires es != [] && id in Replay(es[..|es| - 1]).tasks && id in Replay(es).tasks
    requires WaitsAtLeast(es[|es| - 1], id, delay)
    requires WaitsTimely(es[..|es| - 1], id, delay, Replay(es[..|es| - 1]).clock)
    ensures WaitsTimely(es, id, delay, Replay(es[..|es| - 1]).clock)
  {
    var before, a, e := es[..|es| - 1], Replay(es[..|es| - 1]), es[|es| - 1];
    assert RowOk(a.tasks[id], a.nextToken) && RowStep(a, e, id, a.tasks[id], Replay(es).tasks[id])
      by { LastRow(es, id); }
    TallyGrows(Waited, es, id);
    TallyGrows(Repaired, es, id);
    CountedLeaseTimes(a, e, id, Replay(es).tasks[id], Tally(Waited, before, id), Tally(Repaired, before, id),
                      Tally(Waited, es, id), Tally(Repaired, es, id), delay);
  }

  lemma {:induction false} HistoryLeaseTimes(es: seq<Event>, id: TaskId, delay: nat)
    requires id in Replay(es).tasks && forall i :: 0 <= i < |es| ==> WaitsAtLeast(es[i], id, delay)
    ensures WaitsTimely(es, id, delay, Replay(es).clock)
  {
    LastRow(es, id);
    var before, a := es[..|es| - 1], Replay(es[..|es| - 1]);
    if id in a.tasks {
      HistoryLeaseTimes(before, id, delay);
      LastLeaseTimes(es, id, delay);
      var w, r := Tally(Waited, es, id), Tally(Repaired, es, id);
      LaterLeaseTimes(Replay(es).tasks[id], w, WaitTotal(w, r, delay), delay, a.clock, Replay(es).clock);
    } else {
      assert WaitTotal(0, 0, delay) == 0;
    }
  }

  lemma LeaseWaitsWithin(t: Task, waits: nat, repairs: nat, delay: nat, now: int)
    requires waits > 0 && LeaseTimes(t, waits, WaitTotal(waits, repairs, delay), delay, now)
    ensures (waits - repairs - 1) * delay < t.timeout
  {
    WaitTotalIs(waits - 1, repairs, delay);
  }

  /** Lease-wait loops end: waits that each ask for at least `delay` fit, but for the last and
      one per repair, inside the task's timeout. */
  lemma LeaseWaitsBounded(es: seq<Event>, id: TaskId, delay: nat)
    requires id in Replay(es).tasks && Tally(Waited, es, id) > 0
    requires forall i :: 0 <= i < |es| ==> WaitsAtLeast(es[i], id, delay)
    ensures (Tally(Waited, es, id) - Tally(Repaired, es, id) - 1) * delay < Replay(es).tasks[id].timeout
  {
    HistoryLeaseTimes(es, id, delay);
    LeaseWaitsWithin(Replay(es).tasks[id], Tally(Waited, es, id), Tally(Repaired, es, id), delay, Replay(es).clock);
  }

  // ---------- Rework ----------

  /** A failure that is retried as rework carries feedback the task has not seen, and adds it:
      the revision counts distinct feedbacks. */
  lemma ReworkIsNew(t: Task, w: WorkerId, k: Token, f: Failure, ending: Ending, note: Option<Feedback>, now: int,
                    issued: Token)
    requires RowOk(t, issued) && FinishFailureRow(t, w, k, f, ending, note, now).Some?
    requires !TransientClass(KindOf(f)) && FinishFailureRow(t, w, k, f, ending, note, now).value.status.RetryWaiting?
    ensures var t' := FinishFailureRow(t, w, k, f, ending, note, now).value;
      && note.Some? && note.value !in t.feedback
      && t'.feedback == t.feedback + [note.value] && t'.feedbackRevision == |t'.feedback| && NoRepeats(t'.feedback)
      && t.attempt < t.maxAttempts && t'.nextRetryAt == Some(now + Backoff(t))
  {
  }
}
