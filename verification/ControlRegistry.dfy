/** The registry itself (src/registry.js): tables updated in place, one method per call, each
    proved to do what its step in RegistrySteps says. `log` is the history the laws of
    RegistryHistory and the modules built on it are about. */
module ControlRegistry {
  import opened DomainStates
  import opened RetryPolicy
  import opened TaskRows
  import opened Handoffs
  import opened RegistrySteps
  import opened RegistryProgress
  import opened RegistryPasses
  import opened RegistryLog
  import opened RegistryRuns
  import R = RegistryRefreshes
  import K = RegistryKeeps
  import L = RegistryClaims
  import opened GraphCreation
  import G = TaskGraph

  class Registry {
    var clock: int
    var nextToken: Token
    var tasks: map<TaskId, Task>
    var runs: map<RunId, Run>
    var globals: map<GlobalId, Global>
    var xdeps: map<DepId, XDep>
    var handoffs: map<DepId, Handoff>
    ghost var log: seq<Event>

    function State(): Db
      reads this
    {
      Db(clock, nextToken, tasks, runs, globals, xdeps, handoffs)
    }

    /** The tables are what the logged history makes of an empty database. */
    ghost predicate Valid()
      reads this
    {
      State() == Replay(log)
    }

    constructor ()
      ensures Valid() && log == [] && State() == EmptyDb
    {
      clock, nextToken, tasks, runs, globals, xdeps, handoffs := 0, 0, map[], map[], map[], map[], map[];
      log := [];
    }

    /** Exactly this event happened, with this outcome. */
    twostate predicate Did(e: Event, o: Outcome, ok: bool)
      reads this
    {
      Valid() && log == old(log) + [e] && o == Outcome(State(), ok)
    }

    method Wait(d: nat)
      requires Valid()
      modifies this`clock, this`log
      ensures Valid() && log == old(log) + [Tick(d)] && State() == old(State()).(clock := old(clock) + d)
    {
      clock := clock + d;
      TickLogged(log, d);
      log := log + [Tick(d)];
    }

    // ---------- Calls on one claimed task ----------

    twostate predicate DidRow(id: TaskId, op: RowOp, ok: bool)
      reads this
    {
      Did(Row(id, op), OnRow(old(State()), id, op), ok)
    }

    ghost method RecordRow(id: TaskId, op: RowOp)
      requires State() == OnRow(Replay(log), id, op).db
      modifies this`log
      ensures Valid() && log == old(log) + [Row(id, op)]
    {
      RowLogged(log, id, op);
      log := log + [Row(id, op)];
    }

    method BindClaim(id: TaskId, w: WorkerId, k: Token) returns (ok: bool)
      requires Valid()
      modifies this`tasks, this`log
      ensures DidRow(id, RowOp.BindClaim(w, k), ok)
      ensures ok <==> Owns(old(tasks), id, w, k, {Running, ApprovalWaiting, IntegrationPending})
      ensures tasks == if ok then old(tasks)[id := old(tasks)[id].(
                       startedAt := if old(tasks)[id].startedAt.Some? then old(tasks)[id].startedAt else Some(clock),
                       version := old(tasks)[id].version + 1)] else old(tasks)
    {
      ok := id in tasks && Holds(tasks[id], w, k) && tasks[id].status in {Running, ApprovalWaiting, IntegrationPending};
      if ok {
        var t := tasks[id];
        var started := if t.startedAt.Some? then t.startedAt else Some(clock);
        tasks := tasks[id := t.(startedAt := started, version := t.version + 1)];
      }
      RecordRow(id, RowOp.BindClaim(w, k));
    }

    method SetClaimTurn(id: TaskId, w: WorkerId, k: Token) returns (ok: bool)
      requires Valid()
      modifies this`tasks, this`log
      ensures DidRow(id, RowOp.SetClaimTurn(w, k), ok)
      ensures ok <==> Owns(old(tasks), id, w, k, {Running, ApprovalWaiting})
      ensures tasks == if ok then old(tasks)[id := old(tasks)[id].(version := old(tasks)[id].version + 1)]
        else old(tasks)
    {
      ok := id in tasks && Holds(tasks[id], w, k) && tasks[id].status in {Running, ApprovalWaiting};
      if ok { tasks := tasks[id := tasks[id].(version := tasks[id].version + 1)]; }
      RecordRow(id, RowOp.SetClaimTurn(w, k));
    }

    method HeartbeatClaim(id: TaskId, w: WorkerId, k: Token) returns (ok: bool)
      requires Valid()
      modifies this`tasks, this`log
      ensures DidRow(id, RowOp.HeartbeatClaim(w, k), ok)
      ensures ok <==> Owns(old(tasks), id, w, k, {Running, ApprovalWaiting, AgentDone, Validating, IntegrationPending})
      ensures tasks == if ok then old(tasks)[id := old(tasks)[id].(version := old(tasks)[id].version + 1)]
        else old(tasks)
    {
      ok := id in tasks && Holds(tasks[id], w, k)
        && tasks[id].status in {Running, ApprovalWaiting, AgentDone, Validating, IntegrationPending};
      if ok { tasks := tasks[id := tasks[id].(version := tasks[id].version + 1)]; }
      RecordRow(id, RowOp.HeartbeatClaim(w, k));
    }

    method MarkClaimAgentDone(id: TaskId, w: WorkerId, k: Token) returns (ok: bool)
      requires Valid()
      modifies this`tasks, this`log
      ensures DidRow(id, RowOp.MarkAgentDone(w, k), ok)
      ensures ok <==> Owns(old(tasks), id, w, k, {Running, ApprovalWaiting})
      ensures tasks == if ok
        then old(tasks)[id := old(tasks)[id].(status := AgentDone, version := old(tasks)[id].version + 1)]
        else old(tasks)
    {
      ok := id in tasks && Holds(tasks[id], w, k) && tasks[id].status in {Running, ApprovalWaiting};
      if ok { tasks := tasks[id := tasks[id].(status := AgentDone, version := tasks[id].version + 1)]; }
      RecordRow(id, RowOp.MarkAgentDone(w, k));
    }

    method MarkClaimValidating(id: TaskId, w: WorkerId, k: Token) returns (ok: bool)
      requires Valid()
      modifies this`tasks, this`log
      ensures DidRow(id, RowOp.MarkValidating(w, k), ok)
      ensures ok <==> Owns(old(tasks), id, w, k, {AgentDone})
      ensures tasks == if ok
        then old(tasks)[id := old(tasks)[id].(status := Validating, version := old(tasks)[id].version + 1)]
        else old(tasks)
    {
      ok := id in tasks && Holds(tasks[id], w, k) && tasks[id].status.AgentDone?;
      if ok { tasks := tasks[id := tasks[id].(status := Validating, version := tasks[id].version + 1)]; }
      RecordRow(id, RowOp.MarkValidating(w, k));
    }

    method MarkClaimIntegrationPending(id: TaskId, w: WorkerId, k: Token) returns (ok: bool)
      requires Valid()
      modifies this`tasks, this`log
      ensures DidRow(id, RowOp.MarkIntegrationPending(w, k), ok)
      ensures ok <==> Owns(old(tasks), id, w, k, {Running, Validating})
      ensures tasks == if ok
        then old(tasks)[id := old(tasks)[id].(status := IntegrationPending, version := old(tasks)[id].version + 1)]
        else old(tasks)
    {
      ok := id in tasks && Holds(tasks[id], w, k) && tasks[id].status in {Running, Validating};
      if ok { tasks := tasks[id := tasks[id].(status := IntegrationPending, version := tasks[id].version + 1)]; }
      RecordRow(id, RowOp.MarkIntegrationPending(w, k));
    }

    /** Ends the claim: no worker, no token. */
    method FreeTask(id: TaskId, status: TaskStatus)
      requires id in tasks
      modifies this`tasks
      ensures tasks == old(tasks)[id := Freed(old(tasks)[id], status)]
    {
      var t := tasks[id];
      tasks := tasks[id := t.(status := status, workerId := None, claimToken := None, version := t.version + 1)];
    }

    method CompleteClaim(id: TaskId, w: WorkerId, k: Token) returns (ok: bool)
      requires Valid()
      modifies this`tasks, this`log
      ensures DidRow(id, RowOp.CompleteClaim(w, k), ok)
      ensures ok <==> Owns(old(tasks), id, w, k, {Running, ApprovalWaiting, IntegrationPending})
      ensures OneRow(old(tasks), tasks, id, ok)
      ensures ok ==> LetGo(old(tasks)[id], tasks[id], Completed, old(tasks)[id].nextRetryAt)
    {
      ok := id in tasks && Holds(tasks[id], w, k) && tasks[id].status in {Running, ApprovalWaiting, IntegrationPending};
      if ok { FreeTask(id, Completed); }
      RecordRow(id, RowOp.CompleteClaim(w, k));
    }

    method FinishTurnClaim(id: TaskId, w: WorkerId, k: Token, interrupted: bool) returns (ok: bool)
      requires Valid()
      modifies this`tasks, this`log
      ensures DidRow(id, FinishTurn(w, k, interrupted), ok)
      ensures ok <==> Owns(old(tasks), id, w, k, {Running, ApprovalWaiting})
      ensures OneRow(old(tasks), tasks, id, ok)
      ensures ok ==>
        LetGo(old(tasks)[id], tasks[id], if interrupted then Interrupted else Failed, old(tasks)[id].nextRetryAt)
    {
      ok := id in tasks && Holds(tasks[id], w, k) && tasks[id].status in {Running, ApprovalWaiting};
      if ok { FreeTask(id, if interrupted then Interrupted else Failed); }
      RecordRow(id, FinishTurn(w, k, interrupted));
    }

    /** finishFailureClaim's own work: decide on a retry, remember the feedback, free the row. */
    method FailedRow(t: Task, failure: Failure, ending: Ending, note: Option<Feedback>) returns (next: Task)
      ensures forall w, k :: Holds(t, w, k) && Owned(t.status) ==>
        FinishFailureRow(t, w, k, failure, ending, note, clock) == Some(next)
    {
      next := t;
      var duplicate := note.Some? && note.value in t.feedback;
      var decision := DecideTaskRetry(failure, Max(t.maxAttempts - t.attempt, 0), note.Some?, duplicate);
      if note.Some? && !duplicate {
        next := next.(feedback := t.feedback + [note.value], feedbackRevision := t.feedbackRevision + 1);
      }
      if decision.retry {
        next := next.(status := RetryWaiting, nextRetryAt := Some(clock + t.retryDelay * Pow2(Max(t.attempt - 1, 0))));
      } else {
        next := next.(status := ending, nextRetryAt := None);
      }
      next := next.(workerId := None, claimToken := None, version := t.version + 1);
    }

    method FailClaim(id: TaskId, w: WorkerId, k: Token, failure: Failure, ending: Ending, note: Option<Feedback>)
      returns (ok: bool)
      modifies this`tasks
      ensures ok <==> id in old(tasks) && FinishFailureRow(old(tasks)[id], w, k, failure, ending, note, clock).Some?
      ensures tasks == if ok
        then old(tasks)[id := FinishFailureRow(old(tasks)[id], w, k, failure, ending, note, clock).value]
        else old(tasks)
      ensures ok <==> Owns(old(tasks), id, w, k, HELD)
      ensures OneRow(old(tasks), tasks, id, ok)
      ensures ok ==> Failing(old(tasks)[id], tasks[id], failure, ending, note, clock)
    {
      ok := id in tasks && Holds(tasks[id], w, k) && Owned(tasks[id].status);
      if ok {
        var next := FailedRow(tasks[id], failure, ending, note);
        FailureFails(tasks[id], w, k, failure, ending, note, clock);
        tasks := tasks[id := next];
      }
    }

    method FinishFailureClaim(id: TaskId, w: WorkerId, k: Token, failure: Failure, ending: Ending,
                              note: Option<Feedback>)
      returns (ok: bool)
      requires Valid()
      modifies this`tasks, this`log
      ensures DidRow(id, FinishFailure(w, k, failure, ending, note), ok)
      ensures ok <==> Owns(old(tasks), id, w, k, HELD)
      ensures OneRow(old(tasks), tasks, id, ok)
      ensures ok ==> Failing(old(tasks)[id], tasks[id], failure, ending, note, clock)
    {
      ok := FailClaim(id, w, k, failure, ending, note);
      RecordRow(id, FinishFailure(w, k, failure, ending, note));
    }

    method FinishValidationClaim(id: TaskId, w: WorkerId, k: Token, r: Review) returns (ok: bool)
      requires Valid()
      modifies this`tasks, this`log
      ensures DidRow(id, FinishValidation(w, k, r), ok)
      ensures ok <==> Owns(old(tasks), id, w, k, if Accepts(r) then {Validating, IntegrationPending} else HELD)
      ensures OneRow(old(tasks), tasks, id, ok)
      ensures ok && r.decision.Accept? ==>
        LetGo(old(tasks)[id], tasks[id], Completed, old(tasks)[id].nextRetryAt)
      ensures ok && r.decision.AcceptWithWarnings? ==>
        LetGo(old(tasks)[id], tasks[id], CompletedWithWarnings, old(tasks)[id].nextRetryAt)
      ensures ok && !Accepts(r) ==> Reviewed(old(tasks)[id], tasks[id], r, clock)
    {
      if r.decision.Accept? || r.decision.AcceptWithWarnings? {
        ok := id in tasks && Holds(tasks[id], w, k) && tasks[id].status in {Validating, IntegrationPending};
        if ok { FreeTask(id, if r.decision.Accept? then Completed else CompletedWithWarnings); }
      } else {
        ok := FailClaim(id, w, k, ReviewFailure(r), ReviewEnding(r), ReviewNote(r));
        if ok { ReviewReviews(old(tasks)[id], w, k, r, clock); }
      }
      RecordRow(id, FinishValidation(w, k, r));
    }

    /** At the deadline the wait becomes a failure that is not retried. */
    method WaitClaimForLease(id: TaskId, w: WorkerId, k: Token, delay: nat) returns (ok: bool)
      requires Valid()
      modifies this`tasks, this`log
      ensures DidRow(id, WaitForLease(w, k, delay), ok)
      ensures ok <==> Owns(old(tasks), id, w, k, if LeaseOver(old(tasks), id, clock) then HELD else {Running})
      ensures OneRow(old(tasks), tasks, id, ok)
      ensures ok && LeaseOver(old(tasks), id, clock) ==> LetGo(old(tasks)[id], tasks[id], RecoveryAttention, None)
      ensures ok && !LeaseOver(old(tasks), id, clock) ==> Waiting(old(tasks)[id], tasks[id], clock, delay)
    {
      if id !in tasks { ok := false; } else {
        var t := tasks[id];
        var since := if t.waitingSince.Some? then t.waitingSince.value else clock;
        if clock - since >= t.timeout {
          ok := FailClaim(id, w, k, LeaseExpiry, RecoveryAttention, None);
          if ok { ExpiryLetsGo(t, w, k, clock); }
        } else {
          ok := Holds(t, w, k) && t.status.Running?;
          if ok {
            tasks := tasks[id := t.(status := WaitingForLease, workerId := None, claimToken := None,
                                    attempt := Max(t.attempt - 1, 0), waitingSince := Some(since),
                                    nextRetryAt := Some(clock + delay), version := t.version + 1)];
          }
        }
      }
      RecordRow(id, WaitForLease(w, k, delay));
    }

    // ---------- Calls that need no claim ----------

    method RejectTaskBeforeClaim(id: TaskId, readVersion: nat, byPolicy: bool) returns (ok: bool)
      requires Valid()
      modifies this`tasks, this`log
      ensures DidRow(id, RejectBeforeClaim(readVersion, byPolicy), ok)
      ensures ok <==> id in old(tasks) && Claimable(old(tasks)[id].status) && old(tasks)[id].version == readVersion
      ensures OneRow(old(tasks), tasks, id, ok)
      ensures ok ==> LetGo(old(tasks)[id], tasks[id], if byPolicy then BlockedByPolicy else Failed, None)
    {
      ok := id in tasks && tasks[id].status in {Queued, RetryWaiting, WaitingForLease}
        && tasks[id].version == readVersion;
      if ok {
        FreeTask(id, if byPolicy then BlockedByPolicy else Failed);
        tasks := tasks[id := tasks[id].(nextRetryAt := None)];
      }
      RecordRow(id, RejectBeforeClaim(readVersion, byPolicy));
    }

    method FinishRecoveredIntegration(id: TaskId, accepted: bool, warned: bool) returns (ok: bool)
      requires Valid()
      modifies this`tasks, this`log
      ensures DidRow(id, RowOp.FinishRecoveredIntegration(accepted, warned), ok)
      ensures ok <==> id in old(tasks) && old(tasks)[id].status.IntegrationPending?
      ensures OneRow(old(tasks), tasks, id, ok)
      ensures ok && !accepted ==> LetGo(old(tasks)[id], tasks[id], IntegrationBlocked, None)
      ensures ok && accepted ==>
        LetGo(old(tasks)[id], tasks[id], if warned then CompletedWithWarnings else Completed, None)
    {
      ok := id in tasks && tasks[id].status.IntegrationPending?;
      if ok {
        FreeTask(id, if !accepted then IntegrationBlocked else if warned then CompletedWithWarnings else Completed);
        tasks := tasks[id := tasks[id].(nextRetryAt := None)];
      }
      RecordRow(id, RowOp.FinishRecoveredIntegration(accepted, warned));
    }

    method CancelTask(id: TaskId) returns (ok: bool)
      requires Valid()
      modifies this`tasks, this`log
      ensures DidRow(id, RowOp.CancelTask, ok)
      ensures ok <==> id in old(tasks) && old(tasks)[id].status !in ENDED
      ensures OneRow(old(tasks), tasks, id, ok)
      ensures ok ==> LetGo(old(tasks)[id], tasks[id], Canceled, None)
    {
      ok := id in tasks && !Terminal(tasks[id].status);
      if ok {
        FreeTask(id, Canceled);
        tasks := tasks[id := tasks[id].(nextRetryAt := None)];
      }
      RecordRow(id, RowOp.CancelTask);
    }

    /** What restart recovery makes of a row that a worker held: only work that can be replayed
        without harm runs again, a contract that is outdated or unsound fails or blocks it, and
        everything else needs a person. */
    method StatusAfterRestart(t: Task) returns (status: TaskStatus)
      ensures AfterRestart(t, t.(status := status, workerId := None, claimToken := None, nextRetryAt := None,
                                 version := t.version + 1))
    {
      var c := t.contract;
      var current := c.validated && c.recorded == c.fingerprint;
      if !current || !c.check.Sound? { return if current && c.check.PolicyFault? then BlockedByPolicy else Failed; }
      var replaySafe := c.sideEffectFree && c.readOnly;
      status := if replaySafe && t.status.Running? then Queued else RecoveryAttention;
    }

    method RecoverOne(id: TaskId)
      requires Valid() && id in tasks && Owned(tasks[id].status)
      modifies this`tasks, this`log
      ensures Valid() && Grew(old(log), log, Row(id, RecoverInterrupted(old(tasks)[id].version, false)))
      ensures tasks == old(tasks)[id := Recovered(old(tasks)[id])]
    {
      var t := tasks[id];
      var status := StatusAfterRestart(t);
      tasks := tasks[id := t.(status := status, workerId := None, claimToken := None, nextRetryAt := None,
                              version := t.version + 1)];
      RecordRow(id, RecoverInterrupted(t.version, false));
    }

    method RecoverRows(chosen: set<TaskId>)
      requires Valid() && forall id :: id in chosen ==> id in tasks && Owned(tasks[id].status)
      modifies this`tasks, this`log
      ensures Valid() && old(log) <= log && AllRecovered(old(tasks), tasks, chosen)
    {
      var done: set<TaskId> := {};
      while chosen - done != {}
        invariant Valid() && old(log) <= log && done <= chosen && AllRecovered(old(tasks), tasks, done)
        decreases chosen - done
      {
        var id :| id in chosen - done;
        RecoveredMore(old(tasks), tasks, done, id);
        RecoverOne(id);
        done := done + {id};
      }
    }

    /** Restart recovery of the chosen rows, one event each, in any order. A deferred row is
        left to its turn dispatch or integration journal. */
    method RecoverInterruptedTasks(chosen: set<TaskId>, deferred: set<TaskId>) returns (recovered: set<TaskId>)
      requires Valid()
      modifies this`tasks, this`log
      ensures Valid() && old(log) <= log
      ensures recovered == RecoverableIn(old(tasks), chosen, deferred)
      ensures AllRecovered(old(tasks), tasks, recovered)
      ensures forall id :: id in recovered <==>
        id in old(tasks) && id in chosen && id !in deferred && old(tasks)[id].status in HELD
      ensures forall id :: id in recovered ==>
        id in tasks && AfterRestart(old(tasks)[id], tasks[id])
    {
      recovered := RecoverableIn(tasks, chosen, deferred);
      RecoverRows(recovered);
    }

    /** The contract repair: a new contract, a blocked row, a run set going again. */
    method RepairTaskContract(id: TaskId, c: Contract) returns (ok: bool)
      requires Valid()
      modifies this`tasks, this`runs, this`log
      ensures Did(RepairTask(id, c), Repair(old(State()), id, c), ok)
      ensures OneRow(old(tasks), tasks, id, MayRepair(old(tasks), id, c))
      ensures MayRepair(old(tasks), id, c) ==> Repaired(old(tasks)[id], tasks[id], c)
      ensures ok <==> MayRepair(old(tasks), id, c) && RunRepairs(old(runs), old(tasks)[id].runId)
      ensures runs == if ok then RunAgain(old(runs), old(tasks)[id].runId) else old(runs)
    {
      RepairLogged(log, id, c);
      RepairMeans(State(), id, c);
      ok := RepairTaskAndRun(id, c);
      log := log + [RepairTask(id, c)];
    }

    method RepairTaskAndRun(id: TaskId, c: Contract) returns (ok: bool)
      modifies this`tasks, this`runs
      ensures Outcome(State(), ok) == Repair(old(State()), id, c)
    {
      ok := id in tasks && Repairable(tasks[id].status) && c.fingerprint != tasks[id].contract.fingerprint;
      if ok {
        RepairRow(id, c);
        ok := UpdateRun(tasks[id].runId, RunRunning, true);
      }
    }

    method RepairRow(id: TaskId, c: Contract)
      requires id in tasks
      modifies this`tasks
      ensures tasks == old(tasks)[id := RepairedRow(old(tasks)[id], c)]
    {
      var t := tasks[id];
      tasks := tasks[id := t.(status := Blocked, contract := c.(validated := true, recorded := c.fingerprint),
                              workerId := None, claimToken := None, startedAt := None, nextRetryAt := None,
                              maxAttempts := Max(t.maxAttempts, t.attempt + 1), feedback := [], feedbackRevision := 0,
                              version := t.version + 1)];
    }

    // ---------- Claims ----------

    /** Writes a first handoff; it is validated iff every required output is attested. */
    method PrepareHandoff(d: DepId, attested: Attestations) returns (fit: bool)
      requires d in xdeps && d !in handoffs
      modifies this`xdeps, this`handoffs
      ensures var p := PayloadFor(old(State()), d, attested);
        && (fit <==> Complete(p))
        && handoffs == old(handoffs)[
             d := if fit then Prepare(d, old(xdeps)[d], p) else Prepare(d, old(xdeps)[d], p).(status := Invalid)]
        && xdeps == if fit then old(xdeps) else old(xdeps)[d := old(xdeps)[d].(status := DepFailed)]
    {
      var dep := xdeps[d];
      var payload := PayloadFor(State(), d, attested);
      var content := OfPayload(payload);
      var seal := OfHandoff(d, dep.fingerprint, dep.producer, dep.consumer, dep.schema, content);
      var h := Handoff(Prepared, dep.consumer, dep.fingerprint, dep.schema, payload, content, seal, None, Some(seal),
                       Some(content), None);
      handoffs := handoffs[d := h];
      fit := Complete(payload);
      if fit {
        handoffs := handoffs[d := handoffs[d].(status := Validated)];
      } else {
        handoffs := handoffs[d := handoffs[d].(status := Invalid)];
        xdeps := xdeps[d := dep.(status := DepFailed)];
      }
    }

    method ReceiveHandoff(d: DepId)
      requires d in handoffs
      modifies this`handoffs
      ensures handoffs == old(handoffs)[d := Receive(old(handoffs)[d])]
    {
      var h := handoffs[d];
      assert handoffs[d := h] == handoffs;
      if (h.status.Validated? || h.status.Prepared?) && h.receipt.None? {
        var receipt := OfReceipt(h.fingerprint, h.consumer, h.contentHash);
        handoffs := handoffs[d := h.(status := Received, receipt := Some(receipt), seenReceipt := Some(receipt))];
      }
    }

    /** materializeCrossProjectHandoff: checks an existing handoff, prepares a missing one and
        receives what is fit. */
    method MaterializeHandoff(d: DepId, attested: Attestations)
      modifies this`xdeps, this`handoffs
      ensures State() == MaterialiseDep(old(State()), d, attested)
    {
      assert d in xdeps ==> xdeps[d := xdeps[d]] == xdeps;
      assert d in handoffs ==> handoffs[d := handoffs[d]] == handoffs;
      if d !in xdeps || !xdeps[d].status.DepSatisfied? { return; }
      if d in handoffs {
        if !Intact(d, xdeps[d], handoffs[d]) {
          handoffs := handoffs[d := handoffs[d].(status := Invalid)];
          xdeps := xdeps[d := xdeps[d].(status := DepFailed)];
          return;
        }
        if handoffs[d].status.Invalid? || handoffs[d].status.Received? { return; }
        ReceiveHandoff(d);
      } else {
        var fit := PrepareHandoff(d, attested);
        if fit { ReceiveHandoff(d); }
      }
    }

    /** assertGlobalTaskGate: every inbound handoff is checked again and must be received. */
    method AssertGlobalTaskGate(id: TaskId, env: ClaimEnv) returns (open: bool)
      requires id in tasks
      modifies this`xdeps, this`handoffs
      ensures Outcome(State(), open) == OpenGate(old(State()), tasks[id], env)
    {
      var t := tasks[id];
      if t.gate.None? { return true; }
      if t.gate.value.global !in globals { return false; }
      var g := globals[t.gate.value.global];
      if !GateMatches(g, t.gate.value, t.runId) || g.status !in {GlobalRunning, GlobalWaiting} { return false; }
      if t.runId !in runs || !env.manifestIntact { return false; }
      var inbound := Inbound(State(), g.deps, t.runId);
      var i := 0;
      while i < |inbound|
        invariant 0 <= i <= |inbound|
        invariant OpenInbound(State(), inbound[i..], env.attested) == OpenInbound(old(State()), inbound, env.attested)
        invariant State() == old(State()).(xdeps := xdeps, handoffs := handoffs)
      {
        var d := inbound[i];
        if d !in xdeps || !xdeps[d].status.DepSatisfied? { return false; }
        MaterializeHandoff(d, env.attested);
        if d !in handoffs || !handoffs[d].status.Received? { return false; }
        i := i + 1;
      }
      open := true;
    }

    /** claimTask: the gate, then one guarded update with a token nobody has seen. */
    method ClaimTask(id: TaskId, w: WorkerId, env: ClaimEnv) returns (token: Option<Token>)
      requires Valid()
      modifies this`tasks, this`xdeps, this`handoffs, this`nextToken, this`log
      ensures Did(Event.ClaimTask(id, w, env), Claim(old(State()), id, w, env), token.Some?)
      ensures token.Some? ==> token.value == old(nextToken) && nextToken == old(nextToken) + 1
      ensures OneRow(old(tasks), tasks, id, token.Some?)
      ensures token.Some? ==> Taken(old(tasks)[id], tasks[id], w, token.value, clock)
      ensures token.None? ==> nextToken == old(nextToken)
      ensures K.Regular(old(State())) ==> (token.Some? <==> L.MayClaim(old(State()), id, env))
    {
      ClaimLogged(log, id, w, env);
      if K.Regular(State()) { L.LoggedClaim(log, id, w, env); }
      token := TryClaim(id, w, env);
      log := log + [Event.ClaimTask(id, w, env)];
    }

    method TryClaim(id: TaskId, w: WorkerId, env: ClaimEnv) returns (token: Option<Token>)
      modifies this`tasks, this`xdeps, this`handoffs, this`nextToken
      ensures Outcome(State(), token.Some?) == Claim(old(State()), id, w, env)
      ensures token.Some? ==> token.value == old(nextToken) && nextToken == old(nextToken) + 1
      ensures OneRow(old(tasks), tasks, id, token.Some?)
      ensures token.Some? ==> Taken(old(tasks)[id], tasks[id], w, token.value, clock)
      ensures token.None? ==> nextToken == old(nextToken)
    {
      if id !in tasks { return None; }
      var open := AssertGlobalTaskGate(id, env);
      if !open || !ClaimGuard(State(), tasks[id], env) { return None; }
      token := Some(nextToken);
      TakeClaim(id, w);
    }

    method TakeClaim(id: TaskId, w: WorkerId)
      requires id in tasks
      modifies this`tasks, this`nextToken
      ensures State() == Claimed(old(State()), id, w)
    {
      var t := tasks[id];
      tasks := tasks[id := t.(status := Running, workerId := Some(w), claimToken := Some(nextToken),
                              attempt := t.attempt + 1,
                              startedAt := if t.startedAt.Some? then t.startedAt else Some(clock), nextRetryAt := None,
                              version := t.version + 1)];
      nextToken := nextToken + 1;
    }

    // ---------- Runs ----------

    method UpdateRun(r: RunId, s: RunStatus, allowRepair: bool) returns (ok: bool)
      modifies this`runs
      ensures Outcome(State(), ok) == SetRun(old(State()), r, s, allowRepair)
    {
      ok := r in runs && RunMayBecome(runs[r].status, s, allowRepair);
      if ok { runs := runs[r := runs[r].(status := s)]; }
    }

    /** refreshRun without its parent: settles the run when all its tasks have ended. */
    method SettleOneRun(r: RunId) returns (ok: bool, settled: bool)
      modifies this`runs
      ensures Outcome(State(), ok) == SettleRun(old(State()), r) && (settled <==> ok && Settles(old(State()), r))
    {
      if r !in runs || RunTerminal(runs[r].status) { return true, false; }
      var statuses := set id | id in tasks && tasks[id].runId == r :: tasks[id].status;
      var status := DeriveRunStatus(statuses);
      if status.None? { return true, false; }
      ok := UpdateRun(r, status.value, false);
      settled := ok;
    }

    method SetTaskStatus(id: TaskId, s: TaskStatus)
      requires id in tasks
      modifies this`tasks
      ensures tasks == old(tasks)[id := SetStatus(old(tasks)[id], s)]
    {
      tasks := tasks[id := tasks[id].(status := s, version := tasks[id].version + 1)];
    }

    method ReleaseRows(r: RunId)
      modifies this`tasks
      ensures tasks == map id | id in old(tasks) :: ReleasedIn(old(tasks)[id], r)
    {
      var left := set id | id in tasks && tasks[id].runId == r && tasks[id].status.Staged?;
      while left != {}
        invariant left <= tasks.Keys && (forall id :: id in left ==> tasks[id].runId == r && tasks[id].status.Staged?)
        invariant Rewritten(old(tasks), tasks, left, (t: Task) => ReleasedIn(t, r))
        decreases left
      {
        var id :| id in left;
        SetTaskStatus(id, if tasks[id].dependsOn == {} then Queued else Blocked);
        left := left - {id};
      }
      RewrittenAll(old(tasks), tasks, (t: Task) => ReleasedIn(t, r));
    }

    /** Releases the staged rows one by one and sets the run going. */
    method ReleaseOneRun(r: RunId) returns (ok: bool)
      modifies this`tasks, this`runs
      ensures Outcome(State(), ok) == ReleaseRun(old(State()), r)
    {
      if !Releasable(State(), r) { return false; }
      ReleaseRows(r);
      ok := UpdateRun(r, RunRunning, false);
    }

    method ReleaseStagedRun(r: RunId) returns (ok: bool)
      requires Valid()
      modifies this`tasks, this`runs, this`log
      ensures Did(Release(r), ReleaseRun(old(State()), r), ok)
      ensures ok <==> MayRelease(old(State()), r)
      ensures OnlyRuns(old(State()), State())
      ensures ok ==> AllSetTo(old(runs), runs, {r}, RunRunning) && Unstaged(old(tasks), tasks, {r})
      ensures !ok ==> runs == old(runs)
    {
      ReleaseLogged(log, r);
      ReleaseRunMeans(State(), r);
      ok := ReleaseOneRun(r);
      log := log + [Release(r)];
    }

    /** `false` when the call throws: an unknown run, one out of preparation, or a task that has
        begun. */
    method FailPreparedRun(r: RunId) returns (ok: bool)
      requires Valid()
      modifies this`tasks, this`runs, this`log
      ensures Did(FailPrepared(r), RegistrySteps.FailPreparedRun(old(State()), r), ok)
      ensures ok <==> MayFail(old(State()), r) || (r in old(runs) && old(runs)[r].status in RUN_ENDED)
      ensures OnlyRuns(old(State()), State())
      ensures if MayFail(old(State()), r) then SetTo(old(runs), runs, r, RunFailed) else runs == old(runs)
      ensures if MayFail(old(State()), r) then EndedWith(old(tasks), tasks, r, Failed) else tasks == old(tasks)
    {
      FailPreparedLogged(log, r);
      FailPreparedMeans(State(), r);
      ok := FailPreparation(r);
      log := log + [FailPrepared(r)];
    }

    method FailPreparation(r: RunId) returns (ok: bool)
      modifies this`tasks, this`runs
      ensures Outcome(State(), ok) == RegistrySteps.FailPreparedRun(old(State()), r)
    {
      if r !in runs { return false; }
      if RunTerminal(runs[r].status) { return true; }
      if runs[r].status !in {RunPreparing, RunAgentsPrepared, RunAwaitingStart} { return false; }
      if AnyBegun(State(), r) { return false; }
      FailRows(r);
      ok := UpdateRun(r, RunFailed, false);
    }

    method FailRows(r: RunId)
      modifies this`tasks
      ensures tasks == map id | id in old(tasks) :: FailedIn(old(tasks)[id], r)
    {
      var left := set id | id in tasks && tasks[id].runId == r;
      while left != {}
        invariant left <= tasks.Keys && forall id :: id in left ==> tasks[id].runId == r
        invariant Rewritten(old(tasks), tasks, left, (t: Task) => FailedIn(t, r))
        decreases left
      {
        var id :| id in left;
        if !Terminal(tasks[id].status) {
          FreeTask(id, Failed);
          tasks := tasks[id := tasks[id].(nextRetryAt := None)];
        }
        left := left - {id};
      }
      RewrittenAll(old(tasks), tasks, (t: Task) => FailedIn(t, r));
    }

    method CancelRows(r: RunId)
      modifies this`tasks
      ensures tasks == map id | id in old(tasks) :: CanceledIn(old(tasks)[id], r)
    {
      var left := set id | id in tasks && tasks[id].runId == r;
      while left != {}
        invariant left <= tasks.Keys && forall id :: id in left ==> tasks[id].runId == r
        invariant Rewritten(old(tasks), tasks, left, (t: Task) => CanceledIn(t, r))
        decreases left
      {
        var id :| id in left;
        if !Terminal(tasks[id].status) {
          FreeTask(id, Canceled);
          tasks := tasks[id := tasks[id].(nextRetryAt := None)];
        }
        left := left - {id};
      }
      RewrittenAll(old(tasks), tasks, (t: Task) => CanceledIn(t, r));
    }

    method CancelOneRun(r: RunId) returns (ok: bool)
      modifies this`tasks, this`runs
      ensures Outcome(State(), ok) == RegistrySteps.CancelRun(old(State()), r)
    {
      if r !in runs { return false; }
      CancelRows(r);
      ok := UpdateRun(r, RunCancelled, false);
    }

    method CancelRun(r: RunId) returns (ok: bool)
      requires Valid()
      modifies this`tasks, this`runs, this`log
      ensures Did(CancelRunTasks(r), RegistrySteps.CancelRun(old(State()), r), ok)
      ensures ok <==> r in old(runs) && old(runs)[r].status !in {RunCompleted, RunFailed}
      ensures OnlyRuns(old(State()), State())
      ensures if ok then SetTo(old(runs), runs, r, RunCancelled) else runs == old(runs)
      ensures if r in old(runs) then EndedWith(old(tasks), tasks, r, Canceled) else tasks == old(tasks)
    {
      CancelRunLogged(log, r);
      CancelRunMeans(State(), r);
      ok := CancelOneRun(r);
      log := log + [CancelRunTasks(r)];
    }

    /** A failed inbound dependency: what has not started fails, what runs needs attention. */
    method DoomRows(r: RunId)
      modifies this`tasks
      ensures tasks == map id | id in old(tasks) :: DoomedIn(old(tasks)[id], r)
    {
      var left := set id | id in tasks && tasks[id].runId == r;
      while left != {}
        invariant left <= tasks.Keys && forall id :: id in left ==> tasks[id].runId == r
        invariant Rewritten(old(tasks), tasks, left, (t: Task) => DoomedIn(t, r))
        decreases left
      {
        var id :| id in left;
        if Unstarted(tasks[id].status) { SetTaskStatus(id, Failed); }
        else if Owned(tasks[id].status) { SetTaskStatus(id, RecoveryAttention); }
        left := left - {id};
      }
      RewrittenAll(old(tasks), tasks, (t: Task) => DoomedIn(t, r));
    }

    // ---------- Dependency sweeps ----------

    /** The branches of refreshBlockedTasks for one row. */
    method SweepOne(id: TaskId) returns (queued: bool, failed: bool)
      requires Valid() && id in tasks
      modifies this`tasks, this`log
      ensures Valid() && Grew(old(log), log, SweepTask(id)) && State() == Sweep(old(State()), id)
      ensures (queued <==> QueuesNow(old(State()), id)) && (failed <==> FailsNow(old(State()), id))
    {
      SweepLogged(log, id);
      queued, failed := SweepRow(id);
      log := log + [SweepTask(id)];
    }

    method SweepRow(id: TaskId) returns (queued: bool, failed: bool)
      requires id in tasks
      modifies this`tasks
      ensures State() == Sweep(old(State()), id)
      ensures (queued <==> QueuesNow(old(State()), id)) && (failed <==> FailsNow(old(State()), id))
    {
      var t := tasks[id];
      queued, failed := false, false;
      if t.status.Blocked? {
        var allTerminal := AllDependenciesTerminal(State(), t);
        var failedDependency := HasFailedDependency(State(), t);
        if t.policy.OnFailure? && allTerminal && !failedDependency { SetTaskStatus(id, Skipped); }
        else if t.policy.OnFailure? && allTerminal && failedDependency { SetTaskStatus(id, Queued); queued := true; }
        else if t.policy.AllTerminal? && allTerminal { SetTaskStatus(id, Queued); queued := true; }
        else if t.policy.AllSuccess? && failedDependency { SetTaskStatus(id, Failed); failed := true; }
        else if t.policy.AllSuccess? && AllDependenciesAchieved(State(), t) {
          SetTaskStatus(id, Queued);
          queued := true;
        }
      }
    }

    /** One pass over the rows that are blocked when it begins, in any order; `ids` is that order.
        The counters go on from `queued` and `failed`, which count since `origin`. */
    method SweepPass(ghost origin: Db, queued: nat, failed: nat)
      returns (again: bool, nowQueued: nat, nowFailed: nat, ghost ids: seq<TaskId>)
      requires Valid() && CountedFrom(origin, State(), queued, failed)
      modifies this`tasks, this`log
      ensures Valid() && old(log) <= log && State() == SweepAll(old(State()), ids)
      ensures PassDone(old(State()), State(), again) && InOrder(ids, BlockedIn(old(State())))
      ensures CountedFrom(origin, State(), nowQueued, nowFailed)
    {
      again, nowQueued, nowFailed, ids := false, queued, failed, [];
      var left := BlockedIn(State());
      ghost var start := State();
      ghost var now := start;
      PassBegins(origin, start, queued, failed);
      while left != {}
        invariant Valid() && old(log) <= log && State() == now
        invariant InPass(origin, start, now, left, again, nowQueued, nowFailed, ids)
        decreases left
      {
        var id :| id in left;
        assert id in now.tasks;
        PassTurn(origin, start, now, left, again, nowQueued, nowFailed, ids, id);
        var isQueued, isFailed := SweepOne(id);
        if isQueued { nowQueued := nowQueued + 1; }
        if isFailed { nowFailed, again := nowFailed + 1, true; }
        now, left, ids := Sweep(now, id), left - {id}, ids + [id];
      }
      PassOver(origin, start, now, again, nowQueued, nowFailed, ids);
    }

    /** Passes until one fails nothing; each one that does leaves fewer rows blocked. */
    method SweepUntilPropagated() returns (queued: nat, failed: nat, ghost ids: seq<TaskId>)
      requires Valid()
      modifies this`tasks, this`log
      ensures Valid() && old(log) <= log && State() == SweepAll(old(State()), ids)
      ensures PassesDone(old(State()), State(), false) && Counted(old(State()), State(), queued, failed)
    {
      ghost var origin := State();
      var again;
      CountStarts(origin);
      again, queued, failed, ids := SweepPass(origin, 0, 0);
      PassesStart(origin, State(), again);
      while again
        invariant Valid() && old(log) <= log && State() == SweepAll(origin, ids)
        invariant PassesDone(origin, State(), again)
        invariant CountedFrom(origin, State(), queued, failed)
        decreases BlockedCount(State()), again
      {
        ghost var start, more := State(), [];
        again, queued, failed, more := SweepPass(origin, queued, failed);
        PassesStep(origin, start, State(), again);
        SweepMore(origin, ids, more);
        ids := ids + more;
      }
    }

    /** refreshBlockedTasks' loop. It ends; it fails exactly the least set of blocked
        `all_success` tasks that failures reach, for any row order; no such task is left with a
        failed dependency; and it changes nothing iff there is nothing to do. */
    method PropagateDependencies() returns (queued: nat, failed: nat, affected: set<RunId>)
      requires Valid()
      modifies this`tasks, this`log
      ensures Valid() && old(log) <= log && SweptFrom(old(State()), State())
      ensures FailuresPropagated(State()) && LeastClosed(old(State()), NewlyFailed(old(State()), State()))
      ensures State() == old(State()) <==> AllQuiet(old(State()))
      ensures Undelayed(old(State())) ==> AllQuiet(State())
      ensures affected == EndedRuns(old(State()), State()) && Counted(old(State()), State(), queued, failed)
    {
      var origin := State();
      ghost var ids;
      queued, failed, ids := SweepUntilPropagated();
      PassesEnd(origin, State(), ids);
      affected := EndedRuns(origin, State());
    }

    // ---------- Global Runs ----------

    method UpdateGlobalRun(g: GlobalId, s: GlobalStatus) returns (ok: bool)
      modifies this`globals
      ensures Outcome(State(), ok) == SetGlobal(old(State()), g, s)
    {
      ok := g in globals && GlobalMayBecome(globals[g].status, s);
      if ok { globals := globals[g := globals[g].(status := s)]; }
    }

    method SettleMembers(rs: seq<RunId>) returns (ok: bool)
      modifies this`runs
      ensures Outcome(State(), ok) == SettleAll(old(State()), rs)
    {
      var i := 0;
      while i < |rs|
        invariant 0 <= i <= |rs| && SettleAll(State(), rs[i..]) == SettleAll(old(State()), rs)
      {
        var settled;
        ok, settled := SettleOneRun(rs[i]);
        if !ok { return; }
        i := i + 1;
      }
      ok := true;
    }

    method ResolveDependencies(ds: seq<DepId>)
      modifies this`xdeps
      ensures State() == ResolveAll(old(State()), ds)
    {
      var i := 0;
      while i < |ds|
        invariant 0 <= i <= |ds| && ResolveAll(State(), ds[i..]) == ResolveAll(old(State()), ds)
      {
        var d := ds[i];
        if d in xdeps && xdeps[d].status.DepPending? && xdeps[d].producer in runs
          && RunTerminal(runs[xdeps[d].producer].status) {
          var completed := runs[xdeps[d].producer].status.RunCompleted?;
          var status :=
            if xdeps[d].condition.IfAllTerminal? then DepSatisfied
            else if xdeps[d].condition.IfFailure? then (if completed then DepSkipped else DepSatisfied)
            else if completed then DepSatisfied else DepFailed;
          xdeps := xdeps[d := xdeps[d].(status := status)];
        }
        i := i + 1;
      }
    }

    method MaterializeSatisfied(ds: seq<DepId>, attested: Attestations)
      modifies this`xdeps, this`handoffs
      ensures State() == MaterialiseAll(old(State()), ds, attested)
    {
      var i := 0;
      while i < |ds|
        invariant 0 <= i <= |ds|
        invariant MaterialiseAll(State(), ds[i..], attested) == MaterialiseAll(old(State()), ds, attested)
      {
        if ds[i] in xdeps && xdeps[ds[i]].status.DepSatisfied? { MaterializeHandoff(ds[i], attested); }
        i := i + 1;
      }
    }

    method DoomOneRun(r: RunId) returns (ok: bool)
      modifies this`tasks, this`runs
      ensures Outcome(State(), ok) == DoomRun(old(State()), r)
    {
      DoomRows(r);
      ok := UpdateRun(r, RunFailed, false);
    }

    method SkipOneRun(r: RunId) returns (ok: bool)
      modifies this`runs
      ensures Outcome(State(), ok) == SkipRun(old(State()), r)
    {
      if exists id :: id in tasks && tasks[id].runId == r && tasks[id].status.Staged? { return false; }
      ok := UpdateRun(r, RunRunning, false);
      if ok { ok := UpdateRun(r, RunCompleted, false); }
    }

    method SettleOneConsumer(g: Global, r: RunId) returns (ok: bool, released: bool)
      modifies this`tasks, this`runs
      ensures Outcome(State(), ok) == SettleConsumer(old(State()), g, r)
      ensures released <==> ConsumerReleases(old(State()), g, r)
    {
      released := false;
      if ConsumerIdle(State(), g, r) { return true, false; }
      if AnyInbound(State(), g, r, DepFailed) { ok := DoomOneRun(r); return ok, false; }
      if runs[r].status.RunPreparing? && AllInbound(State(), g, r, DepSkipped) {
        ok := SkipOneRun(r);
        return ok, false;
      }
      if runs[r].status.RunPreparing? && AllReceived(State(), g, r) { ok := ReleaseOneRun(r); return ok, true; }
      ok := true;
    }

    method SettleEachConsumer(g: Global, rs: seq<RunId>) returns (ok: bool, released: bool)
      modifies this`tasks, this`runs
      ensures var o := SettleConsumers(old(State()), g, rs);
        ok == o.ok && State() == o.db && (ok ==> released == o.released)
    {
      var i := 0;
      ok, released := true, false;
      while i < |rs|
        invariant 0 <= i <= |rs|
        invariant Joint(SettleConsumers(State(), g, rs[i..]), released) == SettleConsumers(old(State()), g, rs)
      {
        var now;
        ok, now := SettleOneConsumer(g, rs[i]);
        if !ok { return; }
        released := now || released;
        i := i + 1;
      }
    }

    /** refreshGlobalRun. */
    method RefreshOneGlobal(g: GlobalId, attested: Attestations) returns (ok: bool)
      modifies this`tasks, this`runs, this`globals, this`xdeps, this`handoffs
      ensures Outcome(State(), ok) == RefreshGlobal(old(State()), g, attested)
    {
      if g !in globals || !globals[g].revisionValid || GlobalTerminal(globals[g].status) { return true; }
      var row := globals[g];
      ok := SettleMembers(row.members);
      if !ok { return; }
      ResolveDependencies(row.deps);
      MaterializeSatisfied(row.deps, attested);
      var released;
      ok, released := SettleEachConsumer(row, Consumers(State(), row.deps));
      if !ok || g !in globals { return false; }
      ok := ProjectOneGlobal(g, released);
    }

    method ProjectOneGlobal(g: GlobalId, released: bool) returns (ok: bool)
      requires g in globals
      modifies this`globals
      ensures Outcome(State(), ok) == ProjectGlobal(old(State()), g, released)
    {
      var status := DeriveGlobalStatus(Projected(State(), globals[g]), globals[g].cancelRequested);
      if status.Some? { ok := UpdateGlobalRun(g, status.value); } else {
        ok := UpdateGlobalRun(g, if AnyRunning(State(), globals[g]) || released then GlobalRunning else GlobalWaiting);
      }
    }

    method RefreshGlobalRun(g: GlobalId, attested: Attestations) returns (ok: bool)
      requires Valid()
      modifies this`tasks, this`runs, this`globals, this`xdeps, this`handoffs, this`log
      ensures Did(RefreshProjects(g, attested), RefreshGlobal(old(State()), g, attested), ok)
      ensures K.Regular(old(State())) && g in old(globals) && old(globals)[g].status !in GLOBAL_ENDED ==>
        R.Refreshed(old(State()), State(), g, attested, ok)
      ensures g !in old(globals) || old(globals)[g].status in GLOBAL_ENDED ==> State() == old(State()) && ok
    {
      RefreshProjectsLogged(log, g, attested);
      if K.Regular(State()) && g in globals && globals[g].status !in GLOBAL_ENDED {
        R.LoggedRefresh(log, g, attested);
      }
      ok := RefreshOneGlobal(g, attested);
      log := log + [RefreshProjects(g, attested)];
    }

    method RefreshRun(r: RunId, attested: Attestations) returns (ok: bool)
      requires Valid()
      modifies this`tasks, this`runs, this`globals, this`xdeps, this`handoffs, this`log
      ensures Did(Refresh(r, attested), RegistrySteps.RefreshRun(old(State()), r, attested), ok)
      ensures K.Regular(old(State())) ==> R.RunRefreshed(old(State()), State(), r, attested, ok)
    {
      RefreshLogged(log, r, attested);
      if K.Regular(State()) { R.RunRefreshMeans(log, r, attested); }
      ok := RefreshOneRun(r, attested);
      log := log + [Refresh(r, attested)];
    }

    method RefreshOneRun(r: RunId, attested: Attestations) returns (ok: bool)
      modifies this`tasks, this`runs, this`globals, this`xdeps, this`handoffs
      ensures Outcome(State(), ok) == RegistrySteps.RefreshRun(old(State()), r, attested)
    {
      var settled;
      ok, settled := SettleOneRun(r);
      if settled && runs[r].gate.Some? { ok := RefreshOneGlobal(runs[r].gate.value.global, attested); }
    }

    /** refreshBlockedTasks: sweeps until failures have spread, then refreshes the runs in which
        something ended; `swept` is where the first part of the history ends. */
    method RefreshBlockedTasks(attested: Attestations)
      returns (ok: bool, queued: nat, failed: nat, ghost swept: seq<Event>)
      requires Valid()
      modifies this`tasks, this`runs, this`globals, this`xdeps, this`handoffs, this`log
      ensures Valid() && old(log) <= swept <= log
      ensures SweptFrom(old(State()), Replay(swept)) && FailuresPropagated(Replay(swept))
      ensures LeastClosed(old(State()), NewlyFailed(old(State()), Replay(swept)))
      ensures Counted(old(State()), Replay(swept), queued, failed)
      ensures forall i :: |swept| <= i < |log| ==>
        log[i].Refresh? && log[i].run in EndedRuns(old(State()), Replay(swept))
    {
      var left;
      queued, failed, left := PropagateDependencies();
      swept := log;
      ok := RefreshRuns(left, attested);
    }

    method RefreshRuns(rs: set<RunId>, attested: Attestations) returns (ok: bool)
      requires Valid()
      modifies this`tasks, this`runs, this`globals, this`xdeps, this`handoffs, this`log
      ensures Valid() && old(log) <= log
      ensures forall i :: |old(log)| <= i < |log| ==> log[i].Refresh? && log[i].run in rs
    {
      var left := rs;
      ok := true;
      while left != {} && ok
        invariant Valid() && old(log) <= log && left <= rs
        invariant forall i :: |old(log)| <= i < |log| ==> log[i].Refresh? && log[i].run in rs
        decreases left
      {
        var r :| r in left;
        left := left - {r};
        ok := RefreshRun(r, attested);
      }
    }

    method ReleaseGlobalRun(g: GlobalId) returns (ok: bool)
      requires Valid()
      modifies this`tasks, this`runs, this`globals, this`log
      ensures Did(ReleaseProjects(g), ReleaseGlobal(old(State()), g), ok)
      ensures ok <==> MayReleaseGlobal(old(State()), g) || NoReleaseDue(old(State()), g)
      ensures MayReleaseGlobal(old(State()), g) ==> GlobalReleased(old(State()), State(), g)
      ensures NoReleaseDue(old(State()), g) ==> State() == old(State())
    {
      ReleaseProjectsLogged(log, g);
      ReleaseGlobalMeans(State(), g);
      ok := ReleaseMembers(g);
      log := log + [ReleaseProjects(g)];
    }

    method ReleaseMembers(g: GlobalId) returns (ok: bool)
      modifies this`tasks, this`runs, this`globals
      ensures Outcome(State(), ok) == ReleaseGlobal(old(State()), g)
    {
      if g !in globals || !globals[g].revisionValid || globals[g].cancelRequested { return false; }
      if globals[g].status !in {GlobalPreparing, GlobalWaiting} { return true; }
      ok := ReleaseRoots(g);
    }

    method ReleaseRoots(g: GlobalId) returns (ok: bool)
      requires g in globals && globals[g].revisionValid && !globals[g].cancelRequested
      requires globals[g].status in {GlobalPreparing, GlobalWaiting}
      modifies this`tasks, this`runs, this`globals
      ensures Outcome(State(), ok) == ReleaseGlobal(old(State()), g)
    {
      ok := ReleaseEach(Roots(State(), globals[g], globals[g].members));
      if ok { ok := UpdateGlobalRun(g, GlobalRunning); }
    }

    method ReleaseEach(rs: seq<RunId>) returns (ok: bool)
      modifies this`tasks, this`runs
      ensures Outcome(State(), ok) == ReleaseAll(old(State()), rs)
    {
      var i := 0;
      while i < |rs|
        invariant 0 <= i <= |rs| && ReleaseAll(State(), rs[i..]) == ReleaseAll(old(State()), rs)
      {
        ok := ReleaseOneRun(rs[i]);
        if !ok { return; }
        i := i + 1;
      }
      ok := true;
    }

    method MarkCancellation(g: GlobalId) returns (ok: bool)
      modifies this`globals
      ensures Outcome(State(), ok) == RequestCancellation(old(State()), g)
    {
      ok := g in globals;
      if ok && !GlobalTerminal(globals[g].status) { globals := globals[g := globals[g].(cancelRequested := true)]; }
    }

    method RequestGlobalRunCancellation(g: GlobalId) returns (ok: bool)
      requires Valid()
      modifies this`globals, this`log
      ensures Did(RequestCancel(g), RequestCancellation(old(State()), g), ok)
      ensures ok <==> g in old(globals)
      ensures globals == if ok && old(globals)[g].status !in GLOBAL_ENDED
        then old(globals)[g := old(globals)[g].(cancelRequested := true)] else old(globals)
    {
      RequestCancelLogged(log, g);
      ok := MarkCancellation(g);
      log := log + [RequestCancel(g)];
    }

    method CancelEach(rs: seq<RunId>) returns (ok: bool)
      modifies this`tasks, this`runs
      ensures Outcome(State(), ok) == CancelMembers(old(State()), rs)
    {
      var i := 0;
      while i < |rs|
        invariant 0 <= i <= |rs| && CancelMembers(State(), rs[i..]) == CancelMembers(old(State()), rs)
      {
        if rs[i] in runs && !RunTerminal(runs[rs[i]].status) {
          ok := CancelOneRun(rs[i]);
          if !ok { return; }
        }
        i := i + 1;
      }
      ok := true;
    }

    method CancelGlobalRun(g: GlobalId, childrenDone: bool) returns (ok: bool)
      requires Valid()
      modifies this`tasks, this`runs, this`globals, this`log
      ensures Did(CancelProjects(g, childrenDone), CancelGlobal(old(State()), g, childrenDone), ok)
      ensures ok <==> g in old(globals)
      ensures ok && old(globals)[g].status !in GLOBAL_ENDED ==>
        GlobalCancelledTo(old(State()), State(), g, childrenDone)
      ensures ok && old(globals)[g].status in GLOBAL_ENDED ==> State() == old(State())
    {
      CancelProjectsLogged(log, g, childrenDone);
      CancelGlobalMeans(State(), g, childrenDone);
      ok := MarkCancellation(g);
      if ok && !GlobalTerminal(globals[g].status) {
        if !childrenDone { ok := CancelEach(globals[g].members); }
        if ok { ok := UpdateGlobalRun(g, GlobalCancelled); }
      }
      log := log + [CancelProjects(g, childrenDone)];
    }

    // ---------- Graph creation ----------

    /** createTaskGraph. Exact: the rows go in iff the run and its tasks are new, every contract
        is current and the graph is non-empty, well declared and acyclic. */
    method CreateTaskGraph(run: RunId, rows: seq<NewTask>) returns (created: bool)
      requires Valid()
      modifies this`tasks, this`runs, this`log
      ensures Valid()
      ensures created <==> GraphAccepted(rows) && Contracted(rows) && FreshRun(old(State()), run, rows)
      ensures created ==> RunCreated(old(State()), State(), run, rows) && log == old(log) + [Create(OneRun(run, rows))]
      ensures !created ==> log == old(log) && State() == old(State())
    {
      ghost var order;
      created, order := G.Validate(DeclaredOf(rows));
      if !created || !Contracted(rows) || !FreshRun(State(), run, rows) { return false; }
      OneRunAdmissible(run, rows, order);
      OneRunApart(State(), run, rows);
      OneRunCreates(State(), run, rows);
      InsertRun(run, rows);
    }

    method InsertRun(run: RunId, rows: seq<NewTask>)
      requires Valid() && Admissible(OneRun(run, rows)) && Apart(State(), OneRun(run, rows))
      modifies this`tasks, this`runs, this`log
      ensures Valid() && log == old(log) + [Create(OneRun(run, rows))]
      ensures State() == Joined(old(State()), OneRun(run, rows))
    {
      CreateLogged(log, OneRun(run, rows));
      runs := runs[run := Run(RunPreparing, None)];
      InsertTasks(run, None, rows);
      JoinedOneRun(old(State()), run, rows);
      log := log + [Create(OneRun(run, rows))];
    }

    method InsertTasks(run: RunId, gate: Option<Gate>, rows: seq<NewTask>)
      modifies this`tasks
      ensures tasks == old(tasks) + RowsOf(run, gate, rows)
    {
      for i := 0 to |rows|
        invariant tasks == old(tasks) + RowsOf(run, gate, rows[..i])
      {
        RowsGrow(old(tasks), run, gate, rows, i);
        tasks := tasks[rows[i].id := RowOf(run, gate, rows[i])];
      }
      assert rows[..|rows|] == rows;
    }

    /** The checks createGlobalRunGraph makes on project `i`. */
    method CheckProject(h: Header, ps: seq<NewProject>, ds: seq<NewDep>, i: nat)
      returns (ok: bool, ghost order: seq<G.Node>)
      requires i < |ps|
      ensures ok <==> ProjectAccepted(State(), h, ps, ds, i)
      ensures ok ==> G.Topological(order, G.EdgesOf(DeclaredOf(ps[i].rows)))
    {
      ok, order := G.Validate(DeclaredOf(ps[i].rows));
      if !ok || !Contracted(ps[i].rows) || ps[i].run in runs { return false, order; }
      var earlier := FirstProjects(h, ps, ds, i).tasks;
      ok := forall k :: 0 <= k < |ps[i].rows| ==> ps[i].rows[k].id !in tasks && ps[i].rows[k].id !in earlier;
    }

    /** createGlobalRunGraph, one transaction. Exact as well: all rows of all projects go in, or
        none. */
    method CreateGlobalRunGraph(h: Header, ps: seq<NewProject>, ds: seq<NewDep>) returns (created: bool)
      requires Valid()
      modifies this`tasks, this`runs, this`globals, this`xdeps, this`log
      ensures Valid()
      ensures created <==> ProjectsAccepted(old(State()), h, ps, ds)
      ensures created ==>
        && GraphCreated(old(State()), State(), h, ps, ds)
        && log == old(log) + [Create(FirstProjects(h, ps, ds, |ps|))]
      ensures !created ==> log == old(log) && State() == old(State())
    {
      ghost var order;
      created, order := G.ValidateProjects(RunIds(ps), RunsOfDeps(ds));
      if !created || h.global in globals || !DepsFresh(State(), ds) { return false; }
      created := CheckProjects(h, ps, ds);
      if !created { return; }
      AllProjects(State(), h, ps, ds, order);
      BatchIsDeclared(State(), h, ps, ds);
      BatchCreates(State(), FirstProjects(h, ps, ds, |ps|), h, ps, ds);
      InsertBatch(FirstProjects(h, ps, ds, |ps|));
    }

    method CheckProjects(h: Header, ps: seq<NewProject>, ds: seq<NewDep>) returns (ok: bool)
      requires G.UniqueNodes(RunIds(ps))
      ensures ok <==> forall i :: 0 <= i < |ps| ==> ProjectAccepted(State(), h, ps, ds, i)
      ensures ok ==> GatheredSoFar(State(), h, ps, ds, |ps|)
    {
      ghost var inner;
      for i := 0 to |ps|
        invariant GatheredSoFar(State(), h, ps, ds, i)
      {
        ok, inner := CheckProject(h, ps, ds, i);
        if !ok { return; }
        NextGathered(State(), h, ps, ds, i, inner);
      }
      ok := true;
    }

    method InsertBatch(b: Batch)
      requires Valid() && Admissible(b) && Apart(State(), b)
      modifies this`tasks, this`runs, this`globals, this`xdeps, this`log
      ensures Valid() && log == old(log) + [Create(b)] && State() == Joined(old(State()), b)
    {
      CreateLogged(log, b);
      tasks, runs, xdeps := tasks + b.tasks, runs + b.runs, xdeps + b.xdeps;
      if b.global.Some? { globals := globals[b.global.value.id := b.global.value.row]; }
      log := log + [Create(b)];
    }
  }
}
