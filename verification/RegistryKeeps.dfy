/** Every event keeps the invariant and undoes nothing that `Later` protects. */
module RegistryKeeps {
  import opened DomainStates
  import opened RetryPolicy
  import opened TaskRows
  import opened Handoffs
  import opened RegistrySteps
  import opened RegistryInvariant

  predicate AtRest(s: TaskStatus) { s.Staged? || Repairable(s) }

  predicate RunPreparingIn(db: Db, r: RunId) { r in db.runs && db.runs[r].status.RunPreparing? }

  predicate RunRunningIn(db: Db, r: RunId) { r in db.runs && db.runs[r].status.RunRunning? }

  /** Tasks of a run that is still preparing have not been set going. */
  ghost predicate PreparingIdle(db: Db) {
    forall id :: id in db.tasks && RunPreparingIn(db, db.tasks[id].runId) ==> AtRest(db.tasks[id].status)
  }

  ghost predicate Good(db: Db) { Wired(db) && Inv(db) && PreparingIdle(db) }

  // ---------- Row calls ----------

  predicate RowFollows(t: Task, t': Task) {
    RowLater(t, t') && (PastDependencies(t') ==> PastDependencies(t)) && (t'.attempt >= 1 ==> t.attempt >= 1)
  }

  ghost predicate GoodMove(t: Task, t': Task, issued: Token) {
    RowFollows(t, t') && RowOk(t', issued) && !Terminal(t.status)
  }

  lemma FinishFailureKeeps(t: Task, w: WorkerId, k: Token, f: Failure, ending: Ending, note: Option<Feedback>, now: int,
                           issued: Token)
    requires RowOk(t, issued) && FinishFailureRow(t, w, k, f, ending, note, now).Some?
    ensures GoodMove(t, FinishFailureRow(t, w, k, f, ending, note, now).value, issued)
  {
    assert NoRepeats(FinishFailureRow(t, w, k, f, ending, note, now).value.feedback);
  }

  lemma FinishValidationKeeps(t: Task, w: WorkerId, k: Token, r: Review, now: int, issued: Token)
    requires RowOk(t, issued) && FinishValidationRow(t, w, k, r, now).Some?
    ensures GoodMove(t, FinishValidationRow(t, w, k, r, now).value, issued)
  {
    if !(r.decision.Accept? || r.decision.AcceptWithWarnings?) {
      FinishFailureKeeps(t, w, k, ReviewFailure(r), ReviewEnding(r), ReviewNote(r), now, issued);
    }
  }

  lemma WaitForLeaseKeeps(t: Task, w: WorkerId, k: Token, delay: nat, now: int, issued: Token)
    requires RowOk(t, issued) && WaitForLeaseRow(t, w, k, delay, now).Some?
    ensures GoodMove(t, WaitForLeaseRow(t, w, k, delay, now).value, issued)
  {
    if FinishFailureRow(t, w, k, LeaseExpiry, RecoveryAttention, None, now).Some? {
      FinishFailureKeeps(t, w, k, LeaseExpiry, RecoveryAttention, None, now, issued);
    }
  }

  predicate WorkerEnding(op: RowOp) { op.FinishFailure? || op.FinishValidation? || op.WaitForLease? }

  predicate Progressing(op: RowOp) { Tokened(op) && !Ends(op) }

  lemma ProgressKeeps(t: Task, op: RowOp, now: int, issued: Token)
    requires RowOk(t, issued) && ApplyRow(t, op, now).Some? && Progressing(op)
    ensures GoodMove(t, ApplyRow(t, op, now).value, issued)
  {
  }

  lemma TurnEndKeeps(t: Task, op: RowOp, now: int, issued: Token)
    requires RowOk(t, issued) && ApplyRow(t, op, now).Some? && (op.CompleteClaim? || op.FinishTurn?)
    ensures GoodMove(t, ApplyRow(t, op, now).value, issued)
  {
  }

  lemma OtherEndKeeps(t: Task, op: RowOp, now: int, issued: Token)
    requires RowOk(t, issued) && ApplyRow(t, op, now).Some? && !Tokened(op)
    ensures GoodMove(t, ApplyRow(t, op, now).value, issued)
  {
  }

  /** Every row call keeps its row well formed, never leaves a successful status, never
      revives an ended task and never moves `waitingSince`. */
  lemma RowOpKeeps(t: Task, op: RowOp, now: int, issued: Token)
    requires RowOk(t, issued) && ApplyRow(t, op, now).Some?
    ensures GoodMove(t, ApplyRow(t, op, now).value, issued)
  {
    match op
    case FinishFailure(w, k, f, ending, note) => FinishFailureKeeps(t, w, k, f, ending, note, now, issued);
    case FinishValidation(w, k, r) => FinishValidationKeeps(t, w, k, r, now, issued);
    case WaitForLease(w, k, delay) => WaitForLeaseKeeps(t, w, k, delay, now, issued);
    case CompleteClaim(w, k) => TurnEndKeeps(t, op, now, issued);
    case FinishTurn(w, k, interrupted) => TurnEndKeeps(t, op, now, issued);
    case _ => if Progressing(op) { ProgressKeeps(t, op, now, issued); } else { OtherEndKeeps(t, op, now, issued); }
  }

  lemma OnRowKeeps(db: Db, id: TaskId, op: RowOp)
    requires Inv(db)
    ensures Kept(db, OnRow(db, id, op).db)
  {
    if OnRow(db, id, op).ok {
      var t := db.tasks[id];
      assert RowFits(db, t, db.nextToken);
      RowOpKeeps(t, op, db.clock, db.nextToken);
      TaskRewrite(db, id, ApplyRow(t, op, db.clock).value, db.nextToken);
    } else {
      KeptReflexive(db);
    }
  }

  lemma SweepKeeps(db: Db, id: TaskId)
    requires Inv(db)
    ensures Kept(db, Sweep(db, id))
  {
    if Sweep(db, id) != db {
      var t := db.tasks[id];
      assert RowFits(db, t, db.nextToken);
      TaskRewrite(db, id, SetStatus(t, SweepVerdict(db, t)), db.nextToken);
    } else {
      KeptReflexive(db);
    }
  }

  // ---------- Handoffs and claims ----------

  lemma MaterialiseDepKeeps(db: Db, d: DepId, attested: Attestations)
    requires Inv(db)
    ensures Kept(db, MaterialiseDep(db, d, attested))
  {
    if d in db.xdeps {
      assert DepFits(db, db.xdeps[d]);
      var r := Materialise(d, db.xdeps[d], HandoffOf(db, d), PayloadFor(db, d, attested));
      DepWrite(db, d, r.dep, MaterialiseDep(db, d, attested).handoffs);
    } else {
      KeptReflexive(db);
    }
  }

  lemma {:induction false} OpenInboundKeeps(db: Db, ds: seq<DepId>, attested: Attestations)
    requires Inv(db)
    ensures Kept(db, OpenInbound(db, ds, attested).db)
    decreases |ds|
  {
    KeptReflexive(db);
    if ds != [] && ds[0] in db.xdeps && db.xdeps[ds[0]].status.DepSatisfied? {
      var next := MaterialiseDep(db, ds[0], attested);
      MaterialiseDepKeeps(db, ds[0], attested);
      OpenInboundKeeps(next, ds[1..], attested);
      KeptTransitive(db, next, OpenInbound(next, ds[1..], attested).db);
    }
  }

  lemma OpenGateKeeps(db: Db, t: Task, env: ClaimEnv)
    requires Inv(db)
    ensures Kept(db, OpenGate(db, t, env).db)
  {
    KeptReflexive(db);
    if t.gate.Some? && t.gate.value.global in db.globals {
      OpenInboundKeeps(db, Inbound(db, db.globals[t.gate.value.global].deps, t.runId), env.attested);
    }
  }

  /** A passed guard puts every `all_success` producer of the task's run behind it. */
  lemma GuardAchievesInbound(db: Db, t: Task, env: ClaimEnv)
    requires Wired(db) && Inv(db) && TaskPlaced(db, t) && ClaimGuard(db, t, env)
    ensures InboundAchieved(db, t.runId)
  {
    forall d | d in db.xdeps && db.xdeps[d].consumer == t.runId && db.xdeps[d].condition.IfAllSuccess?
      ensures ProducerCompleted(db, db.xdeps[d])
    {
      var dep := db.xdeps[d];
      assert DepWired(db, d, dep) && GlobalWired(db, dep.global, db.globals[dep.global]);
      assert Deliverable(dep, HandoffOf(db, d)) && DepFits(db, dep);
    }
  }

  lemma ClaimedRowFits(db: Db, t: Task, w: WorkerId, env: ClaimEnv)
    requires InboundAchieved(db, t.runId) && RowFits(db, t, db.nextToken) && ClaimGuard(db, t, env)
    ensures RowLater(t, ClaimRow(t, w, db.nextToken, db.clock))
    ensures RowFits(db, ClaimRow(t, w, db.nextToken, db.clock), db.nextToken + 1)
  {
  }

  lemma GuardedRowFits(db: Db, id: TaskId, w: WorkerId, env: ClaimEnv)
    requires Wired(db) && Inv(db) && id in db.tasks && ClaimGuard(db, db.tasks[id], env)
    ensures RowLater(db.tasks[id], ClaimRow(db.tasks[id], w, db.nextToken, db.clock))
    ensures RowFits(db, ClaimRow(db.tasks[id], w, db.nextToken, db.clock), db.nextToken + 1)
  {
    assert TaskPlaced(db, db.tasks[id]) && RowFits(db, db.tasks[id], db.nextToken);
    GuardAchievesInbound(db, db.tasks[id], env);
    ClaimedRowFits(db, db.tasks[id], w, env);
  }

  lemma ClaimedWrite(db: Db, id: TaskId, w: WorkerId)
    requires Inv(db) && id in db.tasks
    requires RowLater(db.tasks[id], ClaimRow(db.tasks[id], w, db.nextToken, db.clock))
    requires RowFits(db, ClaimRow(db.tasks[id], w, db.nextToken, db.clock), db.nextToken + 1)
    ensures Kept(db, Claimed(db, id, w))
  {
    TaskRewrite(db, id, ClaimRow(db.tasks[id], w, db.nextToken, db.clock), db.nextToken + 1);
  }

  lemma ClaimedKeeps(db: Db, id: TaskId, w: WorkerId, env: ClaimEnv)
    requires Wired(db) && Inv(db) && id in db.tasks && ClaimGuard(db, db.tasks[id], env)
    ensures Kept(db, Claimed(db, id, w))
  {
    GuardedRowFits(db, id, w, env);
    ClaimedWrite(db, id, w);
  }

  lemma GuardedClaimKeeps(db: Db, mid: Db, id: TaskId, w: WorkerId, env: ClaimEnv)
    requires Wired(db) && Kept(db, mid) && id in mid.tasks && ClaimGuard(mid, mid.tasks[id], env)
    ensures Kept(db, Claimed(mid, id, w))
  {
    WiredCarries(db, mid);
    ClaimedKeeps(mid, id, w, env);
    KeptTransitive(db, mid, Claimed(mid, id, w));
  }

  lemma ClaimKeeps(db: Db, id: TaskId, w: WorkerId, env: ClaimEnv)
    requires Wired(db) && Inv(db)
    ensures Kept(db, Claim(db, id, w, env).db)
  {
    if id in db.tasks {
      OpenGateKeeps(db, db.tasks[id], env);
      if Claim(db, id, w, env).ok { GuardedClaimKeeps(db, OpenGate(db, db.tasks[id], env).db, id, w, env); }
    } else {
      KeptReflexive(db);
    }
  }

  lemma RepairedRowFits(db: Db, t: Task, c: Contract)
    requires RowFits(db, t, db.nextToken) && Repairable(t.status)
    ensures RowLater(t, RepairedRow(t, c)) && RowFits(db, RepairedRow(t, c), db.nextToken)
  {
  }

  lemma UnsuccessfulRunOpen(db: Db, id: TaskId)
    requires CompletedSucceeded(db) && id in db.tasks && !Successful(db.tasks[id].status)
    ensures !RunCompletedIn(db, db.tasks[id].runId)
  {
  }

  lemma RepairKeeps(db: Db, id: TaskId, c: Contract)
    requires Wired(db) && Inv(db)
    ensures Kept(db, Repair(db, id, c).db)
  {
    if id in db.tasks && Repairable(db.tasks[id].status) && c.fingerprint != db.tasks[id].contract.fingerprint {
      var t := db.tasks[id];
      UnsuccessfulRunOpen(db, id);
      var mid := db.(tasks := db.tasks[id := RepairedRow(t, c)]);
      RepairedRowFits(db, t, c);
      TaskRewrite(db, id, RepairedRow(t, c), db.nextToken);
      RunWrite(mid, t.runId, RunRunning, true);
      KeptTransitive(db, mid, Repair(db, id, c).db);
    } else {
      KeptReflexive(db);
    }
  }

  predicate RunCompletedIn(db: Db, r: RunId) { r in db.runs && db.runs[r].status.RunCompleted? }

  // ---------- Runs ----------

  lemma SettleRunKeeps(db: Db, r: RunId)
    requires Inv(db)
    ensures Kept(db, SettleRun(db, r).db)
  {
    KeptReflexive(db);
    if Settles(db, r) {
      var s := DeriveRunStatus(StatusesOf(db, r)).value;
      if s.RunCompleted? {
        forall id | id in db.tasks && db.tasks[id].runId == r ensures Successful(db.tasks[id].status) {
          assert db.tasks[id].status in StatusesOf(db, r);
        }
      }
      RunWrite(db, r, s, false);
    }
  }

  lemma BulkThenRun(db: Db, tasks: map<TaskId, Task>, r: RunId, s: RunStatus)
    requires Inv(db) && tasks.Keys == db.tasks.Keys && s in {RunRunning, RunFailed, RunCancelled}
    requires forall id :: id in tasks ==> RowLater(db.tasks[id], tasks[id])
    requires RowsFit(db, tasks, db.nextToken)
    ensures Kept(db, SetRun(db.(tasks := tasks), r, s, false).db)
  {
    TasksRewrite(db, tasks, db.nextToken);
    RunWrite(db.(tasks := tasks), r, s, false);
    KeptTransitive(db, db.(tasks := tasks), SetRun(db.(tasks := tasks), r, s, false).db);
  }

  lemma ReleasedRowFits(db: Db, t: Task, r: RunId)
    requires RowFits(db, t, db.nextToken)
    ensures RowLater(t, ReleasedIn(t, r)) && RowFits(db, ReleasedIn(t, r), db.nextToken)
  {
  }

  lemma EndedRowFits(db: Db, t: Task, r: RunId)
    requires RowFits(db, t, db.nextToken)
    ensures RowLater(t, FailedIn(t, r)) && RowFits(db, FailedIn(t, r), db.nextToken)
    ensures RowLater(t, CanceledIn(t, r)) && RowFits(db, CanceledIn(t, r), db.nextToken)
    ensures RowLater(t, DoomedIn(t, r)) && RowFits(db, DoomedIn(t, r), db.nextToken)
  {
  }

  lemma ReleaseRunKeeps(db: Db, r: RunId)
    requires Inv(db)
    ensures Kept(db, ReleaseRun(db, r).db)
  {
    if Releasable(db, r) {
      var tasks := map id | id in db.tasks :: ReleasedIn(db.tasks[id], r);
      forall id | id in tasks
        ensures RowLater(db.tasks[id], tasks[id]) && RowFits(db, tasks[id], db.nextToken)
      {
        ReleasedRowFits(db, db.tasks[id], r);
      }
      BulkThenRun(db, tasks, r, RunRunning);
    } else {
      KeptReflexive(db);
    }
  }

  lemma FailPreparedRunKeeps(db: Db, r: RunId)
    requires Inv(db)
    ensures Kept(db, FailPreparedRun(db, r).db)
  {
    KeptReflexive(db);
    var tasks := map id | id in db.tasks :: FailedIn(db.tasks[id], r);
    forall id | id in tasks
      ensures RowLater(db.tasks[id], tasks[id]) && RowFits(db, tasks[id], db.nextToken)
    {
      EndedRowFits(db, db.tasks[id], r);
    }
    BulkThenRun(db, tasks, r, RunFailed);
  }

  lemma CancelRunKeeps(db: Db, r: RunId)
    requires Inv(db)
    ensures Kept(db, CancelRun(db, r).db)
  {
    KeptReflexive(db);
    var tasks := map id | id in db.tasks :: CanceledIn(db.tasks[id], r);
    forall id | id in tasks
      ensures RowLater(db.tasks[id], tasks[id]) && RowFits(db, tasks[id], db.nextToken)
    {
      EndedRowFits(db, db.tasks[id], r);
    }
    BulkThenRun(db, tasks, r, RunCancelled);
  }

  lemma DoomRunKeeps(db: Db, r: RunId)
    requires Inv(db)
    ensures Kept(db, DoomRun(db, r).db)
  {
    var tasks := map id | id in db.tasks :: DoomedIn(db.tasks[id], r);
    forall id | id in tasks
      ensures RowLater(db.tasks[id], tasks[id]) && RowFits(db, tasks[id], db.nextToken)
    {
      EndedRowFits(db, db.tasks[id], r);
    }
    BulkThenRun(db, tasks, r, RunFailed);
  }

  // ---------- Preparing runs ----------

  /** A step that starts no preparing run's task without taking the run out of preparation. */
  ghost predicate IdleStep(a: Db, b: Db) {
    forall id :: id in b.tasks && RunPreparingIn(b, b.tasks[id].runId) ==>
      id in a.tasks && a.tasks[id].runId == b.tasks[id].runId && RunPreparingIn(a, b.tasks[id].runId)
      && (AtRest(a.tasks[id].status) ==> AtRest(b.tasks[id].status))
  }

  lemma IdleCarries(a: Db, b: Db)
    requires PreparingIdle(a) && IdleStep(a, b)
    ensures PreparingIdle(b)
  {
  }

  lemma IdleTransitive(a: Db, b: Db, c: Db)
    requires IdleStep(a, b) && IdleStep(b, c)
    ensures IdleStep(a, c)
  {
  }

  ghost predicate SameCore(a: Db, b: Db) { b.tasks == a.tasks && b.runs == a.runs }

  lemma SetRunIdle(db: Db, r: RunId, s: RunStatus, allowRepair: bool)
    requires !s.RunPreparing?
    ensures IdleStep(db, SetRun(db, r, s, allowRepair).db)
  {
  }

  predicate EndedOrSame(t: Task, t': Task) { t'.runId == t.runId && (t'.status == t.status || Repairable(t'.status)) }

  /** Ending tasks is no start, whatever becomes of their run. */
  lemma EndingIdle(db: Db, tasks: map<TaskId, Task>, r: RunId, s: RunStatus)
    requires !s.RunPreparing? && tasks.Keys == db.tasks.Keys
    requires forall id :: id in tasks ==> EndedOrSame(db.tasks[id], tasks[id])
    ensures IdleStep(db, SetRun(db.(tasks := tasks), r, s, false).db)
  {
  }

  lemma ReleaseRunIdle(db: Db, r: RunId)
    ensures IdleStep(db, ReleaseRun(db, r).db)
  {
  }

  /** A row may be rewritten if its run is then set running. */
  lemma RowThenRunIdle(db: Db, id: TaskId, t: Task)
    requires id in db.tasks && t.runId == db.tasks[id].runId && t.runId in db.runs
    ensures IdleStep(
      db, db.(tasks := db.tasks[id := t], runs := db.runs[t.runId := db.runs[t.runId].(status := RunRunning)]))
  {
  }

  lemma RepairIdle(db: Db, id: TaskId, c: Contract)
    ensures IdleStep(db, Repair(db, id, c).db)
  {
    if Repair(db, id, c).ok { RowThenRunIdle(db, id, RepairedRow(db.tasks[id], c)); }
  }

  lemma RestRowEnds(t: Task, op: RowOp, now: int)
    requires AtRest(t.status) && ApplyRow(t, op, now).Some?
    ensures EndedOrSame(t, ApplyRow(t, op, now).value)
  {
    assert op.CancelTask?;
  }

  lemma OnRowIdle(db: Db, id: TaskId, op: RowOp)
    requires Inv(db)
    ensures IdleStep(db, OnRow(db, id, op).db)
  {
    if OnRow(db, id, op).ok {
      var t := db.tasks[id];
      assert RowFits(db, t, db.nextToken);
      RowOpKeeps(t, op, db.clock, db.nextToken);
      if AtRest(t.status) { RestRowEnds(t, op, db.clock); }
    }
  }

  ghost predicate Moved(a: Db, b: Db) { Kept(a, b) && IdleStep(a, b) }

  lemma MovedGood(a: Db, b: Db)
    requires Good(a) && Moved(a, b)
    ensures Good(b)
  {
    WiredCarries(a, b);
    IdleCarries(a, b);
  }

  // ---------- Handoffs nobody rewrote ----------

  /** A handoff exists only once its producer ended, and backs a satisfied dependency only
      when it is received, sealed and receipted. */
  predicate DepRegular(db: Db, d: DepId)
    requires d in db.xdeps
  {
    d in db.handoffs ==>
      && !db.xdeps[d].status.DepPending?
      && (db.xdeps[d].status.DepSatisfied? ==>
            db.handoffs[d].status.Received? && db.handoffs[d].receipt.Some? && Intact(d, db.xdeps[d], db.handoffs[d]))
  }

  ghost predicate Regular(db: Db) { forall d :: d in db.xdeps ==> DepRegular(db, d) }

  ghost predicate RegularStep(a: Db, b: Db) { Regular(a) ==> Regular(b) }

  lemma MaterialiseRegular(db: Db, d: DepId, attested: Attestations)
    ensures RegularStep(db, MaterialiseDep(db, d, attested))
  {
    if Regular(db) && d in db.xdeps {
      assert DepRegular(db, d);
      var b := MaterialiseDep(db, d, attested);
      assert DepRegular(b, d);
      forall i | i in b.xdeps ensures DepRegular(b, i) { if i != d { assert DepRegular(db, i); } }
    }
  }

  lemma {:induction false} OpenInboundRegular(db: Db, ds: seq<DepId>, attested: Attestations)
    ensures RegularStep(db, OpenInbound(db, ds, attested).db)
    decreases |ds|
  {
    if ds != [] {
      MaterialiseRegular(db, ds[0], attested);
      OpenInboundRegular(MaterialiseDep(db, ds[0], attested), ds[1..], attested);
    }
  }

  lemma ClaimRegular(db: Db, id: TaskId, w: WorkerId, env: ClaimEnv)
    ensures RegularStep(db, Claim(db, id, w, env).db)
  {
    if id in db.tasks && db.tasks[id].gate.Some? && db.tasks[id].gate.value.global in db.globals {
      OpenInboundRegular(db, Inbound(db, db.globals[db.tasks[id].gate.value.global].deps, db.tasks[id].runId),
                         env.attested);
      assert forall mid: Db :: Regular(mid) && id in mid.tasks ==> Regular(Claimed(mid, id, w));
    }
  }

  // ---------- What only workers and repairs change ----------

  predicate Unreleased(s: TaskStatus) { s.Staged? || s.Blocked? }

  /** A change to a row made by neither its worker, a claim, recovery nor repair. */
  predicate Steady(t: Task, t': Task) {
    && t'.attempt == t.attempt && t'.maxAttempts == t.maxAttempts && t'.retryDelay == t.retryDelay
    && t'.timeout == t.timeout
    && t'.startedAt == t.startedAt && t'.waitingSince == t.waitingSince
    && t'.feedback == t.feedback && t'.feedbackRevision == t.feedbackRevision
    && (t'.claimToken == t.claimToken || t'.claimToken.None?)
    && (t' != t ==> t'.version > t.version)
    && (Terminal(t.status) ==> t'.status == t.status)
    && (Active(t'.status) ==> t' == t)
    && (Claimable(t'.status) ==>
      t' == t || (Unreleased(t.status) && t'.status.Queued? && t'.nextRetryAt == t.nextRetryAt))
    && (Unreleased(t'.status) ==> Unreleased(t.status) && t'.nextRetryAt == t.nextRetryAt)
  }

  ghost predicate SteadyDb(a: Db, b: Db) {
    b.nextToken == a.nextToken && b.tasks.Keys == a.tasks.Keys
    && forall id :: id in a.tasks ==> Steady(a.tasks[id], b.tasks[id])
  }

  lemma SteadyTransitive(a: Db, b: Db, c: Db)
    requires SteadyDb(a, b) && SteadyDb(b, c)
    ensures SteadyDb(a, c)
  {
    forall id | id in a.tasks ensures Steady(a.tasks[id], c.tasks[id]) {
      assert Steady(a.tasks[id], b.tasks[id]) && Steady(b.tasks[id], c.tasks[id]);
    }
  }

  lemma RunCallsSteady(t: Task, r: RunId)
    ensures Steady(t, ReleasedIn(t, r)) && Steady(t, FailedIn(t, r)) && Steady(t, CanceledIn(t, r))
    ensures Steady(t, DoomedIn(t, r))
  {
  }

  lemma BulkSteady(db: Db, tasks: map<TaskId, Task>, r: RunId, s: RunStatus)
    requires tasks.Keys == db.tasks.Keys && forall id :: id in tasks ==> Steady(db.tasks[id], tasks[id])
    ensures SteadyDb(db, SetRun(db.(tasks := tasks), r, s, false).db)
  {
  }

  lemma SweepSteady(db: Db, id: TaskId)
    ensures SteadyDb(db, Sweep(db, id))
  {
  }
}
