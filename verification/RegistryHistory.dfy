/** All reachable states: every history of events, from an empty database. */
module RegistryHistory {
  import opened DomainStates
  import opened TaskRows
  import opened Handoffs
  import opened RegistrySteps
  import opened RegistryInvariant
  import opened RegistryKeeps
  import opened RegistryGlobal

  // ---------- Graph creation ----------

  lemma JoinedLater(db: Db, b: Batch)
    requires Apart(db, b)
    ensures Later(db, Joined(db, b))
  {
  }

  lemma JoinedPlaced(db: Db, b: Batch)
    requires TasksPlaced(db) && TasksAdmissible(b) && Apart(db, b)
    ensures TasksPlaced(Joined(db, b))
  {
    var c := Joined(db, b);
    forall id | id in c.tasks ensures TaskPlaced(c, c.tasks[id]) {
      if id in b.tasks { assert TaskAdmissible(b, b.tasks[id]); } else { assert TaskPlaced(db, db.tasks[id]); }
    }
  }

  lemma JoinedOldRun(db: Db, b: Batch, r: RunId)
    requires TasksAdmissible(b) && Apart(db, b) && r in db.runs && RunWired(db, r, db.runs[r])
    ensures RunWired(Joined(db, b), r, Joined(db, b).runs[r])
  {
    var c := Joined(db, b);
    var id :| id in db.tasks && db.tasks[id].runId == r;
    assert c.tasks[id].runId == r;
    var rank :| TaskRank(rank, db.tasks, r);
    forall i | i in c.tasks && c.tasks[i].runId == r
      ensures i in rank && RanksBelow(rank, c.tasks[i].dependsOn, rank[i])
    {
      assert i !in b.tasks;
    }
    assert TaskRank(rank, c.tasks, r);
  }

  lemma JoinedNewRank(db: Db, b: Batch, r: RunId, rank: map<TaskId, nat>)
    requires TasksPlaced(db) && Apart(db, b) && r in b.runs && TaskRank(rank, b.tasks, r)
    ensures TaskRank(rank, Joined(db, b).tasks, r)
  {
    var c := Joined(db, b);
    forall i | i in c.tasks && c.tasks[i].runId == r
      ensures i in rank && RanksBelow(rank, c.tasks[i].dependsOn, rank[i])
    {
      assert i in b.tasks;
    }
  }

  lemma JoinedNewRun(db: Db, b: Batch, r: RunId)
    requires TasksPlaced(db) && Apart(db, b) && r in b.runs && RunAdmissible(b, r, b.runs[r])
    requires b.global.Some? ==> GlobalAdmissible(b, b.global.value.row)
    ensures RunWired(Joined(db, b), r, Joined(db, b).runs[r])
  {
    var c := Joined(db, b);
    var id :| id in b.tasks && b.tasks[id].runId == r;
    assert c.tasks[id].runId == r;
    var rank :| TaskRank(rank, b.tasks, r);
    JoinedNewRank(db, b, r, rank);
  }

  lemma RankRestricts(rank: map<RunId, nat>, ds: seq<DepId>, xdeps: map<DepId, XDep>, wider: map<DepId, XDep>)
    requires RunRank(rank, ds, xdeps)
    requires forall d :: d in ds ==> d in xdeps && d in wider && wider[d] == xdeps[d]
    ensures RunRank(rank, ds, wider)
  {
  }

  lemma JoinedRanked(ds: seq<DepId>, xdeps: map<DepId, XDep>, wider: map<DepId, XDep>)
    requires Ranked(ds, xdeps)
    requires forall d :: d in ds ==> d in xdeps && d in wider && wider[d] == xdeps[d]
    ensures Ranked(ds, wider)
  {
    var rank :| RunRank(rank, ds, xdeps);
    RankRestricts(rank, ds, xdeps, wider);
  }

  lemma GlobalWiredWider(c: Db, g: GlobalId, row: Global, runs: map<RunId, Run>, xdeps: map<DepId, XDep>)
    requires row.revisionValid && Ranked(row.deps, xdeps)
    requires forall r :: r in row.members ==>
               r in runs && r in c.runs && c.runs[r] == runs[r] && runs[r].gate.Some? && runs[r].gate.value.global == g
    requires forall d :: d in row.deps ==> d in xdeps && d in c.xdeps && c.xdeps[d] == xdeps[d] && xdeps[d].global == g
    ensures GlobalWired(c, g, row)
  {
    JoinedRanked(row.deps, xdeps, c.xdeps);
  }

  lemma JoinedNewGlobal(db: Db, b: Batch)
    requires RunsAdmissible(b) && DepsAdmissible(b)
    requires b.global.Some? && GlobalAdmissible(b, b.global.value.row)
    ensures GlobalWired(Joined(db, b), b.global.value.id, b.global.value.row)
  {
    var row := b.global.value.row;
    forall r | r in row.members
      ensures r in b.runs && b.runs[r].gate == Some(GateFor(b.global.value, r))
    {
      assert RunAdmissible(b, r, b.runs[r]);
    }
    GlobalWiredWider(Joined(db, b), b.global.value.id, row, b.runs, b.xdeps);
  }

  lemma JoinedOldGlobal(db: Db, b: Batch, g: GlobalId)
    requires Apart(db, b) && g in db.globals && GlobalWired(db, g, db.globals[g])
    ensures GlobalWired(Joined(db, b), g, Joined(db, b).globals[g])
  {
    var row := db.globals[g];
    GlobalWiredWider(Joined(db, b), g, row, db.runs, db.xdeps);
  }

  lemma JoinedDep(db: Db, b: Batch, d: DepId)
    requires DepsWired(db) && DepsAdmissible(b) && Apart(db, b) && d in Joined(db, b).xdeps
    requires b.global.Some? ==> GlobalAdmissible(b, b.global.value.row)
    ensures DepWired(Joined(db, b), d, Joined(db, b).xdeps[d])
  {
    if d !in b.xdeps { assert DepWired(db, d, db.xdeps[d]); }
  }

  lemma JoinedWired(db: Db, b: Batch)
    requires Wired(db) && Admissible(b) && Apart(db, b)
    ensures Wired(Joined(db, b))
  {
    var c := Joined(db, b);
    JoinedPlaced(db, b);
    forall r | r in c.runs ensures RunWired(c, r, c.runs[r]) {
      if r in b.runs { JoinedNewRun(db, b, r); } else { JoinedOldRun(db, b, r); }
    }
    forall g | g in c.globals ensures GlobalWired(c, g, c.globals[g]) {
      if g in db.globals { JoinedOldGlobal(db, b, g); } else { JoinedNewGlobal(db, b); }
    }
    forall d | d in c.xdeps ensures DepWired(c, d, c.xdeps[d]) { JoinedDep(db, b, d); }
  }

  lemma JoinedOldRow(db: Db, b: Batch, id: TaskId)
    requires TasksPlaced(db) && DepsAdmissible(b) && Apart(db, b)
    requires id in db.tasks && RowFits(db, db.tasks[id], db.nextToken)
    ensures RowFits(Joined(db, b), db.tasks[id], db.nextToken)
  {
    var c := Joined(db, b);
    var t := db.tasks[id];
    assert TaskPlaced(db, t);
    forall d | t.attempt >= 1 && d in c.xdeps && c.xdeps[d].consumer == t.runId && c.xdeps[d].condition.IfAllSuccess?
      ensures ProducerCompleted(c, c.xdeps[d])
    {
      assert d !in b.xdeps && ProducerCompleted(db, db.xdeps[d]);
    }
  }

  lemma JoinedDepFits(db: Db, b: Batch, d: DepId)
    requires DepsFit(db, db.xdeps) && DepsAdmissible(b) && Apart(db, b) && d in Joined(db, b).xdeps
    ensures DepFits(Joined(db, b), Joined(db, b).xdeps[d])
  {
    if d !in b.xdeps { assert DepFits(db, db.xdeps[d]); }
  }

  lemma JoinedSucceeded(db: Db, b: Batch)
    requires CompletedSucceeded(db) && TasksAdmissible(b) && RunsAdmissible(b) && Apart(db, b)
    ensures CompletedSucceeded(Joined(db, b))
  {
    var c := Joined(db, b);
    forall r | r in c.runs && c.runs[r].status.RunCompleted? ensures AllSuccessful(c, r) {
      assert r !in b.runs && AllSuccessful(db, r);
      forall id | id in c.tasks && c.tasks[id].runId == r ensures Successful(c.tasks[id].status) {
        assert id !in b.tasks;
      }
    }
  }

  lemma JoinedRows(db: Db, b: Batch)
    requires Wired(db) && RowsFit(db, db.tasks, db.nextToken) && TasksAdmissible(b) && DepsAdmissible(b) && Apart(db, b)
    ensures RowsFit(Joined(db, b), Joined(db, b).tasks, db.nextToken)
  {
    var c := Joined(db, b);
    forall id | id in c.tasks ensures RowFits(c, c.tasks[id], c.nextToken) {
      if id in b.tasks { assert TaskAdmissible(b, b.tasks[id]); } else { JoinedOldRow(db, b, id); }
    }
  }

  lemma JoinedInv(db: Db, b: Batch)
    requires Wired(db) && Inv(db) && Admissible(b) && Apart(db, b)
    ensures Inv(Joined(db, b))
  {
    var c := Joined(db, b);
    JoinedRows(db, b);
    JoinedSucceeded(db, b);
    forall d | d in c.xdeps ensures DepFits(c, c.xdeps[d]) { JoinedDepFits(db, b, d); }
  }

  lemma JoinedIdle(db: Db, b: Batch)
    requires TasksPlaced(db) && PreparingIdle(db) && TasksAdmissible(b) && Apart(db, b)
    ensures PreparingIdle(Joined(db, b))
  {
    var c := Joined(db, b);
    forall id | id in c.tasks && RunPreparingIn(c, c.tasks[id].runId) ensures AtRest(c.tasks[id].status) {
      if id in b.tasks { assert TaskAdmissible(b, b.tasks[id]); } else { assert TaskPlaced(db, db.tasks[id]); }
    }
  }

  // ---------- One event ----------

  lemma RowEventHeld(db: Db, id: TaskId, op: RowOp)
    requires Good(db)
    ensures Moved(db, OnRow(db, id, op).db)
  {
    OnRowKeeps(db, id, op);
    OnRowIdle(db, id, op);
  }

  lemma ClaimIdle(db: Db, id: TaskId, w: WorkerId, env: ClaimEnv)
    ensures IdleStep(db, Claim(db, id, w, env).db)
  {
  }

  lemma ClaimHeld(db: Db, id: TaskId, w: WorkerId, env: ClaimEnv)
    requires Good(db)
    ensures Moved(db, Claim(db, id, w, env).db)
  {
    ClaimKeeps(db, id, w, env);
    ClaimIdle(db, id, w, env);
  }

  lemma RepairHeld(db: Db, id: TaskId, c: Contract)
    requires Good(db)
    ensures Moved(db, Repair(db, id, c).db)
  {
    RepairKeeps(db, id, c);
    RepairIdle(db, id, c);
  }

  lemma HandoffRewriteHeld(db: Db, d: DepId, h: Handoff)
    requires Inv(db)
    ensures Moved(db, Apply(db, RewriteHandoff(d, h)).db) && SteadyDb(db, Apply(db, RewriteHandoff(d, h)).db)
  {
    if d in db.handoffs { InvCarries(db, db.(handoffs := db.handoffs[d := h])); } else { HeldReflexive(db); }
  }

  lemma SweepHeld(db: Db, id: TaskId)
    requires Inv(db)
    ensures Held(db, Sweep(db, id))
  {
    SweepKeeps(db, id);
    SweepSteady(db, id);
  }

  lemma TickHeld(db: Db, d: nat)
    requires Inv(db)
    ensures Held(db, Apply(db, Tick(d)).db)
  {
    ClockWrite(db, db.clock + d);
  }

  predicate QuietEvent(e: Event) { e.Tick? || e.SweepTask? }

  predicate TaskEvent(e: Event) { e.ClaimTask? || e.Row? || e.RepairTask? }

  lemma QuietEventHeld(db: Db, e: Event)
    requires Good(db) && QuietEvent(e)
    ensures Held(db, Apply(db, e).db)
  {
    match e
    case Tick(d) => TickHeld(db, d);
    case SweepTask(id) => SweepHeld(db, id);
  }

  lemma TaskEventHeld(db: Db, e: Event)
    requires Good(db) && TaskEvent(e)
    ensures Moved(db, Apply(db, e).db)
  {
    match e
    case ClaimTask(id, w, env) => ClaimHeld(db, id, w, env);
    case Row(id, op) => RowEventHeld(db, id, op);
    case RepairTask(id, c) => RepairHeld(db, id, c);
  }

  lemma TaskEventRegular(db: Db, e: Event)
    requires TaskEvent(e)
    ensures RegularStep(db, Apply(db, e).db)
  {
    match e
    case ClaimTask(id, w, env) => ClaimRegular(db, id, w, env);
    case Row(id, op) =>
    case RepairTask(id, c) =>
  }

  lemma RunEventHeld(db: Db, e: Event)
    requires Good(db) && !QuietEvent(e) && !TaskEvent(e) && !e.Create? && !e.RewriteHandoff?
    ensures Held(db, Apply(db, e).db)
  {
    match e
    case Release(r) => ReleaseRunHeld(db, r);
    case FailPrepared(r) => FailPreparedRunHeld(db, r);
    case CancelRunTasks(r) => CancelRunHeld(db, r);
    case Refresh(r, attested) => RefreshRunHeld(db, r, attested);
    case ReleaseProjects(g) => ReleaseGlobalHeld(db, g);
    case RefreshProjects(g, attested) => RefreshGlobalHeld(db, g, attested);
    case RequestCancel(g) => RequestCancellationHeld(db, g);
    case CancelProjects(g, childrenDone) => CancelGlobalHeld(db, g, childrenDone);
  }

  lemma EventMoved(db: Db, e: Event)
    requires Good(db) && !e.Create?
    ensures Moved(db, Apply(db, e).db)
    ensures TaskEvent(e) || SteadyDb(db, Apply(db, e).db)
    ensures e.RewriteHandoff? || RegularStep(db, Apply(db, e).db)
  {
    if e.RewriteHandoff? { HandoffRewriteHeld(db, e.dep, e.handoff); }
    else if QuietEvent(e) { QuietEventHeld(db, e); }
    else if TaskEvent(e) { TaskEventHeld(db, e); TaskEventRegular(db, e); }
    else { RunEventHeld(db, e); }
  }

  lemma CreateKeepsGood(db: Db, b: Batch)
    requires Good(db)
    ensures Good(CreateGraph(db, b).db) && Later(db, CreateGraph(db, b).db)
  {
    if Admissible(b) && Apart(db, b) {
      JoinedLater(db, b);
      JoinedWired(db, b);
      JoinedInv(db, b);
      JoinedIdle(db, b);
    } else {
      LaterReflexive(db);
    }
  }

  lemma CreateRegular(db: Db, b: Batch)
    ensures RegularStep(db, CreateGraph(db, b).db)
  {
    if Regular(db) && Admissible(b) && Apart(db, b) {
      var c := Joined(db, b);
      forall d | d in c.xdeps ensures DepRegular(c, d) {
        if d in db.xdeps && d !in b.xdeps { assert DepRegular(db, d); }
      }
    }
  }

  /** Every event, from every good state, reaches a good state that undoes nothing. */
  lemma EventKeepsGood(db: Db, e: Event)
    requires Good(db)
    ensures Good(Apply(db, e).db) && Later(db, Apply(db, e).db)
  {
    if e.Create? { CreateKeepsGood(db, e.batch); } else {
      EventMoved(db, e);
      MovedGood(db, Apply(db, e).db);
    }
  }

  // ---------- Whole histories ----------

  /** Every state any history reaches is good. */
  lemma {:induction false} ReachableGood(es: seq<Event>)
    ensures Good(Replay(es))
  {
    if es != [] {
      ReachableGood(es[..|es| - 1]);
      EventKeepsGood(Replay(es[..|es| - 1]), es[|es| - 1]);
      ReplayStep(es);
    }
  }

  /** Handoffs stay regular as long as nobody rewrites one. */
  lemma {:induction false} ReachableRegular(es: seq<Event>)
    requires forall i :: 0 <= i < |es| ==> !es[i].RewriteHandoff?
    ensures Regular(Replay(es))
  {
    if es != [] {
      var a, e := Replay(es[..|es| - 1]), es[|es| - 1];
      ReachableRegular(es[..|es| - 1]);
      ReachableGood(es[..|es| - 1]);
      if e.Create? { CreateRegular(a, e.batch); } else { EventMoved(a, e); }
      ReplayStep(es);
    }
  }

  /** Nothing a longer history adds undoes what `Later` protects. */
  lemma {:induction false} HistoryLater(es: seq<Event>, n: nat)
    requires n <= |es|
    ensures Later(Replay(es[..n]), Replay(es))
  {
    if n == |es| {
      assert es[..n] == es;
      LaterReflexive(Replay(es));
    } else {
      var before := es[..|es| - 1];
      assert before[..n] == es[..n];
      HistoryLater(before, n);
      ReachableGood(before);
      EventKeepsGood(Replay(before), es[|es| - 1]);
      ReplayStep(es);
      LaterTransitive(Replay(es[..n]), Replay(before), Replay(es));
    }
  }
}
