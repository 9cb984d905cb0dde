/** What every registry call keeps, and what no call ever undoes. */
module RegistryInvariant {
  import opened DomainStates
  import opened TaskRows
  import opened Handoffs
  import opened RegistrySteps

  predicate InRun(db: Db, id: TaskId, r: RunId) { id in db.tasks && db.tasks[id].runId == r }

  /** `d` is one of the Global Run's dependencies and ends at `r`. */
  predicate ConsumesIn(db: Db, g: Global, d: DepId, r: RunId) {
    d in g.deps && d in db.xdeps && db.xdeps[d].consumer == r
  }

  // ---------- Wiring: fixed when a graph is created ----------

  ghost predicate TaskPlaced(db: Db, t: Task) {
    && t.runId in db.runs && t.gate == db.runs[t.runId].gate
    && forall d :: d in t.dependsOn ==> d in db.tasks && db.tasks[d].runId == t.runId
  }

  ghost predicate GateAs(gate: Gate, g: Global, r: RunId) {
    r in g.manifests
    && gate.revision == g.revision && gate.graph == g.graph && gate.authorization == g.authorization
    && gate.manifest == g.manifests[r]
  }

  /** The statuses a graph's run can have: it starts preparing and is then set running. */
  predicate Opened(s: RunStatus) { s.RunPreparing? || s.RunRunning? || RunTerminal(s) }

  ghost predicate RunWired(db: Db, r: RunId, run: Run) {
    && Opened(run.status)
    && (exists id :: id in db.tasks && db.tasks[id].runId == r)
    && (exists rank :: TaskRank(rank, db.tasks, r))
    && (run.gate.Some? ==>
          && run.gate.value.global in db.globals
          && r in db.globals[run.gate.value.global].members
          && GateAs(run.gate.value, db.globals[run.gate.value.global], r))
  }

  ghost predicate GlobalWired(db: Db, g: GlobalId, row: Global) {
    && row.revisionValid
    && (forall r :: r in row.members ==> r in db.runs && db.runs[r].gate.Some? && db.runs[r].gate.value.global == g)
    && (forall d :: d in row.deps ==> d in db.xdeps && db.xdeps[d].global == g)
    && Ranked(row.deps, db.xdeps)
  }

  ghost predicate DepWired(db: Db, d: DepId, dep: XDep) {
    && dep.global in db.globals
    && d in db.globals[dep.global].deps
    && dep.producer in db.globals[dep.global].members && dep.consumer in db.globals[dep.global].members
  }

  ghost predicate TasksPlaced(db: Db) { forall id :: id in db.tasks ==> TaskPlaced(db, db.tasks[id]) }
  ghost predicate RunsWired(db: Db) { forall r :: r in db.runs ==> RunWired(db, r, db.runs[r]) }
  ghost predicate GlobalsWired(db: Db) { forall g :: g in db.globals ==> GlobalWired(db, g, db.globals[g]) }
  ghost predicate DepsWired(db: Db) { forall d :: d in db.xdeps ==> DepWired(db, d, db.xdeps[d]) }

  ghost predicate Wired(db: Db) { TasksPlaced(db) && RunsWired(db) && GlobalsWired(db) && DepsWired(db) }

  // ---------- The invariant proper ----------

  ghost predicate NoRepeats(s: seq<Feedback>) { forall i, j :: 0 <= i < j < |s| ==> s[i] != s[j] }

  ghost predicate RowOk(t: Task, issued: Token) {
    && (Owned(t.status) ==> t.attempt >= 1 && t.workerId.Some? && t.claimToken.Some?)
    && (t.claimToken.Some? ==> t.claimToken.value < issued)
    && (Achieved(t.status) ==> t.attempt >= 1)
    && (t.status.Skipped? ==> t.policy.OnFailure?)
    && (t.status.Staged? || t.status.Blocked? || t.status.Queued? ==> t.nextRetryAt.None?)
    && !t.status.UpgradePending? && !t.status.ApprovalWaiting?
    && ContractCurrent(t.contract)
    && t.feedbackRevision == |t.feedback| && NoRepeats(t.feedback)
  }

  /** The task has left, or once left, the waiting room of its dependencies. */
  predicate PastDependencies(t: Task) { t.attempt >= 1 || Active(t.status) || Claimable(t.status) }

  ghost predicate DependenciesHeld(db: Db, t: Task) {
    PastDependencies(t) && t.policy.AllSuccess? ==> AllDependenciesAchieved(db, t)
  }

  ghost predicate ProducerCompleted(db: Db, dep: XDep) {
    dep.producer in db.runs && db.runs[dep.producer].status.RunCompleted?
  }

  ghost predicate InboundAchieved(db: Db, r: RunId) {
    forall d :: d in db.xdeps && db.xdeps[d].consumer == r && db.xdeps[d].condition.IfAllSuccess? ==>
      ProducerCompleted(db, db.xdeps[d])
  }

  /** What a task row has to satisfy in the tables `db`. */
  ghost predicate RowFits(db: Db, t: Task, issued: Token) {
    && RowOk(t, issued)
    && DependenciesHeld(db, t)
    && (t.attempt >= 1 ==> InboundAchieved(db, t.runId))
  }

  ghost predicate RowsFit(db: Db, tasks: map<TaskId, Task>, issued: Token) {
    forall id :: id in tasks ==> RowFits(db, tasks[id], issued)
  }

  ghost predicate AllSuccessful(db: Db, r: RunId) {
    forall id :: id in db.tasks && db.tasks[id].runId == r ==> Successful(db.tasks[id].status)
  }

  ghost predicate CompletedSucceeded(db: Db) {
    forall r :: r in db.runs && db.runs[r].status.RunCompleted? ==> AllSuccessful(db, r)
  }

  ghost predicate DepFits(db: Db, dep: XDep) {
    && (dep.status.DepSatisfied? && dep.condition.IfAllSuccess? ==> ProducerCompleted(db, dep))
    && (dep.status.DepSkipped? ==> dep.condition.IfFailure? && ProducerCompleted(db, dep))
  }

  ghost predicate DepsFit(db: Db, xdeps: map<DepId, XDep>) { forall d :: d in xdeps ==> DepFits(db, xdeps[d]) }

  ghost predicate Inv(db: Db) {
    RowsFit(db, db.tasks, db.nextToken) && CompletedSucceeded(db) && DepsFit(db, db.xdeps)
  }

  // ---------- Two states ----------

  predicate RowLater(t: Task, t': Task) {
    && t'.runId == t.runId && t'.policy == t.policy && t'.dependsOn == t.dependsOn && t'.gate == t.gate
    && t'.retryDelay == t.retryDelay && t'.timeout == t.timeout
    && t'.maxAttempts >= t.maxAttempts && t'.version >= t.version
    && (Successful(t.status) ==> t'.status == t.status)
    && (t.waitingSince.Some? ==> t'.waitingSince == t.waitingSince)
  }

  predicate RunLater(r: Run, r': Run) {
    r'.gate == r.gate && (r.status.RunCompleted? ==> r'.status.RunCompleted?)
    && (Opened(r.status) ==> Opened(r'.status)) && (r'.status.RunPreparing? ==> r.status.RunPreparing?)
  }

  predicate GlobalLater(g: Global, g': Global) {
    g' == g.(status := g'.status, cancelRequested := g'.cancelRequested)
    && (g.cancelRequested ==> g'.cancelRequested)
    && (GlobalTerminal(g.status) ==> g'.status == g.status)
  }

  /** A decision is final, except that what was satisfied may turn out not to be. */
  predicate DepLater(d: XDep, d': XDep) {
    d' == d.(status := d'.status)
    && (d'.status == d.status || d.status.DepPending? || (d.status.DepSatisfied? && d'.status.DepFailed?))
  }

  ghost predicate TasksLater(a: Db, b: Db) {
    forall id :: id in a.tasks ==> id in b.tasks && RowLater(a.tasks[id], b.tasks[id])
  }

  ghost predicate RunsLater(a: Db, b: Db) { forall r :: r in a.runs ==> r in b.runs && RunLater(a.runs[r], b.runs[r]) }
  ghost predicate GlobalsLater(a: Db, b: Db) {
    forall g :: g in a.globals ==> g in b.globals && GlobalLater(a.globals[g], b.globals[g])
  }

  ghost predicate DepsLater(a: Db, b: Db) {
    forall d :: d in a.xdeps ==> d in b.xdeps && DepLater(a.xdeps[d], b.xdeps[d])
  }

  /** What no later state undoes. */
  ghost predicate Later(a: Db, b: Db) {
    a.clock <= b.clock && a.nextToken <= b.nextToken
    && TasksLater(a, b) && RunsLater(a, b) && GlobalsLater(a, b) && DepsLater(a, b)
  }

  lemma LaterReflexive(a: Db)
    ensures Later(a, a)
  {
  }

  lemma LaterTransitive(a: Db, b: Db, c: Db)
    requires Later(a, b) && Later(b, c)
    ensures Later(a, c)
  {
  }

  ghost predicate SameKeys(a: Db, b: Db) {
    a.tasks.Keys == b.tasks.Keys && a.runs.Keys == b.runs.Keys && a.globals.Keys == b.globals.Keys
    && a.xdeps.Keys == b.xdeps.Keys
  }

  // ---------- Carrying the wiring ----------

  lemma RankCarries(a: Db, b: Db, r: RunId, rank: map<TaskId, nat>)
    requires TasksLater(a, b) && a.tasks.Keys == b.tasks.Keys && TaskRank(rank, a.tasks, r)
    ensures TaskRank(rank, b.tasks, r)
  {
    forall id | id in b.tasks && b.tasks[id].runId == r
      ensures id in rank && RanksBelow(rank, b.tasks[id].dependsOn, rank[id])
    {
      assert RowLater(a.tasks[id], b.tasks[id]);
    }
  }

  lemma RunWiredCarries(a: Db, b: Db, r: RunId)
    requires Later(a, b) && SameKeys(a, b) && r in a.runs && RunWired(a, r, a.runs[r])
    ensures RunWired(b, r, b.runs[r])
  {
    assert RunLater(a.runs[r], b.runs[r]);
    var id :| id in a.tasks && a.tasks[id].runId == r;
    assert RowLater(a.tasks[id], b.tasks[id]);
    var rank :| TaskRank(rank, a.tasks, r);
    RankCarries(a, b, r, rank);
    if a.runs[r].gate.Some? {
      assert GlobalLater(a.globals[a.runs[r].gate.value.global], b.globals[a.runs[r].gate.value.global]);
    }
  }

  lemma GlobalWiredCarries(a: Db, b: Db, g: GlobalId)
    requires Later(a, b) && SameKeys(a, b) && g in a.globals && GlobalWired(a, g, a.globals[g])
    ensures GlobalWired(b, g, b.globals[g])
  {
    assert GlobalLater(a.globals[g], b.globals[g]);
    forall r | r in b.globals[g].members ensures r in b.runs && b.runs[r].gate == a.runs[r].gate {
      assert RunLater(a.runs[r], b.runs[r]);
    }
    var rank :| RunRank(rank, a.globals[g].deps, a.xdeps);
    forall d | d in b.globals[g].deps
      ensures d in b.xdeps && b.xdeps[d].global == g && b.xdeps[d].producer in rank && b.xdeps[d].consumer in rank
        && rank[b.xdeps[d].producer] < rank[b.xdeps[d].consumer]
    {
      assert DepLater(a.xdeps[d], b.xdeps[d]);
    }
    assert RunRank(rank, b.globals[g].deps, b.xdeps);
  }

  lemma TasksPlacedCarries(a: Db, b: Db)
    requires Later(a, b) && SameKeys(a, b) && TasksPlaced(a)
    ensures TasksPlaced(b)
  {
    forall id | id in b.tasks ensures TaskPlaced(b, b.tasks[id]) {
      var t := a.tasks[id];
      assert TaskPlaced(a, t) && RowLater(t, b.tasks[id]) && RunLater(a.runs[t.runId], b.runs[t.runId]);
      forall d | d in t.dependsOn ensures d in b.tasks && b.tasks[d].runId == t.runId {
        assert RowLater(a.tasks[d], b.tasks[d]);
      }
    }
  }

  /** Wiring never changes under a call that adds no rows. */
  lemma WiredCarries(a: Db, b: Db)
    requires Wired(a) && Later(a, b) && SameKeys(a, b)
    ensures Wired(b)
  {
    TasksPlacedCarries(a, b);
    forall r | r in b.runs ensures RunWired(b, r, b.runs[r]) { RunWiredCarries(a, b, r); }
    forall g | g in b.globals ensures GlobalWired(b, g, b.globals[g]) { GlobalWiredCarries(a, b, g); }
    forall d | d in b.xdeps ensures DepWired(b, d, b.xdeps[d]) { DepWiredCarries(a, b, d); }
  }

  lemma DepWiredCarries(a: Db, b: Db, d: DepId)
    requires DepsWired(a) && Later(a, b) && SameKeys(a, b) && d in b.xdeps
    ensures DepWired(b, d, b.xdeps[d])
  {
    assert DepLater(a.xdeps[d], b.xdeps[d]) && DepWired(a, d, a.xdeps[d]);
    assert GlobalLater(a.globals[a.xdeps[d].global], b.globals[a.xdeps[d].global]);
  }

  // ---------- Carrying the invariant across a write ----------

  lemma AchievedCarries(a: Db, b: Db, t: Task)
    requires TasksLater(a, b) && a.tasks.Keys == b.tasks.Keys && AllDependenciesAchieved(a, t)
    ensures AllDependenciesAchieved(b, t)
  {
    forall d | d in t.dependsOn && d in b.tasks ensures Achieved(b.tasks[d].status) {
      assert RowLater(a.tasks[d], b.tasks[d]);
    }
  }

  lemma InboundCarries(a: Db, b: Db, r: RunId)
    requires RunsLater(a, b) && DepsLater(a, b) && a.xdeps.Keys == b.xdeps.Keys && InboundAchieved(a, r)
    ensures InboundAchieved(b, r)
  {
    forall d | d in b.xdeps && b.xdeps[d].consumer == r && b.xdeps[d].condition.IfAllSuccess?
      ensures ProducerCompleted(b, b.xdeps[d])
    {
      assert DepLater(a.xdeps[d], b.xdeps[d]) && ProducerCompleted(a, a.xdeps[d]);
      assert RunLater(a.runs[a.xdeps[d].producer], b.runs[a.xdeps[d].producer]);
    }
  }

  lemma RowFitsCarries(a: Db, b: Db, t: Task, issued: Token)
    requires Later(a, b) && SameKeys(a, b) && RowFits(a, t, issued)
    ensures RowFits(b, t, issued)
  {
    if PastDependencies(t) && t.policy.AllSuccess? { AchievedCarries(a, b, t); }
    if t.attempt >= 1 { InboundCarries(a, b, t.runId); }
  }

  lemma SuccessCarries(a: Db, b: Db, r: RunId)
    requires TasksLater(a, b) && a.tasks.Keys == b.tasks.Keys && AllSuccessful(a, r)
    ensures AllSuccessful(b, r)
  {
    forall id | id in b.tasks && b.tasks[id].runId == r ensures Successful(b.tasks[id].status) {
      assert RowLater(a.tasks[id], b.tasks[id]);
    }
  }

  ghost predicate RunsFit(a: Db, b: Db) {
    forall r :: r in b.runs && b.runs[r].status.RunCompleted? ==>
      (r in a.runs && a.runs[r].status.RunCompleted?) || AllSuccessful(b, r)
  }

  lemma DepsFitCarries(a: Db, b: Db, xdeps: map<DepId, XDep>)
    requires RunsLater(a, b) && DepsFit(a, xdeps)
    ensures DepsFit(b, xdeps)
  {
    forall d | d in xdeps ensures DepFits(b, xdeps[d]) {
      assert DepFits(a, xdeps[d]);
      if xdeps[d].producer in a.runs { assert RunLater(a.runs[xdeps[d].producer], b.runs[xdeps[d].producer]); }
    }
  }

  lemma InvCarries(a: Db, b: Db)
    requires Inv(a) && Later(a, b) && SameKeys(a, b)
    requires RowsFit(a, b.tasks, b.nextToken) && RunsFit(a, b) && DepsFit(a, b.xdeps)
    ensures Inv(b)
  {
    forall id | id in b.tasks ensures RowFits(b, b.tasks[id], b.nextToken) {
      RowFitsCarries(a, b, b.tasks[id], b.nextToken);
    }
    forall r | r in b.runs && b.runs[r].status.RunCompleted? ensures AllSuccessful(b, r) {
      if r in a.runs && a.runs[r].status.RunCompleted? { SuccessCarries(a, b, r); }
    }
    DepsFitCarries(a, b, b.xdeps);
  }

  // ---------- Elementary writes ----------

  ghost predicate Kept(a: Db, b: Db) { Inv(b) && Later(a, b) && SameKeys(a, b) }

  lemma KeptReflexive(a: Db)
    requires Inv(a)
    ensures Kept(a, a)
  {
  }

  lemma KeptTransitive(a: Db, b: Db, c: Db)
    requires Kept(a, b) && Kept(b, c)
    ensures Kept(a, c)
  {
    LaterTransitive(a, b, c);
  }

  lemma TasksRewrite(a: Db, tasks: map<TaskId, Task>, issued: Token)
    requires Inv(a) && tasks.Keys == a.tasks.Keys && a.nextToken <= issued
    requires forall id :: id in tasks ==> RowLater(a.tasks[id], tasks[id])
    requires RowsFit(a, tasks, issued)
    ensures Kept(a, a.(tasks := tasks, nextToken := issued))
  {
    InvCarries(a, a.(tasks := tasks, nextToken := issued));
  }

  lemma TaskRewrite(a: Db, id: TaskId, t': Task, issued: Token)
    requires Inv(a) && id in a.tasks && RowLater(a.tasks[id], t') && RowFits(a, t', issued) && a.nextToken <= issued
    ensures Kept(a, a.(tasks := a.tasks[id := t'], nextToken := issued))
  {
    var tasks := a.tasks[id := t'];
    forall i | i in tasks ensures RowFits(a, tasks[i], issued) {
      if i != id { assert RowFits(a, a.tasks[i], a.nextToken); }
    }
    assert tasks.Keys == a.tasks.Keys;
    TasksRewrite(a, tasks, issued);
  }

  lemma RunWritten(a: Db, r: RunId, s: RunStatus)
    requires Inv(a) && r in a.runs && (s.RunCompleted? ==> AllSuccessful(a, r))
    requires (a.runs[r].status.RunCompleted? ==> s.RunCompleted?) && Opened(s) && !s.RunPreparing?
    ensures Kept(a, a.(runs := a.runs[r := a.runs[r].(status := s)]))
  {
    var b := a.(runs := a.runs[r := a.runs[r].(status := s)]);
    if AllSuccessful(a, r) { SuccessCarries(a, b, r); }
    InvCarries(a, b);
  }

  lemma RunWrite(a: Db, r: RunId, s: RunStatus, allowRepair: bool)
    requires Inv(a)
    requires (s.RunCompleted? ==> AllSuccessful(a, r)) && Opened(s) && !s.RunPreparing?
    requires allowRepair && r in a.runs ==> !a.runs[r].status.RunCompleted?
    ensures Kept(a, SetRun(a, r, s, allowRepair).db)
  {
    if SetRun(a, r, s, allowRepair).ok { RunWritten(a, r, s); } else { KeptReflexive(a); }
  }

  lemma DepWrite(a: Db, d: DepId, dep: XDep, handoffs: map<DepId, Handoff>)
    requires Inv(a) && d in a.xdeps && DepLater(a.xdeps[d], dep) && DepFits(a, dep)
    ensures Kept(a, a.(xdeps := a.xdeps[d := dep], handoffs := handoffs))
  {
    InvCarries(a, a.(xdeps := a.xdeps[d := dep], handoffs := handoffs));
  }

  lemma GlobalWrite(a: Db, g: GlobalId, row: Global)
    requires Inv(a) && g in a.globals && GlobalLater(a.globals[g], row)
    ensures Kept(a, a.(globals := a.globals[g := row]))
  {
    InvCarries(a, a.(globals := a.globals[g := row]));
  }

  lemma ClockWrite(a: Db, clock: int)
    requires Inv(a) && a.clock <= clock
    ensures Kept(a, a.(clock := clock))
  {
    InvCarries(a, a.(clock := clock));
  }
}
