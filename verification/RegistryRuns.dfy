/** What the calls on whole runs and Global Runs do, told in the columns of the tables: when each
    succeeds, which rows it changes and to what, and that it leaves every other row alone. */
module RegistryRuns {
  import opened DomainStates
  import opened TaskRows
  import opened Handoffs
  import opened RegistrySteps
  import opened RegistryInvariant

  /** The statuses in which a run, and a Global Run, is over. */
  const RUN_ENDED: set<RunStatus> := {RunCompleted, RunFailed, RunCancelled}
  const GLOBAL_ENDED: set<GlobalStatus> := {GlobalCompleted, GlobalFailed, GlobalCancelled, GlobalAttention}

  /** These tables and no others. */
  predicate OnlyRuns(a: Db, b: Db) { b == a.(tasks := b.tasks, runs := b.runs) }

  predicate SetTo(a: map<RunId, Run>, b: map<RunId, Run>, r: RunId, s: RunStatus) {
    r in a && b == a[r := Run(s, a[r].gate)]
  }

  function Listed(rs: seq<RunId>): set<RunId> { set r | r in rs }

  lemma ListedRest(rs: seq<RunId>)
    requires rs != []
    ensures {rs[0]} + Listed(rs[1..]) == Listed(rs)
  {
    assert rs == [rs[0]] + rs[1..];
  }

  // ---------- Cancelling and failing a run ----------

  /** Every task of the run that was not over ends with this status, in nobody's hands. */
  predicate EndedWith(a: map<TaskId, Task>, b: map<TaskId, Task>, r: RunId, s: TaskStatus) {
    b.Keys == a.Keys
    && forall id :: id in a ==>
      if a[id].runId == r && a[id].status !in ENDED then LetGo(a[id], b[id], s, None) else b[id] == a[id]
  }

  lemma CanceledRows(tasks: map<TaskId, Task>, r: RunId)
    ensures EndedWith(tasks, map id | id in tasks :: CanceledIn(tasks[id], r), r, Canceled)
  {
  }

  lemma CancelRunMeans(db: Db, r: RunId)
    ensures var o := CancelRun(db, r);
      && (o.ok <==> r in db.runs && db.runs[r].status !in {RunCompleted, RunFailed})
      && OnlyRuns(db, o.db) && (if o.ok then SetTo(db.runs, o.db.runs, r, RunCancelled) else o.db.runs == db.runs)
      && (if r in db.runs then EndedWith(db.tasks, o.db.tasks, r, Canceled) else o.db.tasks == db.tasks)
  {
    CanceledRows(db.tasks, r);
  }

  /** A task of the run that is not over was claimed, or is in somebody's hands. */
  ghost predicate WorkBegun(db: Db, r: RunId) {
    exists id :: id in db.tasks && db.tasks[id].runId == r && db.tasks[id].status !in ENDED
      && (db.tasks[id].attempt > 0 || db.tasks[id].workerId.Some? || db.tasks[id].claimToken.Some?)
  }

  /** The run is in preparation, and none of its work has begun. */
  ghost predicate MayFail(db: Db, r: RunId) {
    r in db.runs && db.runs[r].status in {RunPreparing, RunAgentsPrepared, RunAwaitingStart} && !WorkBegun(db, r)
  }

  lemma FailedRows(tasks: map<TaskId, Task>, r: RunId)
    ensures EndedWith(tasks, map id | id in tasks :: FailedIn(tasks[id], r), r, Failed)
  {
  }

  lemma FailPreparedMeans(db: Db, r: RunId)
    ensures var o := FailPreparedRun(db, r);
      && (o.ok <==> MayFail(db, r) || (r in db.runs && db.runs[r].status in RUN_ENDED))
      && (if MayFail(db, r) then
            OnlyRuns(db, o.db) && SetTo(db.runs, o.db.runs, r, RunFailed) && EndedWith(db.tasks, o.db.tasks, r, Failed)
          else o.db == db)
  {
    FailedRows(db.tasks, r);
    assert AnyBegun(db, r) <==> WorkBegun(db, r);
  }

  // ---------- Releasing a run ----------

  /** The gate names the revision, graph, authorisation and manifest that the Global Run has, and
      no cancellation was requested. */
  predicate GateStands(db: Db, gate: Gate, r: RunId) {
    gate.global in db.globals
    && var g := db.globals[gate.global];
    && g.revisionValid && !g.cancelRequested && g.revision == gate.revision && g.graph == gate.graph
    && g.authorization == gate.authorization && r in g.manifests && g.manifests[r] == gate.manifest
  }

  /** The handoff of a satisfied dependency is received, for this dependency, and no copy of a hash
      differs from its original. */
  predicate Received(db: Db, d: DepId) {
    d in db.xdeps && db.xdeps[d].status.DepSatisfied? && d in db.handoffs
    && var h := db.handoffs[d];
    && h.status.Received? && h.receipt.Some? && h.dependencyFingerprint == db.xdeps[d].fingerprint
    && h.seenFingerprint in {None, Some(h.fingerprint)} && h.seenContent in {None, Some(h.contentHash)}
    && h.seenReceipt in {None, h.receipt}
  }

  ghost predicate MayRelease(db: Db, r: RunId) {
    r in db.runs && db.runs[r].status !in RUN_ENDED + {RunAccepted, RunPlanning}
    && (db.runs[r].gate.Some? ==>
          && GateStands(db, db.runs[r].gate.value, r)
          && forall d :: ConsumesIn(db, db.globals[db.runs[r].gate.value.global], d, r) ==> Received(db, d))
  }

  /** Staged tasks of these runs are queued, or blocked if they depend on others. */
  predicate Unstaged(a: map<TaskId, Task>, b: map<TaskId, Task>, rs: set<RunId>) {
    b.Keys == a.Keys
    && forall id :: id in a ==>
      b[id] == if a[id].runId in rs && a[id].status.Staged?
        then a[id].(status := if a[id].dependsOn == {} then Queued else Blocked, version := a[id].version + 1)
        else a[id]
  }

  predicate AllSetTo(a: map<RunId, Run>, b: map<RunId, Run>, rs: set<RunId>, s: RunStatus) {
    b.Keys == a.Keys && forall r :: r in a ==> b[r] == if r in rs then Run(s, a[r].gate) else a[r]
  }

  lemma ReleasableMeans(db: Db, r: RunId)
    ensures Releasable(db, r) && RunMayBecome(db.runs[r].status, RunRunning, false) <==> MayRelease(db, r)
  {
    forall d | d in db.xdeps ensures Deliverable(db.xdeps[d], HandoffOf(db, d)) <==> Received(db, d) { }
    if r in db.runs && db.runs[r].gate.Some? && db.runs[r].gate.value.global in db.globals {
      var g := db.globals[db.runs[r].gate.value.global];
      assert InboundDeliverable(db, g, r) <==> forall d :: ConsumesIn(db, g, d, r) ==> Received(db, d);
    }
  }

  lemma ReleaseRunMeans(db: Db, r: RunId)
    ensures var o := ReleaseRun(db, r);
      && (o.ok <==> MayRelease(db, r)) && OnlyRuns(db, o.db)
      && (o.ok ==> AllSetTo(db.runs, o.db.runs, {r}, RunRunning) && Unstaged(db.tasks, o.db.tasks, {r}))
      && (!o.ok ==> o.db.runs == db.runs)
  {
    ReleasableMeans(db, r);
  }

  // ---------- Releasing a Global Run ----------

  ghost predicate Root(db: Db, g: Global, r: RunId) { r in g.members && !exists d :: ConsumesIn(db, g, d, r) }

  lemma {:induction false} RootsMean(db: Db, g: Global, rs: seq<RunId>, r: RunId)
    ensures r in Roots(db, g, rs) <==> r in rs && !exists d :: ConsumesIn(db, g, d, r)
  {
    if rs != [] {
      RootsMean(db, g, rs[1..], r);
      var ds := Inbound(db, g.deps, rs[0]);
      if d :| ConsumesIn(db, g, d, rs[0]) { assert d in ds; }
      if ds != [] { assert ds[0] in ds && ConsumesIn(db, g, ds[0], rs[0]); }
    }
  }

  /** What a release leaves to another one. */
  ghost predicate Releasing(a: Db, b: Db, rs: set<RunId>) {
    OnlyRuns(a, b) && AllSetTo(a.runs, b.runs, rs, RunRunning) && Unstaged(a.tasks, b.tasks, rs)
  }

  lemma ReleasingStep(a: Db, b: Db, c: Db, r: RunId, rs: set<RunId>)
    requires Releasing(a, b, {r}) && Releasing(b, c, rs)
    ensures Releasing(a, c, {r} + rs)
  {
  }

  lemma StillMayRelease(a: Db, b: Db, r: RunId, q: RunId)
    requires Releasing(a, b, {r}) && MayRelease(a, r)
    ensures MayRelease(b, q) <==> MayRelease(a, q)
  {
    assert forall d :: Received(b, d) <==> Received(a, d);
    assert forall g, d :: ConsumesIn(b, g, d, q) <==> ConsumesIn(a, g, d, q);
    if q in a.runs && a.runs[q].gate.Some? {
      assert GateStands(b, a.runs[q].gate.value, q) <==> GateStands(a, a.runs[q].gate.value, q);
    }
  }

  /** The released come to these runs, if all of them may be released. */
  ghost predicate ReleasedAll(db: Db, o: Outcome, rs: seq<RunId>) {
    && (o.ok <==> forall r :: r in rs ==> MayRelease(db, r))
    && (o.ok ==> Releasing(db, o.db, Listed(rs)))
  }

  lemma FirstReleased(db: Db, b: Db, o: Outcome, rs: seq<RunId>)
    requires rs != [] && MayRelease(db, rs[0]) && Releasing(db, b, {rs[0]}) && ReleasedAll(b, o, rs[1..])
    ensures ReleasedAll(db, o, rs)
  {
    forall r ensures MayRelease(b, r) <==> MayRelease(db, r) { StillMayRelease(db, b, rs[0], r); }
    assert rs == [rs[0]] + rs[1..];
    if o.ok {
      ReleasingStep(db, b, o.db, rs[0], Listed(rs[1..]));
      ListedRest(rs);
    }
  }

  lemma NoneReleased(db: Db)
    ensures ReleasedAll(db, Outcome(db, true), [])
  {
  }

  lemma {:induction false} ReleaseAllMeans(db: Db, rs: seq<RunId>)
    ensures ReleasedAll(db, ReleaseAll(db, rs), rs)
    decreases |rs|
  {
    if rs == [] { NoneReleased(db); } else {
      var first := ReleaseRun(db, rs[0]);
      ReleaseRunMeans(db, rs[0]);
      if first.ok {
        ReleaseAllMeans(first.db, rs[1..]);
        FirstReleased(db, first.db, ReleaseAll(first.db, rs[1..]), rs);
      }
    }
  }

  /** Can the Global Run be released, and is it waiting for that? */
  ghost predicate MayReleaseGlobal(db: Db, g: GlobalId) {
    g in db.globals && db.globals[g].revisionValid && !db.globals[g].cancelRequested
    && db.globals[g].status in {GlobalPreparing, GlobalWaiting}
    && forall r :: Root(db, db.globals[g], r) ==> MayRelease(db, r)
  }

  /** Released before, and not cancelled since. */
  predicate NoReleaseDue(db: Db, g: GlobalId) {
    g in db.globals && db.globals[g].revisionValid && !db.globals[g].cancelRequested
    && db.globals[g].status !in {GlobalPreparing, GlobalWaiting}
  }

  /** Every root project runs with its tasks queued or blocked, the Global Run runs, and nothing else
      is touched. */
  ghost predicate GlobalReleased(a: Db, b: Db, g: GlobalId)
    requires g in a.globals
  {
    var roots := set r | r in a.globals[g].members && Root(a, a.globals[g], r);
    && b == a.(tasks := b.tasks, runs := b.runs, globals := a.globals[g := a.globals[g].(status := GlobalRunning)])
    && AllSetTo(a.runs, b.runs, roots, RunRunning) && Unstaged(a.tasks, b.tasks, roots)
  }

  lemma ReleaseGlobalMeans(db: Db, g: GlobalId)
    ensures var o := ReleaseGlobal(db, g);
      && (o.ok <==> MayReleaseGlobal(db, g) || NoReleaseDue(db, g))
      && (o.ok ==> if MayReleaseGlobal(db, g) then GlobalReleased(db, o.db, g) else o.db == db)
  {
    if g in db.globals && db.globals[g].status in {GlobalPreparing, GlobalWaiting} {
      var row := db.globals[g];
      var rs := Roots(db, row, row.members);
      forall r ensures r in rs <==> Root(db, row, r) { RootsMean(db, row, row.members, r); }
      ReleaseAllMeans(db, rs);
      assert Listed(rs) == set r | r in row.members && Root(db, row, r);
    }
  }

  // ---------- Cancelling a Global Run ----------

  /** Of these runs, those that were not over are cancelled, each with its tasks. */
  predicate Cancelling(a: Db, b: Db, rs: set<RunId>) {
    && OnlyRuns(a, b) && b.tasks.Keys == a.tasks.Keys && b.runs.Keys == a.runs.Keys
    && (forall r :: r in a.runs ==>
      b.runs[r] == if r in rs && a.runs[r].status !in RUN_ENDED then Run(RunCancelled, a.runs[r].gate) else a.runs[r])
    && (forall id :: id in a.tasks ==> CancelledTask(a, rs, a.tasks[id], b.tasks[id]))
  }

  predicate CancelledTask(a: Db, rs: set<RunId>, t: Task, t': Task) {
    if t.runId in rs && t.runId in a.runs && a.runs[t.runId].status !in RUN_ENDED && t.status !in ENDED
    then LetGo(t, t', Canceled, None) else t' == t
  }

  lemma CancellingOne(db: Db, r: RunId)
    requires r in db.runs && db.runs[r].status !in RUN_ENDED
    ensures CancelRun(db, r).ok && Cancelling(db, CancelRun(db, r).db, {r})
  {
    CancelRunMeans(db, r);
  }

  lemma CancellingStep(a: Db, b: Db, c: Db, r: RunId, rs: set<RunId>)
    requires Cancelling(a, b, {r}) && Cancelling(b, c, rs)
    ensures Cancelling(a, c, {r} + rs)
  {
    forall id | id in a.tasks ensures CancelledTask(a, {r} + rs, a.tasks[id], c.tasks[id]) {
      assert CancelledTask(a, {r}, a.tasks[id], b.tasks[id]) && CancelledTask(b, rs, b.tasks[id], c.tasks[id]);
    }
  }

  lemma CancellingNone(db: Db, r: RunId)
    requires r in db.runs ==> db.runs[r].status in RUN_ENDED
    ensures Cancelling(db, db, {r})
  {
  }

  lemma FirstCancelled(a: Db, b: Db, c: Db, rs: seq<RunId>)
    requires rs != [] && Cancelling(a, b, {rs[0]}) && Cancelling(b, c, Listed(rs[1..]))
    ensures Cancelling(a, c, Listed(rs))
  {
    CancellingStep(a, b, c, rs[0], Listed(rs[1..]));
    ListedRest(rs);
  }

  lemma {:induction false} CancelMembersMeans(db: Db, rs: seq<RunId>)
    ensures CancelMembers(db, rs).ok && Cancelling(db, CancelMembers(db, rs).db, Listed(rs))
    decreases |rs|
  {
    if rs == [] { CancellingNobody(db); } else {
      var due := rs[0] in db.runs && !RunTerminal(db.runs[rs[0]].status);
      var b := if due then CancelRun(db, rs[0]).db else db;
      if due { CancellingOne(db, rs[0]); } else { CancellingNone(db, rs[0]); }
      CancelMembersMeans(b, rs[1..]);
      FirstCancelled(db, b, CancelMembers(b, rs[1..]).db, rs);
    }
  }

  lemma CancellingNobody(db: Db)
    ensures Cancelling(db, db, {})
  {
  }

  /** The Global Run is cancelled, at its own request, and its unended members with it unless that was
      done before; nothing else is touched. */
  predicate GlobalCancelledTo(a: Db, b: Db, g: GlobalId, childrenDone: bool)
    requires g in a.globals
  {
    && b == a.(tasks := b.tasks, runs := b.runs,
               globals := a.globals[g := a.globals[g].(cancelRequested := true, status := GlobalCancelled)])
    && Cancelling(a, a.(tasks := b.tasks, runs := b.runs),
                  if childrenDone then {} else Listed(a.globals[g].members))
  }

  lemma CancellingIn(a: Db, b: Db, g: GlobalId, rs: set<RunId>)
    requires g in a.globals && Cancelling(a.(globals := a.globals[g := a.globals[g].(cancelRequested := true)]), b, rs)
    ensures Cancelling(a, a.(tasks := b.tasks, runs := b.runs), rs)
  {
    var requested := a.(globals := a.globals[g := a.globals[g].(cancelRequested := true)]);
    forall id | id in a.tasks ensures CancelledTask(a, rs, a.tasks[id], b.tasks[id]) {
      assert CancelledTask(requested, rs, a.tasks[id], b.tasks[id]);
    }
  }

  lemma CancelOpenGlobal(db: Db, g: GlobalId, childrenDone: bool)
    requires g in db.globals && db.globals[g].status !in GLOBAL_ENDED
    ensures CancelGlobal(db, g, childrenDone).ok
    ensures GlobalCancelledTo(db, CancelGlobal(db, g, childrenDone).db, g, childrenDone)
  {
    var requested := db.(globals := db.globals[g := db.globals[g].(cancelRequested := true)]);
    if childrenDone {
      CancellingNobody(requested);
      CancellingIn(db, requested, g, {});
    } else {
      var members := db.globals[g].members;
      CancelMembersMeans(requested, members);
      CancellingIn(db, CancelMembers(requested, members).db, g, Listed(members));
    }
  }

  lemma CancelGlobalMeans(db: Db, g: GlobalId, childrenDone: bool)
    ensures var o := CancelGlobal(db, g, childrenDone);
      && (o.ok <==> g in db.globals)
      && (if o.ok && db.globals[g].status !in GLOBAL_ENDED then GlobalCancelledTo(db, o.db, g, childrenDone)
          else o.db == db)
  {
    if g in db.globals && db.globals[g].status !in GLOBAL_ENDED { CancelOpenGlobal(db, g, childrenDone); }
  }

  // ---------- Dependencies and outputs ----------

  /** Every dependency of the task is in one of these statuses. */
  ghost predicate DependenciesIn(db: Db, t: Task, statuses: set<TaskStatus>) {
    forall d :: d in t.dependsOn && d in db.tasks ==> db.tasks[d].status in statuses
  }

  ghost predicate AnyDependencyIn(db: Db, t: Task, statuses: set<TaskStatus>) {
    exists d :: d in t.dependsOn && d in db.tasks && db.tasks[d].status in statuses
  }

  ghost predicate AttestedBy(db: Db, r: RunId, output: Output, attested: Attestations) {
    exists id :: InRun(db, id, r) && db.tasks[id].status in {Completed, CompletedWithWarnings}
      && id in attested && output in attested[id]
  }

  /** There is a handoff already, or each required output is attested by a completed task of the
      producer. */
  ghost predicate OutputsThere(db: Db, d: DepId, attested: Attestations)
    requires d in db.xdeps
  {
    d in db.handoffs
    || forall output :: output in db.xdeps[d].required ==> AttestedBy(db, db.xdeps[d].producer, output, attested)
  }

  lemma AttestedMeans(db: Db, d: DepId, output: Output, attested: Attestations)
    requires d in db.xdeps
    ensures Attested(output, PayloadFor(db, d, attested)) <==> AttestedBy(db, db.xdeps[d].producer, output, attested)
  {
    var p, r := PayloadFor(db, d, attested), db.xdeps[d].producer;
    if Attested(output, p) {
      var id :| id in p.evidence && output in p.evidence[id].attested && Achieved(p.evidence[id].status);
      assert InRun(db, id, r);
    }
    if AttestedBy(db, r, output, attested) {
      var id :| InRun(db, id, r) && db.tasks[id].status in {Completed, CompletedWithWarnings}
                && id in attested && output in attested[id];
      assert id in p.evidence && p.evidence[id] == Evidence(db.tasks[id].status, attested[id]);
    }
  }

  lemma OutputsMean(db: Db, d: DepId, attested: Attestations)
    requires d in db.xdeps
    ensures d in db.handoffs || Complete(PayloadFor(db, d, attested)) <==> OutputsThere(db, d, attested)
  {
    forall output
      ensures Attested(output, PayloadFor(db, d, attested)) <==> AttestedBy(db, db.xdeps[d].producer, output, attested)
    {
      AttestedMeans(db, d, output, attested);
    }
  }

  /** A first payload tells the dependency's columns, and of each of the producer's tasks how it stands
      and what was attested of it. */
  lemma PayloadMeans(db: Db, d: DepId, attested: Attestations)
    requires d in db.xdeps
    ensures var dep, p := db.xdeps[d], PayloadFor(db, d, attested);
      && p.dependency == d && p.producer == dep.producer && p.consumer == dep.consumer && p.schema == dep.schema
      && p.required == dep.required
      && p.producerStatus == (if dep.producer in db.runs then Some(db.runs[dep.producer].status) else None)
      && (forall id :: id in p.evidence <==> InRun(db, id, dep.producer))
      && (forall id :: id in p.evidence ==> p.evidence[id].status == db.tasks[id].status)
      && (forall id, output :: id in p.evidence ==>
            (output in p.evidence[id].attested <==> id in attested && output in attested[id]))
  {
  }
}
