/** The one way in which a Global Run of required projects comes to wait with all of them successful:
    projects of fallbacks only, failed by the Global Run and repaired behind it. */
module RegistryRevival {
  import opened DomainStates
  import opened TaskRows
  import opened Handoffs
  import opened RegistrySteps
  import opened RegistryInvariant
  import opened RegistryKeeps
  import opened RegistryHistory
  import G = RegistryGlobal
  import opened RegistryForecast
  import opened RegistryFinish
  import opened RegistryConvergence
  import opened RegistryRelease
  import opened RegistryRequired
  import opened RegistryStops
  import opened RegistryLog
  import opened RegistryNets
  import opened RegistryDeadEnds

  /** Project 2 follows root 1 and needs an output of it, project 3 follows project 2; the tasks of
      both are fallbacks for nothing. */
  const Relay := Net([2, 3], {}, [Dep(1, 2, IfAllSuccess).(required := {0}), Dep(2, 3, IfAllSuccess)], OnFailure)

  lemma RelayValid()
    ensures Relay.Valid()
  {
    assert Relay.deps[0].consumer == 2 && Relay.deps[1].consumer == 3;
  }

  lemma NothingAttested(db: Db, d: DepId)
    requires d in db.xdeps && db.xdeps[d].required == {0}
    ensures !Complete(PayloadFor(db, d, map[]))
  {
    assert !Attested(0, PayloadFor(db, d, map[]));
  }

  lemma RelayHalted(db: Db, g: Global)
    requires Stands(Relay, db, g, true)
    ensures Halted(db, g, map[]) && Succeeding(db, 0) && Succeeding(db, 1)
  {
    assert 2 in Relay.consumers && 3 in Relay.consumers;
    assert DepStands(db, g, 0, Relay.deps[0]) && DepStands(db, g, 1, Relay.deps[1]);
    assert ConsumesIn(db, g, 0, 2) && ConsumesIn(db, g, 1, 3);
    NothingAttested(db, 0);
  }

  // ---------- Reviving a project ----------

  /** Run `r` has one task, of its own number: a fallback without dependencies. */
  predicate LoneFallback(db: Db, r: RunId) {
    r in db.tasks && (forall id :: id in db.tasks ==> db.tasks[id].runId == id)
    && db.tasks[r].policy.OnFailure? && db.tasks[r].dependsOn == {}
  }

  function NewContract(t: Task): Contract { t.contract.(fingerprint := t.contract.fingerprint + 1) }

  /** A repair and a sweep make the failed task of a lone fallback skipped, and its run running. */
  function Revive(db: Db, r: RunId): Db
    requires r in db.tasks
  {
    Sweep(Repair(db, r, NewContract(db.tasks[r])).db, r)
  }

  lemma Revived(db: Db, r: RunId)
    requires LoneFallback(db, r) && Repairable(db.tasks[r].status) && r in db.runs
    requires RunMayBecome(db.runs[r].status, RunRunning, true)
    ensures var b := Revive(db, r);
      && b == db.(tasks := b.tasks, runs := db.runs[r := db.runs[r].(status := RunRunning)])
      && r in b.tasks && b.tasks == db.tasks[r := b.tasks[r]] && b.tasks[r].status.Skipped? && b.tasks[r].runId == r
  {
    var t := RepairedRow(db.tasks[r], NewContract(db.tasks[r]));
    var a := Repair(db, r, NewContract(db.tasks[r])).db;
    assert a.tasks[r] == t && SweepVerdict(a, t).Skipped?;
  }

  lemma RevivedSucceeds(db: Db, r: RunId)
    requires r in db.tasks && (forall id :: id in db.tasks ==> db.tasks[id].runId == id) && db.tasks[r].status.Skipped?
    requires RunRunningIn(db, r)
    ensures Succeeding(db, r)
  {
  }

  /** Project 2 revived, project 3's task canceled and revived. */
  function Revivals(c: Db): Db
    requires 2 in c.tasks && 3 in Revive(c, 2).tasks && 3 in OnRow(Revive(c, 2), 3, CancelTask).db.tasks
  {
    Revive(OnRow(Revive(c, 2), 3, CancelTask).db, 3)
  }

  /** The tables after the refresh that left the Global Run waiting. */
  ghost predicate Waited(c: Db) {
    && LoneFallback(c, 2) && LoneFallback(c, 3) && Repairable(c.tasks[2].status) && !Terminal(c.tasks[3].status)
    && RunCompletedIn(c, 0) && RunCompletedIn(c, 1) && 2 in c.runs && RunTerminal(c.runs[2].status)
    && RunPreparingIn(c, 3)
  }

  lemma CanceledRow(a: Db, r: RunId)
    requires LoneFallback(a, r) && !Terminal(a.tasks[r].status)
    ensures var b := OnRow(a, r, CancelTask).db;
      LoneFallback(b, r) && b.tasks[r].status.Canceled? && b == a.(tasks := a.tasks[r := b.tasks[r]])
  {
  }

  /** Lone fallbacks in runs that succeed, or, for 3, can still be set running. */
  ghost predicate HalfRevived(a: Db, c: Db) {
    && a.globals == c.globals && a.xdeps == c.xdeps && RunCompletedIn(a, 0) && RunCompletedIn(a, 1)
    && RunRunningIn(a, 2) && 2 in a.tasks && a.tasks[2].status.Skipped? && RunPreparingIn(a, 3) && LoneFallback(a, 3)
  }

  ghost predicate AllRevived(f: Db, c: Db) {
    f.globals == c.globals && f.xdeps == c.xdeps && forall r :: r < 4 ==> Succeeding(f, r)
  }

  lemma FirstRevived(c: Db)
    requires Waited(c)
    ensures HalfRevived(Revive(c, 2), c) && !Terminal(Revive(c, 2).tasks[3].status)
  {
    Revived(c, 2);
  }

  lemma SecondRevived(a: Db, c: Db)
    requires HalfRevived(a, c) && !Terminal(a.tasks[3].status)
    ensures 3 in OnRow(a, 3, CancelTask).db.tasks && AllRevived(Revive(OnRow(a, 3, CancelTask).db, 3), c)
  {
    var b := OnRow(a, 3, CancelTask).db;
    CanceledRow(a, 3);
    Revived(b, 3);
    RevivedSucceeds(Revive(b, 3), 2);
    RevivedSucceeds(Revive(b, 3), 3);
  }

  lemma RevivalsSucceed(c: Db)
    requires Waited(c)
    ensures 3 in Revive(c, 2).tasks && 3 in OnRow(Revive(c, 2), 3, CancelTask).db.tasks
    ensures AllRevived(Revivals(c), c)
  {
    FirstRevived(c);
    SecondRevived(Revive(c, 2), c);
  }

  // ---------- The refresh before ----------

  /** One task per run, of its number; those of 2 and 3 are fallbacks. */
  ghost predicate RelayRows(db: Db) {
    && 2 in db.tasks && 3 in db.tasks && LoneFallback(db, 2) && LoneFallback(db, 3)
  }

  lemma RowsStay(a: Db, b: Db)
    requires RelayRows(a) && TasksLater(a, b) && a.tasks.Keys == b.tasks.Keys
    ensures RelayRows(b)
  {
    forall id | id in b.tasks ensures b.tasks[id].runId == id { assert RowLater(a.tasks[id], b.tasks[id]); }
    assert RowLater(a.tasks[2], b.tasks[2]) && RowLater(a.tasks[3], b.tasks[3]);
  }

  lemma OpenOne(c: Db, r: RunId)
    requires LoneFallback(c, r)
    ensures TasksEnded(c, r) <==> Terminal(c.tasks[r].status)
    ensures Marred(c, r) <==> Repairable(c.tasks[r].status)
  {
    assert InRun(c, r, r);
  }

  lemma RelayMembers(db: Db, c: Db, g: Global)
    requires Halted(db, g, map[]) && Succeeding(db, 0) && Succeeding(db, 1)
    requires forall r :: r in g.members ==> MemberFacts(db, c, g, r, map[])
    ensures RunCompletedIn(c, 0) && RunCompletedIn(c, 1) && 2 in c.runs && RunTerminal(c.runs[2].status)
    ensures RunPreparingIn(c, 3) && !TasksEnded(c, 3)
  {
    HaltedTurns(db, g, map[]);
    forall r: nat | r < 4 ensures MemberFacts(db, c, g, r, map[]) { assert g.members[r] == r; }
    MemberStands(db, c, g, 0);
    MemberStands(db, c, g, 1);
    MemberStands(db, c, g, 2);
    MemberStands(db, c, g, 3);
  }

  lemma MemberStands(db: Db, c: Db, g: Global, r: RunId)
    requires MemberFacts(db, c, g, r, map[])
    ensures Succeeding(db, r) ==> RunCompletedIn(c, r)
    ensures EndedSoon(db, g, r, map[]) ==> Over(c, r)
    ensures RunPreparingIn(db, r) && !EndedSoon(db, g, r, map[]) && !StartedSoon(db, g, r, map[]) ==>
      RunPreparingIn(c, r) && (TasksEnded(c, r) <==> TasksEnded(db, r))
  {
  }

  lemma RelayWaits(db: Db)
    requires UnderWay(db, 0) && db.globals[0].status.GlobalRunning? && Halted(db, db.globals[0], map[]) && RelayRows(db)
    requires Succeeding(db, 0) && Succeeding(db, 1)
    ensures var c := RefreshGlobal(db, 0, map[]).db;
      Waited(c) && 0 in c.globals && c.globals[0] == db.globals[0].(status := GlobalWaiting) && DepsLater(db, c)
      && c.xdeps.Keys == db.xdeps.Keys
  {
    var c := RefreshGlobal(db, 0, map[]).db;
    HaltedProceeds(db, map[]);
    HaltedRefreshes(db, map[]);
    assert Waited(c) by {
      RelayMembers(db, c, db.globals[0]);
      RelayMarred(db);
      RelayKeeps(db, c);
      OpenOne(c, 2);
      OpenOne(c, 3);
    }
  }

  lemma RelayMarred(db: Db)
    requires UnderWay(db, 0) && RefreshGlobal(db, 0, map[]).ok && Halted(db, db.globals[0], map[])
    ensures Marred(RefreshGlobal(db, 0, map[]).db, 2)
  {
    assert db.globals[0].members[2] == 2;
    DoomedMarred(db, 0, map[], 2);
  }

  lemma RelayKeeps(db: Db, c: Db)
    requires Good(db) && c == RefreshGlobal(db, 0, map[]).db && RelayRows(db)
    ensures RelayRows(c)
  {
    G.RefreshGlobalHeld(db, 0, map[]);
    RowsStay(db, c);
  }

  // ---------- The history ----------

  lemma RelayPlaced(n: Net, db: Db, a: Root, b: Root)
    requires n == Relay && n.At(db, GlobalRunning, a, b) && a.task.runId == 0 && b.task.runId == 1
    ensures RelayRows(db)
  {
    assert 2 in Relay.consumers && 3 in Relay.consumers;
    forall id | id in db.tasks ensures db.tasks[id].runId == id { OwnTask(n, db.tasks, a.task, b.task, id); }
  }

  /** The refresh that leaves the Global Run waiting, and the revival of projects 2 and 3. */
  lemma RevivalLogged(before: seq<Event>) returns (es: seq<Event>)
    requires var c := RefreshGlobal(Replay(before), 0, map[]).db;
      2 in c.tasks && 3 in Revive(c, 2).tasks && 3 in OnRow(Revive(c, 2), 3, CancelTask).db.tasks
    ensures before < es && Replay(es) == Revivals(RefreshGlobal(Replay(before), 0, map[]).db)
    ensures forall i :: |before| <= i < |es| ==> !es[i].RewriteHandoff?
  {
    var c := RefreshGlobal(Replay(before), 0, map[]).db;
    var e1 := before + [RefreshProjects(0, map[])];
    RefreshProjectsLogged(before, 0, map[]);
    var e2 := ReviveLogged(e1, 2);
    var e3 := e2 + [Row(3, CancelTask)];
    RowLogged(e2, 3, CancelTask);
    es := ReviveLogged(e3, 3);
  }

  lemma ReviveLogged(before: seq<Event>, r: RunId) returns (es: seq<Event>)
    requires r in Replay(before).tasks
    ensures before < es && Replay(es) == Revive(Replay(before), r)
    ensures forall i :: |before| <= i < |es| ==> !es[i].RewriteHandoff?
  {
    var k := NewContract(Replay(before).tasks[r]);
    RepairLogged(before, r, k);
    SweepLogged(before + [RepairTask(r, k)], r);
    es := before + [RepairTask(r, k)] + [SweepTask(r)];
  }

  lemma DependenciesStay(a: Db, b: Db, g: Global)
    requires DepsLater(a, b) && a.xdeps.Keys == b.xdeps.Keys && NoFallbackDeps(a, g)
    ensures NoFallbackDeps(b, g)
  {
    forall d | d in g.deps && d in b.xdeps ensures !b.xdeps[d].condition.IfFailure? {
      assert DepLater(a.xdeps[d], b.xdeps[d]);
    }
  }

  lemma RelayNoFallback(db: Db, g: Global)
    requires Stands(Relay, db, g, true)
    ensures NoFallbackDeps(db, g)
  {
    forall d | d in g.deps && d in db.xdeps ensures !db.xdeps[d].condition.IfFailure? {
      assert DepStands(db, g, d, Relay.deps[d]);
    }
  }

  lemma AllSucceedEnded(db: Db, r: RunId)
    requires CompletedSucceeded(db) && Succeeding(db, r)
    ensures TasksEnded(db, r)
  {
    assert AllSuccessful(db, r);
    forall id | InRun(db, id, r) ensures Terminal(db.tasks[id].status) { }
  }

  lemma RevivedReady(f: Db, g: GlobalId)
    requires CompletedSucceeded(f) && g in f.globals && f.globals[g].members == [0, 1, 2, 3]
    requires !f.globals[g].cancelRequested
    requires f.globals[g].status.GlobalWaiting? && forall r :: r < 4 ==> Succeeding(f, r)
    ensures ReadyToRefresh(f, g) && DoneWaiting(f, f.globals[g])
  {
    forall r | r in f.globals[g].members ensures r < 4 && TasksEnded(f, r) { AllSucceedEnded(f, r); }
  }

  lemma NetReleasedAt(n: Net, es: seq<Event>)
    requires n.Valid() && [Create(n.Inserted()), ReleaseProjects(0)] <= es && NoRewrite(es)
    ensures ReleasedAt(es, 1, 0)
  {
    assert es[1] == [Create(n.Inserted()), ReleaseProjects(0)][1] && es[..1] == [Create(n.Inserted())];
    NetCreated(n);
    NetReleases(n, Replay(es[..1]));
  }

  /** The state in which the wait begins, and its history. */
  lemma RelayReached() returns (before: seq<Event>)
    ensures [Create(Relay.Inserted()), ReleaseProjects(0)] <= before && NoRewrite(before)
    ensures UnderWay(Replay(before), 0) && Stands(Relay, Replay(before), Replay(before).globals[0], true)
    ensures RelayRows(Replay(before))
  {
    before := BothDone(Relay);
    RelayValid();
    NetBothDone(Relay);
    Stood(Relay, Replay(before), DoneRoot(1));
    NetUnderWay(before);
    RelayPlaced(Relay, Replay(before), DoneRoot(0), DoneRoot(1));
  }

  /** What the refresh after that leaves. */
  lemma RelayRefreshed(db: Db)
    requires UnderWay(db, 0) && Stands(Relay, db, db.globals[0], true) && RelayRows(db)
    ensures var c := RefreshGlobal(db, 0, map[]).db;
      Waited(c) && 0 in c.globals && c.globals[0].status.GlobalWaiting? && c.globals[0].members == [0, 1, 2, 3]
      && c.globals[0].optional == {} && !c.globals[0].cancelRequested && NoFallbackDeps(c, c.globals[0])
  {
    RelayHalted(db, db.globals[0]);
    RelayNoFallback(db, db.globals[0]);
    RelayWaits(db);
    DependenciesStay(db, RefreshGlobal(db, 0, map[]).db, db.globals[0]);
  }

  /** Only required projects, only `all_success` dependencies: two projects of fallbacks are failed by
      their Global Run and then repaired, swept and so skipped. The Global Run waits with every
      project successful, and every refresh throws. */
  lemma RepairedFallbacks() returns (es: seq<Event>)
    ensures Required(es, 1, 0) && DoneWaiting(Replay(es), Replay(es).globals[0]) && UnderWay(Replay(es), 0)
    ensures forall calls :: AllThrow(Replay(es), 0, calls)
  {
    var before := RelayReached();
    RelayRefreshed(Replay(before));
    es := WaitedRevived(before);
    RelayEnds(es, RefreshGlobal(Replay(before), 0, map[]).db);
  }

  lemma WaitedRevived(before: seq<Event>) returns (es: seq<Event>)
    requires NoRewrite(before) && Waited(RefreshGlobal(Replay(before), 0, map[]).db)
    ensures before < es && NoRewrite(es) && AllRevived(Replay(es), RefreshGlobal(Replay(before), 0, map[]).db)
  {
    RevivalsSucceed(RefreshGlobal(Replay(before), 0, map[]).db);
    es := RevivalLogged(before);
  }

  lemma RelayEnds(es: seq<Event>, c: Db)
    requires [Create(Relay.Inserted()), ReleaseProjects(0)] <= es && NoRewrite(es) && AllRevived(Replay(es), c)
    requires 0 in c.globals && c.globals[0].status.GlobalWaiting? && c.globals[0].members == [0, 1, 2, 3]
    requires c.globals[0].optional == {} && !c.globals[0].cancelRequested && NoFallbackDeps(c, c.globals[0])
    ensures Required(es, 1, 0) && DoneWaiting(Replay(es), Replay(es).globals[0]) && UnderWay(Replay(es), 0)
    ensures forall calls :: AllThrow(Replay(es), 0, calls)
  {
    RelayValid();
    ReachableGood(es);
    RevivedReady(Replay(es), 0);
    NetReleasedAt(Relay, es);
    NetUnderWay(es);
    forall next ensures CompletesSoon(Replay(es), Replay(es).globals[0], next) {
      AllSucceedCompletes(Replay(es), Replay(es).globals[0], next);
    }
    CompletesThrows(Replay(es), 0);
  }
}
