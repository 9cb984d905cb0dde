/** From a release to the end of a Global Run, over whole histories. */
module RegistryRelease {
  import opened DomainStates
  import opened TaskRows
  import opened RegistrySteps
  import opened RegistryInvariant
  import opened RegistryKeeps
  import opened RegistryHistory
  import opened RegistryForecast
  import opened RegistryConvergence
  import opened FiniteSets

  // ---------- Roots ----------

  lemma ReleaseRunStarts(db: Db, r: RunId)
    requires ReleaseRun(db, r).ok
    ensures r in db.runs && ReleaseRun(db, r).db.runs == db.runs[r := db.runs[r].(status := RunRunning)]
    ensures ReleaseRun(db, r).db.xdeps == db.xdeps && ReleaseRun(db, r).db.globals == db.globals
  {
  }

  lemma {:induction false} ReleaseAllStarts(db: Db, rs: seq<RunId>, r: RunId)
    requires ReleaseAll(db, rs).ok && (r in rs || !RunPreparingIn(db, r))
    ensures !RunPreparingIn(ReleaseAll(db, rs).db, r)
    decreases |rs|
  {
    if rs != [] {
      ReleaseRunStarts(db, rs[0]);
      ReleaseAllStarts(ReleaseRun(db, rs[0]).db, rs[1..], r);
    }
  }

  lemma {:induction false} ReleaseAllKeepsDeps(db: Db, rs: seq<RunId>)
    requires ReleaseAll(db, rs).ok
    ensures ReleaseAll(db, rs).db.xdeps == db.xdeps && ReleaseAll(db, rs).db.globals == db.globals
    decreases |rs|
  {
    if rs != [] {
      ReleaseRunStarts(db, rs[0]);
      ReleaseAllKeepsDeps(ReleaseRun(db, rs[0]).db, rs[1..]);
    }
  }

  lemma {:induction false} RootListed(db: Db, g: Global, rs: seq<RunId>, r: RunId)
    requires r in rs && Inbound(db, g.deps, r) == []
    ensures r in Roots(db, g, rs)
  {
    if rs[0] != r { RootListed(db, g, rs[1..], r); }
  }

  /** A release that does not throw starts every project without inbound dependencies. */
  lemma ReleaseStartsRoots(db: Db, g: GlobalId)
    requires g in db.globals && db.globals[g].status in {GlobalPreparing, GlobalWaiting} && ReleaseGlobal(db, g).ok
    ensures var o := ReleaseGlobal(db, g);
      && g in o.db.globals && o.db.globals[g] == db.globals[g].(status := GlobalRunning)
      && RootsReleased(o.db, db.globals[g])
  {
    var row := db.globals[g];
    var rs := Roots(db, row, row.members);
    var a, b := ReleaseAll(db, rs).db, ReleaseGlobal(db, g).db;
    ReleaseAllKeepsDeps(db, rs);
    forall r | r in row.members && RunPreparingIn(b, r) ensures exists d :: ConsumesIn(b, row, d, r) {
      if Inbound(db, row.deps, r) == [] {
        RootListed(db, row, row.members, r);
        ReleaseAllStarts(db, rs, r);
      } else {
        var d := Inbound(db, row.deps, r)[0];
        assert d in Inbound(db, row.deps, r);
        assert ConsumesIn(b, row, d, r);
      }
    }
  }

  // ---------- Later states ----------

  lemma RootsStayReleased(a: Db, b: Db, g: GlobalId)
    requires Later(a, b) && g in a.globals && RootsReleased(a, a.globals[g])
    requires forall r :: r in a.globals[g].members ==> r in a.runs
    ensures g in b.globals && RootsReleased(b, b.globals[g])
  {
    var row := a.globals[g];
    assert GlobalLater(row, b.globals[g]);
    forall r | r in b.globals[g].members && RunPreparingIn(b, r) ensures exists d :: ConsumesIn(b, b.globals[g], d, r) {
      assert RunLater(a.runs[r], b.runs[r]);
      var d :| ConsumesIn(a, row, d, r);
      assert DepLater(a.xdeps[d], b.xdeps[d]) && ConsumesIn(b, b.globals[g], d, r);
    }
  }

  /** What the caller can see of the Global Run before it refreshes: it is under way and the
      tasks of every released project are over. */
  ghost predicate ReadyToRefresh(db: Db, g: GlobalId) {
    g in db.globals
    && var row := db.globals[g];
    && row.status in {GlobalRunning, GlobalWaiting} && !row.cancelRequested && row.members != []
    && ReleasedEnded(db, row)
  }

  lemma {:induction false} FewPreparing(db: Db, members: seq<RunId>)
    ensures |set r | r in members && RunPreparingIn(db, r)| <= |members|
  {
    if members != [] {
      var rest := members[1..];
      FewPreparing(db, rest);
      var all, some := set r | r in members && RunPreparingIn(db, r), set r | r in rest && RunPreparingIn(db, r);
      assert members == [members[0]] + rest;
      assert all <= some + {members[0]};
      SubsetSmaller(all, some + {members[0]});
    }
  }

  lemma ReleasedAtGood(es: seq<Event>, n: nat, g: GlobalId)
    requires n < |es| && es[n] == ReleaseProjects(g) && g in Replay(es[..n]).globals
    requires Replay(es[..n]).globals[g].status.GlobalPreparing? && ReleaseGlobal(Replay(es[..n]), g).ok
    ensures g in Replay(es[..n + 1]).globals && RootsReleased(Replay(es[..n + 1]), Replay(es[..n + 1]).globals[g])
  {
    var a := Replay(es[..n]);
    assert es[..n + 1][..n] == es[..n];
    ReplayStep(es[..n + 1]);
    ReleaseStartsRoots(a, g);
    SameRoots(ReleaseGlobal(a, g).db, a.globals[g], ReleaseGlobal(a, g).db.globals[g]);
  }

  lemma SameRoots(db: Db, g: Global, g': Global)
    requires RootsReleased(db, g) && g'.members == g.members && g'.deps == g.deps
    ensures RootsReleased(db, g')
  {
    forall r | r in g'.members && RunPreparingIn(db, r) ensures exists d :: ConsumesIn(db, g', d, r) {
      var d :| ConsumesIn(db, g, d, r);
      assert ConsumesIn(db, g', d, r);
    }
  }

  lemma HistoryConverging(es: seq<Event>, n: nat, g: GlobalId)
    requires n <= |es| && g in Replay(es[..n]).globals && RootsReleased(Replay(es[..n]), Replay(es[..n]).globals[g])
    requires forall i :: 0 <= i < |es| ==> !es[i].RewriteHandoff?
    requires ReadyToRefresh(Replay(es), g)
    ensures Converging(Replay(es), g)
  {
    HistoryRoots(es, n, g);
    ReachableGood(es);
    ReachableRegular(es);
  }

  lemma HistoryRoots(es: seq<Event>, n: nat, g: GlobalId)
    requires n <= |es| && g in Replay(es[..n]).globals && RootsReleased(Replay(es[..n]), Replay(es[..n]).globals[g])
    ensures g in Replay(es).globals && RootsReleased(Replay(es), Replay(es).globals[g])
  {
    HistoryLater(es, n);
    HistoryMembers(es[..n], g);
    RootsStayReleased(Replay(es[..n]), Replay(es), g);
  }

  lemma HistoryMembers(es: seq<Event>, g: GlobalId)
    requires g in Replay(es).globals
    ensures forall r :: r in Replay(es).globals[g].members ==> r in Replay(es).runs
  {
    ReachableGood(es);
    MembersWired(Replay(es), g);
  }

  /** A history in which the Global Run was released, without a throw, and nobody ever rewrote a
      handoff. */
  ghost predicate ReleasedAt(es: seq<Event>, n: nat, g: GlobalId) {
    && n < |es| && es[n] == ReleaseProjects(g) && g in Replay(es[..n]).globals
    && Replay(es[..n]).globals[g].status.GlobalPreparing? && ReleaseGlobal(Replay(es[..n]), g).ok
    && forall i :: 0 <= i < |es| ==> !es[i].RewriteHandoff?
  }

  lemma ReleasedConverging(es: seq<Event>, n: nat, g: GlobalId)
    requires ReleasedAt(es, n, g) && ReadyToRefresh(Replay(es), g)
    ensures Converging(Replay(es), g)
    ensures |Preparing(Replay(es), Replay(es).globals[g])| <= |Replay(es).globals[g].members|
  {
    ReleasedAtGood(es, n, g);
    HistoryConverging(es, n + 1, g);
    FewPreparing(Replay(es), Replay(es).globals[g].members);
  }

  /** Global convergence: in any such history, for any conditions and memberships, one refresh
      more than there are projects ends the Global Run, releases another project, or comes to one
      of the three named stops, and none throws before. */
  lemma ReleasedRunConcludes(es: seq<Event>, n: nat, g: GlobalId, calls: seq<Attestations>)
    requires ReleasedAt(es, n, g) && ReadyToRefresh(Replay(es), g) && |calls| == |Replay(es).globals[g].members| + 1
    ensures Concludes(Replay(es), g, calls)
  {
    ReleasedConverging(es, n, g);
    RefreshesConclude(Replay(es), g, calls);
  }

  /** Without fallback dependencies, and while a required project is short of success or the end is
      at hand, the same refreshes end the Global Run or release a project; none throws. */
  lemma ReleasedRunConverges(es: seq<Event>, n: nat, g: GlobalId, calls: seq<Attestations>)
    requires ReleasedAt(es, n, g) && ReadyToRefresh(Replay(es), g) && |calls| == |Replay(es).globals[g].members| + 1
    requires var row := Replay(es).globals[g]; NoFallbackDeps(Replay(es), row) && Clear(Replay(es), row, calls[0])
    ensures EndsOrReleases(Replay(es), g, calls)
  {
    ReleasedConverging(es, n, g);
    RefreshesSuffice(Replay(es), g, calls);
  }
}
