/** Where repeated refreshes of a released Global Run lead. */
module RegistryConvergence {
  import opened DomainStates
  import opened TaskRows
  import opened Handoffs
  import opened RegistrySteps
  import opened RegistryInvariant
  import opened RegistryKeeps
  import opened RegistryGlobal
  import opened RegistryForecast
  import opened RegistryTurns
  import opened RegistryFinish
  import opened FiniteSets

  ghost predicate RootsReleased(db: Db, g: Global) {
    forall r :: r in g.members && RunPreparingIn(db, r) ==> exists d :: ConsumesIn(db, g, d, r)
  }

  ghost predicate ReleasedEnded(db: Db, g: Global) {
    forall r :: r in g.members && !RunPreparingIn(db, r) ==> TasksEnded(db, r)
  }

  ghost predicate NoFallbackDeps(db: Db, g: Global) {
    forall d :: d in g.deps && d in db.xdeps ==> !db.xdeps[d].condition.IfFailure?
  }

  ghost predicate UnderWay(db: Db, g: GlobalId) {
    Refreshing(db, g) && db.globals[g].status in {GlobalRunning, GlobalWaiting} && !db.globals[g].cancelRequested
  }

  /** The Global Run is released and not cancelled, nobody rewrote a handoff, and the tasks of
      every released member have ended. */
  ghost predicate Converging(db: Db, g: GlobalId) {
    UnderWay(db, g) && db.globals[g].members != [] && RootsReleased(db, db.globals[g])
      && ReleasedEnded(db, db.globals[g])
  }

  function Preparing(db: Db, g: Global): set<RunId> { set r | r in g.members && RunPreparingIn(db, r) }

  // ---------- After a refresh ----------

  lemma SetGlobalCore(b: Db, g: GlobalId, s: GlobalStatus)
    ensures var o := SetGlobal(b, g, s); SameCore(b, o.db) && o.db.xdeps == b.xdeps && o.db.handoffs == b.handoffs
  {
  }

  lemma RefreshCore(db: Db, g: GlobalId, attested: Attestations)
    requires Refreshing(db, g)
    ensures var b, o := Before(db, g, attested), RefreshGlobal(db, g, attested);
      SameCore(b.db, o.db) && o.db.xdeps == b.db.xdeps && o.db.handoffs == b.db.handoffs && (o.ok ==> b.ok)
  {
    RefreshIs(db, g, attested);
    if Before(db, g, attested).ok {
      RefreshWrites(db, g, attested);
      SetGlobalCore(Before(db, g, attested).db, g, Destiny(db, db.globals[g], attested));
    }
  }

  lemma CoreAfter(db: Db, b: Db, c: Db, g: Global, r: RunId, attested: Attestations)
    requires SameCore(b, c) && MemberAfter(db, b, g, r, attested)
    ensures MemberAfter(db, c, g, r, attested) && (TasksEnded(c, r) <==> TasksEnded(b, r))
  {
    assert forall id :: InRun(c, id, r) <==> InRun(b, id, r);
  }

  lemma RowsEnded(mid: Db, b: Db, g: Global, r: RunId)
    requires RowsTurned(mid, b, g, r) && !TurnDooms(mid, g, r) && !TurnStarts(mid, g, r)
    ensures TasksEnded(b, r) <==> TasksEnded(mid, r)
  {
    forall id | InRun(mid, id, r) ensures b.tasks[id] == mid.tasks[id] {
      assert TurnedTask(mid, g, r, mid.tasks[id], b.tasks[id]);
    }
  }

  lemma SameEnded(mid: Db, b: Db, r: RunId)
    requires SameRun(mid, b, r)
    ensures TasksEnded(b, r) <==> TasksEnded(mid, r)
  {
  }

  /** A member that the refresh neither fails nor starts keeps its tasks. */
  lemma MemberRows(db: Db, g: GlobalId, attested: Attestations, r: RunId)
    requires Refreshing(db, g) && Before(db, g, attested).ok && r in db.globals[g].members
    requires !DoomedSoon(db, db.globals[g], r, attested) && !StartedSoon(db, db.globals[g], r, attested)
    ensures TasksEnded(Before(db, g, attested).db, r) <==> TasksEnded(db, r)
  {
    var row, mid := db.globals[g], Resolved(db, g, attested);
    ResolvedTables(db, g, attested);
    ResolvedReady(db, g, attested);
    ResolvedForeseen(db, g, attested);
    ConsumerForeseen(db, mid, row, r, attested);
    TurnForeseen(db, mid, row, r, attested);
    assert MemberSettled(db, mid, r);
    if r in Consumers(mid, row.deps) {
      ListedConsumer(mid, g, r);
      TurnsTurn(mid, g, Consumers(mid, row.deps), r);
      RowsEnded(mid, Before(db, g, attested).db, row, r);
    } else {
      TurnsLeave(mid, g, Consumers(mid, row.deps), r);
      SameEnded(mid, Before(db, g, attested).db, r);
    }
  }

  /** A member after a refresh that did not throw. */
  lemma AfterRefresh(db: Db, g: GlobalId, attested: Attestations, r: RunId)
    requires Refreshing(db, g) && RefreshGlobal(db, g, attested).ok && r in db.globals[g].members
    ensures var row, c := db.globals[g], RefreshGlobal(db, g, attested).db;
      && MemberAfter(db, c, row, r, attested)
      && (DoomedSoon(db, row, r, attested) ==> TasksEnded(c, r))
      && (!DoomedSoon(db, row, r, attested) && !StartedSoon(db, row, r, attested) ==>
        (TasksEnded(c, r) <==> TasksEnded(db, r)))
  {
    RefreshCore(db, g, attested);
    MembersAfter(db, g, attested, r);
    CoreAfter(db, Before(db, g, attested).db, RefreshGlobal(db, g, attested).db, db.globals[g], r, attested);
    if !DoomedSoon(db, db.globals[g], r, attested) && !StartedSoon(db, db.globals[g], r, attested) {
      MemberRows(db, g, attested, r);
    }
  }

  /** A dependency after a refresh, thrown or not. */
  lemma DepAfter(db: Db, g: GlobalId, attested: Attestations, d: DepId)
    requires Refreshing(db, g) && d in db.globals[g].deps
    ensures DepForeseen(db, RefreshGlobal(db, g, attested).db, d, attested)
  {
    ResolvedForeseen(db, g, attested);
    BeforeDeps(db, g, attested);
    RefreshCore(db, g, attested);
    assert DepForeseen(db, Resolved(db, g, attested), d, attested);
  }

  lemma StillRefreshing(db: Db, g: GlobalId, attested: Attestations)
    requires Refreshing(db, g)
    ensures var o := RefreshGlobal(db, g, attested);
      Good(o.db) && Regular(o.db) && Held(db, o.db) && g in o.db.globals
      && o.db.globals[g]
        == db.globals[g].(status := if o.ok then Destiny(db, db.globals[g], attested) else db.globals[g].status)
  {
    RefreshGlobalHeld(db, g, attested);
    HeldGood(db, RefreshGlobal(db, g, attested).db);
    RefreshForecast(db, g, attested);
  }

  /** How a refresh that did not throw leaves member `r`. */
  ghost predicate MemberFacts(db: Db, c: Db, g: Global, r: RunId, attested: Attestations) {
    && MemberAfter(db, c, g, r, attested)
    && (DoomedSoon(db, g, r, attested) ==> TasksEnded(c, r))
    && (!DoomedSoon(db, g, r, attested) && !StartedSoon(db, g, r, attested) ==>
      (TasksEnded(c, r) <==> TasksEnded(db, r)))
  }

  /** Everything a refresh that did not throw has done. */
  ghost predicate RefreshedTo(db: Db, c: Db, g: GlobalId, attested: Attestations)
    requires g in db.globals
  {
    && g in c.globals && c.globals[g] == db.globals[g].(status := Destiny(db, db.globals[g], attested))
    && SteadyDb(db, c) && Later(db, c) && c.xdeps.Keys == db.xdeps.Keys
    && (forall r :: r in db.globals[g].members ==> MemberFacts(db, c, db.globals[g], r, attested))
  }

  lemma RefreshDone(db: Db, g: GlobalId, attested: Attestations)
    requires Refreshing(db, g) && RefreshGlobal(db, g, attested).ok
    ensures var c := RefreshGlobal(db, g, attested).db; RefreshedTo(db, c, g, attested) && Good(c) && Regular(c)
  {
    StillRefreshing(db, g, attested);
    forall r | r in db.globals[g].members
      ensures MemberFacts(db, RefreshGlobal(db, g, attested).db, db.globals[g], r, attested)
    {
      AfterRefresh(db, g, attested, r);
    }
  }

  // ---------- One refresh ----------

  /** The producers' projects are members, and those that are not released have not ended. */
  ghost predicate Lined(db: Db, g: Global) {
    && (forall d :: d in g.deps ==>
      d in db.xdeps && db.xdeps[d].producer in g.members && db.xdeps[d].producer in db.runs)
    && RootsReleased(db, g) && ReleasedEnded(db, g)
  }

  lemma ConvergingLined(db: Db, g: GlobalId)
    requires Converging(db, g)
    ensures Lined(db, db.globals[g]) && Ranked(db.globals[g].deps, db.xdeps)
    ensures forall r :: r in db.globals[g].members ==> r in db.runs
  {
    MembersWired(db, g);
    assert GlobalWired(db, g, db.globals[g]);
  }

  lemma PendingProducer(db: Db, g: Global, rank: map<RunId, nat>, r: RunId, attested: Attestations) returns (p: RunId)
    requires Lined(db, g) && AnySoon(db, g, r, DepPending, attested) && RunRank(rank, g.deps, db.xdeps)
    ensures p in g.members && RunPreparingIn(db, p) && !OverSoon(db, p) && p in rank && r in rank && rank[p] < rank[r]
  {
    var d :| ConsumesIn(db, g, d, r) && Forecast(db, d, attested) == DepPending;
    p := db.xdeps[d].producer;
  }

  /** Preparing, consuming, and with nothing left to wait for. */
  ghost predicate InFront(db: Db, g: Global, r: RunId, attested: Attestations) {
    StillPreparing(db, g, r) && !AnySoon(db, g, r, DepPending, attested)
  }

  lemma LinedConsumes(db: Db, g: Global, r: RunId)
    requires Lined(db, g) && r in g.members && RunPreparingIn(db, r) && !OverSoon(db, r)
    ensures StillPreparing(db, g, r)
  {
  }

  lemma {:induction false} FirstInLine(db: Db, g: Global, rank: map<RunId, nat>, r: RunId, attested: Attestations)
    returns (first: RunId)
    requires Lined(db, g) && RunRank(rank, g.deps, db.xdeps) && r in g.members && RunPreparingIn(db, r)
    requires !OverSoon(db, r)
    ensures InFront(db, g, first, attested)
    decreases if r in rank then rank[r] else 0
  {
    if AnySoon(db, g, r, DepPending, attested) {
      var p := PendingProducer(db, g, rank, r, attested);
      first := FirstInLine(db, g, rank, p, attested);
    } else {
      LinedConsumes(db, g, r);
      first := r;
    }
  }

  /** With nothing pending a preparing consumer is failed, released, refused or left in a mix. */
  lemma FourWays(db: Db, g: Global, r: RunId, attested: Attestations)
    requires StillPreparing(db, g, r) && !AnySoon(db, g, r, DepPending, attested) && !g.cancelRequested
    ensures DoomedSoon(db, g, r, attested) || StartedSoon(db, g, r, attested) || SkippedSoon(db, g, r, attested)
      || MixedSoon(db, g, r, attested)
  {
    forall d | ConsumesIn(db, g, d, r) ensures AnySoon(db, g, r, Forecast(db, d, attested), attested) { }
  }

  ghost predicate LeavesPreparation(db: Db, g: Global, r: RunId, attested: Attestations) {
    StillPreparing(db, g, r) && (DoomedSoon(db, g, r, attested) || StartedSoon(db, g, r, attested))
  }

  ghost predicate SkipsOrMixes(db: Db, g: Global, r: RunId, attested: Attestations) {
    SkippedSoon(db, g, r, attested) || MixedSoon(db, g, r, attested)
  }

  ghost predicate LeavesOrStops(db: Db, g: Global, r: RunId, attested: Attestations) {
    LeavesPreparation(db, g, r, attested) || SkipsOrMixes(db, g, r, attested)
  }

  lemma MovesOrStops(db: Db, g: Global, attested: Attestations, m: RunId)
    requires Lined(db, g) && Ranked(g.deps, db.xdeps) && !g.cancelRequested
    requires m in g.members && m in db.runs && !EndedSoon(db, g, m, attested)
    ensures exists r :: r in g.members && LeavesOrStops(db, g, r, attested)
  {
    var rank :| RunRank(rank, g.deps, db.xdeps);
    var first := FirstInLine(db, g, rank, m, attested);
    FourWays(db, g, first, attested);
  }

  lemma PreparingShrinks(db: Db, c: Db, g: GlobalId, attested: Attestations)
    requires g in db.globals && RefreshedTo(db, c, g, attested)
    ensures Preparing(c, db.globals[g]) <= Preparing(db, db.globals[g])
    ensures (exists r :: r in db.globals[g].members && LeavesPreparation(db, db.globals[g], r, attested)) ==>
      Preparing(c, db.globals[g]) < Preparing(db, db.globals[g])
  {
    var row := db.globals[g];
    forall r | r in Preparing(c, row) ensures r in Preparing(db, row) { assert MemberFacts(db, c, row, r, attested); }
    if r :| r in row.members && LeavesPreparation(db, row, r, attested) {
      assert MemberFacts(db, c, row, r, attested);
      assert r in Preparing(db, row) && r !in Preparing(c, row);
    }
  }

  predicate GlobalEnded(db: Db, g: GlobalId) { g in db.globals && GlobalTerminal(db.globals[g].status) }

  lemma DestinyEnds(db: Db, g: Global, attested: Attestations)
    requires g.members != []
    ensures GlobalTerminal(Destiny(db, g, attested)) <==> forall r :: r in g.members ==> EndedSoon(db, g, r, attested)
    ensures !GlobalTerminal(Destiny(db, g, attested)) ==> Destiny(db, g, attested) in {GlobalRunning, GlobalWaiting}
  {
  }

  lemma EndsMovesOrStops(db: Db, c: Db, g: GlobalId, attested: Attestations)
    requires Converging(db, g) && RefreshedTo(db, c, g, attested)
    ensures GlobalEnded(c, g) || Preparing(c, db.globals[g]) < Preparing(db, db.globals[g])
      || exists r :: r in db.globals[g].members && SkipsOrMixes(db, db.globals[g], r, attested)
  {
    var row := db.globals[g];
    ConvergingLined(db, g);
    PreparingShrinks(db, c, g, attested);
    DestinyEnds(db, row, attested);
    if m :| m in row.members && !EndedSoon(db, row, m, attested) { MovesOrStops(db, row, attested, m); }
  }

  /** A refresh that does not throw ends the Global Run, takes a project out of preparation, or
      meets a consumer in which skipped and satisfied dependencies mix. */
  lemma RefreshConverges(db: Db, g: GlobalId, attested: Attestations)
    requires Converging(db, g) && RefreshGlobal(db, g, attested).ok
    ensures var row, c := db.globals[g], RefreshGlobal(db, g, attested).db;
      && Preparing(c, row) <= Preparing(db, row)
      && (GlobalEnded(c, g) || Preparing(c, row) < Preparing(db, row)
          || exists r :: r in row.members && MixedSoon(db, row, r, attested))
  {
    var c := RefreshGlobal(db, g, attested).db;
    RefreshDone(db, g, attested);
    RefreshThrowsIff(db, g, attested);
    PreparingShrinks(db, c, g, attested);
    EndsMovesOrStops(db, c, g, attested);
  }

  lemma DestinyRuns(db: Db, c: Db, g: GlobalId, attested: Attestations)
    requires g in db.globals && RefreshedTo(db, c, g, attested) && !GlobalTerminal(Destiny(db, db.globals[g], attested))
    ensures c.globals[g].status in {GlobalRunning, GlobalWaiting}
    ensures c.globals[g].status.GlobalRunning? <==> exists r :: r in c.globals[g].members && RunRunningIn(c, r)
  {
    var row := db.globals[g];
    forall r | r in row.members ensures RunRunningIn(c, r) <==> RunningSoon(db, row, r, attested) {
      assert MemberFacts(db, c, row, r, attested);
    }
  }

  /** A Global Run that a refresh leaves open runs iff one of its projects runs; else it waits. */
  lemma OpenRunsIff(db: Db, g: GlobalId, attested: Attestations)
    requires Refreshing(db, g) && RefreshGlobal(db, g, attested).ok
    requires !GlobalEnded(RefreshGlobal(db, g, attested).db, g)
    ensures var c := RefreshGlobal(db, g, attested).db;
      && g in c.globals && c.globals[g].status in {GlobalRunning, GlobalWaiting}
      && (c.globals[g].status.GlobalRunning? <==> exists r :: r in c.globals[g].members && RunRunningIn(c, r))
  {
    RefreshDone(db, g, attested);
    DestinyRuns(db, RefreshGlobal(db, g, attested).db, g, attested);
  }

  // ---------- Repeated refreshes ----------

  /** Some project went from preparing to running. */
  ghost predicate Released(a: Db, b: Db, g: Global) {
    exists r :: r in g.members && RunPreparingIn(a, r) && RunRunningIn(b, r)
  }

  lemma EndedAcross(a: Db, b: Db, r: RunId)
    requires SteadyDb(a, b) && TasksLater(a, b) && TasksEnded(a, r)
    ensures TasksEnded(b, r)
  {
    forall id | InRun(b, id, r) ensures Terminal(b.tasks[id].status) {
      assert Steady(a.tasks[id], b.tasks[id]) && RowLater(a.tasks[id], b.tasks[id]) && InRun(a, id, r);
    }
  }

  lemma MemberStaysEnded(db: Db, c: Db, g: Global, r: RunId, attested: Attestations)
    requires SteadyDb(db, c) && TasksLater(db, c) && MemberFacts(db, c, g, r, attested)
    requires r in g.members && !Released(db, c, g) && !RunPreparingIn(c, r)
    requires (RunPreparingIn(db, r) || TasksEnded(db, r))
    ensures TasksEnded(c, r)
  {
    if TasksEnded(db, r) { EndedAcross(db, c, r); }
    else { assert RunPreparingIn(db, r) && !RunRunningIn(c, r) && !StartedSoon(db, g, r, attested); }
  }

  lemma RootsStay(a: Db, b: Db, g: Global, g': Global)
    requires RootsReleased(a, g) && DepsLater(a, b) && Preparing(b, g) <= Preparing(a, g)
    requires g' == g.(status := g'.status)
    ensures RootsReleased(b, g')
  {
    forall r | r in g'.members && RunPreparingIn(b, r) ensures exists d :: ConsumesIn(b, g', d, r) {
      assert r in Preparing(b, g);
      var d :| ConsumesIn(a, g, d, r);
      assert DepLater(a.xdeps[d], b.xdeps[d]);
      assert ConsumesIn(b, g', d, r);
    }
  }

  lemma ShapeStays(db: Db, c: Db, g: GlobalId, attested: Attestations)
    requires g in db.globals && RefreshedTo(db, c, g, attested) && !Released(db, c, db.globals[g])
    requires RootsReleased(db, db.globals[g]) && ReleasedEnded(db, db.globals[g])
    ensures RootsReleased(c, c.globals[g]) && ReleasedEnded(c, c.globals[g])
  {
    var row := db.globals[g];
    PreparingShrinks(db, c, g, attested);
    RootsStay(db, c, row, c.globals[g]);
    forall r | r in row.members && !RunPreparingIn(c, r) ensures TasksEnded(c, r) {
      assert MemberFacts(db, c, row, r, attested);
      MemberStaysEnded(db, c, row, r, attested);
    }
  }

  /** A refresh that neither ends the Global Run nor releases a project leaves it converging. */
  lemma StillConverging(db: Db, g: GlobalId, attested: Attestations)
    requires Converging(db, g) && RefreshGlobal(db, g, attested).ok
    requires !GlobalEnded(RefreshGlobal(db, g, attested).db, g)
    requires !Released(db, RefreshGlobal(db, g, attested).db, db.globals[g])
    ensures Converging(RefreshGlobal(db, g, attested).db, g)
  {
    RefreshDone(db, g, attested);
    DestinyEnds(db, db.globals[g], attested);
    ShapeStays(db, RefreshGlobal(db, g, attested).db, g, attested);
  }

  /** The next refresh cannot go on: it throws, or a consumer's dependencies mix. */
  ghost predicate Stops(db: Db, g: Global, attested: Attestations) {
    || (exists r :: r in g.members && SkippedSoon(db, g, r, attested))
    || (g.status.GlobalWaiting? && CompletesSoon(db, g, attested))
    || (exists r :: r in g.members && MixedSoon(db, g, r, attested))
  }

  /** Within the given refreshes the Global Run ends, a project starts, or one of the three named
      stops is reached, with no throw before it. */
  ghost predicate Concludes(db: Db, g: GlobalId, calls: seq<Attestations>)
    requires g in db.globals
    decreases |calls|
  {
    calls != [] &&
    (Stops(db, db.globals[g], calls[0]) ||
     var o := RefreshGlobal(db, g, calls[0]);
     o.ok && g in o.db.globals
       && (GlobalEnded(o.db, g) || Released(db, o.db, db.globals[g]) || Concludes(o.db, g, calls[1..])))
  }

  /** A call that meets no stop either ends things or leaves fewer projects preparing. */
  lemma NextCall(db: Db, g: GlobalId, attested: Attestations)
    requires Converging(db, g) && !Stops(db, db.globals[g], attested)
    ensures var o := RefreshGlobal(db, g, attested);
      && o.ok && g in o.db.globals
      && (GlobalEnded(o.db, g) || Released(db, o.db, db.globals[g])
          || (Converging(o.db, g) && |Preparing(o.db, o.db.globals[g])| < |Preparing(db, db.globals[g])|))
  {
    var o := RefreshGlobal(db, g, attested);
    RefreshThrowsIff(db, g, attested);
    RefreshConverges(db, g, attested);
    StillRefreshing(db, g, attested);
    if !GlobalEnded(o.db, g) && !Released(db, o.db, db.globals[g]) {
      StillConverging(db, g, attested);
      SamePreparing(o.db, o.db.globals[g], db.globals[g]);
      ProperSubsetSmaller(Preparing(o.db, o.db.globals[g]), Preparing(db, db.globals[g]));
    }
  }

  /** Convergence of any released Global Run, whatever its conditions and memberships: one refresh
      more than there are preparing projects is enough. */
  lemma {:induction false} RefreshesConclude(db: Db, g: GlobalId, calls: seq<Attestations>)
    requires Converging(db, g) && |calls| > |Preparing(db, db.globals[g])|
    ensures Concludes(db, g, calls)
    decreases |calls|
  {
    if !Stops(db, db.globals[g], calls[0]) {
      NextCall(db, g, calls[0]);
      var o := RefreshGlobal(db, g, calls[0]);
      if !GlobalEnded(o.db, g) && !Released(db, o.db, db.globals[g]) { RefreshesConclude(o.db, g, calls[1..]); }
    }
  }

  lemma SamePreparing(db: Db, g: Global, g': Global)
    requires g'.members == g.members
    ensures Preparing(db, g') == Preparing(db, g)
  {
  }

  /** Within the given refreshes, none of which throws, the Global Run ends or a project starts. */
  ghost predicate EndsOrReleases(db: Db, g: GlobalId, calls: seq<Attestations>)
    requires g in db.globals
    decreases |calls|
  {
    calls != [] &&
    var o := RefreshGlobal(db, g, calls[0]);
    o.ok && g in o.db.globals
    && (GlobalEnded(o.db, g) || Released(db, o.db, db.globals[g]) || EndsOrReleases(o.db, g, calls[1..]))
  }

  lemma NeverSkippedDep(db: Db, g: Global, d: DepId, attested: Attestations)
    requires DepsFit(db, db.xdeps) && NoFallbackDeps(db, g) && d in g.deps && d in db.xdeps
    ensures !Forecast(db, d, attested).DepSkipped?
  {
    assert DepFits(db, db.xdeps[d]);
  }

  lemma NeverSkipped(db: Db, g: Global, r: RunId, attested: Attestations)
    requires DepsFit(db, db.xdeps) && NoFallbackDeps(db, g)
    ensures !SkippedSoon(db, g, r, attested) && !MixedSoon(db, g, r, attested)
  {
    forall d | ConsumesIn(db, g, d, r) ensures !Forecast(db, d, attested).DepSkipped? {
      NeverSkippedDep(db, g, d, attested);
    }
    if StillPreparing(db, g, r) { var d :| ConsumesIn(db, g, d, r); }
  }

  /** Some required member is not going to complete as things stand. */
  ghost predicate RequiredOpen(db: Db, g: Global) {
    exists r :: r in g.members && r !in g.optional && !Succeeding(db, r)
  }

  /** The Global Run cannot reach completion from waiting: it is about to end from running, or a
      required member stays short of success until another project starts. */
  ghost predicate Clear(db: Db, g: Global, attested: Attestations) {
    RequiredOpen(db, g) || (g.status.GlobalRunning? && forall r :: r in g.members ==> EndedSoon(db, g, r, attested))
  }

  lemma ClearDoesNotStop(db: Db, g: GlobalId, attested: Attestations)
    requires Refreshing(db, g) && NoFallbackDeps(db, db.globals[g]) && Clear(db, db.globals[g], attested)
    ensures !Stops(db, db.globals[g], attested)
  {
    forall r ensures !SkippedSoon(db, db.globals[g], r, attested) && !MixedSoon(db, db.globals[g], r, attested) {
      NeverSkipped(db, db.globals[g], r, attested);
    }
  }

  lemma RequiredStaysOpen(db: Db, c: Db, g: GlobalId, attested: Attestations)
    requires g in db.globals && RefreshedTo(db, c, g, attested) && ReleasedEnded(db, db.globals[g])
    requires RequiredOpen(db, db.globals[g]) && !Released(db, c, db.globals[g])
    ensures RequiredOpen(c, c.globals[g])
  {
    var row := db.globals[g];
    var r :| r in row.members && r !in row.optional && !Succeeding(db, r);
    assert MemberFacts(db, c, row, r, attested);
    assert RunningSoon(db, row, r, attested) ==> StartedSoon(db, row, r, attested) && RunRunningIn(c, r);
  }

  lemma FallbacksStayAway(a: Db, b: Db, g: Global, g': Global)
    requires NoFallbackDeps(a, g) && DepsLater(a, b) && g'.deps == g.deps && b.xdeps.Keys == a.xdeps.Keys
    ensures NoFallbackDeps(b, g')
  {
    forall d | d in g'.deps && d in b.xdeps ensures !b.xdeps[d].condition.IfFailure? {
      assert DepLater(a.xdeps[d], b.xdeps[d]);
    }
  }

  /** Convergence without a stop: with `all_success` and `all_terminal` dependencies, optional
      members or not, the refreshes end the Global Run or release a project, and none throws. */
  lemma {:induction false} RefreshesSuffice(db: Db, g: GlobalId, calls: seq<Attestations>)
    requires Converging(db, g) && NoFallbackDeps(db, db.globals[g])
    requires |calls| > |Preparing(db, db.globals[g])| && Clear(db, db.globals[g], calls[0])
    ensures EndsOrReleases(db, g, calls)
    decreases |calls|
  {
    var o := RefreshGlobal(db, g, calls[0]);
    ClearDoesNotStop(db, g, calls[0]);
    NextCall(db, g, calls[0]);
    if !GlobalEnded(o.db, g) && !Released(db, o.db, db.globals[g]) {
      StillClear(db, g, calls[0]);
      RefreshesSuffice(o.db, g, calls[1..]);
    }
  }

  lemma StillClear(db: Db, g: GlobalId, attested: Attestations)
    requires Converging(db, g) && NoFallbackDeps(db, db.globals[g]) && Clear(db, db.globals[g], attested)
    requires RefreshGlobal(db, g, attested).ok
    requires !GlobalEnded(RefreshGlobal(db, g, attested).db, g)
    requires !Released(db, RefreshGlobal(db, g, attested).db, db.globals[g])
    ensures var c := RefreshGlobal(db, g, attested).db;
      g in c.globals && NoFallbackDeps(c, c.globals[g]) && RequiredOpen(c, c.globals[g])
  {
    var c := RefreshGlobal(db, g, attested).db;
    RefreshDone(db, g, attested);
    DestinyEnds(db, db.globals[g], attested);
    RequiredStaysOpen(db, c, g, attested);
    FallbacksStayAway(db, c, db.globals[g], c.globals[g]);
  }
}
