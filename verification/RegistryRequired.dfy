/** Global Runs all of whose projects are required, without fallbacks between projects: refreshing
    them ends them or starts a project. */
module RegistryRequired {
  import opened DomainStates
  import opened TaskRows
  import opened Handoffs
  import opened RegistrySteps
  import opened RegistryInvariant
  import opened RegistryKeeps
  import opened RegistryGlobal
  import opened RegistryHistory
  import opened RegistryForecast
  import opened RegistryTurns
  import opened RegistryFinish
  import opened RegistryConvergence
  import opened RegistryRelease
  import opened RegistryDelivered
  import V = RegistryEvents

  /** A dependency that project `r` needs has failed. */
  ghost predicate Closed(db: Db, g: Global, r: RunId) {
    exists d :: ConsumesIn(db, g, d, r) && db.xdeps[d].status.DepFailed?
  }

  /** One of the project's tasks ended without success. */
  ghost predicate Marred(db: Db, r: RunId) { exists id :: InRun(db, id, r) && Repairable(db.tasks[id].status) }

  // ---------- A doomed project ----------

  lemma DoomedTask(db: Db, mid: Db, b: Db, g: Global, r: RunId, id: TaskId)
    requires RowsTurned(mid, b, g, r) && TurnDooms(mid, g, r) && mid.tasks == db.tasks
    requires InRun(db, id, r) && !Terminal(db.tasks[id].status) && RowFits(db, db.tasks[id], db.nextToken)
    ensures InRun(b, id, r) && Repairable(b.tasks[id].status)
  {
    assert InRun(mid, id, r);
    assert TurnedTask(mid, g, r, mid.tasks[id], b.tasks[id]);
  }

  lemma OpenTask(db: Db, r: RunId) returns (id: TaskId)
    requires Inv(db) && r in db.runs && !OverSoon(db, r)
    ensures InRun(db, id, r) && !Terminal(db.tasks[id].status) && RowFits(db, db.tasks[id], db.nextToken)
  {
    id :| InRun(db, id, r) && !Terminal(db.tasks[id].status);
  }

  lemma DoomedRows(db: Db, g: GlobalId, attested: Attestations, r: RunId)
    requires Refreshing(db, g) && Before(db, g, attested).ok && r in db.globals[g].members
    requires DoomedSoon(db, db.globals[g], r, attested)
    ensures RowsTurned(Resolved(db, g, attested), Before(db, g, attested).db, db.globals[g], r)
    ensures TurnDooms(Resolved(db, g, attested), db.globals[g], r) && Resolved(db, g, attested).tasks == db.tasks
  {
    var row, mid := db.globals[g], Resolved(db, g, attested);
    ResolvedTables(db, g, attested);
    ResolvedReady(db, g, attested);
    ResolvedForeseen(db, g, attested);
    ConsumerForeseen(db, mid, row, r, attested);
    TurnForeseen(db, mid, row, r, attested);
    var d :| ConsumesIn(db, row, d, r) && Forecast(db, d, attested) == DepFailed;
    assert Consumer(db, row, r);
    ConsumerListed(mid, row, r);
    TurnsTurn(mid, g, Consumers(mid, row.deps), r);
  }

  lemma DoomedMarred(db: Db, g: GlobalId, attested: Attestations, r: RunId)
    requires Refreshing(db, g) && RefreshGlobal(db, g, attested).ok && r in db.globals[g].members
    requires DoomedSoon(db, db.globals[g], r, attested)
    ensures Marred(RefreshGlobal(db, g, attested).db, r)
  {
    var b := Before(db, g, attested).db;
    RefreshCore(db, g, attested);
    DoomedRows(db, g, attested, r);
    var id := OpenTask(db, r);
    DoomedTask(db, Resolved(db, g, attested), b, db.globals[g], r, id);
    assert InRun(RefreshGlobal(db, g, attested).db, id, r);
  }

  lemma DoomedClosed(db: Db, g: GlobalId, attested: Attestations, r: RunId)
    requires Refreshing(db, g) && DoomedSoon(db, db.globals[g], r, attested)
    ensures Closed(RefreshGlobal(db, g, attested).db, db.globals[g], r)
  {
    var d :| ConsumesIn(db, db.globals[g], d, r) && Forecast(db, d, attested) == DepFailed;
    DepAfter(db, g, attested, d);
    assert ConsumesIn(RefreshGlobal(db, g, attested).db, db.globals[g], d, r);
  }

  // ---------- A refresh that leaves the Global Run waiting ----------

  /** No project runs or is about to, none is refused or left in a mix. */
  ghost predicate Idle(db: Db, g: Global, attested: Attestations) {
    && !g.cancelRequested && RootsReleased(db, g)
    && (forall d :: d in g.deps ==> d in db.xdeps && db.xdeps[d].producer in g.members)
    && (forall r :: r in g.members ==>
          r in db.runs && Opened(db.runs[r].status) && !RunningSoon(db, g, r, attested)
          && !SkippedSoon(db, g, r, attested) && !MixedSoon(db, g, r, attested))
  }

  lemma IdlePreparing(db: Db, g: Global, r: RunId, attested: Attestations)
    requires Idle(db, g, attested) && r in g.members && !OverSoon(db, r) && !DoomedSoon(db, g, r, attested)
    ensures StillPreparing(db, g, r) && AnySoon(db, g, r, DepPending, attested)
  {
    assert RunPreparingIn(db, r);
    var d :| ConsumesIn(db, g, d, r);
    if !AnySoon(db, g, r, DepPending, attested) { FourWays(db, g, r, attested); }
  }

  lemma PendingAbove(db: Db, g: Global, rank: map<RunId, nat>, r: RunId, attested: Attestations) returns (p: RunId)
    requires Idle(db, g, attested) && AnySoon(db, g, r, DepPending, attested) && RunRank(rank, g.deps, db.xdeps)
    ensures p in g.members && !OverSoon(db, p) && p in rank && r in rank && rank[p] < rank[r]
  {
    var d :| ConsumesIn(db, g, d, r) && Forecast(db, d, attested) == DepPending;
    p := db.xdeps[d].producer;
  }

  /** Up the pending dependencies of an idle Global Run there is a project about to be failed. */
  lemma {:induction false} DoomedAbove(db: Db, g: Global, rank: map<RunId, nat>, r: RunId, attested: Attestations)
    returns (first: RunId)
    requires Idle(db, g, attested) && RunRank(rank, g.deps, db.xdeps) && r in g.members && !OverSoon(db, r)
    ensures first in g.members && DoomedSoon(db, g, first, attested)
    decreases if r in rank then rank[r] else 0
  {
    if DoomedSoon(db, g, r, attested) { first := r; } else {
      IdlePreparing(db, g, r, attested);
      var p := PendingAbove(db, g, rank, r, attested);
      first := DoomedAbove(db, g, rank, p, attested);
    }
  }

  /** A released Global Run under way, without fallbacks, in tables nobody tampered with. */
  ghost predicate Fit(db: Db, g: GlobalId) {
    Good(db) && Regular(db) && g in db.globals
    && var row := db.globals[g];
    row.members != [] && !row.cancelRequested && RootsReleased(db, row) && NoFallbackDeps(db, row)
  }

  lemma MembersPlaced(db: Db, g: GlobalId)
    requires Good(db) && g in db.globals
    ensures Ranked(db.globals[g].deps, db.xdeps)
    ensures forall r :: r in db.globals[g].members ==> r in db.runs && Opened(db.runs[r].status)
    ensures forall d :: d in db.globals[g].deps ==> d in db.xdeps && db.xdeps[d].producer in db.globals[g].members
  {
    MembersWired(db, g);
    WiredOpened(db);
    assert GlobalWired(db, g, db.globals[g]);
  }

  lemma WaitingQuiet(db: Db, g: Global, attested: Attestations)
    requires DepsFit(db, db.xdeps) && NoFallbackDeps(db, g) && Destiny(db, g, attested).GlobalWaiting?
    ensures forall r :: r in g.members ==>
      !RunningSoon(db, g, r, attested) && !SkippedSoon(db, g, r, attested) && !MixedSoon(db, g, r, attested)
  {
    forall r | r in g.members ensures !SkippedSoon(db, g, r, attested) && !MixedSoon(db, g, r, attested) {
      NeverSkipped(db, g, r, attested);
    }
  }

  lemma WaitingIdle(db: Db, g: GlobalId, attested: Attestations)
    requires Fit(db, g) && Destiny(db, db.globals[g], attested).GlobalWaiting?
    ensures Idle(db, db.globals[g], attested) && Ranked(db.globals[g].deps, db.xdeps)
  {
    MembersPlaced(db, g);
    WaitingQuiet(db, db.globals[g], attested);
  }

  lemma IdleDooms(db: Db, g: Global, attested: Attestations) returns (r: RunId)
    requires Idle(db, g, attested) && Ranked(g.deps, db.xdeps) && g.members != []
    requires Destiny(db, g, attested).GlobalWaiting?
    ensures r in g.members && DoomedSoon(db, g, r, attested)
  {
    var rank :| RunRank(rank, g.deps, db.xdeps);
    var m :| m in g.members && !EndedSoon(db, g, m, attested);
    r := DoomedAbove(db, g, rank, m, attested);
  }

  lemma WaitingDooms(db: Db, g: GlobalId, attested: Attestations) returns (r: RunId)
    requires Fit(db, g) && Destiny(db, db.globals[g], attested).GlobalWaiting?
    ensures r in db.globals[g].members && DoomedSoon(db, db.globals[g], r, attested)
  {
    WaitingIdle(db, g, attested);
    r := IdleDooms(db, db.globals[g], attested);
  }

  /** A project that cannot succeed any more: as long as nothing is repaired, and for ever if it has
      work of its own. */
  ghost predicate Struck(db: Db, g: Global, r: RunId, repaired: bool) {
    r in g.members && Closed(db, g, r) && (!repaired ==> Marred(db, r))
  }

  ghost predicate AnyStruck(db: Db, g: Global, repaired: bool) { exists r :: Struck(db, g, r, repaired) }

  lemma SameStruck(db: Db, g: Global, g': Global, r: RunId, repaired: bool)
    requires Struck(db, g, r, repaired) && g'.members == g.members && g'.deps == g.deps
    ensures Struck(db, g', r, repaired)
  {
    var d :| ConsumesIn(db, g, d, r) && db.xdeps[d].status.DepFailed?;
    assert ConsumesIn(db, g', d, r);
  }

  lemma RefreshStrikes(db: Db, g: GlobalId, attested: Attestations, repaired: bool)
    requires Fit(db, g) && !db.globals[g].status.GlobalWaiting?
    requires var c := RefreshGlobal(db, g, attested).db; g in c.globals && c.globals[g].status.GlobalWaiting?
    ensures AnyStruck(RefreshGlobal(db, g, attested).db, RefreshGlobal(db, g, attested).db.globals[g], repaired)
  {
    var row, c := db.globals[g], RefreshGlobal(db, g, attested).db;
    if !GlobalTerminal(row.status) {
      StillRefreshing(db, g, attested);
      var r := WaitingDooms(db, g, attested);
      DoomedClosed(db, g, attested, r);
      DoomedMarred(db, g, attested, r);
      SameStruck(c, row, c.globals[g], r, repaired);
    }
  }

  // ---------- Which events make a Global Run wait ----------

  lemma OtherGlobal(db: Db, g: GlobalId, other: GlobalId, attested: Attestations)
    requires Good(db) && Regular(db) && g in db.globals && other != g
    ensures var c := RefreshGlobal(db, other, attested).db; g in c.globals && c.globals[g] == db.globals[g]
  {
    if Refreshing(db, other) {
      RefreshIs(db, other, attested);
      BeforeDeps(db, other, attested);
      if Before(db, other, attested).ok { RefreshWrites(db, other, attested); }
    }
  }

  lemma FewerRoots(a: Db, b: Db, g: Global)
    requires RootsReleased(a, g) && b.xdeps == a.xdeps && forall r :: RunPreparingIn(b, r) ==> RunPreparingIn(a, r)
    ensures RootsReleased(b, g)
  {
    forall r | r in g.members && RunPreparingIn(b, r) ensures exists d :: ConsumesIn(b, g, d, r) {
      var d :| ConsumesIn(a, g, d, r);
      assert ConsumesIn(b, g, d, r);
    }
  }

  lemma SettleOnlyRuns(db: Db, r: RunId)
    requires Inv(db)
    ensures var b := SettleRun(db, r).db;
      SameLinks(db, b) && b.globals == db.globals && forall m :: RunPreparingIn(b, m) ==> RunPreparingIn(db, m)
  {
  }

  lemma SettledFit(db: Db, r: RunId, g: GlobalId)
    requires Fit(db, g)
    ensures Fit(SettleRun(db, r).db, g) && SettleRun(db, r).db.globals == db.globals
  {
    var b := SettleRun(db, r).db;
    assert Good(b) && Regular(b) by { SettleRunHeld(db, r); HeldGood(db, b); }
    SettleOnlyRuns(db, r);
    FewerRoots(db, b, db.globals[g]);
  }

  ghost predicate NowWaits(a: Db, b: Db, g: GlobalId) {
    g in a.globals && g in b.globals && !a.globals[g].status.GlobalWaiting? && b.globals[g].status.GlobalWaiting?
  }

  lemma RefreshEventStrikes(db: Db, other: GlobalId, g: GlobalId, attested: Attestations, repaired: bool)
    requires Fit(db, g) && NowWaits(db, RefreshGlobal(db, other, attested).db, g)
    ensures AnyStruck(RefreshGlobal(db, other, attested).db, RefreshGlobal(db, other, attested).db.globals[g], repaired)
  {
    if other != g { OtherGlobal(db, g, other, attested); } else { RefreshStrikes(db, g, attested, repaired); }
  }

  lemma RefreshRunStrikes(db: Db, r: RunId, g: GlobalId, attested: Attestations, repaired: bool)
    requires Fit(db, g) && NowWaits(db, RefreshRun(db, r, attested).db, g)
    ensures AnyStruck(RefreshRun(db, r, attested).db, RefreshRun(db, r, attested).db.globals[g], repaired)
  {
    var s := SettleRun(db, r);
    SettledFit(db, r, g);
    if s.ok && Settles(db, r) && db.runs[r].gate.Some? {
      RefreshEventStrikes(s.db, db.runs[r].gate.value.global, g, attested, repaired);
    }
  }

  lemma {:induction false} ReleaseAllGlobals(db: Db, rs: seq<RunId>)
    ensures ReleaseAll(db, rs).db.globals == db.globals
    decreases |rs|
  {
    if rs != [] && ReleaseRun(db, rs[0]).ok { ReleaseAllGlobals(ReleaseRun(db, rs[0]).db, rs[1..]); }
  }

  lemma {:induction false} CancelMembersGlobals(db: Db, rs: seq<RunId>)
    ensures CancelMembers(db, rs).db.globals == db.globals
    decreases |rs|
  {
    if rs != [] {
      CancelMembersGlobals(db, rs[1..]);
      CancelMembersGlobals(CancelRun(db, rs[0]).db, rs[1..]);
    }
  }

  lemma CancelNeverWaits(db: Db, other: GlobalId, childrenDone: bool, g: GlobalId)
    ensures !NowWaits(db, CancelGlobal(db, other, childrenDone).db, g)
  {
    var requested := RequestCancellation(db, other).db;
    if other in requested.globals { CancelMembersGlobals(requested, requested.globals[other].members); }
  }

  lemma ReleaseNeverWaits(db: Db, other: GlobalId, g: GlobalId)
    ensures !NowWaits(db, ReleaseGlobal(db, other).db, g)
  {
    if other in db.globals { ReleaseAllGlobals(db, Roots(db, db.globals[other], db.globals[other].members)); }
  }

  lemma TaskEventNeverWaits(db: Db, e: Event, g: GlobalId)
    requires e.Tick? || e.SweepTask? || e.Row? || e.RepairTask? || e.RewriteHandoff? || e.ClaimTask?
    ensures !NowWaits(db, Apply(db, e).db, g)
  {
  }

  lemma RunEventNeverWaits(db: Db, e: Event, g: GlobalId)
    requires e.Release? || e.FailPrepared? || e.CancelRunTasks? || e.RequestCancel?
    ensures !NowWaits(db, Apply(db, e).db, g)
  {
  }

  lemma OtherEventNeverWaits(db: Db, e: Event, g: GlobalId)
    requires !e.Refresh? && !e.RefreshProjects? && !e.Create?
    ensures !NowWaits(db, Apply(db, e).db, g)
  {
    if e.ReleaseProjects? { ReleaseNeverWaits(db, e.global, g); }
    else if e.CancelProjects? { CancelNeverWaits(db, e.global, e.childrenDone, g); }
    else if e.Release? || e.FailPrepared? || e.CancelRunTasks? || e.RequestCancel? { RunEventNeverWaits(db, e, g); }
    else { TaskEventNeverWaits(db, e, g); }
  }

  lemma CreateNeverWaits(db: Db, b: Batch, g: GlobalId)
    ensures !NowWaits(db, CreateGraph(db, b).db, g)
  {
  }

  /** What matters of one event: a refresh, or no start of a wait. */
  ghost predicate Leads(a: Db, e: Event, b: Db, g: GlobalId) {
    match e
    case Refresh(r, attested) => b == RefreshRun(a, r, attested).db
    case RefreshProjects(other, attested) => b == RefreshGlobal(a, other, attested).db
    case _ => !NowWaits(a, b, g)
  }

  lemma ApplyLeads(a: Db, e: Event, g: GlobalId)
    ensures Leads(a, e, Apply(a, e).db, g)
  {
    if e.Create? { CreateNeverWaits(a, e.batch, g); }
    else if !e.Refresh? && !e.RefreshProjects? { OtherEventNeverWaits(a, e, g); }
  }

  /** Only a refresh makes a Global Run wait, and it fails a project when it does. */
  lemma EventStrikes(a: Db, e: Event, b: Db, g: GlobalId, repaired: bool)
    requires Fit(a, g) && Leads(a, e, b, g) && NowWaits(a, b, g)
    ensures AnyStruck(b, b.globals[g], repaired)
  {
    if e.Refresh? { RefreshRunStrikes(a, e.run, g, e.attested, repaired); }
    else { RefreshEventStrikes(a, e.global, g, e.attested, repaired); }
  }

  // ---------- Over a history ----------

  predicate RepairedAfter(es: seq<Event>, n: nat) { exists i :: n < i < |es| && es[i].RepairTask? }

  /** Under way and without fallbacks. */
  ghost predicate FitRow(db: Db, g: GlobalId) {
    g in db.globals
    && var row := db.globals[g];
    row.members != [] && !row.cancelRequested && NoFallbackDeps(db, row)
  }

  lemma FallbacksEarlier(a: Db, b: Db, g: Global, g': Global)
    requires NoFallbackDeps(b, g') && DepsLater(a, b) && g'.deps == g.deps
    ensures NoFallbackDeps(a, g)
  {
    forall d | d in g.deps && d in a.xdeps ensures !a.xdeps[d].condition.IfFailure? {
      assert DepLater(a.xdeps[d], b.xdeps[d]);
    }
  }

  lemma RowEarlier(a: Db, b: Db, g: GlobalId)
    requires Later(a, b) && g in a.globals && FitRow(b, g)
    ensures FitRow(a, g) && b.globals[g].members == a.globals[g].members && b.globals[g].deps == a.globals[g].deps
  {
    assert GlobalLater(a.globals[g], b.globals[g]);
    FallbacksEarlier(a, b, a.globals[g], b.globals[g]);
  }

  lemma ReleasedEarlier(es: seq<Event>, n: nat, g: GlobalId)
    requires ReleasedAt(es, n, g) && n + 1 < |es|
    ensures ReleasedAt(es[..|es| - 1], n, g)
  {
    assert es[..|es| - 1][..n] == es[..n];
  }

  lemma StillThere(es: seq<Event>, n: nat, g: GlobalId)
    requires ReleasedAt(es, n, g)
    ensures g in Replay(es).globals
  {
    ReleasedAtGood(es, n, g);
    HistoryLater(es, n + 1);
  }

  /** `b` has the Global Run of `a` with the same projects and dependencies, and undoes nothing. */
  ghost predicate Continues(a: Db, b: Db, g: GlobalId) {
    && g in a.globals && g in b.globals && Later(a, b)
    && b.globals[g].members == a.globals[g].members && b.globals[g].deps == a.globals[g].deps
  }

  lemma Shorter(es: seq<Event>, g: GlobalId)
    requires es != [] && g in Replay(es[..|es| - 1]).globals && FitRow(Replay(es), g)
    ensures FitRow(Replay(es[..|es| - 1]), g) && Continues(Replay(es[..|es| - 1]), Replay(es), g)
  {
    HistoryLater(es, |es| - 1);
    RowEarlier(Replay(es[..|es| - 1]), Replay(es), g);
  }

  lemma PrefixFit(es: seq<Event>, n: nat, g: GlobalId)
    requires ReleasedAt(es, n, g) && FitRow(Replay(es), g)
    ensures Fit(Replay(es), g)
  {
    ReleasedAtGood(es, n, g);
    HistoryRoots(es, n + 1, g);
    ReachableGood(es);
    ReachableRegular(es);
  }

  lemma RunsAtRelease(es: seq<Event>, n: nat, g: GlobalId)
    requires ReleasedAt(es, n, g) && |es| == n + 1 && g in Replay(es).globals
    ensures Replay(es).globals[g].status.GlobalRunning?
  {
    ReplayStep(es);
    ReleaseStartsRoots(Replay(es[..n]), g);
  }

  lemma ClosedStays(a: Db, b: Db, g: Global, g': Global, r: RunId)
    requires Closed(a, g, r) && DepsLater(a, b) && g'.deps == g.deps
    ensures Closed(b, g', r)
  {
    var d :| ConsumesIn(a, g, d, r) && a.xdeps[d].status.DepFailed?;
    assert DepLater(a.xdeps[d], b.xdeps[d]);
    assert ConsumesIn(b, g', d, r);
  }

  lemma MarredStays(a: Db, e: Event, o: Outcome, r: RunId)
    requires V.Step(a, e, o) && !e.RepairTask? && Marred(a, r) && TasksLater(a, o.db)
    ensures Marred(o.db, r)
  {
    var id :| InRun(a, id, r) && Repairable(a.tasks[id].status);
    V.TerminalPermanence(a, e, o, id);
    assert RowLater(a.tasks[id], o.db.tasks[id]);
    assert InRun(o.db, id, r);
  }

  lemma StruckStays(a: Db, e: Event, o: Outcome, g: Global, g': Global, r: RunId, before: bool, after: bool)
    requires V.Step(a, e, o) && Struck(a, g, r, before) && Later(a, o.db) && g'.members == g.members
    requires g'.deps == g.deps
    requires before || e.RepairTask? ==> after
    ensures Struck(o.db, g', r, after)
  {
    ClosedStays(a, o.db, g, g', r);
    if !after { MarredStays(a, e, o, r); }
  }

  lemma RepairedGrows(es: seq<Event>, n: nat)
    requires n + 1 < |es|
    ensures RepairedAfter(es, n) <==> RepairedAfter(es[..|es| - 1], n) || es[|es| - 1].RepairTask?
  {
    var before := es[..|es| - 1];
    if RepairedAfter(before, n) {
      var i :| n < i < |before| && before[i].RepairTask?;
      assert es[i].RepairTask?;
    }
    if RepairedAfter(es, n) {
      var i :| n < i < |es| && es[i].RepairTask?;
      assert i < |before| ==> before[i].RepairTask?;
    }
  }

  /** One event further: what was struck stays so, and a Global Run that starts to wait has it. */
  lemma StruckNext(a: Db, e: Event, o: Outcome, g: GlobalId, before: bool, after: bool)
    requires Fit(a, g) && Leads(a, e, o.db, g) && V.Step(a, e, o) && Continues(a, o.db, g)
    requires a.globals[g].status.GlobalWaiting? ==> AnyStruck(a, a.globals[g], before)
    requires (before || e.RepairTask? ==> after) && o.db.globals[g].status.GlobalWaiting?
    ensures AnyStruck(o.db, o.db.globals[g], after)
  {
    if a.globals[g].status.GlobalWaiting? {
      var r :| Struck(a, a.globals[g], r, before);
      StruckStays(a, e, o, a.globals[g], o.db.globals[g], r, before, after);
    } else {
      EventStrikes(a, e, o.db, g, after);
    }
  }

  lemma EventApplied(es: seq<Event>)
    requires es != []
    ensures var a, e := Replay(es[..|es| - 1]), es[|es| - 1]; Apply(a, e).db == Replay(es) && V.Step(a, e, Apply(a, e))
  {
    ReachableGood(es[..|es| - 1]);
    ReplayStep(es);
    V.EventStep(Replay(es[..|es| - 1]), es[|es| - 1]);
  }

  /** While a released Global Run without fallbacks waits, one of its projects has a failed
      dependency and, if nothing was repaired since the release, a task that ended without success. */
  lemma {:induction false} WaitsOnStruck(es: seq<Event>, n: nat, g: GlobalId)
    requires ReleasedAt(es, n, g) && FitRow(Replay(es), g) && Replay(es).globals[g].status.GlobalWaiting?
    ensures AnyStruck(Replay(es), Replay(es).globals[g], RepairedAfter(es, n))
    decreases |es|
  {
    if |es| == n + 1 { RunsAtRelease(es, n, g); } else {
      var before := es[..|es| - 1];
      ReleasedEarlier(es, n, g);
      StillThere(before, n, g);
      Shorter(es, g);
      PrefixFit(before, n, g);
      if Replay(before).globals[g].status.GlobalWaiting? { WaitsOnStruck(before, n, g); }
      EventApplied(es);
      ApplyLeads(Replay(before), es[|es| - 1], g);
      RepairedGrows(es, n);
      StruckNext(Replay(before), es[|es| - 1], Apply(Replay(before), es[|es| - 1]), g,
                 RepairedAfter(before, n), RepairedAfter(es, n));
    }
  }

  // ---------- Convergence ----------

  /** Every project has a task that is no fallback. */
  ghost predicate OwnWork(db: Db, g: Global) {
    forall r :: r in g.members ==> exists id :: InRun(db, id, r) && !db.tasks[id].policy.OnFailure?
  }

  lemma MarredFails(db: Db, r: RunId)
    requires CompletedSucceeded(db) && Marred(db, r)
    ensures !Succeeding(db, r)
  {
    var id :| InRun(db, id, r) && Repairable(db.tasks[id].status);
    assert !AllSuccessful(db, r);
  }

  lemma ClosedFails(db: Db, g: Global, r: RunId, id: TaskId)
    requires Inv(db) && ClaimedDelivered(db) && Closed(db, g, r) && InRun(db, id, r) && !db.tasks[id].policy.OnFailure?
    ensures !Succeeding(db, r)
  {
    var d :| ConsumesIn(db, g, d, r) && db.xdeps[d].status.DepFailed?;
    assert RowFits(db, db.tasks[id], db.nextToken);
    assert db.tasks[id].attempt == 0;
    assert !AllSuccessful(db, r);
  }

  lemma StruckFails(db: Db, g: Global, r: RunId, repaired: bool)
    requires Inv(db) && ClaimedDelivered(db) && Struck(db, g, r, repaired) && (repaired ==> OwnWork(db, g))
    ensures !Succeeding(db, r)
  {
    if !repaired { MarredFails(db, r); } else {
      var id :| InRun(db, id, r) && !db.tasks[id].policy.OnFailure?;
      ClosedFails(db, g, r, id);
    }
  }

  lemma AllSucceedClear(db: Db, g: Global, attested: Attestations)
    requires g.optional == {} && g.status in {GlobalRunning, GlobalWaiting}
    requires g.status.GlobalWaiting? ==> exists r :: r in g.members && !Succeeding(db, r)
    ensures Clear(db, g, attested)
  {
    if forall r :: r in g.members ==> Succeeding(db, r) {
      forall r | r in g.members ensures EndedSoon(db, g, r, attested) { SucceedingOver(db, r); }
    } else {
      var r :| r in g.members && !Succeeding(db, r);
      assert r !in g.optional;
    }
  }

  lemma SucceedingOver(db: Db, r: RunId)
    requires Succeeding(db, r)
    ensures OverSoon(db, r)
  {
    if !RunCompletedIn(db, r) { forall id | InRun(db, id, r) ensures Terminal(db.tasks[id].status) { } }
  }

  lemma AllSucceedCompletes(db: Db, g: Global, attested: Attestations)
    requires CompletedSucceeded(db) && g.members != [] && forall r :: r in g.members ==> Succeeding(db, r)
    ensures CompletesSoon(db, g, attested)
  {
    forall r | r in g.members ensures EndedSoon(db, g, r, attested) && !AttentionSoon(db, g, r, attested) {
      SucceedingOver(db, r);
      assert AllSuccessful(db, r);
      forall id | InRun(db, id, r) ensures Successful(db.tasks[id].status) { }
    }
  }

  /** A released Global Run of required projects, without fallbacks, whose released tasks are over. */
  ghost predicate Required(es: seq<Event>, n: nat, g: GlobalId) {
    ReleasedAt(es, n, g) && ReadyToRefresh(Replay(es), g)
    && NoFallbackDeps(Replay(es), Replay(es).globals[g]) && Replay(es).globals[g].optional == {}
  }

  /** It waits although every project has succeeded or is about to. */
  ghost predicate DoneWaiting(db: Db, g: Global) {
    g.status.GlobalWaiting? && forall r :: r in g.members ==> Succeeding(db, r)
  }

  /** Global convergence, exactly: projects plus one refreshes end the Global Run or start a project,
      none throwing, iff the Global Run does not already wait with every project successful. */
  lemma RequiredRunConvergesIff(es: seq<Event>, n: nat, g: GlobalId, calls: seq<Attestations>)
    requires Required(es, n, g) && |calls| == |Replay(es).globals[g].members| + 1
    ensures EndsOrReleases(Replay(es), g, calls) <==> !DoneWaiting(Replay(es), Replay(es).globals[g])
  {
    var db, row := Replay(es), Replay(es).globals[g];
    if DoneWaiting(db, row) {
      ReleasedConverging(es, n, g);
      AllSucceedCompletes(db, row, calls[0]);
      RefreshThrowsIff(db, g, calls[0]);
    } else {
      AllSucceedClear(db, row, calls[0]);
      ReleasedRunConverges(es, n, g, calls);
    }
  }

  lemma NeverDoneWaiting(es: seq<Event>, n: nat, g: GlobalId)
    requires Required(es, n, g) && (RepairedAfter(es, n) ==> OwnWork(Replay(es), Replay(es).globals[g]))
    ensures !DoneWaiting(Replay(es), Replay(es).globals[g])
  {
    var db, row := Replay(es), Replay(es).globals[g];
    if row.status.GlobalWaiting? {
      WaitsOnStruck(es, n, g);
      var r :| Struck(db, row, r, RepairedAfter(es, n));
      ReachableGood(es);
      ReachableDelivered(es);
      StruckFails(db, row, r, RepairedAfter(es, n));
    }
  }

  /** Global convergence: with required projects and without fallbacks between them, in every history
      in which nothing was repaired since the release, or every project has a task that is no
      fallback, projects plus one refreshes end the Global Run or start a project; none throws. */
  lemma RequiredRunConverges(es: seq<Event>, n: nat, g: GlobalId, calls: seq<Attestations>)
    requires Required(es, n, g) && |calls| == |Replay(es).globals[g].members| + 1
    requires RepairedAfter(es, n) ==> OwnWork(Replay(es), Replay(es).globals[g])
    ensures EndsOrReleases(Replay(es), g, calls)
  {
    NeverDoneWaiting(es, n, g);
    RequiredRunConvergesIff(es, n, g, calls);
  }
}
