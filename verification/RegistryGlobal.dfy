/** The Global Run calls, built from the steps RegistryKeeps handles one by one. */
module RegistryGlobal {
  import opened DomainStates
  import opened TaskRows
  import opened Handoffs
  import opened RegistrySteps
  import opened RegistryInvariant
  import opened RegistryKeeps

  /** A call that makes no claim and answers no worker. */
  ghost predicate Held(a: Db, b: Db) { Moved(a, b) && SteadyDb(a, b) && RegularStep(a, b) }

  lemma HeldReflexive(a: Db)
    requires Inv(a)
    ensures Held(a, a)
  {
    KeptReflexive(a);
  }

  lemma HeldTransitive(a: Db, b: Db, c: Db)
    requires Held(a, b) && Held(b, c)
    ensures Held(a, c)
  {
    KeptTransitive(a, b, c);
    IdleTransitive(a, b, c);
    SteadyTransitive(a, b, c);
  }

  lemma HeldGood(a: Db, b: Db)
    requires Good(a) && Held(a, b)
    ensures Good(b)
  {
    MovedGood(a, b);
  }

  lemma SettleRunHeld(db: Db, r: RunId)
    requires Inv(db)
    ensures Held(db, SettleRun(db, r).db)
  {
    SettleRunKeeps(db, r);
    if Settles(db, r) { SetRunIdle(db, r, DeriveRunStatus(StatusesOf(db, r)).value, false); }
  }

  lemma ReleaseRunHeld(db: Db, r: RunId)
    requires Inv(db)
    ensures Held(db, ReleaseRun(db, r).db)
  {
    ReleaseRunKeeps(db, r);
    ReleaseRunIdle(db, r);
    ReleaseRunSteady(db, r);
  }

  lemma ReleaseRunSteady(db: Db, r: RunId)
    ensures SteadyDb(db, ReleaseRun(db, r).db) && RegularStep(db, ReleaseRun(db, r).db)
  {
    if Releasable(db, r) {
      var tasks := map id | id in db.tasks :: ReleasedIn(db.tasks[id], r);
      forall id | id in tasks ensures Steady(db.tasks[id], tasks[id]) { RunCallsSteady(db.tasks[id], r); }
      BulkSteady(db, tasks, r, RunRunning);
    } else {
      StayingSteady(db);
    }
  }

  lemma StayingSteady(db: Db)
    ensures SteadyDb(db, db)
  {
  }

  lemma EndingHeld(db: Db, tasks: map<TaskId, Task>, r: RunId, s: RunStatus)
    requires Kept(db, SetRun(db.(tasks := tasks), r, s, false).db) && !s.RunPreparing? && tasks.Keys == db.tasks.Keys
    requires forall id :: id in tasks ==> Steady(db.tasks[id], tasks[id]) && EndedOrSame(db.tasks[id], tasks[id])
    ensures Held(db, SetRun(db.(tasks := tasks), r, s, false).db)
  {
    EndingIdle(db, tasks, r, s);
    BulkSteady(db, tasks, r, s);
  }

  lemma CancelRunHeld(db: Db, r: RunId)
    requires Inv(db)
    ensures Held(db, CancelRun(db, r).db)
  {
    CancelRunKeeps(db, r);
    if r in db.runs {
      var tasks := map id | id in db.tasks :: CanceledIn(db.tasks[id], r);
      forall id | id in tasks ensures Steady(db.tasks[id], tasks[id]) { RunCallsSteady(db.tasks[id], r); }
      EndingHeld(db, tasks, r, RunCancelled);
    } else {
      HeldReflexive(db);
    }
  }

  lemma DoomRunHeld(db: Db, r: RunId)
    requires Inv(db)
    ensures Held(db, DoomRun(db, r).db)
  {
    DoomRunKeeps(db, r);
    var tasks := map id | id in db.tasks :: DoomedIn(db.tasks[id], r);
    forall id | id in tasks ensures Steady(db.tasks[id], tasks[id]) { RunCallsSteady(db.tasks[id], r); }
    EndingHeld(db, tasks, r, RunFailed);
  }

  lemma FailPreparedRunHeld(db: Db, r: RunId)
    requires Inv(db)
    ensures Held(db, FailPreparedRun(db, r).db)
  {
    FailPreparedRunKeeps(db, r);
    HeldReflexive(db);
    if FailPreparedRun(db, r).db != db { FailedRowsHeld(db, r); }
  }

  lemma FailedRowsHeld(db: Db, r: RunId)
    requires var tasks := map id | id in db.tasks :: FailedIn(db.tasks[id], r);
      Kept(db, SetRun(db.(tasks := tasks), r, RunFailed, false).db)
    ensures var tasks := map id | id in db.tasks :: FailedIn(db.tasks[id], r);
      Held(db, SetRun(db.(tasks := tasks), r, RunFailed, false).db)
  {
    var tasks := map id | id in db.tasks :: FailedIn(db.tasks[id], r);
    forall id | id in tasks ensures Steady(db.tasks[id], tasks[id]) { RunCallsSteady(db.tasks[id], r); }
    EndingHeld(db, tasks, r, RunFailed);
  }

  lemma MaterialiseDepHeld(db: Db, d: DepId, attested: Attestations)
    requires Inv(db)
    ensures Held(db, MaterialiseDep(db, d, attested)) && SameCore(db, MaterialiseDep(db, d, attested))
  {
    MaterialiseDepKeeps(db, d, attested);
    MaterialiseRegular(db, d, attested);
  }

  lemma SetGlobalHeld(db: Db, g: GlobalId, s: GlobalStatus)
    requires Inv(db)
    ensures Held(db, SetGlobal(db, g, s).db) && SameCore(db, SetGlobal(db, g, s).db)
  {
    if SetGlobal(db, g, s).ok { GlobalWrite(db, g, db.globals[g].(status := s)); } else { HeldReflexive(db); }
  }

  // ---------- Phases of refreshGlobalRun ----------

  lemma {:induction false} SettleAllHeld(db: Db, rs: seq<RunId>)
    requires Inv(db)
    ensures Held(db, SettleAll(db, rs).db)
    decreases |rs|
  {
    if rs == [] { HeldReflexive(db); } else {
      var next := SettleRun(db, rs[0]);
      SettleRunHeld(db, rs[0]);
      if next.ok {
        SettleAllHeld(next.db, rs[1..]);
        HeldTransitive(db, next.db, SettleAll(next.db, rs[1..]).db);
      }
    }
  }

  lemma ResolveDepHeld(db: Db, d: DepId)
    requires Inv(db)
    ensures Held(db, ResolveDep(db, d)) && SameCore(db, ResolveDep(db, d))
  {
    if Resolves(db, d) {
      DepWrite(db, d, ResolveDep(db, d).xdeps[d], db.handoffs);
    } else {
      HeldReflexive(db);
    }
  }

  lemma {:induction false} ResolveAllHeld(db: Db, ds: seq<DepId>)
    requires Inv(db)
    ensures Held(db, ResolveAll(db, ds)) && SameCore(db, ResolveAll(db, ds))
    decreases |ds|
  {
    if ds == [] { HeldReflexive(db); } else {
      var next := ResolveDep(db, ds[0]);
      ResolveDepHeld(db, ds[0]);
      ResolveAllHeld(next, ds[1..]);
      HeldTransitive(db, next, ResolveAll(next, ds[1..]));
    }
  }

  lemma {:induction false} MaterialiseAllHeld(db: Db, ds: seq<DepId>, attested: Attestations)
    requires Inv(db)
    ensures Held(db, MaterialiseAll(db, ds, attested)) && SameCore(db, MaterialiseAll(db, ds, attested))
    decreases |ds|
  {
    if ds == [] { HeldReflexive(db); } else {
      var due := ds[0] in db.xdeps && db.xdeps[ds[0]].status.DepSatisfied?;
      var next := if due then MaterialiseDep(db, ds[0], attested) else db;
      if due { MaterialiseDepHeld(db, ds[0], attested); } else { HeldReflexive(db); }
      MaterialiseAllHeld(next, ds[1..], attested);
      HeldTransitive(db, next, MaterialiseAll(next, ds[1..], attested));
    }
  }

  /** Runs of `rs` still preparing have something left to start. */
  ghost predicate Unsettled(db: Db, rs: seq<RunId>) { forall r :: r in rs && RunPreparingIn(db, r) ==> !Settles(db, r) }

  lemma SettleRunUnsettles(db: Db, q: RunId, rs: seq<RunId>)
    requires Unsettled(db, rs) && SettleRun(db, q).ok
    ensures Unsettled(SettleRun(db, q).db, rs + [q])
  {
    var b := SettleRun(db, q).db;
    forall r | r in rs + [q] && RunPreparingIn(b, r) ensures !Settles(b, r) {
      assert StatusesOf(b, r) == StatusesOf(db, r);
      assert r in rs || r == q;
    }
  }

  lemma {:induction false} SettleAllUnsettles(db: Db, done: seq<RunId>, rs: seq<RunId>)
    requires Unsettled(db, done) && SettleAll(db, rs).ok
    ensures Unsettled(SettleAll(db, rs).db, done + rs)
    decreases |rs|
  {
    if rs == [] { assert done + rs == done; } else {
      SettleRunUnsettles(db, rs[0], done);
      SettleAllUnsettles(SettleRun(db, rs[0]).db, done + [rs[0]], rs[1..]);
      assert done + [rs[0]] + rs[1..] == done + rs;
    }
  }

  /** Only the rows of run `r` differ. */
  ghost predicate LocalTo(a: Db, b: Db, r: RunId) {
    && b.tasks.Keys == a.tasks.Keys
    && (forall id :: id in a.tasks ==> b.tasks[id].runId == a.tasks[id].runId)
    && (forall id :: id in a.tasks && a.tasks[id].runId != r ==> b.tasks[id] == a.tasks[id])
    && (forall q :: q in a.runs && q != r ==> q in b.runs && b.runs[q] == a.runs[q])
    && b.runs.Keys == a.runs.Keys && b.xdeps == a.xdeps && b.handoffs == a.handoffs && b.globals == a.globals
  }

  lemma LocalStatuses(a: Db, b: Db, r: RunId, q: RunId)
    requires LocalTo(a, b, r) && q != r
    ensures StatusesOf(b, q) == StatusesOf(a, q) && (Settles(b, q) <==> Settles(a, q))
  {
    forall s | s in StatusesOf(a, q) ensures s in StatusesOf(b, q) {
      var id :| id in a.tasks && a.tasks[id].runId == q && a.tasks[id].status == s;
      assert b.tasks[id] == a.tasks[id];
    }
    forall s | s in StatusesOf(b, q) ensures s in StatusesOf(a, q) {
      var id :| id in b.tasks && b.tasks[id].runId == q && b.tasks[id].status == s;
      assert a.tasks[id] == b.tasks[id];
    }
  }

  lemma StagedRemains(db: Db, r: RunId)
    requires PreparingIdle(db) && RunPreparingIn(db, r) && !Settles(db, r)
    requires exists id :: id in db.tasks && db.tasks[id].runId == r
    ensures exists id :: id in db.tasks && db.tasks[id].runId == r && db.tasks[id].status.Staged?
  {
    var id :| id in db.tasks && db.tasks[id].runId == r;
    assert db.tasks[id].status in StatusesOf(db, r);
    var s :| s in StatusesOf(db, r) && !Terminal(s);
    var task :| task in db.tasks && db.tasks[task].runId == r && db.tasks[task].status == s;
    assert AtRest(db.tasks[task].status);
  }

  /** A preparing consumer that has just been refreshed still holds a staged task, so the
      skip branch throws before it writes anything. */
  lemma SkipThrows(db: Db, r: RunId)
    requires Good(db) && RunPreparingIn(db, r) && !Settles(db, r)
    ensures SkipRun(db, r) == Outcome(db, false)
  {
    assert RunWired(db, r, db.runs[r]);
    StagedRemains(db, r);
  }

  /** The rest of a consumer's call leaves other runs alone, and this one either as it was or
      out of preparation. */
  ghost predicate Consumes(a: Db, o: Outcome, r: RunId) {
    LocalTo(a, o.db, r) && (o.ok && RunPreparingIn(o.db, r) ==> o.db == a)
  }

  lemma BulkConsumes(db: Db, tasks: map<TaskId, Task>, r: RunId, s: RunStatus)
    requires r in db.runs && !s.RunPreparing? && tasks.Keys == db.tasks.Keys
    requires forall id :: id in tasks ==>
               tasks[id].runId == db.tasks[id].runId && (db.tasks[id].runId != r ==> tasks[id] == db.tasks[id])
    ensures Consumes(db, SetRun(db.(tasks := tasks), r, s, false), r)
  {
  }

  lemma DoomRunConsumes(db: Db, r: RunId)
    requires r in db.runs
    ensures Consumes(db, DoomRun(db, r), r)
  {
    BulkConsumes(db, map id | id in db.tasks :: DoomedIn(db.tasks[id], r), r, RunFailed);
  }

  lemma ReleaseRunConsumes(db: Db, r: RunId)
    requires r in db.runs
    ensures Consumes(db, ReleaseRun(db, r), r)
  {
    BulkConsumes(db, map id | id in db.tasks :: ReleasedIn(db.tasks[id], r), r, RunRunning);
    StandingConsumes(db, false, r);
  }

  lemma StandingConsumes(db: Db, ok: bool, r: RunId)
    ensures Consumes(db, Outcome(db, ok), r)
  {
  }

  lemma SettleConsumerLocal(db: Db, g: Global, r: RunId)
    requires Good(db) && (RunPreparingIn(db, r) ==> !Settles(db, r))
    ensures Consumes(db, SettleConsumer(db, g, r), r)
  {
    if ConsumerIdle(db, g, r) { StandingConsumes(db, true, r); }
    else if AnyInbound(db, g, r, DepFailed) { DoomRunConsumes(db, r); }
    else if db.runs[r].status.RunPreparing? && AllInbound(db, g, r, DepSkipped) {
      SkipThrows(db, r);
      StandingConsumes(db, false, r);
    }
    else if ConsumerReleases(db, g, r) { ReleaseRunConsumes(db, r); }
    else { StandingConsumes(db, true, r); }
  }

  lemma SettleConsumerHeld(db: Db, g: Global, r: RunId)
    requires Good(db) && (RunPreparingIn(db, r) ==> !Settles(db, r))
    ensures Held(db, SettleConsumer(db, g, r).db)
  {
    if ConsumerIdle(db, g, r) { HeldReflexive(db); }
    else if AnyInbound(db, g, r, DepFailed) { DoomRunHeld(db, r); }
    else if db.runs[r].status.RunPreparing? && AllInbound(db, g, r, DepSkipped) {
      SkipThrows(db, r);
      HeldReflexive(db);
    }
    else if ConsumerReleases(db, g, r) { ReleaseRunHeld(db, r); }
    else { HeldReflexive(db); }
  }

  lemma {:induction false} SettleConsumersHeld(db: Db, g: Global, rs: seq<RunId>)
    requires Good(db) && Unsettled(db, rs)
    ensures Held(db, SettleConsumers(db, g, rs).db)
    decreases |rs|
  {
    if rs == [] { HeldReflexive(db); } else {
      var next := SettleConsumer(db, g, rs[0]);
      SettleConsumerHeld(db, g, rs[0]);
      SettleConsumerLocal(db, g, rs[0]);
      if next.ok {
        HeldGood(db, next.db);
        forall q | q in rs[1..] && RunPreparingIn(next.db, q) ensures !Settles(next.db, q) {
          if q != rs[0] { LocalStatuses(db, next.db, rs[0], q); }
        }
        SettleConsumersHeld(next.db, g, rs[1..]);
        HeldTransitive(db, next.db, SettleConsumers(next.db, g, rs[1..]).db);
      }
    }
  }

  lemma ConsumersAreMembers(db: Db, g: GlobalId)
    requires Wired(db) && g in db.globals
    ensures forall r :: r in Consumers(db, db.globals[g].deps) ==> r in db.globals[g].members
  {
    forall r | r in Consumers(db, db.globals[g].deps) ensures r in db.globals[g].members {
      var d :| d in db.globals[g].deps && d in db.xdeps && db.xdeps[d].consumer == r;
      assert GlobalWired(db, g, db.globals[g]) && DepWired(db, d, db.xdeps[d]);
    }
  }

  // ---------- Whole calls ----------

  predicate Refreshable(db: Db, g: GlobalId) {
    g in db.globals && db.globals[g].revisionValid && !GlobalTerminal(db.globals[g].status)
  }

  /** The tables when refreshGlobalRun turns to its consumers. */
  function Resolved(db: Db, g: GlobalId, attested: Attestations): Db
    requires g in db.globals
  {
    MaterialiseAll(ResolveAll(SettleAll(db, db.globals[g].members).db, db.globals[g].deps), db.globals[g].deps,
                   attested)
  }

  lemma UnsettledAcross(a: Db, b: Db, rs: seq<RunId>)
    requires SameCore(a, b) && Unsettled(a, rs)
    ensures Unsettled(b, rs)
  {
    forall r | r in rs && RunPreparingIn(b, r) ensures !Settles(b, r) {
      assert StatusesOf(b, r) == StatusesOf(a, r);
    }
  }

  lemma DeliveredHeld(a: Db, ds: seq<DepId>, attested: Attestations)
    requires Inv(a)
    ensures var c := MaterialiseAll(ResolveAll(a, ds), ds, attested); Held(a, c) && SameCore(a, c)
  {
    var b := ResolveAll(a, ds);
    ResolveAllHeld(a, ds);
    MaterialiseAllHeld(b, ds, attested);
    HeldTransitive(a, b, MaterialiseAll(b, ds, attested));
  }

  lemma ResolvedUnsettled(db: Db, g: GlobalId, attested: Attestations)
    requires Inv(db) && g in db.globals && SettleAll(db, db.globals[g].members).ok
    ensures Unsettled(Resolved(db, g, attested), db.globals[g].members)
  {
    var row := db.globals[g];
    SettleAllHeld(db, row.members);
    DeliveredHeld(SettleAll(db, row.members).db, row.deps, attested);
    SettleAllUnsettles(db, [], row.members);
    assert [] + row.members == row.members;
    UnsettledAcross(SettleAll(db, row.members).db, Resolved(db, g, attested), row.members);
  }

  lemma ResolvedHeld(db: Db, g: GlobalId, attested: Attestations)
    requires Good(db) && g in db.globals && SettleAll(db, db.globals[g].members).ok
    ensures Held(db, Resolved(db, g, attested)) && Good(Resolved(db, g, attested))
  {
    var a := SettleAll(db, db.globals[g].members).db;
    SettleAllHeld(db, db.globals[g].members);
    DeliveredHeld(a, db.globals[g].deps, attested);
    HeldTransitive(db, a, Resolved(db, g, attested));
    HeldGood(db, Resolved(db, g, attested));
  }

  lemma ConsumedHeld(db: Db, g: GlobalId, attested: Attestations)
    requires Good(db) && g in db.globals && SettleAll(db, db.globals[g].members).ok
    ensures var mid := Resolved(db, g, attested);
      Held(db, SettleConsumers(mid, db.globals[g], Consumers(mid, db.globals[g].deps)).db)
  {
    var row := db.globals[g];
    var mid := Resolved(db, g, attested);
    ResolvedHeld(db, g, attested);
    ResolvedUnsettled(db, g, attested);
    assert GlobalLater(row, mid.globals[g]);
    ConsumersAreMembers(mid, g);
    SettleConsumersHeld(mid, row, Consumers(mid, row.deps));
    HeldTransitive(db, mid, SettleConsumers(mid, row, Consumers(mid, row.deps)).db);
  }

  lemma ProjectGlobalHeld(db: Db, g: GlobalId, released: bool)
    requires Inv(db) && g in db.globals
    ensures Held(db, ProjectGlobal(db, g, released).db)
  {
    var row := db.globals[g];
    var terminal := DeriveGlobalStatus(Projected(db, row), row.cancelRequested);
    SetGlobalHeld(db, g, if terminal.Some? then terminal.value
                         else if AnyRunning(db, row) || released then GlobalRunning else GlobalWaiting);
  }

  lemma RefreshGlobalHeld(db: Db, g: GlobalId, attested: Attestations)
    requires Good(db)
    ensures Held(db, RefreshGlobal(db, g, attested).db)
  {
    HeldReflexive(db);
    if Refreshable(db, g) {
      var row := db.globals[g];
      SettleAllHeld(db, row.members);
      if SettleAll(db, row.members).ok {
        var mid := Resolved(db, g, attested);
        var consumed := SettleConsumers(mid, row, Consumers(mid, row.deps));
        ConsumedHeld(db, g, attested);
        if consumed.ok {
          ProjectGlobalHeld(consumed.db, g, consumed.released);
          HeldTransitive(db, consumed.db, ProjectGlobal(consumed.db, g, consumed.released).db);
        }
      }
    }
  }

  lemma RefreshRunHeld(db: Db, r: RunId, attested: Attestations)
    requires Good(db)
    ensures Held(db, RefreshRun(db, r, attested).db)
  {
    var s := SettleRun(db, r);
    SettleRunHeld(db, r);
    if s.ok && Settles(db, r) && db.runs[r].gate.Some? {
      HeldGood(db, s.db);
      RefreshGlobalHeld(s.db, db.runs[r].gate.value.global, attested);
      HeldTransitive(db, s.db, RefreshRun(db, r, attested).db);
    }
  }

  lemma {:induction false} ReleaseAllHeld(db: Db, rs: seq<RunId>)
    requires Inv(db)
    ensures Held(db, ReleaseAll(db, rs).db)
    decreases |rs|
  {
    if rs == [] { HeldReflexive(db); } else {
      var next := ReleaseRun(db, rs[0]);
      ReleaseRunHeld(db, rs[0]);
      if next.ok {
        ReleaseAllHeld(next.db, rs[1..]);
        HeldTransitive(db, next.db, ReleaseAll(next.db, rs[1..]).db);
      }
    }
  }

  lemma ReleaseGlobalHeld(db: Db, g: GlobalId)
    requires Inv(db)
    ensures Held(db, ReleaseGlobal(db, g).db)
  {
    HeldReflexive(db);
    if g in db.globals {
      var s := ReleaseAll(db, Roots(db, db.globals[g], db.globals[g].members));
      ReleaseAllHeld(db, Roots(db, db.globals[g], db.globals[g].members));
      SetGlobalHeld(s.db, g, GlobalRunning);
      HeldTransitive(db, s.db, SetGlobal(s.db, g, GlobalRunning).db);
    }
  }

  lemma RequestCancellationHeld(db: Db, g: GlobalId)
    requires Inv(db)
    ensures Held(db, RequestCancellation(db, g).db)
  {
    if g in db.globals && !GlobalTerminal(db.globals[g].status) {
      GlobalWrite(db, g, db.globals[g].(cancelRequested := true));
    } else {
      HeldReflexive(db);
    }
  }

  lemma {:induction false} CancelMembersHeld(db: Db, rs: seq<RunId>)
    requires Inv(db)
    ensures Held(db, CancelMembers(db, rs).db)
    decreases |rs|
  {
    if rs == [] { HeldReflexive(db); }
    else if rs[0] in db.runs && !RunTerminal(db.runs[rs[0]].status) {
      var next := CancelRun(db, rs[0]);
      CancelRunHeld(db, rs[0]);
      if next.ok {
        CancelMembersHeld(next.db, rs[1..]);
        HeldTransitive(db, next.db, CancelMembers(next.db, rs[1..]).db);
      }
    } else {
      CancelMembersHeld(db, rs[1..]);
    }
  }

  lemma CancelGlobalHeld(db: Db, g: GlobalId, childrenDone: bool)
    requires Inv(db)
    ensures Held(db, CancelGlobal(db, g, childrenDone).db)
  {
    var a := RequestCancellation(db, g);
    RequestCancellationHeld(db, g);
    if a.ok && !GlobalTerminal(a.db.globals[g].status) {
      var b := if childrenDone then Outcome(a.db, true) else CancelMembers(a.db, a.db.globals[g].members);
      if childrenDone { HeldReflexive(a.db); } else { CancelMembersHeld(a.db, a.db.globals[g].members); }
      HeldTransitive(db, a.db, b.db);
      if b.ok {
        SetGlobalHeld(b.db, g, GlobalCancelled);
        HeldTransitive(db, b.db, SetGlobal(b.db, g, GlobalCancelled).db);
      }
    }
  }
}
