/** What refreshGlobalRun finds when it turns to the consumers, read off the tables before the
    call: which members will be over, and how every dependency will stand. */
module RegistryForecast {
  import opened DomainStates
  import opened TaskRows
  import opened Handoffs
  import opened RegistrySteps
  import opened RegistryInvariant
  import opened RegistryKeeps
  import opened RegistryGlobal

  ghost predicate TasksEnded(db: Db, r: RunId) { forall id :: InRun(db, id, r) ==> Terminal(db.tasks[id].status) }

  predicate Over(db: Db, r: RunId) { r in db.runs && RunTerminal(db.runs[r].status) }

  /** Over, or with nothing left but to be settled. */
  ghost predicate OverSoon(db: Db, r: RunId) { r in db.runs && (RunTerminal(db.runs[r].status) || TasksEnded(db, r)) }

  /** Completed, or running with nothing left but to be completed. */
  ghost predicate Succeeding(db: Db, r: RunId) {
    RunCompletedIn(db, r) || (r in db.runs && db.runs[r].status.RunRunning? && AllSuccessful(db, r))
  }

  /** What the producer's end decides about dependency `d`, if it comes to an end. */
  ghost function Verdict(db: Db, d: DepId): DepStatus
    requires d in db.xdeps
  {
    var dep := db.xdeps[d];
    if dep.status.DepPending? && OverSoon(db, dep.producer)
    then ResolvedStatus(dep.condition, if Succeeding(db, dep.producer) then RunCompleted else RunFailed)
    else dep.status
  }

  predicate OutputsMissing(db: Db, d: DepId, attested: Attestations)
    requires d in db.xdeps
  {
    d !in db.handoffs && !Complete(PayloadFor(db, d, attested))
  }

  /** How dependency `d` will stand once it is decided and its handoff delivered. */
  ghost function Forecast(db: Db, d: DepId, attested: Attestations): DepStatus
    requires d in db.xdeps
  {
    if Verdict(db, d).DepSatisfied? && OutputsMissing(db, d, attested) then DepFailed else Verdict(db, d)
  }

  // ---------- Settling the members ----------

  /** Run statuses only come to an end, nothing else changes. */
  ghost predicate Settled(a: Db, b: Db) {
    && b == a.(runs := b.runs) && b.runs.Keys == a.runs.Keys
    && forall r :: r in a.runs ==>
      b.runs[r].gate == a.runs[r].gate && (b.runs[r].status == a.runs[r].status || SettlesTo(a, r, b.runs[r].status))
  }

  ghost predicate SettlesTo(a: Db, r: RunId, s: RunStatus)
    requires r in a.runs
  {
    !RunTerminal(a.runs[r].status) && RunTerminal(s) && TasksEnded(a, r)
    && (s.RunCompleted? <==> AllSuccessful(a, r)) && (s.RunCompleted? ==> a.runs[r].status.RunRunning?)
  }

  lemma PreparingNeverCompletes(db: Db, r: RunId)
    requires PreparingIdle(db) && RunPreparingIn(db, r) && Settles(db, r)
    ensures !AllSuccessful(db, r)
  {
    var s :| s in StatusesOf(db, r);
    var id := TaskWith(db, r, s);
    assert AtRest(db.tasks[id].status);
  }

  lemma TaskWith(db: Db, r: RunId, s: TaskStatus) returns (id: TaskId)
    requires s in StatusesOf(db, r)
    ensures InRun(db, id, r) && db.tasks[id].status == s
  {
    id :| id in db.tasks && db.tasks[id].runId == r && db.tasks[id].status == s;
  }

  lemma CompletedIffSuccessful(db: Db, r: RunId)
    requires Settles(db, r)
    ensures TasksEnded(db, r) && (DeriveRunStatus(StatusesOf(db, r)).value.RunCompleted? <==> AllSuccessful(db, r))
  {
    forall id | InRun(db, id, r) ensures db.tasks[id].status in StatusesOf(db, r) { }
  }

  lemma SettleStatus(db: Db, r: RunId, s: RunStatus)
    requires r in db.runs && Opened(db.runs[r].status) && !RunTerminal(db.runs[r].status)
    requires RunTerminal(s) && TasksEnded(db, r) && (s.RunCompleted? <==> AllSuccessful(db, r))
    requires s.RunCompleted? ==> db.runs[r].status.RunRunning?
    ensures SetRun(db, r, s, false).ok && Settled(db, SetRun(db, r, s, false).db)
  {
  }

  lemma SettleRunSettles(db: Db, r: RunId)
    requires PreparingIdle(db) && (r in db.runs ==> Opened(db.runs[r].status))
    ensures SettleRun(db, r).ok && Settled(db, SettleRun(db, r).db)
    ensures Settles(db, r) ==> RunTerminal(SettleRun(db, r).db.runs[r].status)
  {
    if Settles(db, r) {
      var s := DeriveRunStatus(StatusesOf(db, r)).value;
      if RunPreparingIn(db, r) { PreparingNeverCompletes(db, r); }
      CompletedIffSuccessful(db, r);
      SettleStatus(db, r, s);
    }
  }

  lemma SettledTransitive(a: Db, b: Db, c: Db)
    requires Settled(a, b) && Settled(b, c)
    ensures Settled(a, c)
  {
    forall r | r in a.runs
      ensures c.runs[r].gate == a.runs[r].gate
      ensures (c.runs[r].status == a.runs[r].status || SettlesTo(a, r, c.runs[r].status))
    {
      assert TasksEnded(b, r) ==> TasksEnded(a, r);
      assert AllSuccessful(b, r) <==> AllSuccessful(a, r);
    }
  }

  lemma EndedSettles(db: Db, r: RunId)
    requires r in db.runs && RunWired(db, r, db.runs[r]) && TasksEnded(db, r) && !RunTerminal(db.runs[r].status)
    ensures Settles(db, r)
  {
    var id :| id in db.tasks && db.tasks[id].runId == r;
    assert db.tasks[id].status in StatusesOf(db, r);
    forall s | s in StatusesOf(db, r) ensures Terminal(s) {
      var i := TaskWith(db, r, s);
    }
  }

  ghost predicate RunsOpened(db: Db) { forall r :: r in db.runs ==> Opened(db.runs[r].status) }

  lemma WiredOpened(db: Db)
    requires RunsWired(db)
    ensures RunsOpened(db)
  {
    forall r | r in db.runs ensures Opened(db.runs[r].status) { assert RunWired(db, r, db.runs[r]); }
  }

  lemma SettledIdle(a: Db, b: Db)
    requires Settled(a, b) && PreparingIdle(a) && RunsOpened(a)
    ensures PreparingIdle(b) && RunsOpened(b)
  {
  }

  lemma {:induction false} SettleAllSettles(db: Db, rs: seq<RunId>)
    requires PreparingIdle(db) && RunsOpened(db)
    ensures SettleAll(db, rs).ok && Settled(db, SettleAll(db, rs).db)
    decreases |rs|
  {
    if rs != [] {
      var next := SettleRun(db, rs[0]);
      SettleRunSettles(db, rs[0]);
      SettledIdle(db, next.db);
      SettleAllSettles(next.db, rs[1..]);
      SettledTransitive(db, next.db, SettleAll(next.db, rs[1..]).db);
    }
  }

  /** `r` is over or will be as soon as it is settled. */
  predicate OverOrSettles(db: Db, r: RunId) { Over(db, r) || Settles(db, r) }

  lemma OverOrSettlesAcross(a: Db, b: Db, r: RunId)
    requires Settled(a, b) && OverOrSettles(a, r)
    ensures OverOrSettles(b, r)
  {
    assert StatusesOf(b, r) == StatusesOf(a, r);
  }

  lemma {:induction false} SettleAllEnds(db: Db, rs: seq<RunId>, r: RunId)
    requires PreparingIdle(db) && RunsOpened(db)
    requires OverOrSettles(db, r) && (Over(db, r) || r in rs)
    ensures Over(SettleAll(db, rs).db, r)
    decreases |rs|
  {
    if rs != [] {
      var next := SettleRun(db, rs[0]);
      SettleRunSettles(db, rs[0]);
      SettledIdle(db, next.db);
      OverOrSettlesAcross(db, next.db, r);
      SettleAllEnds(next.db, rs[1..], r);
    }
  }

  lemma SettleAllOf(db: Db, g: Global)
    requires Good(db)
    ensures SettleAll(db, g.members).ok && Settled(db, SettleAll(db, g.members).db)
  {
    WiredOpened(db);
    SettleAllSettles(db, g.members);
  }

  /** How a member stands after settling, in terms of the tables before. */
  ghost predicate MemberSettled(a: Db, b: Db, r: RunId) {
    && r in a.runs && r in b.runs
    && (Over(b, r) <==> OverSoon(a, r))
    && (RunCompletedIn(b, r) <==> Succeeding(a, r))
    && (!Over(b, r) ==> b.runs[r] == a.runs[r])
  }

  lemma SettledShape(a: Db, b: Db, r: RunId)
    requires Settled(a, b) && r in a.runs && (OverSoon(a, r) ==> Over(b, r))
    ensures MemberSettled(a, b, r)
  {
    assert b.runs[r].status == a.runs[r].status || SettlesTo(a, r, b.runs[r].status);
    if AllSuccessful(a, r) { forall id | InRun(a, id, r) ensures Terminal(a.tasks[id].status) { } }
  }

  lemma SettleAllMember(db: Db, g: Global, r: RunId)
    requires Good(db) && r in g.members && r in db.runs
    ensures MemberSettled(db, SettleAll(db, g.members).db, r)
  {
    WiredOpened(db);
    SettleAllOf(db, g);
    if OverSoon(db, r) {
      if !Over(db, r) { EndedSettles(db, r); }
      SettleAllEnds(db, g.members, r);
    }
    SettledShape(db, SettleAll(db, g.members).db, r);
  }

  // ---------- Deciding and delivering ----------

  /** Only statuses of dependencies and handoffs differ. */
  ghost predicate DepsMoved(a: Db, b: Db) {
    && b == a.(xdeps := b.xdeps, handoffs := b.handoffs) && b.xdeps.Keys == a.xdeps.Keys
    && (forall d :: d in a.xdeps ==>
      DepLater(a.xdeps[d], b.xdeps[d]) && (b.xdeps[d].status.DepPending? ==> a.xdeps[d].status.DepPending?))
    && (forall d :: d in a.handoffs ==> d in b.handoffs)
  }

  lemma DepsMovedTransitive(a: Db, b: Db, c: Db)
    requires DepsMoved(a, b) && DepsMoved(b, c)
    ensures DepsMoved(a, c)
  {
    forall d | d in a.xdeps
      ensures DepLater(a.xdeps[d], c.xdeps[d]) && (c.xdeps[d].status.DepPending? ==> a.xdeps[d].status.DepPending?)
    {
      assert DepLater(a.xdeps[d], b.xdeps[d]) && DepLater(b.xdeps[d], c.xdeps[d]);
    }
  }

  /** The row `ResolveDep` leaves for `d`. */
  function Decided(db: Db, d: DepId): XDep
    requires d in db.xdeps
  {
    ResolveDep(db, d).xdeps[d]
  }

  lemma DecideStep(db: Db, other: DepId, d: DepId)
    requires d in db.xdeps
    ensures var b := ResolveDep(db, other);
      && DepsMoved(db, b) && b.handoffs == db.handoffs && d in b.xdeps
      && Decided(b, d) == Decided(db, d) && (other == d ==> b.xdeps[d] == Decided(db, d))
  {
  }

  lemma {:induction false} ResolveAllDecides(db: Db, ds: seq<DepId>, d: DepId)
    requires d in db.xdeps
    ensures var b := ResolveAll(db, ds);
      DepsMoved(db, b) && b.handoffs == db.handoffs
        && (d in ds || db.xdeps[d] == Decided(db, d) ==> b.xdeps[d] == Decided(db, d))
    decreases |ds|
  {
    if ds != [] {
      DecideStep(db, ds[0], d);
      ResolveAllDecides(ResolveDep(db, ds[0]), ds[1..], d);
      DepsMovedTransitive(db, ResolveDep(db, ds[0]), ResolveAll(db, ds));
    }
  }

  /** The status delivery leaves for `d`. */
  function DeliveredStatus(db: Db, d: DepId, attested: Attestations): DepStatus
    requires d in db.xdeps
  {
    if db.xdeps[d].status.DepSatisfied? && OutputsMissing(db, d, attested) then DepFailed else db.xdeps[d].status
  }

  predicate Backed(db: Db, d: DepId) { d in db.xdeps && (db.xdeps[d].status.DepSatisfied? ==> d in db.handoffs) }

  function MaterialiseIfDue(db: Db, d: DepId, attested: Attestations): Db {
    if d in db.xdeps && db.xdeps[d].status.DepSatisfied? then MaterialiseDep(db, d, attested) else db
  }

  lemma DeliverOwn(db: Db, d: DepId, attested: Attestations)
    requires Regular(db) && d in db.xdeps
    ensures var b := MaterialiseIfDue(db, d, attested);
      d in b.xdeps && b.xdeps[d].status == DeliveredStatus(db, d, attested) && Backed(b, d)
      && DeliveredStatus(b, d, attested) == b.xdeps[d].status
  {
    assert DepRegular(db, d);
  }

  lemma DeliverOther(db: Db, other: DepId, d: DepId, attested: Attestations)
    requires d in db.xdeps && other != d
    ensures var b := MaterialiseIfDue(db, other, attested);
      d in b.xdeps && b.xdeps[d] == db.xdeps[d] && DeliveredStatus(b, d, attested) == DeliveredStatus(db, d, attested)
      && (Backed(db, d) ==> Backed(b, d))
  {
    var b := MaterialiseIfDue(db, other, attested);
    assert PayloadFor(b, d, attested) == PayloadFor(db, d, attested);
  }

  lemma MaterialiseKeepsDep(d: DepId, dep: XDep, h: Option<Handoff>, p: Payload)
    ensures var now := Materialise(d, dep, h, p).dep;
      DepLater(dep, now) && (now.status.DepPending? ==> dep.status.DepPending?)
  {
  }

  lemma OneDepMoves(db: Db, d: DepId, dep: XDep, handoffs: map<DepId, Handoff>)
    requires d in db.xdeps && DepLater(db.xdeps[d], dep) && (dep.status.DepPending? ==> db.xdeps[d].status.DepPending?)
    requires forall i :: i in db.handoffs ==> i in handoffs
    ensures DepsMoved(db, db.(xdeps := db.xdeps[d := dep], handoffs := handoffs))
  {
  }

  lemma DeliverMoves(db: Db, d: DepId, attested: Attestations)
    ensures DepsMoved(db, MaterialiseIfDue(db, d, attested))
  {
    if d in db.xdeps && db.xdeps[d].status.DepSatisfied? {
      MaterialiseKeepsDep(d, db.xdeps[d], HandoffOf(db, d), PayloadFor(db, d, attested));
      var b := MaterialiseDep(db, d, attested);
      OneDepMoves(db, d, b.xdeps[d], b.handoffs);
    }
  }

  lemma DeliverRegular(db: Db, d: DepId, attested: Attestations)
    ensures RegularStep(db, MaterialiseIfDue(db, d, attested))
  {
    MaterialiseRegular(db, d, attested);
  }

  /** `d` was delivered, or is as delivery would leave it. */
  predicate DeliveredAlready(db: Db, d: DepId, attested: Attestations)
    requires d in db.xdeps
  {
    db.xdeps[d].status == DeliveredStatus(db, d, attested) && Backed(db, d)
  }

  lemma {:induction false} MaterialiseAllDelivers(db: Db, ds: seq<DepId>, attested: Attestations, d: DepId)
    requires Regular(db) && d in db.xdeps && (d in ds || DeliveredAlready(db, d, attested))
    ensures var b := MaterialiseAll(db, ds, attested);
      DepsMoved(db, b) && d in b.xdeps && b.xdeps[d].status == DeliveredStatus(db, d, attested) && Backed(b, d)
    decreases |ds|
  {
    if ds != [] {
      var next := MaterialiseIfDue(db, ds[0], attested);
      DeliverMoves(db, ds[0], attested);
      DeliverRegular(db, ds[0], attested);
      if ds[0] == d { DeliverOwn(db, d, attested); } else { DeliverOther(db, ds[0], d, attested); }
      MaterialiseAllDelivers(next, ds[1..], attested, d);
      DepsMovedTransitive(db, next, MaterialiseAll(next, ds[1..], attested));
    }
  }

  lemma {:induction false} MaterialiseAllMoves(db: Db, ds: seq<DepId>, attested: Attestations)
    ensures DepsMoved(db, MaterialiseAll(db, ds, attested))
    decreases |ds|
  {
    if ds != [] {
      DeliverMoves(db, ds[0], attested);
      MaterialiseAllMoves(MaterialiseIfDue(db, ds[0], attested), ds[1..], attested);
      DepsMovedTransitive(db, MaterialiseIfDue(db, ds[0], attested), MaterialiseAll(db, ds, attested));
    }
  }

  lemma {:induction false} ResolveAllMoves(db: Db, ds: seq<DepId>)
    ensures DepsMoved(db, ResolveAll(db, ds))
    decreases |ds|
  {
    if ds != [] {
      ResolveAllMoves(ResolveDep(db, ds[0]), ds[1..]);
      assert DepsMoved(db, ResolveDep(db, ds[0]));
      DepsMovedTransitive(db, ResolveDep(db, ds[0]), ResolveAll(db, ds));
    }
  }

  lemma DeliveredMoves(a: Db, ds: seq<DepId>, attested: Attestations)
    ensures DepsMoved(a, MaterialiseAll(ResolveAll(a, ds), ds, attested))
  {
    ResolveAllMoves(a, ds);
    MaterialiseAllMoves(ResolveAll(a, ds), ds, attested);
    DepsMovedTransitive(a, ResolveAll(a, ds), MaterialiseAll(ResolveAll(a, ds), ds, attested));
  }

  // ---------- The forecast comes true ----------

  lemma SettledOutputs(a: Db, b: Db, d: DepId, attested: Attestations)
    requires d in a.xdeps && d in b.xdeps && b.tasks == a.tasks && b.handoffs == a.handoffs
    requires DepLater(a.xdeps[d], b.xdeps[d])
    ensures OutputsMissing(b, d, attested) <==> OutputsMissing(a, d, attested)
  {
    var p, q := PayloadFor(a, d, attested), PayloadFor(b, d, attested);
    assert p.evidence == q.evidence && p.required == q.required;
    assert forall output :: Attested(output, p) <==> Attested(output, q);
  }

  lemma DecidedIsVerdict(a: Db, b: Db, d: DepId)
    requires d in a.xdeps && b.xdeps == a.xdeps && MemberSettled(a, b, a.xdeps[d].producer)
    ensures Decided(b, d).status == Verdict(a, d)
  {
  }

  lemma DeliveredForecast(a: Db, s: Db, ds: seq<DepId>, attested: Attestations, d: DepId)
    requires d in ds && d in a.xdeps && MemberSettled(a, s, a.xdeps[d].producer)
    requires s == a.(runs := s.runs) && Regular(ResolveAll(s, ds))
    ensures var c := MaterialiseAll(ResolveAll(s, ds), ds, attested);
      d in c.xdeps && DepLater(a.xdeps[d], c.xdeps[d]) && c.xdeps[d].status == Forecast(a, d, attested) && Backed(c, d)
  {
    var b := ResolveAll(s, ds);
    ResolveAllDecides(s, ds, d);
    DecidedIsVerdict(a, s, d);
    assert DepLater(s.xdeps[d], b.xdeps[d]);
    SettledOutputs(a, b, d, attested);
    MaterialiseAllDelivers(b, ds, attested, d);
    assert DepLater(b.xdeps[d], MaterialiseAll(b, ds, attested).xdeps[d]);
  }

  ghost predicate DepForeseen(a: Db, mid: Db, d: DepId, attested: Attestations) {
    && d in a.xdeps && d in mid.xdeps && DepLater(a.xdeps[d], mid.xdeps[d])
    && mid.xdeps[d].status == Forecast(a, d, attested) && Backed(mid, d)
  }

  /** The tables at the consumers' turn, as the tables before the call foretell them. */
  ghost predicate Foreseen(a: Db, mid: Db, g: Global, attested: Attestations) {
    && mid == a.(runs := mid.runs, xdeps := mid.xdeps, handoffs := mid.handoffs)
    && mid.runs.Keys == a.runs.Keys && mid.xdeps.Keys == a.xdeps.Keys
    && (forall r :: r in g.members ==> MemberSettled(a, mid, r))
    && (forall d :: d in g.deps ==> DepForeseen(a, mid, d, attested))
  }

  lemma MembersWired(db: Db, g: GlobalId)
    requires Wired(db) && g in db.globals
    ensures forall r :: r in db.globals[g].members ==> r in db.runs
    ensures forall d :: d in db.globals[g].deps ==>
      d in db.xdeps && db.xdeps[d].producer in db.globals[g].members && db.xdeps[d].consumer in db.globals[g].members
  {
    assert GlobalWired(db, g, db.globals[g]);
    forall d | d in db.globals[g].deps
      ensures d in db.xdeps && db.xdeps[d].producer in db.globals[g].members
      ensures db.xdeps[d].consumer in db.globals[g].members
    {
      assert DepWired(db, d, db.xdeps[d]);
    }
  }

  lemma ResolvedRegular(db: Db, ds: seq<DepId>)
    requires Inv(db) && Regular(db)
    ensures Regular(ResolveAll(db, ds))
  {
    ResolveAllHeld(db, ds);
  }

  lemma MemberForeseen(db: Db, g: GlobalId, attested: Attestations, r: RunId)
    requires Good(db) && g in db.globals && r in db.globals[g].members && r in db.runs
    ensures MemberSettled(db, Resolved(db, g, attested), r)
  {
    SettleAllMember(db, db.globals[g], r);
    DeliveredMoves(SettleAll(db, db.globals[g].members).db, db.globals[g].deps, attested);
  }

  lemma DependencyForeseen(db: Db, g: GlobalId, attested: Attestations, d: DepId)
    requires Good(db) && Regular(db) && g in db.globals && d in db.globals[g].deps && d in db.xdeps
    requires db.xdeps[d].producer in db.globals[g].members && db.xdeps[d].producer in db.runs
    ensures DepForeseen(db, Resolved(db, g, attested), d, attested)
  {
    var row := db.globals[g];
    var s := SettleAll(db, row.members).db;
    SettleAllMember(db, row, db.xdeps[d].producer);
    SettleAllOf(db, row);
    SettleAllHeld(db, row.members);
    ResolvedRegular(s, row.deps);
    DeliveredForecast(db, s, row.deps, attested, d);
  }

  /** Settling, deciding and delivering lead exactly where the forecast says. */
  lemma ResolvedForeseen(db: Db, g: GlobalId, attested: Attestations)
    requires Good(db) && Regular(db) && g in db.globals
    ensures SettleAll(db, db.globals[g].members).ok
    ensures Foreseen(db, Resolved(db, g, attested), db.globals[g], attested)
  {
    var row := db.globals[g];
    MembersWired(db, g);
    SettleAllOf(db, row);
    DeliveredMoves(SettleAll(db, row.members).db, row.deps, attested);
    forall r | r in row.members ensures MemberSettled(db, Resolved(db, g, attested), r) {
      MemberForeseen(db, g, attested, r);
    }
    forall d | d in row.deps ensures DepForeseen(db, Resolved(db, g, attested), d, attested) {
      DependencyForeseen(db, g, attested, d);
    }
  }
}
