/** When a claim succeeds, exactly, in terms of the tables before the call. */
module RegistryClaims {
  import opened DomainStates
  import opened TaskRows
  import opened Handoffs
  import opened RegistrySteps
  import opened RegistryInvariant
  import opened RegistryKeeps
  import opened RegistryProgress
  import opened RegistryRuns
  import opened RegistryHistory

  /** Checking and delivering dependency `d` leaves a handoff a claim may build on. */
  predicate HandedOver(db: Db, d: DepId, attested: Attestations) {
    d in db.xdeps && var next := MaterialiseDep(db, d, attested); Deliverable(next.xdeps[d], HandoffOf(next, d))
  }

  predicate SameRow(a: Db, b: Db, d: DepId) {
    (d in a.xdeps <==> d in b.xdeps)
      && (d in a.xdeps ==> b.xdeps[d] == a.xdeps[d] && HandoffOf(b, d) == HandoffOf(a, d))
  }

  // ---------- One delivery does not touch another ----------

  lemma DeliveryElsewhere(db: Db, other: DepId, d: DepId, attested: Attestations)
    requires other != d
    ensures var next := MaterialiseDep(db, other, attested);
      SameRow(db, next, d) && next.tasks == db.tasks && next.runs == db.runs
  {
  }

  lemma DeliveryAlike(a: Db, b: Db, d: DepId, attested: Attestations)
    requires SameRow(a, b, d) && b.tasks == a.tasks && b.runs == a.runs
    ensures SameRow(MaterialiseDep(a, d, attested), MaterialiseDep(b, d, attested), d)
  {
    if d in a.xdeps { assert PayloadFor(b, d, attested) == PayloadFor(a, d, attested); }
  }

  lemma DeliveryApart(db: Db, other: DepId, d: DepId, attested: Attestations)
    requires other != d
    ensures SameRow(db, MaterialiseDep(db, other, attested), d)
    ensures SameRow(MaterialiseDep(db, d, attested),
                    MaterialiseDep(MaterialiseDep(db, other, attested), d, attested), d)
  {
    DeliveryElsewhere(db, other, d, attested);
    DeliveryAlike(db, MaterialiseDep(db, other, attested), d, attested);
  }

  lemma DeliveryRepeats(db: Db, d: DepId, attested: Attestations)
    ensures SameRow(MaterialiseDep(db, d, attested), MaterialiseDep(MaterialiseDep(db, d, attested), d, attested), d)
  {
    if d in db.xdeps {
      var next := MaterialiseDep(db, d, attested);
      MaterialiseIsIdempotent(d, db.xdeps[d], HandoffOf(db, d), PayloadFor(db, d, attested),
                              PayloadFor(next, d, attested));
    }
  }

  /** Whatever was delivered before, `d` ends up the same. */
  lemma DeliveryCommutes(db: Db, other: DepId, d: DepId, attested: Attestations)
    ensures SameRow(MaterialiseDep(db, d, attested),
                    MaterialiseDep(MaterialiseDep(db, other, attested), d, attested), d)
  {
    if other == d { DeliveryRepeats(db, d, attested); } else { DeliveryApart(db, other, d, attested); }
  }

  // ---------- The gate's loop ----------

  /** The loop does not stop at `d`. */
  predicate PassesLoop(db: Db, d: DepId, attested: Attestations) {
    d in db.xdeps && db.xdeps[d].status.DepSatisfied?
    && var next := MaterialiseDep(db, d, attested); d in next.handoffs && next.handoffs[d].status.Received?
  }

  lemma PassesAlike(db: Db, other: DepId, d: DepId, attested: Attestations)
    requires PassesLoop(db, other, attested)
    ensures PassesLoop(MaterialiseDep(db, other, attested), d, attested) <==> PassesLoop(db, d, attested)
  {
    var next := MaterialiseDep(db, other, attested);
    DeliveryCommutes(db, other, d, attested);
    if other == d { assert next.xdeps[d].status.DepSatisfied?; } else { DeliveryApart(db, other, d, attested); }
  }

  lemma {:induction false} LoopPasses(db: Db, ds: seq<DepId>, attested: Attestations)
    ensures OpenInbound(db, ds, attested).ok <==> forall d :: d in ds ==> PassesLoop(db, d, attested)
    decreases |ds|
  {
    if ds != [] && PassesLoop(db, ds[0], attested) {
      var next := MaterialiseDep(db, ds[0], attested);
      LoopPasses(next, ds[1..], attested);
      forall d ensures PassesLoop(next, d, attested) <==> PassesLoop(db, d, attested) {
        PassesAlike(db, ds[0], d, attested);
      }
      assert ds == [ds[0]] + ds[1..];
    }
  }

  /** A row that delivery leaves alone stays as it is through the loop. */
  lemma {:induction false} LoopLeaves(db: Db, ds: seq<DepId>, attested: Attestations, d: DepId)
    requires d !in ds || SameRow(db, MaterialiseDep(db, d, attested), d)
    ensures SameRow(db, OpenInbound(db, ds, attested).db, d)
    decreases |ds|
  {
    if ds != [] && PassesLoop(db, ds[0], attested) {
      var next := MaterialiseDep(db, ds[0], attested);
      if ds[0] != d { DeliveryApart(db, ds[0], d, attested); }
      DeliveryCommutes(db, ds[0], d, attested);
      LoopLeaves(next, ds[1..], attested, d);
    } else if ds != [] && ds[0] in db.xdeps && ds[0] != d {
      DeliveryApart(db, ds[0], d, attested);
    }
  }

  /** An open gate has delivered every inbound dependency, as if each were alone. */
  lemma {:induction false} LoopDelivers(db: Db, ds: seq<DepId>, attested: Attestations, d: DepId)
    requires OpenInbound(db, ds, attested).ok && d in ds
    ensures SameRow(MaterialiseDep(db, d, attested), OpenInbound(db, ds, attested).db, d)
    decreases |ds|
  {
    var next := MaterialiseDep(db, ds[0], attested);
    if ds[0] == d {
      DeliveryRepeats(db, d, attested);
      LoopLeaves(next, ds[1..], attested, d);
    } else {
      DeliveryCommutes(db, ds[0], d, attested);
      LoopDelivers(next, ds[1..], attested, d);
    }
  }

  lemma HandedOverPasses(db: Db, d: DepId, attested: Attestations)
    requires HandedOver(db, d, attested)
    ensures PassesLoop(db, d, attested)
  {
  }

  lemma LoopOpens(db: Db, ds: seq<DepId>, attested: Attestations)
    ensures var o := OpenInbound(db, ds, attested);
      o.ok && (forall d :: d in ds && d in o.db.xdeps ==> Deliverable(o.db.xdeps[d], HandoffOf(o.db, d)))
      <==> forall d :: d in ds ==> HandedOver(db, d, attested)
  {
    var o := OpenInbound(db, ds, attested);
    LoopPasses(db, ds, attested);
    if o.ok {
      forall d | d in ds
        ensures d in o.db.xdeps && (Deliverable(o.db.xdeps[d], HandoffOf(o.db, d)) <==> HandedOver(db, d, attested))
      {
        assert PassesLoop(db, d, attested);
        LoopDelivers(db, ds, attested, d);
      }
    } else {
      var d :| d in ds && !PassesLoop(db, d, attested);
      if HandedOver(db, d, attested) { HandedOverPasses(db, d, attested); }
    }
  }

  // ---------- Claims ----------

  /** The Global Run's gate lets the task through. */
  predicate GateOpens(db: Db, t: Task, env: ClaimEnv) {
    t.gate.Some? ==>
      && GateLive(db, t) && env.manifestIntact
      && forall d :: d in db.globals[t.gate.value.global].deps && d in db.xdeps && db.xdeps[d].consumer == t.runId ==>
           HandedOver(db, d, env.attested)
  }

  predicate DelayOver(db: Db, t: Task) { t.nextRetryAt.Some? ==> t.nextRetryAt.value <= db.clock }

  lemma {:induction false} LoopKeepsConsumers(db: Db, ds: seq<DepId>, attested: Attestations)
    ensures DepsLater(db, OpenInbound(db, ds, attested).db)
    ensures OpenInbound(db, ds, attested).db.xdeps.Keys == db.xdeps.Keys
    decreases |ds|
  {
    if ds != [] && ds[0] in db.xdeps {
      var next := MaterialiseDep(db, ds[0], attested);
      assert DepsLater(db, next);
      LoopKeepsConsumers(next, ds[1..], attested);
      forall d | d in db.xdeps ensures DepLater(db.xdeps[d], OpenInbound(next, ds[1..], attested).db.xdeps[d]) {
        assert DepLater(db.xdeps[d], next.xdeps[d]);
      }
    }
  }

  lemma GateOpensIff(db: Db, t: Task, env: ClaimEnv)
    requires t.gate.Some? && t.runId in db.runs
    ensures var o := OpenGate(db, t, env);
      GateOpens(db, t, env) <==>
        o.ok && GateLive(o.db, t) && InboundDeliverable(o.db, o.db.globals[t.gate.value.global], t.runId)
  {
    if GateLive(db, t) && env.manifestIntact {
      var deps := db.globals[t.gate.value.global].deps;
      var ds := Inbound(db, deps, t.runId);
      var b := OpenInbound(db, ds, env.attested).db;
      LoopOpens(db, ds, env.attested);
      LoopKeepsConsumers(db, ds, env.attested);
      forall d ensures d in ds <==> d in deps && d in b.xdeps && b.xdeps[d].consumer == t.runId {
        if d in b.xdeps { assert DepLater(db.xdeps[d], b.xdeps[d]); }
      }
    }
  }

  /** claimTask, exactly: it takes the row iff the row is claimable, its delay is over, its
      dependencies allow it, its context is current and its gate opens. */
  lemma ClaimIff(db: Db, id: TaskId, w: WorkerId, env: ClaimEnv)
    requires Inv(db) && TasksPlaced(db)
    ensures Claim(db, id, w, env).ok <==>
      && id in db.tasks && Claimable(db.tasks[id].status) && DelayOver(db, db.tasks[id])
      && DependenciesAllow(db, db.tasks[id]) && env.contextValid && GateOpens(db, db.tasks[id], env)
  {
    if id in db.tasks {
      var t := db.tasks[id];
      assert TaskPlaced(db, t) && RowFits(db, t, db.nextToken);
      if t.gate.Some? { GateOpensIff(db, t, env); }
      assert DependenciesAllow(OpenGate(db, t, env).db, t) <==> DependenciesAllow(db, t);
    }
  }

  /** While nobody rewrote a handoff, `d` is handed over iff it is satisfied and its handoff is
      there or all its outputs are attested. */
  lemma HandedOverIff(db: Db, d: DepId, attested: Attestations)
    requires d in db.xdeps && DepRegular(db, d)
    ensures HandedOver(db, d, attested) <==> db.xdeps[d].status.DepSatisfied? && OutputsThere(db, d, attested)
  {
    OutputsMean(db, d, attested);
  }

  /** The task has what a claim asks of it: a claimable status, no delay to wait for, and
      dependencies that are achieved, or just over if its policy asks for no more. */
  ghost predicate Due(db: Db, id: TaskId) {
    id in db.tasks && db.tasks[id].status in {Queued, RetryWaiting, WaitingForLease}
    && (db.tasks[id].nextRetryAt.Some? ==> db.tasks[id].nextRetryAt.value <= db.clock)
    && DependenciesIn(db, db.tasks[id],
                      if db.tasks[id].policy.AllSuccess? then {Completed, CompletedWithWarnings} else ENDED)
  }

  /** The Global Run lets the task through: its gate stands, the Global Run is under way, the
      manifest is intact, and all that comes in is satisfied, with its outputs there. */
  ghost predicate LetThrough(db: Db, t: Task, env: ClaimEnv) {
    t.gate.Some? ==>
      && GateStands(db, t.gate.value, t.runId) && env.manifestIntact
      && db.globals[t.gate.value.global].status in {GlobalRunning, GlobalWaiting}
      && forall d :: ConsumesIn(db, db.globals[t.gate.value.global], d, t.runId) ==>
        db.xdeps[d].status.DepSatisfied? && OutputsThere(db, d, env.attested)
  }

  ghost predicate MayClaim(db: Db, id: TaskId, env: ClaimEnv) {
    Due(db, id) && env.contextValid && LetThrough(db, db.tasks[id], env)
  }

  lemma LetThroughMeans(db: Db, t: Task, env: ClaimEnv)
    requires Regular(db)
    ensures LetThrough(db, t, env) <==> GateOpens(db, t, env)
  {
    forall d | d in db.xdeps
      ensures HandedOver(db, d, env.attested) <==>
        db.xdeps[d].status.DepSatisfied? && OutputsThere(db, d, env.attested)
    {
      HandedOverIff(db, d, env.attested);
    }
  }

  lemma DueMeans(db: Db, id: TaskId)
    ensures Due(db, id) <==>
      (id in db.tasks && Claimable(db.tasks[id].status) && DelayOver(db, db.tasks[id])
       && DependenciesAllow(db, db.tasks[id]))
  {
  }

  /** claimTask in the columns of the tables, while nobody rewrote a handoff. */
  lemma ClaimSucceedsIff(db: Db, id: TaskId, w: WorkerId, env: ClaimEnv)
    requires Good(db) && Regular(db)
    ensures Claim(db, id, w, env).ok <==> MayClaim(db, id, env)
  {
    DueMeans(db, id);
    ClaimIff(db, id, w, env);
    if id in db.tasks { LetThroughMeans(db, db.tasks[id], env); }
  }

  lemma LoggedClaim(es: seq<Event>, id: TaskId, w: WorkerId, env: ClaimEnv)
    requires Regular(Replay(es))
    ensures var db := Replay(es);
      Claim(db, id, w, env).ok <==> MayClaim(db, id, env)
  {
    ReachableGood(es);
    ClaimSucceedsIff(Replay(es), id, w, env);
  }

  /** What a mover can do is claimed as soon as its delay is over, its context is current and its
      gate opens, in a Global Run or outside one. */
  lemma MoverClaims(db: Db, id: TaskId, w: WorkerId, env: ClaimEnv)
    requires Inv(db) && TasksPlaced(db) && Mover(db, id) && !Owned(db.tasks[id].status)
    ensures Claim(db, id, w, env).ok <==>
      DelayOver(db, db.tasks[id]) && env.contextValid && GateOpens(db, db.tasks[id], env)
    ensures Claim(db, id, w, env).ok ==> Claim(db, id, w, env).db.tasks[id].status.Running?
  {
    ClaimIff(db, id, w, env);
  }
}
