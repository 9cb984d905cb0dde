/** Order and permanence over whole histories: what a claim implies about everything
    upstream of it, in its own run, in producer runs and in the handoffs between them. */
module RegistryOrder {
  import opened DomainStates
  import opened TaskRows
  import opened Handoffs
  import opened RegistrySteps
  import opened RegistryInvariant
  import opened RegistryKeeps
  import opened RegistryHistory

  // ---------- Upstream ----------

  /** `b` is an `all_success` dependency of `a`. */
  predicate DependsWithin(db: Db, a: TaskId, b: TaskId) {
    a in db.tasks && db.tasks[a].policy.AllSuccess? && b in db.tasks[a].dependsOn
  }

  /** The run of `b` is an `all_success` producer for the run of `a`; a fallback task of the
      producer may have been skipped, so it does not qualify. */
  ghost predicate DependsAcross(db: Db, a: TaskId, b: TaskId) {
    a in db.tasks && b in db.tasks && !db.tasks[b].policy.OnFailure?
    && exists d :: d in db.xdeps && db.xdeps[d].condition.IfAllSuccess?
                   && db.xdeps[d].consumer == db.tasks[a].runId && db.xdeps[d].producer == db.tasks[b].runId
  }

  /** A chain over both levels, from a task to ever earlier ones. */
  ghost predicate Upstream(db: Db, p: seq<TaskId>) {
    forall i :: 0 <= i < |p| - 1 ==> DependsWithin(db, p[i], p[i + 1]) || DependsAcross(db, p[i], p[i + 1])
  }

  predicate AchievedIn(db: Db, id: TaskId) { id in db.tasks && Achieved(db.tasks[id].status) }

  /** In-run order: a task that is active, claimable or was ever claimed under `all_success`
      has every dependency achieved; skipped or failed ones do not count. */
  lemma OrderWithinRun(db: Db, id: TaskId)
    requires Good(db) && id in db.tasks && PastDependencies(db.tasks[id]) && db.tasks[id].policy.AllSuccess?
    ensures forall d :: d in db.tasks[id].dependsOn ==> AchievedIn(db, d)
  {
    assert RowFits(db, db.tasks[id], db.nextToken) && TaskPlaced(db, db.tasks[id]);
  }

  /** Cross-project order: once a task was claimed, every `all_success` producer of its run is
      completed with all its tasks successful. */
  lemma OrderAcrossRuns(db: Db, id: TaskId, d: DepId)
    requires Good(db) && id in db.tasks && db.tasks[id].attempt >= 1
    requires d in db.xdeps && db.xdeps[d].consumer == db.tasks[id].runId && db.xdeps[d].condition.IfAllSuccess?
    ensures RunCompletedIn(db, db.xdeps[d].producer) && AllSuccessful(db, db.xdeps[d].producer)
  {
    assert RowFits(db, db.tasks[id], db.nextToken);
    assert ProducerCompleted(db, db.xdeps[d]);
  }

  lemma OneStepUpstream(db: Db, a: TaskId, b: TaskId)
    requires Good(db) && a in db.tasks && db.tasks[a].attempt >= 1
    requires DependsWithin(db, a, b) || DependsAcross(db, a, b)
    ensures AchievedIn(db, b) && db.tasks[b].attempt >= 1
  {
    if DependsWithin(db, a, b) { OrderWithinRun(db, a); } else {
      var d :| d in db.xdeps && db.xdeps[d].condition.IfAllSuccess?
               && db.xdeps[d].consumer == db.tasks[a].runId && db.xdeps[d].producer == db.tasks[b].runId;
      OrderAcrossRuns(db, a, d);
    }
    assert RowFits(db, db.tasks[b], db.nextToken);
  }

  lemma {:induction false} WholeChainAchieved(db: Db, p: seq<TaskId>, i: nat)
    requires Good(db) && 0 < i < |p| && Upstream(db, p)
    requires p[0] in db.tasks && db.tasks[p[0]].attempt >= 1
    ensures AchievedIn(db, p[i]) && db.tasks[p[i]].attempt >= 1
  {
    if i > 1 { WholeChainAchieved(db, p, i - 1); }
    OneStepUpstream(db, p[i - 1], p[i]);
  }

  /** Claims follow every `all_success` path upstream first, through any number of runs; and
      what they found achieved is achieved for ever. */
  lemma ClaimsFollowUpstream(es: seq<Event>, n: nat, p: seq<TaskId>, i: nat)
    requires n <= |es| && 0 < i < |p|
    requires Upstream(Replay(es[..n]), p) && p[0] in Replay(es[..n]).tasks && Replay(es[..n]).tasks[p[0]].attempt >= 1
    ensures AchievedIn(Replay(es), p[i])
  {
    ReachableGood(es[..n]);
    WholeChainAchieved(Replay(es[..n]), p, i);
    HistoryLater(es, n);
    assert RowLater(Replay(es[..n]).tasks[p[i]], Replay(es).tasks[p[i]]);
  }

  // ---------- Permanence ----------

  /** Once a run is completed it stays completed, and in every later state each of its tasks
      is successful. */
  lemma CompletedForever(es: seq<Event>, n: nat, r: RunId)
    requires n <= |es| && RunCompletedIn(Replay(es[..n]), r)
    ensures RunCompletedIn(Replay(es), r) && AllSuccessful(Replay(es), r)
  {
    HistoryLater(es, n);
    assert RunLater(Replay(es[..n]).runs[r], Replay(es).runs[r]);
    ReachableGood(es);
  }

  /** An `all_success` task with a skipped dependency never runs: not later than any state in
      which it is seen, whatever is repaired, swept or released. */
  lemma SkippedStarves(es: seq<Event>, n: nat, id: TaskId, d: TaskId)
    requires n <= |es| && id in Replay(es[..n]).tasks && DependsWithin(Replay(es[..n]), id, d)
    requires d in Replay(es[..n]).tasks && Replay(es[..n]).tasks[d].status.Skipped?
    ensures id in Replay(es).tasks && !PastDependencies(Replay(es).tasks[id])
  {
    HistoryLater(es, n);
    ReachableGood(es);
    SkippedStarvesLater(Replay(es[..n]), Replay(es), id, d);
  }

  lemma SkippedStarvesLater(a: Db, b: Db, id: TaskId, d: TaskId)
    requires TasksLater(a, b) && Good(b) && DependsWithin(a, id, d) && d in a.tasks && a.tasks[d].status.Skipped?
    ensures id in b.tasks && !PastDependencies(b.tasks[id])
  {
    assert RowLater(a.tasks[id], b.tasks[id]) && RowLater(a.tasks[d], b.tasks[d]);
    if PastDependencies(b.tasks[id]) { OrderWithinRun(b, id); }
  }

  // ---------- Handoffs at the claim ----------

  ghost predicate Delivered(db: Db, d: DepId) {
    && d in db.xdeps && db.xdeps[d].status.DepSatisfied?
    && d in db.handoffs && db.handoffs[d].status.Received? && Intact(d, db.xdeps[d], db.handoffs[d])
  }

  lemma MaterialiseDelivers(db: Db, d: DepId, attested: Attestations)
    requires d in db.xdeps && db.xdeps[d].status.DepSatisfied?
    requires var next := MaterialiseDep(db, d, attested); d in next.handoffs && next.handoffs[d].status.Received?
    ensures Delivered(MaterialiseDep(db, d, attested), d)
  {
    var next := MaterialiseDep(db, d, attested);
    assert Intact(d, next.xdeps[d], next.handoffs[d]);
  }

  lemma MaterialiseKeepsDelivered(db: Db, d: DepId, attested: Attestations, other: DepId)
    requires Delivered(db, other)
    ensures Delivered(MaterialiseDep(db, d, attested), other)
  {
  }

  lemma {:induction false} OpenInboundDelivers(db: Db, ds: seq<DepId>, attested: Attestations, other: DepId)
    requires OpenInbound(db, ds, attested).ok && (other in ds || Delivered(db, other))
    ensures Delivered(OpenInbound(db, ds, attested).db, other)
    decreases |ds|
  {
    if ds != [] {
      var next := MaterialiseDep(db, ds[0], attested);
      if other == ds[0] { MaterialiseDelivers(db, other, attested); }
      else if Delivered(db, other) { MaterialiseKeepsDelivered(db, ds[0], attested, other); }
      OpenInboundDelivers(next, ds[1..], attested, other);
    }
  }

  lemma InboundListed(db: Db, t: Task, d: DepId)
    requires Wired(db) && TaskPlaced(db, t) && d in db.xdeps && db.xdeps[d].consumer == t.runId
    ensures t.gate.Some? && t.gate.value.global in db.globals
    ensures d in Inbound(db, db.globals[t.gate.value.global].deps, t.runId)
  {
    assert DepWired(db, d, db.xdeps[d]);
    assert GlobalWired(db, db.xdeps[d].global, db.globals[db.xdeps[d].global]);
  }

  lemma OpenGateDelivers(db: Db, id: TaskId, env: ClaimEnv, d: DepId)
    requires Good(db) && id in db.tasks && OpenGate(db, db.tasks[id], env).ok
    requires d in db.xdeps && db.xdeps[d].consumer == db.tasks[id].runId
    ensures Delivered(OpenGate(db, db.tasks[id], env).db, d)
  {
    assert TaskPlaced(db, db.tasks[id]);
    InboundListed(db, db.tasks[id], d);
    OpenInboundDelivers(db, Inbound(db, db.globals[db.tasks[id].gate.value.global].deps, db.tasks[id].runId),
                        env.attested, d);
  }

  lemma GuardDelivers(db: Db, t: Task, env: ClaimEnv, d: DepId)
    requires ClaimGuard(db, t, env) && t.gate.Some? && d in db.globals[t.gate.value.global].deps
    requires Delivered(db, d) && db.xdeps[d].consumer == t.runId
    ensures Deliverable(db.xdeps[d], Some(db.handoffs[d])) && db.handoffs[d].receipt == Some(ReceiptOf(db.handoffs[d]))
  {
    assert Deliverable(db.xdeps[d], HandoffOf(db, d));
  }

  /** A consumer claim succeeds only over received handoffs whose content, fingerprint and
      receipt all match, for every inbound dependency. */
  lemma ClaimNeedsHandoffs(db: Db, id: TaskId, w: WorkerId, env: ClaimEnv, d: DepId)
    requires Good(db) && Claim(db, id, w, env).ok
    requires d in db.xdeps && db.xdeps[d].consumer == db.tasks[id].runId
    ensures var b := Claim(db, id, w, env).db;
      Delivered(b, d) && Deliverable(b.xdeps[d], Some(b.handoffs[d]))
        && b.handoffs[d].receipt == Some(ReceiptOf(b.handoffs[d]))
  {
    OpenGateDelivers(db, id, env, d);
    var mid := OpenGate(db, db.tasks[id], env).db;
    MemberDep(db, id, d);
    OpenGateKeeps(db, db.tasks[id], env);
    assert DepLater(db.xdeps[d], mid.xdeps[d]);
    GuardDelivers(mid, db.tasks[id], env, d);
  }

  /** A dependency decided against its consumer stays so: once it is failed or skipped, no task of
      the consumer is ever claimed again, whatever is refreshed, repaired or released. */
  lemma ClosedInboundStops(es: seq<Event>, n: nat, d: DepId, id: TaskId, w: WorkerId, env: ClaimEnv)
    requires n <= |es| && d in Replay(es[..n]).xdeps && Replay(es[..n]).xdeps[d].status in {DepFailed, DepSkipped}
    requires id in Replay(es).tasks && Replay(es).tasks[id].runId == Replay(es[..n]).xdeps[d].consumer
    ensures d in Replay(es).xdeps && Replay(es).xdeps[d] == Replay(es[..n]).xdeps[d]
    ensures !Claim(Replay(es), id, w, env).ok
  {
    HistoryLater(es, n);
    ReachableGood(es);
    assert DepLater(Replay(es[..n]).xdeps[d], Replay(es).xdeps[d]);
    if Claim(Replay(es), id, w, env).ok { ClosedInboundClaims(Replay(es), id, w, env, d); }
  }

  lemma SatisfiedFrom(a: Db, b: Db, d: DepId)
    requires DepsLater(a, b) && d in a.xdeps && d in b.xdeps && b.xdeps[d].status.DepSatisfied?
    ensures a.xdeps[d].status !in {DepFailed, DepSkipped}
  {
    assert DepLater(a.xdeps[d], b.xdeps[d]);
  }

  lemma ClosedInboundClaims(db: Db, id: TaskId, w: WorkerId, env: ClaimEnv, d: DepId)
    requires Good(db) && Claim(db, id, w, env).ok && d in db.xdeps && db.xdeps[d].consumer == db.tasks[id].runId
    ensures db.xdeps[d].status !in {DepFailed, DepSkipped}
  {
    var b := Claim(db, id, w, env).db;
    assert Delivered(b, d) by { ClaimNeedsHandoffs(db, id, w, env, d); }
    assert DepsLater(db, b) by { ClaimKeeps(db, id, w, env); }
    SatisfiedFrom(db, b, d);
  }

  lemma MemberDep(db: Db, id: TaskId, d: DepId)
    requires Wired(db) && id in db.tasks && d in db.xdeps && db.xdeps[d].consumer == db.tasks[id].runId
    ensures var gate := db.tasks[id].gate;
      gate.Some? && gate.value.global in db.globals && d in db.globals[gate.value.global].deps
  {
    assert TaskPlaced(db, db.tasks[id]);
    InboundListed(db, db.tasks[id], d);
  }

  // ---------- Cancellation freeze ----------

  lemma FrozenClaim(db: Db, id: TaskId, w: WorkerId, env: ClaimEnv)
    requires id in db.tasks && db.tasks[id].gate.Some? && db.tasks[id].gate.value.global in db.globals
    requires db.globals[db.tasks[id].gate.value.global].cancelRequested
    ensures Claim(db, id, w, env) == Outcome(db, false)
  {
  }

  /** Once cancellation of a Global Run is requested, no claim of one of its tasks succeeds in
      any later state, and the attempt changes nothing. */
  lemma CancellationFreezes(es: seq<Event>, n: nat, g: GlobalId, id: TaskId, w: WorkerId, env: ClaimEnv)
    requires n <= |es| && g in Replay(es[..n]).globals && Replay(es[..n]).globals[g].cancelRequested
    requires id in Replay(es).tasks && Replay(es).tasks[id].gate.Some? && Replay(es).tasks[id].gate.value.global == g
    ensures Claim(Replay(es), id, w, env) == Outcome(Replay(es), false)
  {
    HistoryLater(es, n);
    assert GlobalLater(Replay(es[..n]).globals[g], Replay(es).globals[g]);
    FrozenClaim(Replay(es), id, w, env);
  }
}
