/** Unless a handoff is rewritten from outside, what was delivered stays delivered, and no task was
    ever claimed without it. */
module RegistryDelivered {
  import opened DomainStates
  import opened TaskRows
  import opened Handoffs
  import opened RegistrySteps
  import opened RegistryInvariant
  import opened RegistryKeeps
  import opened RegistryGlobal
  import opened RegistryHistory
  import opened RegistryEvents
  import opened RegistryOrder

  /** What was delivered is still delivered. */
  ghost predicate Lasts(a: Db, b: Db) { forall d :: Delivered(a, d) ==> Delivered(b, d) }

  predicate SameLinks(a: Db, b: Db) { b.xdeps == a.xdeps && b.handoffs == a.handoffs }

  lemma SameLinksLast(a: Db, b: Db)
    requires SameLinks(a, b)
    ensures Lasts(a, b)
  {
  }

  // ---------- The parts of a refresh ----------

  lemma {:induction false} SettleAllLinks(db: Db, rs: seq<RunId>)
    ensures SameLinks(db, SettleAll(db, rs).db)
    decreases |rs|
  {
    if rs != [] && SettleRun(db, rs[0]).ok { SettleAllLinks(SettleRun(db, rs[0]).db, rs[1..]); }
  }

  lemma {:induction false} ResolveAllLasts(db: Db, ds: seq<DepId>)
    ensures Lasts(db, ResolveAll(db, ds))
    decreases |ds|
  {
    if ds != [] {
      assert Lasts(db, ResolveDep(db, ds[0]));
      ResolveAllLasts(ResolveDep(db, ds[0]), ds[1..]);
    }
  }

  lemma MaterialiseLasts(db: Db, d: DepId, attested: Attestations)
    ensures Lasts(db, MaterialiseDep(db, d, attested))
  {
    forall other | Delivered(db, other) ensures Delivered(MaterialiseDep(db, d, attested), other) {
      MaterialiseKeepsDelivered(db, d, attested, other);
    }
  }

  lemma {:induction false} MaterialiseAllLasts(db: Db, ds: seq<DepId>, attested: Attestations)
    ensures Lasts(db, MaterialiseAll(db, ds, attested))
    decreases |ds|
  {
    if ds != [] {
      MaterialiseLasts(db, ds[0], attested);
      MaterialiseAllLasts(db, ds[1..], attested);
      MaterialiseAllLasts(MaterialiseDep(db, ds[0], attested), ds[1..], attested);
    }
  }

  lemma {:induction false} OpenInboundLasts(db: Db, ds: seq<DepId>, attested: Attestations)
    ensures Lasts(db, OpenInbound(db, ds, attested).db)
    decreases |ds|
  {
    if ds != [] {
      MaterialiseLasts(db, ds[0], attested);
      OpenInboundLasts(MaterialiseDep(db, ds[0], attested), ds[1..], attested);
    }
  }

  lemma SettleConsumerLinks(db: Db, g: Global, r: RunId)
    ensures SameLinks(db, SettleConsumer(db, g, r).db)
  {
  }

  lemma {:induction false} SettleConsumersLinks(db: Db, g: Global, rs: seq<RunId>)
    ensures SameLinks(db, SettleConsumers(db, g, rs).db)
    decreases |rs|
  {
    if rs != [] {
      SettleConsumerLinks(db, g, rs[0]);
      SettleConsumersLinks(SettleConsumer(db, g, rs[0]).db, g, rs[1..]);
    }
  }

  /** A refresh leaves the dependencies as they were before it or as its deliveries left them. */
  lemma RefreshLinks(db: Db, g: GlobalId, attested: Attestations, mid: Db)
    requires g in db.globals && SameLinks(db, SettleAll(db, db.globals[g].members).db)
    requires mid
      == MaterialiseAll(ResolveAll(SettleAll(db, db.globals[g].members).db, db.globals[g].deps), db.globals[g].deps,
                        attested)
    requires SameLinks(mid, SettleConsumers(mid, db.globals[g], Consumers(mid, db.globals[g].deps)).db)
    ensures SameLinks(db, RefreshGlobal(db, g, attested).db) || SameLinks(mid, RefreshGlobal(db, g, attested).db)
  {
  }

  lemma DeliveriesLast(db: Db, row: Global, attested: Attestations)
    ensures Lasts(db, MaterialiseAll(ResolveAll(SettleAll(db, row.members).db, row.deps), row.deps, attested))
  {
    var settled := SettleAll(db, row.members).db;
    SettleAllLinks(db, row.members);
    SameLinksLast(db, settled);
    ResolveAllLasts(settled, row.deps);
    MaterialiseAllLasts(ResolveAll(settled, row.deps), row.deps, attested);
  }

  lemma RefreshGlobalLasts(db: Db, g: GlobalId, attested: Attestations)
    ensures Lasts(db, RefreshGlobal(db, g, attested).db)
  {
    if g in db.globals {
      var row := db.globals[g];
      var mid := MaterialiseAll(ResolveAll(SettleAll(db, row.members).db, row.deps), row.deps, attested);
      DeliveriesLast(db, row, attested);
      SettleAllLinks(db, row.members);
      SettleConsumersLinks(mid, row, Consumers(mid, row.deps));
      RefreshLinks(db, g, attested, mid);
    }
  }

  lemma RefreshRunLasts(db: Db, r: RunId, attested: Attestations)
    ensures Lasts(db, RefreshRun(db, r, attested).db)
  {
    var s := SettleRun(db, r);
    if s.ok && Settles(db, r) && db.runs[r].gate.Some? {
      RefreshGlobalLasts(s.db, db.runs[r].gate.value.global, attested);
    }
  }

  // ---------- Other events ----------

  lemma ClaimLasts(db: Db, id: TaskId, w: WorkerId, env: ClaimEnv)
    ensures Lasts(db, Claim(db, id, w, env).db)
  {
    if id in db.tasks && db.tasks[id].gate.Some? && GateLive(db, db.tasks[id]) {
      OpenInboundLasts(db, Inbound(db, db.globals[db.tasks[id].gate.value.global].deps, db.tasks[id].runId),
                       env.attested);
    }
  }

  lemma {:induction false} ReleaseAllLinks(db: Db, rs: seq<RunId>)
    ensures SameLinks(db, ReleaseAll(db, rs).db)
    decreases |rs|
  {
    if rs != [] && ReleaseRun(db, rs[0]).ok { ReleaseAllLinks(ReleaseRun(db, rs[0]).db, rs[1..]); }
  }

  lemma {:induction false} CancelMembersLinks(db: Db, rs: seq<RunId>)
    ensures SameLinks(db, CancelMembers(db, rs).db)
    decreases |rs|
  {
    if rs != [] {
      CancelMembersLinks(db, rs[1..]);
      CancelMembersLinks(CancelRun(db, rs[0]).db, rs[1..]);
    }
  }

  lemma CancelGlobalLinks(db: Db, g: GlobalId, childrenDone: bool)
    ensures SameLinks(db, CancelGlobal(db, g, childrenDone).db)
  {
    var requested := RequestCancellation(db, g).db;
    if g in requested.globals { CancelMembersLinks(requested, requested.globals[g].members); }
  }

  predicate Delivers(e: Event) { e.ClaimTask? || e.Refresh? || e.RefreshProjects? }

  lemma DeliveringEventLasts(db: Db, e: Event)
    requires Delivers(e)
    ensures Lasts(db, Apply(db, e).db)
  {
    match e
    case ClaimTask(id, w, env) => ClaimLasts(db, id, w, env);
    case Refresh(r, attested) => RefreshRunLasts(db, r, attested);
    case RefreshProjects(g, attested) => RefreshGlobalLasts(db, g, attested);
  }

  lemma TaskEventLinks(db: Db, e: Event)
    requires e.Tick? || e.SweepTask? || e.Row? || e.RepairTask?
    ensures SameLinks(db, Apply(db, e).db)
  {
  }

  lemma RunEventLinks(db: Db, e: Event)
    requires e.Release? || e.FailPrepared? || e.CancelRunTasks? || e.RequestCancel?
    ensures SameLinks(db, Apply(db, e).db)
  {
  }

  lemma QuietEventLinks(db: Db, e: Event)
    requires !Delivers(e) && !e.RewriteHandoff? && !e.Create?
    ensures SameLinks(db, Apply(db, e).db)
  {
    if e.ReleaseProjects? {
      if e.global in db.globals { ReleaseAllLinks(db, Roots(db, db.globals[e.global], db.globals[e.global].members)); }
    }
    else if e.CancelProjects? { CancelGlobalLinks(db, e.global, e.childrenDone); }
    else if e.Release? || e.FailPrepared? || e.CancelRunTasks? || e.RequestCancel? { RunEventLinks(db, e); }
    else { TaskEventLinks(db, e); }
  }

  lemma CreateLasts(db: Db, b: Batch)
    ensures Lasts(db, CreateGraph(db, b).db)
  {
  }

  lemma EventLasts(db: Db, e: Event)
    requires !e.RewriteHandoff?
    ensures Lasts(db, Apply(db, e).db)
  {
    if Delivers(e) { DeliveringEventLasts(db, e); }
    else if e.Create? { CreateLasts(db, e.batch); }
    else { QuietEventLinks(db, e); }
  }

  // ---------- Claimed tasks ----------

  /** Everything inbound to run `r` is delivered. */
  ghost predicate InboundDelivered(db: Db, r: RunId) {
    forall d :: d in db.xdeps && db.xdeps[d].consumer == r ==> Delivered(db, d)
  }

  ghost predicate ClaimedDelivered(db: Db) {
    forall id :: id in db.tasks && db.tasks[id].attempt >= 1 ==> InboundDelivered(db, db.tasks[id].runId)
  }

  /** A row with an attempt behind it had one before, or was claimed just now. */
  lemma AttemptFrom(a: Db, e: Event, o: Outcome, id: TaskId)
    requires Step(a, e, o) && id in o.db.tasks && o.db.tasks[id].attempt >= 1
    ensures id in a.tasks && (a.tasks[id].attempt >= 1 || (e.ClaimTask? && e.id == id && o.ok))
  {
    if id in a.tasks {
      assert RowStep(a, e, id, a.tasks[id], o.db.tasks[id]) && RowOk(a.tasks[id], a.nextToken);
      if WorkedOn(e, id, a.tasks[id], o.db.tasks[id], a.clock) { RowOpKeeps(a.tasks[id], e.op, a.clock, a.nextToken); }
    }
  }

  lemma InboundLasts(a: Db, b: Db, r: RunId)
    requires InboundDelivered(a, r) && Lasts(a, b) && DepsLater(a, b)
    requires forall d :: d in b.xdeps && b.xdeps[d].consumer == r ==> d in a.xdeps
    ensures InboundDelivered(b, r)
  {
    forall d | d in b.xdeps && b.xdeps[d].consumer == r ensures Delivered(b, d) {
      assert DepLater(a.xdeps[d], b.xdeps[d]);
      assert Delivered(a, d);
    }
  }

  /** No dependency was added to a run that was there before. */
  ghost predicate NoNewInbound(a: Db, b: Db) {
    forall d :: d in b.xdeps && d !in a.xdeps ==> b.xdeps[d].consumer !in a.runs
  }

  lemma CreateNoNewInbound(db: Db, b: Batch)
    ensures NoNewInbound(db, CreateGraph(db, b).db)
  {
  }

  lemma EventNoNewInbound(a: Db, e: Event)
    requires Good(a)
    ensures NoNewInbound(a, Apply(a, e).db)
  {
    if e.Create? { CreateNoNewInbound(a, e.batch); } else { EventMoved(a, e); }
  }

  lemma ClaimedRow(a: Db, id: TaskId, w: WorkerId, env: ClaimEnv)
    requires Good(a) && Claim(a, id, w, env).ok
    ensures var b := Claim(a, id, w, env).db; id in b.tasks && InboundDelivered(b, b.tasks[id].runId)
  {
    var b := Claim(a, id, w, env).db;
    ClaimKeeps(a, id, w, env);
    assert RowLater(a.tasks[id], b.tasks[id]);
    forall d | d in b.xdeps && b.xdeps[d].consumer == b.tasks[id].runId ensures Delivered(b, d) {
      assert DepLater(a.xdeps[d], b.xdeps[d]);
      ClaimNeedsHandoffs(a, id, w, env, d);
    }
  }

  lemma OldRow(a: Db, b: Db, id: TaskId)
    requires TasksPlaced(a) && Later(a, b) && Lasts(a, b) && NoNewInbound(a, b)
    requires id in a.tasks && InboundDelivered(a, a.tasks[id].runId)
    ensures id in b.tasks && InboundDelivered(b, b.tasks[id].runId)
  {
    assert RowLater(a.tasks[id], b.tasks[id]) && TaskPlaced(a, a.tasks[id]);
    InboundLasts(a, b, a.tasks[id].runId);
  }

  /** A claim that succeeds is made over delivered handoffs. */
  ghost predicate ClaimsDelivered(e: Event, o: Outcome) {
    e.ClaimTask? && o.ok ==> e.id in o.db.tasks && InboundDelivered(o.db, o.db.tasks[e.id].runId)
  }

  lemma EventClaimsDelivered(a: Db, e: Event)
    requires Good(a)
    ensures ClaimsDelivered(e, Apply(a, e))
  {
    if e.ClaimTask? && Claim(a, e.id, e.worker, e.env).ok { ClaimedRow(a, e.id, e.worker, e.env); }
  }

  lemma DeliveredStep(a: Db, e: Event, o: Outcome)
    requires Good(a) && ClaimedDelivered(a) && Step(a, e, o) && ClaimsDelivered(e, o)
    requires Later(a, o.db) && Lasts(a, o.db) && NoNewInbound(a, o.db)
    ensures ClaimedDelivered(o.db)
  {
    forall id | id in o.db.tasks && o.db.tasks[id].attempt >= 1 ensures InboundDelivered(o.db, o.db.tasks[id].runId) {
      AttemptFrom(a, e, o, id);
      if a.tasks[id].attempt >= 1 { OldRow(a, o.db, id); }
    }
  }

  /** The last event of a history without a rewrite. */
  lemma LastLinks(es: seq<Event>)
    requires es != [] && !es[|es| - 1].RewriteHandoff?
    ensures Lasts(Replay(es[..|es| - 1]), Replay(es)) && NoNewInbound(Replay(es[..|es| - 1]), Replay(es))
  {
    var a, e := Replay(es[..|es| - 1]), es[|es| - 1];
    ReachableGood(es[..|es| - 1]);
    ReplayStep(es);
    EventLasts(a, e);
    EventNoNewInbound(a, e);
  }

  lemma LastClaims(es: seq<Event>)
    requires es != []
    ensures exists o ::
      Step(Replay(es[..|es| - 1]), es[|es| - 1], o) && o.db == Replay(es) && ClaimsDelivered(es[|es| - 1], o)
  {
    var a, e := Replay(es[..|es| - 1]), es[|es| - 1];
    ReachableGood(es[..|es| - 1]);
    EventStep(a, e);
    EventClaimsDelivered(a, e);
    ReplayStep(es);
  }

  lemma LastDelivered(es: seq<Event>)
    requires es != [] && !es[|es| - 1].RewriteHandoff? && ClaimedDelivered(Replay(es[..|es| - 1]))
    ensures ClaimedDelivered(Replay(es))
  {
    var a, e := Replay(es[..|es| - 1]), es[|es| - 1];
    ReachableGood(es[..|es| - 1]);
    HistoryLater(es, |es| - 1);
    LastLinks(es);
    LastClaims(es);
    var o :| Step(a, e, o) && o.db == Replay(es) && ClaimsDelivered(e, o);
    DeliveredStep(a, e, o);
  }

  /** In every history without a rewritten handoff, a task that was ever claimed, and kept its
      attempt, has everything inbound to its run satisfied, received and sealed. */
  lemma {:induction false} ReachableDelivered(es: seq<Event>)
    requires forall i :: 0 <= i < |es| ==> !es[i].RewriteHandoff?
    ensures ClaimedDelivered(Replay(es))
  {
    if es != [] {
      ReachableDelivered(es[..|es| - 1]);
      LastDelivered(es);
    }
  }
}
