/** The turns refreshGlobalRun gives to consumers: which of them throws, which start a project,
    which fail one, and which leave it preparing. */
module RegistryTurns {
  import opened DomainStates
  import opened TaskRows
  import opened Handoffs
  import opened RegistrySteps
  import opened RegistryInvariant
  import opened RegistryKeeps
  import opened RegistryGlobal
  import opened RegistryForecast

  ghost predicate Consumer(db: Db, g: Global, r: RunId) { r in g.members && exists d :: ConsumesIn(db, g, d, r) }

  predicate TurnDooms(db: Db, g: Global, r: RunId) { !ConsumerIdle(db, g, r) && AnyInbound(db, g, r, DepFailed) }

  predicate TurnStarts(db: Db, g: Global, r: RunId) {
    RunPreparingIn(db, r) && AllInbound(db, g, r, DepSatisfied) && !g.cancelRequested
  }

  /** Every inbound dependency was skipped, or a cancellation forbids the release that is due. */
  predicate TurnThrows(db: Db, g: Global, r: RunId) {
    RunPreparingIn(db, r)
    && (AllInbound(db, g, r, DepSkipped) || (g.cancelRequested && AllInbound(db, g, r, DepSatisfied)))
  }

  /** What a turn needs to know of the tables. */
  ghost predicate TurnReady(db: Db, g: GlobalId, r: RunId) { TablesReady(db, g) && ConsumerReady(db, db.globals[g], r) }

  ghost predicate TablesReady(db: Db, g: GlobalId) {
    Good(db) && Regular(db) && g in db.globals && forall d :: d in db.globals[g].deps ==> Backed(db, d)
  }

  ghost predicate ConsumerReady(db: Db, g: Global, r: RunId) {
    Consumer(db, g, r) && (RunPreparingIn(db, r) ==> !Settles(db, r))
  }

  // ---------- One turn ----------

  lemma DoomTurn(db: Db, r: RunId)
    requires r in db.runs && Opened(db.runs[r].status) && !RunTerminal(db.runs[r].status)
    requires RowsFit(db, db.tasks, db.nextToken)
    ensures RunBecomes(db, DoomRun(db, r), r, RunFailed) && TasksEnded(DoomRun(db, r).db, r)
  {
    forall id | InRun(DoomRun(db, r).db, id, r) ensures Terminal(DoomRun(db, r).db.tasks[id].status) {
      assert RowFits(db, db.tasks[id], db.nextToken);
    }
  }

  predicate RunBecomes(db: Db, o: Outcome, r: RunId, s: RunStatus) {
    o.ok && r in db.runs && o.db.runs == db.runs[r := db.runs[r].(status := s)]
  }

  lemma ReleaseTurn(db: Db, r: RunId)
    requires RunPreparingIn(db, r) && Releasable(db, r)
    ensures RunBecomes(db, ReleaseRun(db, r), r, RunRunning)
  {
  }

  lemma SatisfiedReceived(db: Db, g: Global, r: RunId)
    requires Regular(db) && AllInbound(db, g, r, DepSatisfied) && forall d :: d in g.deps ==> Backed(db, d)
    ensures AllReceived(db, g, r) && InboundDeliverable(db, g, r)
  {
    forall d | ConsumesIn(db, g, d, r)
      ensures d in db.handoffs && db.handoffs[d].status.Received? && Deliverable(db.xdeps[d], HandoffOf(db, d))
    {
      assert DepRegular(db, d) && Backed(db, d);
    }
  }

  lemma MemberGate(db: Db, g: GlobalId, r: RunId)
    requires Wired(db) && g in db.globals && r in db.globals[g].members
    ensures r in db.runs && Opened(db.runs[r].status) && db.runs[r].gate.Some? && db.runs[r].gate.value.global == g
    ensures GateMatches(db.globals[g], db.runs[r].gate.value, r) <==> !db.globals[g].cancelRequested
  {
    assert GlobalWired(db, g, db.globals[g]) && RunWired(db, r, db.runs[r]);
  }

  lemma SatisfiedReleasable(db: Db, g: GlobalId, r: RunId)
    requires TurnReady(db, g, r) && AllInbound(db, db.globals[g], r, DepSatisfied)
    ensures AllReceived(db, db.globals[g], r) && (Releasable(db, r) <==> !db.globals[g].cancelRequested)
  {
    SatisfiedReceived(db, db.globals[g], r);
    MemberGate(db, g, r);
  }

  /** What the turn of a consumer comes to. */
  function TurnOutcome(db: Db, g: Global, r: RunId): Outcome {
    if TurnThrows(db, g, r) then Outcome(db, false)
    else if TurnDooms(db, g, r) then DoomRun(db, r)
    else if TurnStarts(db, g, r) then ReleaseRun(db, r)
    else Outcome(db, true)
  }

  lemma TurnBranches(db: Db, g: Global, r: RunId, d: DepId)
    requires ConsumesIn(db, g, d, r)
    requires RunPreparingIn(db, r) ==> SkipRun(db, r) == Outcome(db, false)
    requires AllInbound(db, g, r, DepSatisfied) ==> AllReceived(db, g, r) && (Releasable(db, r) <==> !g.cancelRequested)
    ensures SettleConsumer(db, g, r) == TurnOutcome(db, g, r)
  {
  }

  /** A consumer's turn throws iff it is preparing and everything inbound was skipped, or a
      requested cancellation forbids its release; it fails the consumer iff, with nothing
      pending, something inbound failed; it releases it iff everything inbound is satisfied; and
      otherwise it changes nothing. */
  lemma ConsumerTurn(db: Db, g: GlobalId, r: RunId)
    requires TurnReady(db, g, r)
    ensures SettleConsumer(db, db.globals[g], r) == TurnOutcome(db, db.globals[g], r)
  {
    var row := db.globals[g];
    var d :| ConsumesIn(db, row, d, r);
    if RunPreparingIn(db, r) { SkipThrows(db, r); }
    if AllInbound(db, row, r, DepSatisfied) { SatisfiedReleasable(db, g, r); }
    TurnBranches(db, row, r, d);
  }

  /** The run a turn leaves behind, without the turn's other rows. */
  function TurnStatus(db: Db, g: Global, r: RunId): RunStatus
    requires r in db.runs
  {
    if TurnDooms(db, g, r) then RunFailed else if TurnStarts(db, g, r) then RunRunning else db.runs[r].status
  }

  lemma TurnEffect(db: Db, g: GlobalId, r: RunId)
    requires TurnReady(db, g, r)
    ensures var o := SettleConsumer(db, db.globals[g], r);
      && r in db.runs && (o.ok <==> !TurnThrows(db, db.globals[g], r)) && (!o.ok ==> o.db == db)
      && (o.ok ==> r in o.db.runs && o.db.runs[r] == db.runs[r].(status := TurnStatus(db, db.globals[g], r)))
      && (o.ok && TurnDooms(db, db.globals[g], r) ==> TasksEnded(o.db, r))
  {
    var row := db.globals[g];
    ConsumerTurn(db, g, r);
    MemberGate(db, g, r);
    if TurnDooms(db, row, r) { DoomTurn(db, r); }
    if TurnStarts(db, row, r) { SatisfiedReleasable(db, g, r); ReleaseTurn(db, r); }
  }

  lemma InboundCases(db: Db, g: Global, r: RunId)
    requires (exists d :: ConsumesIn(db, g, d, r)) && RunPreparingIn(db, r) && !AnyInbound(db, g, r, DepPending)
    requires !g.cancelRequested
    ensures TurnThrows(db, g, r) <==> !AnyInbound(db, g, r, DepFailed) && AllInbound(db, g, r, DepSkipped)
    ensures TurnDooms(db, g, r) <==> AnyInbound(db, g, r, DepFailed)
    ensures !TurnThrows(db, g, r) && !TurnDooms(db, g, r) && !TurnStarts(db, g, r) <==>
      !AnyInbound(db, g, r, DepFailed) && AnyInbound(db, g, r, DepSkipped) && AnyInbound(db, g, r, DepSatisfied)
  {
    var d :| ConsumesIn(db, g, d, r);
    forall i | ConsumesIn(db, g, i, r) ensures AnyInbound(db, g, r, db.xdeps[i].status) { }
  }

  /** A preparing consumer with nothing pending, outside a cancellation: the turn throws iff
      nothing failed and all was skipped; else preparation ends iff something failed or all is
      satisfied; so it goes on exactly when, with nothing failed, skipped and satisfied mix. */
  lemma PreparingTurn(db: Db, g: GlobalId, r: RunId)
    requires TurnReady(db, g, r) && RunPreparingIn(db, r) && !db.globals[g].cancelRequested
    requires !AnyInbound(db, db.globals[g], r, DepPending)
    ensures var row, o := db.globals[g], SettleConsumer(db, db.globals[g], r);
      && (!o.ok <==> !AnyInbound(db, row, r, DepFailed) && AllInbound(db, row, r, DepSkipped))
      && (o.ok ==> (!RunPreparingIn(o.db, r) <==>
        AnyInbound(db, row, r, DepFailed) || AllInbound(db, row, r, DepSatisfied)))
      && (o.ok && RunPreparingIn(o.db, r) <==>
            !AnyInbound(db, row, r, DepFailed) && AnyInbound(db, row, r, DepSkipped)
              && AnyInbound(db, row, r, DepSatisfied))
  {
    TurnEffect(db, g, r);
    InboundCases(db, db.globals[g], r);
  }

  // ---------- Turns do not meet ----------

  /** Run `r`, with its tasks, is the same in both. */
  ghost predicate SameRun(a: Db, b: Db, r: RunId) {
    && r in a.runs && r in b.runs && b.runs[r] == a.runs[r]
    && (forall id :: InRun(b, id, r) <==> InRun(a, id, r))
    && (forall id :: InRun(a, id, r) ==> b.tasks[id] == a.tasks[id])
  }

  ghost predicate SameDeps(a: Db, b: Db) { b.xdeps == a.xdeps && b.handoffs == a.handoffs && b.globals == a.globals }

  lemma LocalSame(a: Db, b: Db, r: RunId, q: RunId)
    requires LocalTo(a, b, r) && q != r && q in a.runs
    ensures SameRun(a, b, q) && SameDeps(a, b)
  {
  }

  lemma SameRunTransitive(a: Db, b: Db, c: Db, r: RunId)
    requires SameRun(a, b, r) && SameRun(b, c, r)
    ensures SameRun(a, c, r)
  {
  }

  lemma SameStatuses(a: Db, b: Db, r: RunId)
    requires SameRun(a, b, r)
    ensures Settles(b, r) <==> Settles(a, r)
  {
    forall s | s in StatusesOf(a, r) ensures s in StatusesOf(b, r) {
      var id :| id in a.tasks && a.tasks[id].runId == r && a.tasks[id].status == s;
      assert InRun(a, id, r);
    }
    forall s | s in StatusesOf(b, r) ensures s in StatusesOf(a, r) {
      var id :| id in b.tasks && b.tasks[id].runId == r && b.tasks[id].status == s;
      assert InRun(b, id, r);
    }
  }

  lemma SameTurns(a: Db, b: Db, g: Global, r: RunId)
    requires SameRun(a, b, r) && SameDeps(a, b)
    ensures TurnThrows(b, g, r) <==> TurnThrows(a, g, r)
    ensures TurnDooms(b, g, r) <==> TurnDooms(a, g, r)
    ensures TurnStarts(b, g, r) <==> TurnStarts(a, g, r)
  {
    forall s ensures AnyInbound(b, g, r, s) <==> AnyInbound(a, g, r, s) { }
  }

  lemma SameConsumer(a: Db, b: Db, g: Global, r: RunId)
    requires SameDeps(a, b) && Consumer(a, g, r)
    ensures Consumer(b, g, r)
  {
    var d :| ConsumesIn(a, g, d, r);
    assert ConsumesIn(b, g, d, r);
  }

  // ---------- All turns ----------

  predicate NoRepeats(rs: seq<RunId>) { forall i, j :: 0 <= i < j < |rs| ==> rs[i] != rs[j] }

  lemma {:induction false} ConsumersDistinct(db: Db, ds: seq<DepId>)
    ensures NoRepeats(Consumers(db, ds))
  {
    if ds != [] { ConsumersDistinct(db, ds[..|ds| - 1]); }
  }

  ghost predicate TurnsReady(db: Db, g: GlobalId, rs: seq<RunId>) {
    TablesReady(db, g) && NoRepeats(rs) && forall r :: r in rs ==> ConsumerReady(db, db.globals[g], r)
  }

  lemma NextTables(db: Db, g: GlobalId, r: RunId)
    requires TurnReady(db, g, r)
    ensures TablesReady(SettleConsumer(db, db.globals[g], r).db, g)
    ensures SameDeps(db, SettleConsumer(db, db.globals[g], r).db)
  {
    var b := SettleConsumer(db, db.globals[g], r).db;
    SettleConsumerHeld(db, db.globals[g], r);
    HeldGood(db, b);
    SettleConsumerLocal(db, db.globals[g], r);
    forall d | d in b.globals[g].deps ensures Backed(b, d) { assert Backed(db, d); }
  }

  lemma NextSame(db: Db, g: GlobalId, r: RunId, q: RunId)
    requires TurnReady(db, g, r) && q != r && q in db.runs
    ensures var b := SettleConsumer(db, db.globals[g], r).db; SameRun(db, b, q) && SameDeps(db, b)
  {
    SettleConsumerLocal(db, db.globals[g], r);
    LocalSame(db, SettleConsumer(db, db.globals[g], r).db, r, q);
  }

  lemma SameReady(a: Db, b: Db, g: Global, q: RunId)
    requires SameRun(a, b, q) && SameDeps(a, b) && ConsumerReady(a, g, q)
    ensures ConsumerReady(b, g, q)
  {
    SameConsumer(a, b, g, q);
    SameStatuses(a, b, q);
  }

  /** What the first turn leaves for the rest. */
  ghost predicate RestSame(a: Db, b: Db, rs: seq<RunId>) { SameDeps(a, b) && forall q :: q in rs ==> SameRun(a, b, q) }

  lemma RestFromLocal(a: Db, b: Db, r: RunId, rs: seq<RunId>)
    requires LocalTo(a, b, r) && forall q :: q in rs ==> q != r && q in a.runs
    ensures RestSame(a, b, rs)
  {
    forall q | q in rs ensures SameRun(a, b, q) { LocalSame(a, b, r, q); }
  }

  lemma RestReady(a: Db, b: Db, g: Global, rs: seq<RunId>)
    requires RestSame(a, b, rs) && forall q :: q in rs ==> ConsumerReady(a, g, q)
    ensures forall q :: q in rs ==> ConsumerReady(b, g, q)
  {
    forall q | q in rs ensures ConsumerReady(b, g, q) { SameReady(a, b, g, q); }
  }

  lemma RestDistinct(rs: seq<RunId>)
    requires rs != [] && NoRepeats(rs)
    ensures NoRepeats(rs[1..]) && rs[0] !in rs[1..]
  {
  }

  lemma ConsumersWired(db: Db, g: GlobalId, rs: seq<RunId>)
    requires TurnsReady(db, g, rs)
    ensures forall r :: r in rs ==> r in db.runs
  {
    forall r | r in rs ensures r in db.runs { MemberGate(db, g, r); }
  }

  lemma FirstReady(db: Db, g: GlobalId, rs: seq<RunId>)
    requires rs != [] && TurnsReady(db, g, rs)
    ensures TurnReady(db, g, rs[0])
  {
    assert rs[0] in rs;
  }

  lemma RestOfTurn(db: Db, g: GlobalId, rs: seq<RunId>)
    requires rs != [] && TurnsReady(db, g, rs)
    ensures RestSame(db, SettleConsumer(db, db.globals[g], rs[0]).db, rs[1..])
  {
    FirstReady(db, g, rs);
    ConsumersWired(db, g, rs);
    RestDistinct(rs);
    SettleConsumerLocal(db, db.globals[g], rs[0]);
    RestFromLocal(db, SettleConsumer(db, db.globals[g], rs[0]).db, rs[0], rs[1..]);
  }

  lemma NextReady(db: Db, g: GlobalId, rs: seq<RunId>)
    requires rs != [] && TurnsReady(db, g, rs)
    ensures TurnsReady(SettleConsumer(db, db.globals[g], rs[0]).db, g, rs[1..])
    ensures RestSame(db, SettleConsumer(db, db.globals[g], rs[0]).db, rs[1..])
  {
    FirstReady(db, g, rs);
    RestOfTurn(db, g, rs);
    NextTables(db, g, rs[0]);
    RestDistinct(rs);
    RestReady(db, SettleConsumer(db, db.globals[g], rs[0]).db, db.globals[g], rs[1..]);
  }

  lemma {:induction false} TurnsKeepDeps(db: Db, g: GlobalId, rs: seq<RunId>)
    requires TurnsReady(db, g, rs) && g in db.globals
    ensures SameDeps(db, SettleConsumers(db, db.globals[g], rs).db)
    decreases |rs|
  {
    if rs != [] {
      var next := SettleConsumer(db, db.globals[g], rs[0]);
      FirstReady(db, g, rs);
      NextReady(db, g, rs);
      if next.ok { TurnsKeepDeps(next.db, g, rs[1..]); }
    }
  }

  /** The turns leave every other run alone, and a run whose turn throws as it was. */
  lemma {:induction false} TurnsLeave(db: Db, g: GlobalId, rs: seq<RunId>, r: RunId)
    requires TurnsReady(db, g, rs) && g in db.globals && r in db.runs
    requires r in rs ==> TurnThrows(db, db.globals[g], r)
    ensures SameRun(db, SettleConsumers(db, db.globals[g], rs).db, r)
    decreases |rs|
  {
    if rs != [] {
      var row := db.globals[g];
      var next := SettleConsumer(db, row, rs[0]);
      FirstReady(db, g, rs);
      NextReady(db, g, rs);
      TurnEffect(db, g, rs[0]);
      if next.ok {
        NextSame(db, g, rs[0], r);
        SameTurns(db, next.db, row, r);
        TurnsLeave(next.db, g, rs[1..], r);
        SameRunTransitive(db, next.db, SettleConsumers(next.db, row, rs[1..]).db, r);
      }
    }
  }

  /** What a run's turn does to it, whatever turns came before or come after. */
  ghost predicate Turned(a: Db, b: Db, g: Global, r: RunId) {
    && r in a.runs && r in b.runs && b.runs[r] == a.runs[r].(status := TurnStatus(a, g, r))
    && (TurnDooms(a, g, r) ==> TasksEnded(b, r)) && RowsTurned(a, b, g, r)
  }

  predicate TurnedTask(a: Db, g: Global, r: RunId, t: Task, t': Task) {
    t' == if TurnDooms(a, g, r) then DoomedIn(t, r) else if TurnStarts(a, g, r) then ReleasedIn(t, r) else t
  }

  lemma OwnTurn(db: Db, g: GlobalId, r: RunId)
    requires TurnReady(db, g, r) && SettleConsumer(db, db.globals[g], r).ok
    ensures Turned(db, SettleConsumer(db, db.globals[g], r).db, db.globals[g], r)
  {
    TurnEffect(db, g, r);
    ConsumerTurn(db, g, r);
    OwnRows(db, g, r);
  }

  ghost predicate RowsTurned(a: Db, b: Db, g: Global, r: RunId) {
    (forall id :: InRun(b, id, r) <==> InRun(a, id, r))
    && (forall id :: InRun(a, id, r) ==> TurnedTask(a, g, r, a.tasks[id], b.tasks[id]))
  }

  lemma DoomedRows(db: Db, g: Global, r: RunId)
    requires TurnDooms(db, g, r)
    ensures RowsTurned(db, DoomRun(db, r).db, g, r)
  {
  }

  lemma StartedRows(db: Db, g: Global, r: RunId)
    requires TurnStarts(db, g, r) && !TurnDooms(db, g, r) && Releasable(db, r)
    ensures RowsTurned(db, ReleaseRun(db, r).db, g, r)
  {
  }

  lemma OwnRows(db: Db, g: GlobalId, r: RunId)
    requires TurnReady(db, g, r) && !TurnThrows(db, db.globals[g], r)
    ensures RowsTurned(db, TurnOutcome(db, db.globals[g], r).db, db.globals[g], r)
  {
    var row := db.globals[g];
    if TurnDooms(db, row, r) { DoomedRows(db, row, r); }
    else if TurnStarts(db, row, r) {
      SatisfiedReleasable(db, g, r);
      StartedRows(db, row, r);
    }
  }

  lemma TurnedLater(a: Db, b: Db, c: Db, g: Global, r: RunId)
    requires Turned(a, b, g, r) && SameRun(b, c, r)
    ensures Turned(a, c, g, r)
  {
    if TurnDooms(a, g, r) {
      forall id | InRun(c, id, r) ensures Terminal(c.tasks[id].status) { assert InRun(b, id, r); }
    }
  }

  lemma TurnedEarlier(a: Db, b: Db, c: Db, g: Global, r: RunId)
    requires SameRun(a, b, r) && SameDeps(a, b) && Turned(b, c, g, r)
    ensures Turned(a, c, g, r)
  {
    SameTurns(a, b, g, r);
    forall id | InRun(a, id, r) ensures TurnedTask(a, g, r, a.tasks[id], c.tasks[id]) { assert InRun(b, id, r); }
  }

  /** The turns throw iff one of them does. */
  lemma {:induction false} TurnsThrowIff(db: Db, g: GlobalId, rs: seq<RunId>)
    requires TurnsReady(db, g, rs) && g in db.globals
    ensures SettleConsumers(db, db.globals[g], rs).ok <==> forall r :: r in rs ==> !TurnThrows(db, db.globals[g], r)
    decreases |rs|
  {
    if rs != [] {
      var row := db.globals[g];
      FirstReady(db, g, rs);
      NextReady(db, g, rs);
      TurnEffect(db, g, rs[0]);
      if SettleConsumer(db, row, rs[0]).ok {
        TurnsThrowIff(SettleConsumer(db, row, rs[0]).db, g, rs[1..]);
        RestThrows(db, SettleConsumer(db, row, rs[0]).db, row, rs);
      }
    }
  }

  lemma RestThrows(a: Db, b: Db, g: Global, rs: seq<RunId>)
    requires rs != [] && RestSame(a, b, rs[1..]) && !TurnThrows(a, g, rs[0])
    ensures (forall r :: r in rs ==> !TurnThrows(a, g, r)) <==> (forall r :: r in rs[1..] ==> !TurnThrows(b, g, r))
  {
    assert rs == [rs[0]] + rs[1..];
    forall q | q in rs[1..] ensures TurnThrows(b, g, q) <==> TurnThrows(a, g, q) { SameTurns(a, b, g, q); }
  }

  lemma FirstTurned(db: Db, g: GlobalId, rs: seq<RunId>)
    requires rs != [] && TurnsReady(db, g, rs) && SettleConsumer(db, db.globals[g], rs[0]).ok
    ensures Turned(db, SettleConsumers(SettleConsumer(db, db.globals[g], rs[0]).db, db.globals[g], rs[1..]).db,
                   db.globals[g], rs[0])
  {
    var row := db.globals[g];
    var next := SettleConsumer(db, row, rs[0]).db;
    FirstReady(db, g, rs);
    OwnTurn(db, g, rs[0]);
    NextReady(db, g, rs);
    RestDistinct(rs);
    TurnsLeave(next, g, rs[1..], rs[0]);
    TurnedLater(db, next, SettleConsumers(next, row, rs[1..]).db, row, rs[0]);
  }

  /** After all turns each consumer is where its own turn takes it. */
  lemma {:induction false} TurnsTurn(db: Db, g: GlobalId, rs: seq<RunId>, r: RunId)
    requires TurnsReady(db, g, rs) && r in rs && SettleConsumers(db, db.globals[g], rs).ok
    ensures Turned(db, SettleConsumers(db, db.globals[g], rs).db, db.globals[g], r)
    decreases |rs|
  {
    var next := SettleConsumer(db, db.globals[g], rs[0]).db;
    if r == rs[0] { FirstTurned(db, g, rs); } else {
      NextReady(db, g, rs);
      TurnsTurn(next, g, rs[1..], r);
      TurnedEarlier(db, next, SettleConsumers(next, db.globals[g], rs[1..]).db, db.globals[g], r);
    }
  }

  /** The turns report a release iff one of them starts a project. */
  lemma {:induction false} TurnsRelease(db: Db, g: GlobalId, rs: seq<RunId>)
    requires TurnsReady(db, g, rs) && g in db.globals && SettleConsumers(db, db.globals[g], rs).ok
    ensures SettleConsumers(db, db.globals[g], rs).released <==> exists r :: r in rs && TurnStarts(db, db.globals[g], r)
    decreases |rs|
  {
    if rs != [] {
      FirstReady(db, g, rs);
      NextReady(db, g, rs);
      TurnsRelease(SettleConsumer(db, db.globals[g], rs[0]).db, g, rs[1..]);
      ReleasesIff(db, g, rs[0]);
      RestStarts(db, SettleConsumer(db, db.globals[g], rs[0]).db, db.globals[g], rs);
    }
  }

  lemma ReleasesIff(db: Db, g: GlobalId, r: RunId)
    requires TurnReady(db, g, r) && SettleConsumer(db, db.globals[g], r).ok
    ensures ConsumerReleases(db, db.globals[g], r) <==> TurnStarts(db, db.globals[g], r)
  {
    var row := db.globals[g];
    var d :| ConsumesIn(db, row, d, r);
    TurnEffect(db, g, r);
    if AllInbound(db, row, r, DepSatisfied) { SatisfiedReleasable(db, g, r); }
  }

  lemma RestStarts(a: Db, b: Db, g: Global, rs: seq<RunId>)
    requires rs != [] && RestSame(a, b, rs[1..])
    ensures (exists r :: r in rs && TurnStarts(a, g, r)) <==>
      (TurnStarts(a, g, rs[0]) || exists r :: r in rs[1..] && TurnStarts(b, g, r))
  {
    assert rs == [rs[0]] + rs[1..];
    forall q | q in rs[1..] ensures TurnStarts(b, g, q) <==> TurnStarts(a, g, q) { SameTurns(a, b, g, q); }
  }
}
