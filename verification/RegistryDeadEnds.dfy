/** Histories after which refreshing a Global Run leads nowhere, and does so for ever. */
module RegistryDeadEnds {
  import opened DomainStates
  import opened TaskRows
  import opened Handoffs
  import opened RegistrySteps
  import opened RegistryInvariant
  import opened RegistryKeeps
  import opened RegistryHistory
  import opened RegistryForecast
  import opened RegistryFinish
  import opened RegistryConvergence
  import opened RegistryStops
  import opened RegistryLog
  import opened RegistryNets

  function Dep(producer: RunId, consumer: RunId, condition: Condition): XDep {
    XDep(0, producer, consumer, condition, {}, 0, 0, DepPending)
  }

  // ---------- The tables before the first refresh ----------

  ghost predicate RootStands(db: Db, r: RunId, won: bool) {
    OverSoon(db, r) && !RunPreparingIn(db, r) && (Succeeding(db, r) <==> won)
  }

  ghost predicate ConsumerStands(db: Db, g: Global, r: RunId) {
    StillPreparing(db, g, r) && !OverSoon(db, r) && !TasksEnded(db, r) && !Succeeding(db, r)
  }

  ghost function Resolution(db: Db, dep: XDep): DepStatus {
    ResolvedStatus(dep.condition, if Succeeding(db, dep.producer) then RunCompleted else RunFailed)
  }

  ghost predicate DepStands(db: Db, g: Global, d: DepId, dep: XDep) {
    && d in db.xdeps && d in g.deps && db.xdeps[d] == dep
    && Verdict(db, d) == (if OverSoon(db, dep.producer) then Resolution(db, dep) else DepPending)
    && forall attested :: OutputsMissing(db, d, attested) <==> !Complete(PayloadFor(db, d, attested))
  }

  /** The net as a refresh reads it: both roots are done, the first with success, the second as
      told; every consumer is preparing. */
  ghost predicate Stands(n: Net, db: Db, g: Global, won: bool) {
    && g.members == n.Members() && g.optional == n.optional && g.status.GlobalRunning? && !g.cancelRequested
    && RootStands(db, 0, true) && RootStands(db, 1, won) && (forall r :: r in n.consumers ==> ConsumerStands(db, g, r))
    && (forall d: nat :: d < |n.deps| ==> DepStands(db, g, d, n.deps[d])) && (forall d :: d in g.deps ==> d < |n.deps|)
    && forall id :: id in db.tasks ==> !Attention(db.tasks[id].status) && !Owned(db.tasks[id].status)
  }

  lemma OwnTask(n: Net, tasks: map<TaskId, Task>, a: Task, b: Task, id: TaskId)
    requires n.TasksAt(tasks, a, b) && a.runId == 0 && b.runId == 1 && id in tasks
    ensures tasks[id].runId == id
  {
  }

  lemma RootStood(db: Db, r: RunId)
    requires r in db.tasks && forall id :: id in db.tasks ==> db.tasks[id].runId == id
    requires r in db.runs && db.runs[r].status.RunRunning? && Terminal(db.tasks[r].status)
    ensures RootStands(db, r, Successful(db.tasks[r].status))
  {
    forall id | InRun(db, id, r) ensures id == r { }
    assert InRun(db, r, r);
  }

  lemma ConsumerStood(db: Db, g: Global, r: RunId, d: DepId)
    requires r in db.tasks && db.tasks[r].runId == r && db.tasks[r].status.Staged?
    requires r in db.runs && db.runs[r].status.RunPreparing? && r in g.members && ConsumesIn(db, g, d, r)
    ensures ConsumerStands(db, g, r)
  {
    assert InRun(db, r, r);
  }

  lemma DepStood(db: Db, g: Global, d: DepId)
    requires d in db.xdeps && d in g.deps && d !in db.handoffs && db.xdeps[d].status.DepPending?
    ensures DepStands(db, g, d, db.xdeps[d])
  {
  }

  lemma DepsStood(n: Net, db: Db, g: Global)
    requires n.Valid() && n.DepsAt(db.xdeps) && db.handoffs == map[] && g == n.Row(GlobalRunning)
    ensures forall d: nat :: d < |n.deps| ==> DepStands(db, g, d, n.deps[d])
    ensures forall d :: d in g.deps ==> d < |n.deps|
  {
    forall d: nat | d < |n.deps| ensures DepStands(db, g, d, n.deps[d]) {
      assert g.deps[d] == d;
      DepStood(db, g, d);
    }
  }

  lemma ConsumedAt(n: Net, db: Db, g: Global, r: RunId) returns (d: DepId)
    requires n.Valid() && n.DepsAt(db.xdeps) && g == n.Row(g.status) && r in n.consumers
    ensures ConsumesIn(db, g, d, r)
  {
    d :| 0 <= d < |n.deps| && n.deps[d].consumer == r;
    assert g.deps[d] == d;
  }

  lemma ConsumersStood(n: Net, db: Db, g: Global, a: Root, b: Root)
    requires n.Valid() && n.At(db, GlobalRunning, a, b) && g == n.Row(GlobalRunning)
    ensures forall r :: r in n.consumers ==> ConsumerStands(db, g, r)
  {
    forall r | r in n.consumers ensures ConsumerStands(db, g, r) {
      var d := ConsumedAt(n, db, g, r);
      ConsumerStood(db, g, r, d);
    }
  }

  lemma RootsStood(n: Net, db: Db, a: Root, b: Root)
    requires n.At(db, GlobalRunning, a, b) && a.task.runId == 0 && b.task.runId == 1 && a.run.RunRunning?
    requires b.run.RunRunning?
    requires Terminal(a.task.status) && Terminal(b.task.status)
    ensures RootStands(db, 0, Successful(a.task.status)) && RootStands(db, 1, Successful(b.task.status))
  {
    forall id | id in db.tasks ensures db.tasks[id].runId == id { OwnTask(n, db.tasks, a.task, b.task, id); }
    RootStood(db, 0);
    RootStood(db, 1);
  }

  lemma NobodyHeld(n: Net, db: Db, a: Root, b: Root)
    requires n.At(db, GlobalRunning, a, b) && Terminal(a.task.status) && Terminal(b.task.status)
    requires !Attention(a.task.status) && !Attention(b.task.status)
    ensures forall id :: id in db.tasks ==> !Attention(db.tasks[id].status) && !Owned(db.tasks[id].status)
  {
  }

  lemma Stood(n: Net, db: Db, b: Root)
    requires n.Valid() && n.At(db, GlobalRunning, DoneRoot(0), b) && b in {DoneRoot(1), LostRoot(1)}
    ensures 0 in db.globals && db.globals[0] == n.Row(GlobalRunning) && Stands(n, db, db.globals[0], b == DoneRoot(1))
  {
    RootsStood(n, db, DoneRoot(0), b);
    ConsumersStood(n, db, db.globals[0], DoneRoot(0), b);
    DepsStood(n, db, db.globals[0]);
    NobodyHeld(n, db, DoneRoot(0), b);
  }

  ghost predicate NoRewrite(es: seq<Event>) { forall i :: 0 <= i < |es| ==> !es[i].RewriteHandoff? }

  lemma NetUnderWay(es: seq<Event>)
    requires NoRewrite(es) && 0 in Replay(es).globals
    requires Replay(es).globals[0].status in {GlobalRunning, GlobalWaiting} && !Replay(es).globals[0].cancelRequested
    ensures UnderWay(Replay(es), 0)
  {
    ReachableGood(es);
    ReachableRegular(es);
  }

  lemma BothDoneReached(n: Net) returns (es: seq<Event>)
    requires n.Valid()
    ensures UnderWay(Replay(es), 0) && Stands(n, Replay(es), Replay(es).globals[0], true)
  {
    es := BothDone(n);
    NetBothDone(n);
    Stood(n, Replay(es), DoneRoot(1));
    NetUnderWay(es);
  }

  lemma OneLostReached(n: Net) returns (es: seq<Event>)
    requires n.Valid()
    ensures UnderWay(Replay(es), 0) && Stands(n, Replay(es), Replay(es).globals[0], false)
  {
    es := OneLost(n);
    NetOneLost(n);
    Stood(n, Replay(es), LostRoot(1));
    NetUnderWay(es);
  }

  // ---------- Every dependency skipped ----------

  /** Project 2 is the fallback of both roots. */
  const Fallback := Net([2], {}, [Dep(0, 2, IfFailure), Dep(1, 2, IfFailure)], AllSuccess)

  lemma FallbackSkips(db: Db, g: Global, attested: Attestations)
    requires Stands(Fallback, db, g, true)
    ensures SkippedSoon(db, g, 2, attested)
  {
    assert 2 in Fallback.consumers;
    forall d: DepId | ConsumesIn(db, g, d, 2) ensures Forecast(db, d, attested) == DepSkipped {
      assert DepStands(db, g, d, Fallback.deps[d]);
    }
  }

  lemma FallbackValid()
    ensures Fallback.Valid()
  {
    assert Fallback.deps[0].consumer == 2;
  }

  lemma FallbackStands(db: Db, g: Global)
    requires Stands(Fallback, db, g, true)
    ensures g.members == [0, 1, 2] && Succeeding(db, 0) && Succeeding(db, 1) && RunPreparingIn(db, 2)
    ensures forall attested :: SkippedSoon(db, g, 2, attested)
  {
    assert 2 in Fallback.consumers;
    forall attested ensures SkippedSoon(db, g, 2, attested) { FallbackSkips(db, g, attested); }
  }

  lemma SkippedThrows(db: Db, g: GlobalId, r: RunId)
    requires Refreshing(db, g) && r in db.globals[g].members
    requires forall attested :: SkippedSoon(db, db.globals[g], r, attested)
    ensures forall calls :: AllThrow(db, g, calls)
  {
    forall calls ensures AllThrow(db, g, calls) { SkippedForever(db, g, r, calls); }
  }

  /** A fallback whose producers both succeed: every refresh throws, and the Global Run stays
      running although nothing is left to run. */
  lemma UnneededFallback() returns (es: seq<Event>)
    ensures UnderWay(Replay(es), 0) && Replay(es).globals[0].members == [0, 1, 2]
    ensures Replay(es).globals[0].status.GlobalRunning?
    ensures Succeeding(Replay(es), 0) && Succeeding(Replay(es), 1) && RunPreparingIn(Replay(es), 2)
    ensures forall calls :: AllThrow(Replay(es), 0, calls)
  {
    FallbackValid();
    es := BothDoneReached(Fallback);
    FallbackStands(Replay(es), Replay(es).globals[0]);
    SkippedThrows(Replay(es), 0, 2);
  }

  // ---------- Skipped and satisfied mixed ----------

  /** Project 2 is the fallback of one root and the successor of the other. */
  const Mixed := Net([2], {}, [Dep(0, 2, IfFailure), Dep(1, 2, IfAllSuccess)], AllSuccess)

  lemma MixedValid()
    ensures Mixed.Valid()
  {
    assert Mixed.deps[0].consumer == 2;
  }

  lemma MixedMixes(db: Db, g: Global, attested: Attestations)
    requires Stands(Mixed, db, g, true)
    ensures MixedSoon(db, g, 2, attested)
  {
    assert 2 in Mixed.consumers;
    forall d: DepId | ConsumesIn(db, g, d, 2)
      ensures Forecast(db, d, attested) == if d == 0 then DepSkipped else DepSatisfied
    {
      assert DepStands(db, g, d, Mixed.deps[d]);
    }
    assert DepStands(db, g, 0, Mixed.deps[0]) && DepStands(db, g, 1, Mixed.deps[1]);
    assert ConsumesIn(db, g, 0, 2) && ConsumesIn(db, g, 1, 2);
  }

  lemma MixedStalls(db: Db, g: Global, attested: Attestations)
    requires Stands(Mixed, db, g, true)
    ensures Stalled(db, g, attested) && MixedSoon(db, g, 2, attested)
  {
    MixedMixes(db, g, attested);
    assert 2 in g.members;
    forall r | r in g.members ensures OverSoon(db, r) || Standing(db, g, r, attested) { }
  }

  lemma MixedStands(db: Db, g: Global)
    requires Stands(Mixed, db, g, true)
    ensures g.members == [0, 1, 2] && Succeeding(db, 0) && Succeeding(db, 1) && RunPreparingIn(db, 2)
    ensures forall attested :: Stalled(db, g, attested) && MixedSoon(db, g, 2, attested)
  {
    assert 2 in Mixed.consumers;
    forall attested ensures Stalled(db, g, attested) && MixedSoon(db, g, 2, attested) { MixedStalls(db, g, attested); }
  }

  lemma StalledWaitsOn(db: Db, g: GlobalId, r: RunId)
    requires UnderWay(db, g) && StalledOn(db, g, r)
    ensures forall calls :: WaitsOn(db, g, r, calls)
  {
    forall calls ensures WaitsOn(db, g, r, calls) { StalledForever(db, g, r, calls); }
  }

  /** A project that is the fallback of one success and the successor of another: no refresh
      throws, none releases it, and the Global Run waits for ever. */
  lemma FallbackAndSuccessor() returns (es: seq<Event>)
    ensures UnderWay(Replay(es), 0) && Replay(es).globals[0].members == [0, 1, 2]
    ensures Succeeding(Replay(es), 0) && Succeeding(Replay(es), 1) && RunPreparingIn(Replay(es), 2)
    ensures forall calls :: WaitsOn(Replay(es), 0, 2, calls)
  {
    MixedValid();
    es := BothDoneReached(Mixed);
    MixedStands(Replay(es), Replay(es).globals[0]);
    StalledWaitsOn(Replay(es), 0, 2);
  }

  // ---------- Completed while waiting ----------

  /** Project 0 is required; 1, 2 and 3 are optional and follow each other. */
  const Chain := Net([2, 3], {1, 2, 3}, [Dep(1, 2, IfAllSuccess), Dep(2, 3, IfAllSuccess)], AllSuccess)

  lemma ChainValid()
    ensures Chain.Valid()
  {
    assert Chain.deps[0].consumer == 2 && Chain.deps[1].consumer == 3;
  }

  ghost predicate ChainDeps(db: Db, g: Global) {
    forall d: DepId, r :: ConsumesIn(db, g, d, r) <==> (d == 0 && r == 2) || (d == 1 && r == 3)
  }

  /** Both roots are over, project 2 is about to be failed and project 3 waits for it. */
  ghost predicate Halted(db: Db, g: Global, attested: Attestations) {
    && g.members == [0, 1, 2, 3] && ChainDeps(db, g) && OverSoon(db, 0) && OverSoon(db, 1)
    && DoomedSoon(db, g, 2, attested) && !Succeeding(db, 2)
    && StillPreparing(db, g, 3) && !TasksEnded(db, 3) && Forecast(db, 1, attested) == DepPending
  }

  /** How the first refresh finds the members. */
  ghost predicate ChainMembers(db: Db, g: Global, attested: Attestations) {
    && Halted(db, g, attested) && g.optional == {1, 2, 3} && Succeeding(db, 0) && !Succeeding(db, 1)
    && db.xdeps[1].producer == 2 && db.xdeps[1].condition.IfAllSuccess?
    && forall id :: id in db.tasks ==> !Attention(db.tasks[id].status) && !Owned(db.tasks[id].status)
  }

  lemma ChainFound(db: Db, g: Global, attested: Attestations)
    requires Stands(Chain, db, g, false)
    ensures ChainMembers(db, g, attested)
  {
    assert 2 in Chain.consumers && 3 in Chain.consumers;
    assert DepStands(db, g, 0, Chain.deps[0]) && DepStands(db, g, 1, Chain.deps[1]);
    assert ConsumesIn(db, g, 0, 2) && ConsumesIn(db, g, 1, 3);
  }

  lemma HaltedTurns(db: Db, g: Global, attested: Attestations)
    requires Halted(db, g, attested)
    ensures forall r :: r in g.members ==> !SkippedSoon(db, g, r, attested) && !RunningSoon(db, g, r, attested)
    ensures !EndedSoon(db, g, 3, attested) && !StartedSoon(db, g, 3, attested)
    ensures Destiny(db, g, attested) == GlobalWaiting && !CompletesSoon(db, g, attested)
  {
    assert ConsumesIn(db, g, 0, 2) && ConsumesIn(db, g, 1, 3);
    assert g.members[3] == 3;
    assert !EndedSoon(db, g, 3, attested);
  }

  /** The tables after the first refresh. */
  ghost predicate ChainRefreshed(db: Db, c: Db, g: Global, attested: Attestations) {
    && AllAfter(db, c, g, attested) && MemberFacts(db, c, g, 3, attested) && DepForeseen(db, c, 1, attested)
    && DepsLater(db, c) && c.xdeps.Keys == db.xdeps.Keys && PreparingIdle(c)
  }

  lemma ChainMember(db: Db, c: Db, g: Global, attested: Attestations, r: RunId)
    requires ChainMembers(db, g, attested) && AllAfter(db, c, g, attested) && r < 3
    ensures Over(c, r) && (RunCompletedIn(c, r) <==> r == 0) && !NeedsAttention(c, r)
  {
    assert g.members[r] == r;
    assert MemberAfter(db, c, g, r, attested);
    assert EndedSoon(db, g, r, attested);
  }

  lemma ChainLast(db: Db, c: Db, g: Global, g': Global, attested: Attestations, next: Attestations)
    requires ChainMembers(db, g, attested) && ChainRefreshed(db, c, g, attested) && g' == g.(status := g'.status)
    ensures DoomedSoon(c, g', 3, next)
  {
    ChainMember(db, c, g, attested, 2);
    HaltedTurns(db, g, attested);
    assert ConsumesIn(db, g, 1, 3) && ConsumesIn(c, g', 1, 3);
    forall d | ConsumesIn(c, g', d, 3) ensures d == 1 {
      assert DepLater(db.xdeps[d], c.xdeps[d]) && ConsumesIn(db, g, d, 3);
    }
    assert Forecast(c, 1, next) == DepFailed;
  }

  lemma ChainLastAttention(db: Db, c: Db, g: Global, attested: Attestations)
    requires ChainMembers(db, g, attested) && ChainRefreshed(db, c, g, attested)
    ensures RunPreparingIn(c, 3) && !NeedsAttention(c, 3)
  {
    HaltedTurns(db, g, attested);
    assert g.members[3] == 3;
    assert MemberAfter(db, c, g, 3, attested);
  }

  lemma ChainQuiet(db: Db, c: Db, g: Global, g': Global, attested: Attestations, next: Attestations)
    requires ChainMembers(db, g, attested) && ChainRefreshed(db, c, g, attested) && g' == g.(status := g'.status)
    ensures EndedSoon(c, g', 3, next) && !AttentionSoon(c, g', 3, next)
  {
    assert DoomedSoon(c, g', 3, next) by { ChainLast(db, c, g, g', attested, next); }
    assert RunPreparingIn(c, 3) && !NeedsAttention(c, 3) by { ChainLastAttention(db, c, g, attested); }
    assert PreparingIdle(c);
  }

  lemma ChainCompletes(db: Db, c: Db, g: Global, g': Global, attested: Attestations, next: Attestations)
    requires ChainMembers(db, g, attested) && ChainRefreshed(db, c, g, attested) && g' == g.(status := g'.status)
    ensures CompletesSoon(c, g', next)
  {
    forall r | r in g'.members
      ensures EndedSoon(c, g', r, next) && !AttentionSoon(c, g', r, next) && (r !in g'.optional ==> Succeeding(c, r))
    {
      if r < 3 { ChainMember(db, c, g, attested, r); } else { ChainQuiet(db, c, g, g', attested, next); }
    }
  }

  lemma LeftWaiting(db: Db, g: GlobalId, attested: Attestations)
    requires UnderWay(db, g) && RefreshGlobal(db, g, attested).ok && Destiny(db, db.globals[g], attested).GlobalWaiting?
    ensures UnderWay(RefreshGlobal(db, g, attested).db, g)
  {
    StillRefreshing(db, g, attested);
  }

  lemma HaltedProceeds(db: Db, attested: Attestations)
    requires UnderWay(db, 0) && db.globals[0].status.GlobalRunning? && Halted(db, db.globals[0], attested)
    ensures RefreshGlobal(db, 0, attested).ok && Destiny(db, db.globals[0], attested) == GlobalWaiting
  {
    HaltedTurns(db, db.globals[0], attested);
    RefreshThrowsIff(db, 0, attested);
  }

  lemma HaltedRefreshes(db: Db, attested: Attestations)
    requires UnderWay(db, 0) && db.globals[0].status.GlobalRunning? && Halted(db, db.globals[0], attested)
    ensures RefreshGlobal(db, 0, attested).ok && RefreshedTo(db, RefreshGlobal(db, 0, attested).db, 0, attested)
    ensures UnderWay(RefreshGlobal(db, 0, attested).db, 0)
  {
    HaltedProceeds(db, attested);
    LeftWaiting(db, 0, attested);
    RefreshDone(db, 0, attested);
  }

  lemma ChainAfter(db: Db, attested: Attestations)
    requires UnderWay(db, 0) && RefreshGlobal(db, 0, attested).ok && 1 in db.globals[0].deps
    ensures var c := RefreshGlobal(db, 0, attested).db;
      AllAfter(db, c, db.globals[0], attested) && DepForeseen(db, c, 1, attested)
  {
    RefreshCore(db, 0, attested);
    AllMembersAfter(db, 0, attested);
    AfterCore(db, Before(db, 0, attested).db, RefreshGlobal(db, 0, attested).db, db.globals[0], attested);
    DepAfter(db, 0, attested, 1);
  }

  lemma ChainGathered(db: Db, c: Db, attested: Attestations)
    requires 0 in db.globals && RefreshedTo(db, c, 0, attested) && AllAfter(db, c, db.globals[0], attested)
    requires DepForeseen(db, c, 1, attested) && PreparingIdle(c) && 3 in db.globals[0].members
    ensures ChainRefreshed(db, c, db.globals[0], attested)
  {
  }

  lemma ChainWaits(db: Db, attested: Attestations)
    requires UnderWay(db, 0) && db.globals[0].status.GlobalRunning? && ChainMembers(db, db.globals[0], attested)
    ensures var c := RefreshGlobal(db, 0, attested).db;
      && UnderWay(c, 0) && c.globals[0] == db.globals[0].(status := GlobalWaiting)
      && ChainRefreshed(db, c, db.globals[0], attested)
  {
    var row, c := db.globals[0], RefreshGlobal(db, 0, attested).db;
    assert row.members[3] == 3 && ConsumesIn(db, row, 1, 3);
    HaltedRefreshes(db, attested);
    ChainAfter(db, attested);
    HaltedTurns(db, row, attested);
    ChainGathered(db, c, attested);
  }

  lemma CompletesThrows(db: Db, g: GlobalId)
    requires UnderWay(db, g) && db.globals[g].status.GlobalWaiting?
    requires forall attested :: CompletesSoon(db, db.globals[g], attested)
    ensures forall calls :: AllThrow(db, g, calls)
  {
    forall calls ensures AllThrow(db, g, calls) { WaitingForever(db, g, calls); }
  }

  lemma ChainStops(db: Db, c: Db, attested: Attestations)
    requires 0 in db.globals && 0 in c.globals && c.globals[0] == db.globals[0].(status := GlobalWaiting)
    requires ChainMembers(db, db.globals[0], attested) && ChainRefreshed(db, c, db.globals[0], attested)
    ensures RunCompletedIn(c, 0) && forall next :: CompletesSoon(c, c.globals[0], next)
  {
    ChainMember(db, c, db.globals[0], attested, 0);
    forall next ensures CompletesSoon(c, c.globals[0], next) {
      ChainCompletes(db, c, db.globals[0], c.globals[0], attested, next);
    }
  }

  lemma ChainEnds(db: Db, attested: Attestations)
    requires UnderWay(db, 0) && db.globals[0].status.GlobalRunning? && ChainMembers(db, db.globals[0], attested)
    ensures var c := RefreshGlobal(db, 0, attested).db;
      && UnderWay(c, 0) && c.globals[0] == db.globals[0].(status := GlobalWaiting) && RunCompletedIn(c, 0)
      && forall calls :: AllThrow(c, 0, calls)
  {
    ChainWaits(db, attested);
    ChainStops(db, RefreshGlobal(db, 0, attested).db, attested);
    CompletesThrows(RefreshGlobal(db, 0, attested).db, 0);
  }

  /** One required project that completes, and a chain of optional ones that fails at its head:
      the Global Run waits, cannot become completed, and every refresh throws. */
  lemma OptionalChain(attested: Attestations) returns (es: seq<Event>)
    ensures UnderWay(Replay(es), 0) && Replay(es).globals[0].members == [0, 1, 2, 3]
    ensures Replay(es).globals[0].optional == {1, 2, 3}
    ensures Replay(es).globals[0].status.GlobalWaiting? && RunCompletedIn(Replay(es), 0)
    ensures forall calls :: AllThrow(Replay(es), 0, calls)
  {
    ChainValid();
    var before := OneLostReached(Chain);
    ChainFound(Replay(before), Replay(before).globals[0], attested);
    ChainEnds(Replay(before), attested);
    RefreshProjectsLogged(before, 0, attested);
    es := before + [RefreshProjects(0, attested)];
  }
}
