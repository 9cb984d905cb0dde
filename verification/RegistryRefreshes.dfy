/** What a refresh of a Global Run comes to, told in the columns of the tables before and after it:
    how every dependency is decided, what becomes of each project and its tasks, and which status
    the Global Run gets. */
module RegistryRefreshes {
  import opened DomainStates
  import opened TaskRows
  import opened Handoffs
  import opened RegistrySteps
  import opened RegistryInvariant
  import opened RegistryKeeps
  import opened RegistryGlobal
  import opened RegistryForecast
  import opened RegistryTurns
  import opened RegistryFinish
  import opened RegistryConvergence
  import opened RegistryRuns
  import opened RegistryHistory

  // ---------- Dependencies ----------

  /** Over, or with every task over. */
  ghost predicate Finishing(db: Db, r: RunId) {
    r in db.runs
    && (db.runs[r].status in RUN_ENDED || forall id :: InRun(db, id, r) ==> db.tasks[id].status in ENDED)
  }

  /** Completed, or running with every task completed or skipped. */
  ghost predicate Succeeds(db: Db, r: RunId) {
    r in db.runs
    && (db.runs[r].status.RunCompleted?
        || (db.runs[r].status.RunRunning?
            && forall id :: InRun(db, id, r) ==> db.tasks[id].status in {Completed, CompletedWithWarnings, Skipped}))
  }

  lemma FinishingMeans(db: Db, r: RunId)
    ensures Finishing(db, r) <==> OverSoon(db, r)
    ensures Succeeds(db, r) <==> Succeeding(db, r)
  {
    if r in db.runs {
      assert TasksEnded(db, r) <==> forall id :: InRun(db, id, r) ==> db.tasks[id].status in ENDED;
      assert AllSuccessful(db, r) <==>
        forall id :: InRun(db, id, r) ==> db.tasks[id].status in {Completed, CompletedWithWarnings, Skipped};
    }
  }

  /** How a dependency stands after a refresh: a pending one is decided iff its producer is over or
      about to be. Then a fallback is skipped iff the producer succeeds, a dependency on success
      fails if it does not, and every other one is satisfied, or failed for want of outputs. One
      decided before stays, but a satisfied one without handoff or outputs fails. */
  ghost predicate DecidedTo(db: Db, d: DepId, attested: Attestations, now: DepStatus)
    requires d in db.xdeps
  {
    var dep := db.xdeps[d];
    var skipped := dep.condition.IfFailure? && Succeeds(db, dep.producer);
    var missed := dep.condition.IfAllSuccess? && !Succeeds(db, dep.producer);
    if !dep.status.DepPending? then
      now == if dep.status.DepSatisfied? && !OutputsThere(db, d, attested) then DepFailed else dep.status
    else if !Finishing(db, dep.producer) then now.DepPending?
    else
      && (skipped ==> now.DepSkipped?) && (missed ==> now.DepFailed?)
      && (!skipped && !missed ==> now == if OutputsThere(db, d, attested) then DepSatisfied else DepFailed)
  }

  lemma ForecastDecides(db: Db, d: DepId, attested: Attestations)
    requires d in db.xdeps
    ensures DecidedTo(db, d, attested, Forecast(db, d, attested))
  {
    FinishingMeans(db, db.xdeps[d].producer);
    OutputsMean(db, d, attested);
  }

  /** A refresh, thrown or not, decides every dependency so, and changes no other column of it. */
  lemma DependencyDecided(db: Db, g: GlobalId, attested: Attestations, d: DepId)
    requires Refreshing(db, g) && d in db.globals[g].deps
    ensures DepDecided(db, RefreshGlobal(db, g, attested).db, d, attested)
  {
    DepAfter(db, g, attested, d);
    ForecastDecides(db, d, attested);
  }

  // ---------- Projects ----------

  ghost predicate AnyComes(c: Db, g: Global, r: RunId, s: DepStatus) {
    exists d :: ConsumesIn(c, g, d, r) && c.xdeps[d].status == s
  }

  ghost predicate AllCome(c: Db, g: Global, r: RunId, s: DepStatus) {
    (exists d :: ConsumesIn(c, g, d, r)) && forall d :: ConsumesIn(c, g, d, r) ==> c.xdeps[d].status == s
  }

  /** Unended, with everything inbound decided and something of it failed. */
  ghost predicate Failed(db: Db, c: Db, g: Global, r: RunId) {
    !Finishing(db, r) && !AnyComes(c, g, r, DepPending) && AnyComes(c, g, r, DepFailed)
  }

  /** In preparation, with everything inbound satisfied and no cancellation requested. */
  ghost predicate Started(db: Db, c: Db, g: Global, r: RunId) {
    RunPreparingIn(db, r) && !Finishing(db, r) && AllCome(c, g, r, DepSatisfied) && !g.cancelRequested
  }

  /** In a failed project what has not started fails, and what somebody holds needs attention; who
      holds it stays on record. */
  predicate FailedTask(t: Task, t': Task) {
    t' == if t.status in {Staged, Blocked, Queued, RetryWaiting, WaitingForLease}
      then t.(status := TaskStatus.Failed, version := t.version + 1)
      else if t.status in HELD then t.(status := RecoveryAttention, version := t.version + 1) else t
  }

  predicate StartedTask(t: Task, t': Task) {
    t' == if t.status.Staged?
      then t.(status := if t.dependsOn == {} then Queued else Blocked, version := t.version + 1) else t
  }

  /** A task of project `r` after the refresh. */
  ghost predicate TaskCome(db: Db, c: Db, g: Global, r: RunId, t: Task, t': Task) {
    if Failed(db, c, g, r) then FailedTask(t, t')
    else if Started(db, c, g, r) then StartedTask(t, t') else t' == t
  }

  /** Project `r` after the refresh. */
  ghost predicate RunCome(db: Db, c: Db, g: Global, r: RunId)
    requires r in db.runs && r in c.runs
  {
    var now := c.runs[r].status;
    && c.runs[r].gate == db.runs[r].gate
    && (Finishing(db, r) ==> now in RUN_ENDED && (now.RunCompleted? <==> Succeeds(db, r)))
    && (!Finishing(db, r) ==>
          now == if Failed(db, c, g, r) then RunFailed else if Started(db, c, g, r) then RunRunning
                 else db.runs[r].status)
  }

  lemma ComesMeans(db: Db, c: Db, g: Global, r: RunId, attested: Attestations, s: DepStatus)
    requires forall d :: d in g.deps ==> DepForeseen(db, c, d, attested)
    ensures AnyComes(c, g, r, s) <==> AnySoon(db, g, r, s, attested)
    ensures (exists d :: ConsumesIn(db, g, d, r)) ==> (AllCome(c, g, r, s) <==> AllSoon(db, g, r, s, attested))
    ensures AllCome(c, g, r, s) ==> exists d :: ConsumesIn(db, g, d, r)
  {
    forall d ensures ConsumesIn(c, g, d, r) <==> ConsumesIn(db, g, d, r) {
      if d in g.deps { assert DepForeseen(db, c, d, attested); }
    }
    forall d | ConsumesIn(c, g, d, r) ensures c.xdeps[d].status == Forecast(db, d, attested) {
      assert DepForeseen(db, c, d, attested);
    }
  }

  lemma TurnMeans(db: Db, c: Db, g: Global, r: RunId, attested: Attestations)
    requires r in g.members && r in db.runs && forall d :: d in g.deps ==> DepForeseen(db, c, d, attested)
    ensures Failed(db, c, g, r) <==> DoomedSoon(db, g, r, attested)
    ensures Started(db, c, g, r) <==> StartedSoon(db, g, r, attested)
  {
    FinishingMeans(db, r);
    ComesMeans(db, c, g, r, attested, DepPending);
    ComesMeans(db, c, g, r, attested, DepFailed);
    ComesMeans(db, c, g, r, attested, DepSatisfied);
  }

  /** The tasks of a member after the turns, as foreseen. */
  ghost predicate TaskSoon(db: Db, g: Global, r: RunId, attested: Attestations, t: Task, t': Task) {
    t' == if DoomedSoon(db, g, r, attested) then DoomedIn(t, r)
      else if StartedSoon(db, g, r, attested) then ReleasedIn(t, r) else t
  }

  ghost predicate TasksSoon(db: Db, c: Db, g: Global, r: RunId, attested: Attestations) {
    (forall id :: InRun(c, id, r) <==> InRun(db, id, r))
    && forall id :: InRun(db, id, r) ==> TaskSoon(db, g, r, attested, db.tasks[id], c.tasks[id])
  }

  lemma TurnedSoon(db: Db, mid: Db, b: Db, g: Global, r: RunId, attested: Attestations)
    requires mid.tasks == db.tasks && RowsTurned(mid, b, g, r)
    requires TurnDooms(mid, g, r) <==> DoomedSoon(db, g, r, attested)
    requires TurnStarts(mid, g, r) <==> StartedSoon(db, g, r, attested)
    ensures TasksSoon(db, b, g, r, attested)
  {
    forall id ensures InRun(b, id, r) <==> InRun(db, id, r) { assert InRun(mid, id, r) <==> InRun(db, id, r); }
    forall id | InRun(db, id, r) ensures TaskSoon(db, g, r, attested, db.tasks[id], b.tasks[id]) {
      assert InRun(mid, id, r) && TurnedTask(mid, g, r, mid.tasks[id], b.tasks[id]);
    }
  }

  lemma LeftSoon(db: Db, mid: Db, b: Db, g: Global, r: RunId, attested: Attestations)
    requires mid.tasks == db.tasks && SameRun(mid, b, r)
    requires !DoomedSoon(db, g, r, attested) && !StartedSoon(db, g, r, attested)
    ensures TasksSoon(db, b, g, r, attested)
  {
    forall id ensures InRun(b, id, r) <==> InRun(db, id, r) { assert InRun(mid, id, r) <==> InRun(db, id, r); }
  }

  lemma TasksBefore(db: Db, g: GlobalId, attested: Attestations, r: RunId)
    requires Refreshing(db, g) && Before(db, g, attested).ok && r in db.globals[g].members
    ensures var b := Before(db, g, attested).db;
      && TasksSoon(db, b, db.globals[g], r, attested)
      && (DoomedSoon(db, db.globals[g], r, attested) ==> r in b.runs && b.runs[r].status.RunFailed?)
  {
    var row, mid := db.globals[g], Resolved(db, g, attested);
    ResolvedTables(db, g, attested);
    ResolvedReady(db, g, attested);
    ResolvedForeseen(db, g, attested);
    ConsumerForeseen(db, mid, row, r, attested);
    TurnForeseen(db, mid, row, r, attested);
    assert MemberSettled(db, mid, r);
    if r in Consumers(mid, row.deps) {
      ListedConsumer(mid, g, r);
      TurnsTurn(mid, g, Consumers(mid, row.deps), r);
      TurnedSoon(db, mid, Before(db, g, attested).db, row, r, attested);
    } else {
      TurnsLeave(mid, g, Consumers(mid, row.deps), r);
      NotListed(db, mid, row, r, attested);
      LeftSoon(db, mid, Before(db, g, attested).db, row, r, attested);
    }
  }

  lemma NotListed(db: Db, mid: Db, g: Global, r: RunId, attested: Attestations)
    requires r !in Consumers(mid, g.deps) && Foreseen(db, mid, g, attested)
    ensures !DoomedSoon(db, g, r, attested) && !StartedSoon(db, g, r, attested)
  {
    ConsumerForeseen(db, mid, g, r, attested);
    assert forall d :: !ConsumesIn(mid, g, d, r);
  }

  lemma CoreSoon(db: Db, b: Db, c: Db, g: Global, r: RunId, attested: Attestations)
    requires SameCore(b, c) && TasksSoon(db, b, g, r, attested)
    ensures TasksSoon(db, c, g, r, attested)
  {
    forall id ensures InRun(c, id, r) <==> InRun(b, id, r) { }
  }

  /** A refresh that does not throw, project by project: a member that was over or about to be is
      over, completed iff it succeeds; one with something failed inbound fails, with its tasks; a
      preparing one with everything satisfied runs, with its staged tasks queued or blocked; and
      any other is left alone. */
  lemma ProjectCome(db: Db, g: GlobalId, attested: Attestations, r: RunId)
    requires Refreshing(db, g) && RefreshGlobal(db, g, attested).ok && r in db.globals[g].members
    ensures ProjectComes(db, RefreshGlobal(db, g, attested).db, db.globals[g], r)
  {
    var row, c := db.globals[g], RefreshGlobal(db, g, attested).db;
    MemberRunSoon(db, g, attested, r);
    MemberTasksSoon(db, g, attested, r);
    DepsSoon(db, g, attested);
    TurnMeans(db, c, row, r, attested);
    RunIsCome(db, c, row, r, attested);
    TasksAreCome(db, c, row, r, attested);
  }

  ghost predicate ProjectComes(db: Db, c: Db, g: Global, r: RunId) {
    && r in db.runs && r in c.runs && RunCome(db, c, g, r)
    && (forall id :: InRun(c, id, r) <==> InRun(db, id, r))
    && forall id :: InRun(db, id, r) ==> TaskCome(db, c, g, r, db.tasks[id], c.tasks[id])
  }

  lemma DepsSoon(db: Db, g: GlobalId, attested: Attestations)
    requires Refreshing(db, g)
    ensures forall d :: d in db.globals[g].deps ==> DepForeseen(db, RefreshGlobal(db, g, attested).db, d, attested)
  {
    forall d | d in db.globals[g].deps ensures DepForeseen(db, RefreshGlobal(db, g, attested).db, d, attested) {
      DepAfter(db, g, attested, d);
    }
  }

  lemma MemberTasksSoon(db: Db, g: GlobalId, attested: Attestations, r: RunId)
    requires Refreshing(db, g) && RefreshGlobal(db, g, attested).ok && r in db.globals[g].members
    ensures var c := RefreshGlobal(db, g, attested).db;
      && TasksSoon(db, c, db.globals[g], r, attested)
      && (DoomedSoon(db, db.globals[g], r, attested) ==> r in c.runs && c.runs[r].status.RunFailed?)
  {
    RefreshCore(db, g, attested);
    TasksBefore(db, g, attested, r);
    CoreSoon(db, Before(db, g, attested).db, RefreshGlobal(db, g, attested).db, db.globals[g], r, attested);
  }

  /** The member's run before and after. */
  ghost predicate RunSoon(db: Db, c: Db, g: Global, r: RunId, attested: Attestations) {
    && r in db.runs && r in c.runs && c.runs[r].gate == db.runs[r].gate
    && Opened(db.runs[r].status) && Opened(c.runs[r].status) && MemberAfter(db, c, g, r, attested)
  }

  lemma MemberRunSoon(db: Db, g: GlobalId, attested: Attestations, r: RunId)
    requires Refreshing(db, g) && RefreshGlobal(db, g, attested).ok && r in db.globals[g].members
    ensures RunSoon(db, RefreshGlobal(db, g, attested).db, db.globals[g], r, attested)
  {
    var c := RefreshGlobal(db, g, attested).db;
    MembersWired(db, g);
    RefreshDone(db, g, attested);
    AfterRefresh(db, g, attested, r);
    WiredOpened(db);
    WiredOpened(c);
    assert RunLater(db.runs[r], c.runs[r]);
  }

  lemma RunIsCome(db: Db, c: Db, g: Global, r: RunId, attested: Attestations)
    requires RunSoon(db, c, g, r, attested)
    requires Failed(db, c, g, r) <==> DoomedSoon(db, g, r, attested)
    requires Started(db, c, g, r) <==> StartedSoon(db, g, r, attested)
    requires DoomedSoon(db, g, r, attested) ==> c.runs[r].status.RunFailed?
    ensures RunCome(db, c, g, r)
  {
    FinishingMeans(db, r);
  }

  lemma TasksAreCome(db: Db, c: Db, g: Global, r: RunId, attested: Attestations)
    requires TasksSoon(db, c, g, r, attested)
    requires Failed(db, c, g, r) <==> DoomedSoon(db, g, r, attested)
    requires Started(db, c, g, r) <==> StartedSoon(db, g, r, attested)
    ensures forall id :: InRun(db, id, r) ==> TaskCome(db, c, g, r, db.tasks[id], c.tasks[id])
  {
    forall id | InRun(db, id, r) ensures TaskCome(db, c, g, r, db.tasks[id], c.tasks[id]) {
      assert TaskSoon(db, g, r, attested, db.tasks[id], c.tasks[id]);
    }
  }

  // ---------- The Global Run ----------

  ghost predicate AllOver(c: Db, g: Global) {
    g.members != [] && forall r :: r in g.members ==> r in c.runs && c.runs[r].status in RUN_ENDED
  }

  ghost predicate AnyInTrouble(c: Db, g: Global) {
    exists id, r :: r in g.members && InRun(c, id, r) && c.tasks[id].status in {RecoveryAttention, IntegrationBlocked}
  }

  ghost predicate RequiredFailed(c: Db, g: Global) {
    exists r :: r in g.members && r !in g.optional && r in c.runs && c.runs[r].status != RunCompleted
  }

  /** Once every project is over the Global Run ends: cancelled if that was asked for, else in need of
      attention if a task is, else failed if a required project did not complete, else completed. Until
      then it runs while a project runs, and waits otherwise. */
  ghost predicate GlobalComes(c: Db, g: Global, s: GlobalStatus) {
    s == if AllOver(c, g) then
        (if g.cancelRequested then GlobalCancelled else if AnyInTrouble(c, g) then GlobalAttention
         else if RequiredFailed(c, g) then GlobalFailed else GlobalCompleted)
      else if exists r :: r in g.members && RunRunningIn(c, r) then GlobalRunning else GlobalWaiting
  }

  lemma TroubleMeans(c: Db, g: Global)
    ensures AnyInTrouble(c, g) <==> exists r :: r in g.members && NeedsAttention(c, r)
  {
    if AnyInTrouble(c, g) {
      var id, r :| r in g.members && InRun(c, id, r) && c.tasks[id].status in {RecoveryAttention, IntegrationBlocked};
      assert NeedsAttention(c, r);
    }
    if r :| r in g.members && NeedsAttention(c, r) {
      var id :| id in c.tasks && c.tasks[id].runId == r && Attention(c.tasks[id].status);
      assert InRun(c, id, r);
    }
  }

  lemma StatusComes(c: Db, g: Global)
    requires forall r :: r in g.members ==> r in c.runs
    ensures GlobalComes(c, g, if MembersStatus(c, g).Some? then MembersStatus(c, g).value
                              else if AnyRunning(c, g) then GlobalRunning else GlobalWaiting)
  {
    TroubleMeans(c, g);
    assert AllOver(c, g) <==> g.members != [] && forall r :: r in g.members ==> Over(c, r);
    assert AnyRunning(c, g) <==> exists r :: r in g.members && RunRunningIn(c, r);
    assert RequiredFailed(c, g) <==> exists r :: r in g.members && r !in g.optional && !RunCompletedIn(c, r);
  }

  lemma SameComes(b: Db, c: Db, g: Global, s: GlobalStatus)
    requires SameCore(b, c) && GlobalComes(b, g, s)
    ensures GlobalComes(c, g, s)
  {
    assert AllOver(c, g) <==> AllOver(b, g);
    assert forall id, r :: InRun(c, id, r) <==> InRun(b, id, r);
    assert AnyInTrouble(c, g) <==> AnyInTrouble(b, g);
    assert RequiredFailed(c, g) <==> RequiredFailed(b, g);
    assert forall r :: RunRunningIn(c, r) <==> RunRunningIn(b, r);
  }

  lemma StatusCome(db: Db, g: GlobalId, attested: Attestations)
    requires Refreshing(db, g) && RefreshGlobal(db, g, attested).ok
    ensures var c := RefreshGlobal(db, g, attested).db;
      && g in c.globals && c.globals[g] == db.globals[g].(status := c.globals[g].status)
      && GlobalComes(c, db.globals[g], c.globals[g].status)
  {
    var row, b := db.globals[g], Before(db, g, attested).db;
    RefreshCore(db, g, attested);
    StillRefreshing(db, g, attested);
    AllMembersAfter(db, g, attested);
    MembersStay(db, b, row, attested);
    MembersStatusDestiny(db, b, row, attested);
    StatusComes(b, row);
    SameComes(b, RefreshGlobal(db, g, attested).db, row, Destiny(db, row, attested));
  }

  // ---------- One run ----------

  /** Every task of an unended run is over, and it has one. */
  ghost predicate RunDue(db: Db, r: RunId) {
    r in db.runs && db.runs[r].status !in RUN_ENDED && (exists id :: InRun(db, id, r))
    && forall id :: InRun(db, id, r) ==> db.tasks[id].status in ENDED
  }

  /** How a run ends: failed if a task did, else cancelled if one was, else completed. */
  ghost predicate EndsAs(db: Db, r: RunId, s: RunStatus) {
    && s in RUN_ENDED
    && (s.RunFailed? <==>
          exists id :: InRun(db, id, r)
            && db.tasks[id].status in ENDED - {Completed, CompletedWithWarnings, Skipped, Canceled})
    && (s.RunCompleted? <==>
          forall id :: InRun(db, id, r) ==> db.tasks[id].status in {Completed, CompletedWithWarnings, Skipped})
  }

  /** deriveRunStatus over the statuses that occur. */
  lemma DerivedMeans(ss: set<TaskStatus>)
    ensures DeriveRunStatus(ss).Some? <==> ss != {} && ss <= ENDED
    ensures DeriveRunStatus(ss).Some? ==>
      var s := DeriveRunStatus(ss).value;
      && s in RUN_ENDED
      && (s.RunFailed? <==> exists t :: t in ss && t in ENDED - {Completed, CompletedWithWarnings, Skipped, Canceled})
      && (s.RunCompleted? <==> ss <= {Completed, CompletedWithWarnings, Skipped})
  {
  }

  lemma StatusesMean(db: Db, r: RunId, some: set<TaskStatus>)
    ensures StatusesOf(db, r) <= some <==> forall id :: InRun(db, id, r) ==> db.tasks[id].status in some
    ensures (exists s :: s in StatusesOf(db, r) && s in some) <==>
      exists id :: InRun(db, id, r) && db.tasks[id].status in some
  {
    forall id | InRun(db, id, r) ensures db.tasks[id].status in StatusesOf(db, r) { }
    forall s | s in StatusesOf(db, r) ensures exists id :: InRun(db, id, r) && db.tasks[id].status == s {
      var id := TaskWith(db, r, s);
    }
  }

  lemma SomeTask(db: Db, r: RunId)
    ensures StatusesOf(db, r) != {} <==> exists id :: InRun(db, id, r)
  {
    if s :| s in StatusesOf(db, r) { var id := TaskWith(db, r, s); }
    if id :| InRun(db, id, r) { assert db.tasks[id].status in StatusesOf(db, r); }
  }

  lemma DueSettles(db: Db, r: RunId)
    ensures RunDue(db, r) <==> Settles(db, r)
    ensures RunDue(db, r) ==> EndsAs(db, r, DeriveRunStatus(StatusesOf(db, r)).value)
  {
    DerivedMeans(StatusesOf(db, r));
    SomeTask(db, r);
    StatusesMean(db, r, ENDED);
    StatusesMean(db, r, {Completed, CompletedWithWarnings, Skipped});
    StatusesMean(db, r, ENDED - {Completed, CompletedWithWarnings, Skipped, Canceled});
  }

  /** A run is settled iff it is due, and then as its tasks say; in preparation it cannot complete. */
  lemma RunSettles(db: Db, r: RunId)
    requires r in db.runs ==> Opened(db.runs[r].status)
    ensures var o := SettleRun(db, r);
      && (o.ok <==> !(RunDue(db, r) && RunPreparingIn(db, r) && EndsAs(db, r, RunCompleted)))
      && (o.ok && RunDue(db, r) ==>
            OnlyRuns(db, o.db) && exists s :: EndsAs(db, r, s) && SetTo(db.runs, o.db.runs, r, s))
      && (!o.ok || !RunDue(db, r) ==> o.db == db)
  {
    DueSettles(db, r);
    if RunDue(db, r) {
      var s := DeriveRunStatus(StatusesOf(db, r)).value;
      assert EndsAs(db, r, s);
      assert EndsAs(db, r, RunCompleted) <==> s.RunCompleted?;
      assert SetRun(db, r, s, false).ok ==> SetTo(db.runs, SetRun(db, r, s, false).db.runs, r, s);
    }
  }

  // ---------- A run's refresh is its Global Run's ----------

  /** The runs after settling those of `rs`. */
  ghost predicate SettledRuns(a: Db, b: Db, rs: set<RunId>) {
    b == a.(runs := b.runs) && b.runs.Keys == a.runs.Keys
    && forall r :: r in a.runs ==>
      b.runs[r] == if r in rs && Settles(a, r)
        then a.runs[r].(status := DeriveRunStatus(StatusesOf(a, r)).value) else a.runs[r]
  }

  lemma SettledOne(db: Db, r: RunId)
    requires PreparingIdle(db) && RunsOpened(db)
    ensures SettledRuns(db, SettleRun(db, r).db, {r})
    ensures PreparingIdle(SettleRun(db, r).db) && RunsOpened(SettleRun(db, r).db) && SettleRun(db, r).ok
  {
    SettleRunSettles(db, r);
    SettledIdle(db, SettleRun(db, r).db);
  }

  lemma SettlesAfter(a: Db, b: Db, rs: set<RunId>, r: RunId)
    requires SettledRuns(a, b, rs)
    ensures StatusesOf(b, r) == StatusesOf(a, r) && (Settles(b, r) <==> Settles(a, r) && r !in rs)
  {
    if r in a.runs && Settles(a, r) && r in rs {
      assert b.runs[r].status == DeriveRunStatus(StatusesOf(a, r)).value;
    }
  }

  lemma SettledMore(a: Db, b: Db, c: Db, rs: set<RunId>, more: set<RunId>)
    requires SettledRuns(a, b, rs) && SettledRuns(b, c, more)
    ensures SettledRuns(a, c, rs + more)
  {
    forall r | r in a.runs
      ensures c.runs[r] == if r in rs + more && Settles(a, r)
        then a.runs[r].(status := DeriveRunStatus(StatusesOf(a, r)).value) else a.runs[r]
    {
      SettlesAfter(a, b, rs, r);
    }
  }

  lemma SettledNone(db: Db)
    ensures SettledRuns(db, db, {})
  {
  }

  lemma {:induction false} SettledAll(db: Db, rs: seq<RunId>)
    requires PreparingIdle(db) && RunsOpened(db)
    ensures SettleAll(db, rs).ok && SettledRuns(db, SettleAll(db, rs).db, Listed(rs))
    decreases |rs|
  {
    if rs == [] { SettledNone(db); } else {
      var b := SettleRun(db, rs[0]).db;
      SettledOne(db, rs[0]);
      SettledAll(b, rs[1..]);
      SettledMore(db, b, SettleAll(b, rs[1..]).db, {rs[0]}, Listed(rs[1..]));
      ListedRest(rs);
    }
  }

  lemma SameSettled(a: Db, b: Db, c: Db, rs: set<RunId>)
    requires SettledRuns(a, b, rs) && SettledRuns(a, c, rs)
    ensures b == c
  {
    assert b.runs == c.runs;
  }

  /** Settling a member first makes no difference to settling all of them. */
  lemma SettledFirst(db: Db, rs: seq<RunId>, r: RunId)
    requires PreparingIdle(db) && RunsOpened(db) && r in rs
    ensures SettleAll(SettleRun(db, r).db, rs) == SettleAll(db, rs)
  {
    var b := SettleRun(db, r).db;
    SettledOne(db, r);
    SettledAll(b, rs);
    SettledAll(db, rs);
    SettledMore(db, b, SettleAll(b, rs).db, {r}, Listed(rs));
    assert {r} + Listed(rs) == Listed(rs);
    SameSettled(db, SettleAll(b, rs).db, SettleAll(db, rs).db, Listed(rs));
  }

  lemma SameRefresh(a: Db, b: Db, g: GlobalId, attested: Attestations)
    requires a.globals == b.globals && Refreshable(a, g)
    requires SettleAll(a, a.globals[g].members) == SettleAll(b, a.globals[g].members)
    ensures RefreshGlobal(a, g, attested) == RefreshGlobal(b, g, attested)
  {
  }

  /** Refreshing a run whose tasks have ended refreshes its Global Run, to the same effect as the
      Global Run's own refresh. */
  lemma RunRefreshIsGlobalRefresh(db: Db, g: GlobalId, r: RunId, attested: Attestations)
    requires Refreshing(db, g) && r in db.globals[g].members && RunDue(db, r)
    ensures RefreshRun(db, r, attested) == RefreshGlobal(db, g, attested)
  {
    var b := SettleRun(db, r).db;
    DueSettles(db, r);
    WiredOpened(db);
    SettledOne(db, r);
    SettledFirst(db, db.globals[g].members, r);
    MemberGate(db, g, r);
    WiredRefreshable(db, g);
    SameRefresh(b, db, g, attested);
  }

  // ---------- What a refresh leaves alone ----------

  /** Dependency `d` and its handoff are the same in both. */
  ghost predicate SameDep(a: Db, b: Db, d: DepId) {
    (d in a.xdeps <==> d in b.xdeps) && (d in a.xdeps ==> b.xdeps[d] == a.xdeps[d])
    && (d in a.handoffs <==> d in b.handoffs) && (d in a.handoffs ==> b.handoffs[d] == a.handoffs[d])
  }

  lemma {:induction false} ResolveAllLeaves(db: Db, ds: seq<DepId>, d: DepId)
    requires d !in ds
    ensures SameDep(db, ResolveAll(db, ds), d)
    decreases |ds|
  {
    if ds != [] {
      assert SameDep(db, ResolveDep(db, ds[0]), d);
      ResolveAllLeaves(ResolveDep(db, ds[0]), ds[1..], d);
    }
  }

  lemma {:induction false} MaterialiseAllLeaves(db: Db, ds: seq<DepId>, attested: Attestations, d: DepId)
    requires d !in ds
    ensures SameDep(db, MaterialiseAll(db, ds, attested), d)
    decreases |ds|
  {
    if ds != [] {
      assert SameDep(db, MaterialiseIfDue(db, ds[0], attested), d);
      MaterialiseAllLeaves(MaterialiseIfDue(db, ds[0], attested), ds[1..], attested, d);
    }
  }

  /** Another Global Run's dependency. */
  lemma OtherDep(db: Db, g: GlobalId, attested: Attestations, d: DepId)
    requires Refreshing(db, g) && d !in db.globals[g].deps
    ensures SameDep(db, RefreshGlobal(db, g, attested).db, d)
  {
    var row := db.globals[g];
    var a := SettleAll(db, row.members).db;
    SettleAllOf(db, row);
    ResolveAllLeaves(a, row.deps, d);
    MaterialiseAllLeaves(ResolveAll(a, row.deps), row.deps, attested, d);
    BeforeDeps(db, g, attested);
    RefreshCore(db, g, attested);
  }

  lemma OutsideTurns(db: Db, mid: Db, g: GlobalId, r: RunId)
    requires Wired(mid) && g in mid.globals && mid.globals == db.globals && r !in db.globals[g].members
    ensures r !in Consumers(mid, mid.globals[g].deps)
  {
    if r in Consumers(mid, mid.globals[g].deps) { ListedConsumer(mid, g, r); }
  }

  lemma SettledSame(a: Db, b: Db, rs: seq<RunId>, r: RunId)
    requires SettledRuns(a, b, Listed(rs)) && r in a.runs && r !in rs
    ensures SameRun(a, b, r)
  {
  }

  lemma CoreSame(a: Db, b: Db, c: Db, r: RunId)
    requires SameRun(a, b, r) && SameCore(b, c)
    ensures SameRun(a, c, r)
  {
    forall id ensures InRun(c, id, r) <==> InRun(b, id, r) { }
  }

  /** A run that is no project of this Global Run, and its tasks. */
  lemma OtherRun(db: Db, g: GlobalId, attested: Attestations, r: RunId)
    requires Refreshing(db, g) && r in db.runs && r !in db.globals[g].members
    ensures SameRun(db, RefreshGlobal(db, g, attested).db, r)
  {
    var row, mid := db.globals[g], Resolved(db, g, attested);
    WiredOpened(db);
    SettledAll(db, row.members);
    SettledSame(db, SettleAll(db, row.members).db, row.members, r);
    DeliveredMoves(SettleAll(db, row.members).db, row.deps, attested);
    CoreSame(db, SettleAll(db, row.members).db, mid, r);
    ResolvedTables(db, g, attested);
    ResolvedReady(db, g, attested);
    OutsideTurns(db, mid, g, r);
    TurnsLeave(mid, g, Consumers(mid, row.deps), r);
    SameRunTransitive(db, mid, Before(db, g, attested).db, r);
    RefreshCore(db, g, attested);
    CoreSame(db, Before(db, g, attested).db, RefreshGlobal(db, g, attested).db, r);
  }

  /** All that a refresh does: thrown or not, it decides the Global Run's dependencies; if it does not
      throw, its projects and their tasks come as described and it gets its status; and no other
      project, task or dependency is touched. */
  ghost predicate Refreshed(db: Db, c: Db, g: GlobalId, attested: Attestations, ok: bool)
    requires g in db.globals
  {
    var row := db.globals[g];
    && g in c.globals && c.globals[g] == row.(status := c.globals[g].status)
    && (forall d :: d in row.deps ==> DepDecided(db, c, d, attested))
    && (ok ==> GlobalComes(c, row, c.globals[g].status))
    && (ok ==> forall r :: r in row.members ==> ProjectComes(db, c, row, r))
    && (!ok ==> c.globals[g] == row)
    && (forall r :: r in db.runs && r !in row.members ==> SameRun(db, c, r))
    && (forall d :: d !in row.deps ==> SameDep(db, c, d))
  }

  ghost predicate DepDecided(db: Db, c: Db, d: DepId, attested: Attestations) {
    && d in db.xdeps && d in c.xdeps && c.xdeps[d] == db.xdeps[d].(status := c.xdeps[d].status)
    && DecidedTo(db, d, attested, c.xdeps[d].status)
  }

  lemma RefreshMeans(db: Db, g: GlobalId, attested: Attestations)
    requires Refreshing(db, g)
    ensures var o := RefreshGlobal(db, g, attested); Refreshed(db, o.db, g, attested, o.ok)
  {
    var row, c := db.globals[g], RefreshGlobal(db, g, attested).db;
    StillRefreshing(db, g, attested);
    forall d | d in row.deps ensures DepDecided(db, c, d, attested) { DependencyDecided(db, g, attested, d); }
    if RefreshGlobal(db, g, attested).ok {
      StatusCome(db, g, attested);
      forall r | r in row.members ensures ProjectComes(db, c, row, r) { ProjectCome(db, g, attested, r); }
    }
    forall r | r in db.runs && r !in row.members ensures SameRun(db, c, r) { OtherRun(db, g, attested, r); }
    forall d | d !in row.deps ensures SameDep(db, c, d) { OtherDep(db, g, attested, d); }
  }

  // ---------- Fallback projects ----------

  /** What `r` stands in for has failed: everything inbound was pending on a failure, every producer is
      over or about to be without success, and the outputs asked of them are there. */
  ghost predicate FallbackDue(db: Db, g: Global, r: RunId, attested: Attestations) {
    && (exists d :: ConsumesIn(db, g, d, r))
    && forall d :: ConsumesIn(db, g, d, r) ==>
      && db.xdeps[d].condition.IfFailure? && db.xdeps[d].status.DepPending? && OutputsThere(db, d, attested)
      && Finishing(db, db.xdeps[d].producer) && !Succeeds(db, db.xdeps[d].producer)
  }

  lemma FallbackSatisfied(db: Db, c: Db, g: Global, r: RunId, attested: Attestations)
    requires FallbackDue(db, g, r, attested) && forall d :: d in g.deps ==> DepDecided(db, c, d, attested)
    ensures AllCome(c, g, r, DepSatisfied) && !AnyComes(c, g, r, DepFailed)
  {
    forall d ensures ConsumesIn(c, g, d, r) <==> ConsumesIn(db, g, d, r) {
      if d in g.deps { assert DepDecided(db, c, d, attested); }
    }
    forall d | ConsumesIn(c, g, d, r) ensures c.xdeps[d].status.DepSatisfied? {
      assert ConsumesIn(db, g, d, r) && DepDecided(db, c, d, attested);
    }
  }

  lemma FallbackStarted(db: Db, c: Db, g: Global, r: RunId)
    requires RunPreparingIn(db, r) && !Finishing(db, r) && !g.cancelRequested
    requires AllCome(c, g, r, DepSatisfied) && !AnyComes(c, g, r, DepFailed) && ProjectComes(db, c, g, r)
    ensures c.runs[r].status.RunRunning?
    ensures forall id :: InRun(db, id, r) ==> id in c.tasks && StartedTask(db.tasks[id], c.tasks[id])
  {
    forall id | InRun(db, id, r) ensures id in c.tasks && StartedTask(db.tasks[id], c.tasks[id]) {
      assert InRun(c, id, r) && TaskCome(db, c, g, r, db.tasks[id], c.tasks[id]);
    }
  }

  /** A refresh that does not throw starts every fallback project that is due, unless cancelled. */
  lemma FallbackStarts(db: Db, g: GlobalId, attested: Attestations, r: RunId)
    requires Refreshing(db, g) && RefreshGlobal(db, g, attested).ok && !db.globals[g].cancelRequested
    requires r in db.globals[g].members && RunPreparingIn(db, r) && !Finishing(db, r)
    requires FallbackDue(db, db.globals[g], r, attested)
    ensures var c := RefreshGlobal(db, g, attested).db;
      && r in c.runs && c.runs[r].status.RunRunning?
      && forall id :: InRun(db, id, r) ==> id in c.tasks && StartedTask(db.tasks[id], c.tasks[id])
  {
    RefreshMeans(db, g, attested);
    FallbackSatisfied(db, RefreshGlobal(db, g, attested).db, db.globals[g], r, attested);
    FallbackStarted(db, RefreshGlobal(db, g, attested).db, db.globals[g], r);
  }

  lemma LoggedRefresh(es: seq<Event>, g: GlobalId, attested: Attestations)
    requires Regular(Replay(es)) && g in Replay(es).globals && Replay(es).globals[g].status !in GLOBAL_ENDED
    ensures var o := RefreshGlobal(Replay(es), g, attested); Refreshed(Replay(es), o.db, g, attested, o.ok)
  {
    ReachableGood(es);
    RefreshMeans(Replay(es), g, attested);
  }

  /** The Global Run to refresh along with run `r`. */
  predicate Above(db: Db, r: RunId, g: GlobalId) {
    r in db.runs && db.runs[r].gate.Some? && db.runs[r].gate.value.global == g && g in db.globals
    && db.globals[g].status !in GLOBAL_ENDED
  }

  /** All that a run's refresh does: nothing until the run is due; then its Global Run's refresh, or,
      outside a Global Run and in one that has ended, the run's own end. */
  ghost predicate RunRefreshed(db: Db, c: Db, r: RunId, attested: Attestations, ok: bool) {
    if !RunDue(db, r) then ok && c == db
    else
      && (forall g :: Above(db, r, g) ==> Refreshed(db, c, g, attested, ok))
      && ((forall g :: !Above(db, r, g)) ==>
        ok && OnlyRuns(db, c) && c.tasks == db.tasks && exists s :: EndsAs(db, r, s) && SetTo(db.runs, c.runs, r, s))
  }

  lemma RunSettlesWell(db: Db, r: RunId)
    requires Good(db) && RunDue(db, r)
    ensures var o := SettleRun(db, r);
      o.ok && OnlyRuns(db, o.db) && o.db.tasks == db.tasks
      && exists s :: EndsAs(db, r, s) && SetTo(db.runs, o.db.runs, r, s)
  {
    DueSettles(db, r);
    WiredOpened(db);
    SettledOne(db, r);
    RunSettles(db, r);
  }

  lemma EndedGlobalStays(db: Db, g: GlobalId, attested: Attestations)
    requires g in db.globals && db.globals[g].status in GLOBAL_ENDED
    ensures RefreshGlobal(db, g, attested) == Outcome(db, true)
  {
  }

  lemma NotDueRefresh(db: Db, r: RunId, attested: Attestations)
    requires !RunDue(db, r)
    ensures RefreshRun(db, r, attested) == Outcome(db, true)
  {
    DueSettles(db, r);
  }

  lemma AloneRefresh(db: Db, r: RunId, attested: Attestations)
    requires Good(db) && RunDue(db, r) && !exists g :: Above(db, r, g)
    ensures RefreshRun(db, r, attested) == SettleRun(db, r)
  {
    DueSettles(db, r);
    RunSettlesWell(db, r);
    if db.runs[r].gate.Some? {
      assert RunWired(db, r, db.runs[r]);
      assert !Above(db, r, db.runs[r].gate.value.global);
      EndedGlobalStays(SettleRun(db, r).db, db.runs[r].gate.value.global, attested);
    }
  }

  lemma AboveRefresh(db: Db, r: RunId, g: GlobalId, attested: Attestations)
    requires Good(db) && Regular(db) && RunDue(db, r) && Above(db, r, g)
    ensures RefreshRun(db, r, attested) == RefreshGlobal(db, g, attested)
  {
    assert RunWired(db, r, db.runs[r]);
    RunRefreshIsGlobalRefresh(db, g, r, attested);
  }

  lemma RefreshedAbove(db: Db, c: Db, r: RunId, g: GlobalId, attested: Attestations, ok: bool)
    requires RunDue(db, r) && Above(db, r, g) && Refreshed(db, c, g, attested, ok)
    ensures RunRefreshed(db, c, r, attested, ok)
  {
    assert forall i :: Above(db, r, i) ==> i == g;
  }

  lemma RefreshedAlone(db: Db, r: RunId, attested: Attestations)
    requires Good(db) && RunDue(db, r) && !exists g :: Above(db, r, g)
    ensures var o := RefreshRun(db, r, attested); RunRefreshed(db, o.db, r, attested, o.ok)
  {
    AloneRefresh(db, r, attested);
    RunSettlesWell(db, r);
  }

  lemma RefreshedUnder(db: Db, r: RunId, g: GlobalId, attested: Attestations)
    requires Good(db) && Regular(db) && RunDue(db, r) && Above(db, r, g)
    ensures var o := RefreshRun(db, r, attested); RunRefreshed(db, o.db, r, attested, o.ok)
  {
    RefreshedWith(db, r, g, attested, RefreshRun(db, r, attested));
  }

  lemma RefreshedWith(db: Db, r: RunId, g: GlobalId, attested: Attestations, o: Outcome)
    requires Good(db) && Regular(db) && RunDue(db, r) && Above(db, r, g) && o == RefreshRun(db, r, attested)
    ensures RunRefreshed(db, o.db, r, attested, o.ok)
  {
    AboveRefresh(db, r, g, attested);
    AboveMeans(db, r, g, attested, o);
    RefreshedAbove(db, o.db, r, g, attested, o.ok);
  }

  lemma AboveMeans(db: Db, r: RunId, g: GlobalId, attested: Attestations, o: Outcome)
    requires Good(db) && Regular(db) && Above(db, r, g) && o == RefreshGlobal(db, g, attested)
    ensures Refreshed(db, o.db, g, attested, o.ok)
  {
    RefreshMeans(db, g, attested);
  }

  lemma RunRefreshes(db: Db, r: RunId, attested: Attestations)
    requires Good(db) && Regular(db)
    ensures var o := RefreshRun(db, r, attested); RunRefreshed(db, o.db, r, attested, o.ok)
  {
    if !RunDue(db, r) { NotDueRefresh(db, r, attested); }
    else if g :| Above(db, r, g) { RefreshedUnder(db, r, g, attested); }
    else { RefreshedAlone(db, r, attested); }
  }

  lemma RunRefreshMeans(es: seq<Event>, r: RunId, attested: Attestations)
    requires Regular(Replay(es))
    ensures var o := RefreshRun(Replay(es), r, attested); RunRefreshed(Replay(es), o.db, r, attested, o.ok)
  {
    ReachableGood(es);
    RunRefreshes(Replay(es), r, attested);
  }
}
