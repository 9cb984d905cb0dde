/** What a refresh of a Global Run does, exactly, in terms of the tables before the call: when it
    throws, and which status it gives the Global Run when it does not. */
module RegistryFinish {
  import opened DomainStates
  import opened TaskRows
  import opened Handoffs
  import opened RegistrySteps
  import opened RegistryInvariant
  import opened RegistryKeeps
  import opened RegistryGlobal
  import opened RegistryForecast
  import opened RegistryTurns

  // ---------- What becomes of a member ----------

  ghost predicate AnySoon(db: Db, g: Global, r: RunId, s: DepStatus, attested: Attestations) {
    exists d :: ConsumesIn(db, g, d, r) && Forecast(db, d, attested) == s
  }

  ghost predicate AllSoon(db: Db, g: Global, r: RunId, s: DepStatus, attested: Attestations) {
    forall d :: ConsumesIn(db, g, d, r) ==> Forecast(db, d, attested) == s
  }

  /** Failed by the refresh: nothing inbound is left pending and something failed. */
  ghost predicate DoomedSoon(db: Db, g: Global, r: RunId, attested: Attestations) {
    r in db.runs && !OverSoon(db, r)
    && !AnySoon(db, g, r, DepPending, attested) && AnySoon(db, g, r, DepFailed, attested)
  }

  /** A preparing consumer whose own tasks have not all ended. */
  ghost predicate StillPreparing(db: Db, g: Global, r: RunId) {
    Consumer(db, g, r) && RunPreparingIn(db, r) && !OverSoon(db, r)
  }

  /** Released by the refresh. */
  ghost predicate StartedSoon(db: Db, g: Global, r: RunId, attested: Attestations) {
    StillPreparing(db, g, r) && AllSoon(db, g, r, DepSatisfied, attested) && !g.cancelRequested
  }

  /** Its turn throws: all that comes in was skipped, or its release is cancelled. */
  ghost predicate RefusedSoon(db: Db, g: Global, r: RunId, attested: Attestations) {
    StillPreparing(db, g, r)
    && (AllSoon(db, g, r, DepSkipped, attested) || (g.cancelRequested && AllSoon(db, g, r, DepSatisfied, attested)))
  }

  /** Left preparing although all is decided: skipped and satisfied mix. */
  ghost predicate MixedSoon(db: Db, g: Global, r: RunId, attested: Attestations) {
    StillPreparing(db, g, r)
    && !AnySoon(db, g, r, DepPending, attested) && !AnySoon(db, g, r, DepFailed, attested)
    && AnySoon(db, g, r, DepSkipped, attested) && AnySoon(db, g, r, DepSatisfied, attested)
  }

  ghost predicate RunningSoon(db: Db, g: Global, r: RunId, attested: Attestations) {
    StartedSoon(db, g, r, attested) || (RunRunningIn(db, r) && !OverSoon(db, r) && !DoomedSoon(db, g, r, attested))
  }

  ghost predicate EndedSoon(db: Db, g: Global, r: RunId, attested: Attestations) {
    OverSoon(db, r) || DoomedSoon(db, g, r, attested)
  }

  /** Failing a run sends the tasks that workers hold to attention. */
  ghost predicate AttentionSoon(db: Db, g: Global, r: RunId, attested: Attestations) {
    exists id :: InRun(db, id, r)
      && (Attention(db.tasks[id].status) || (DoomedSoon(db, g, r, attested) && Owned(db.tasks[id].status)))
  }

  lemma ConsumerForeseen(db: Db, mid: Db, g: Global, r: RunId, attested: Attestations)
    requires Foreseen(db, mid, g, attested)
    ensures Consumer(mid, g, r) <==> Consumer(db, g, r)
    ensures forall d :: ConsumesIn(mid, g, d, r) <==> ConsumesIn(db, g, d, r)
  {
    forall d ensures ConsumesIn(mid, g, d, r) <==> ConsumesIn(db, g, d, r) {
      if d in g.deps { assert DepForeseen(db, mid, d, attested); }
    }
    if Consumer(mid, g, r) { var d :| ConsumesIn(mid, g, d, r); assert ConsumesIn(db, g, d, r); }
    if Consumer(db, g, r) { var d :| ConsumesIn(db, g, d, r); assert ConsumesIn(mid, g, d, r); }
  }

  lemma InboundStatuses(db: Db, mid: Db, g: Global, r: RunId, attested: Attestations)
    requires Foreseen(db, mid, g, attested)
    ensures forall d :: ConsumesIn(mid, g, d, r) <==> ConsumesIn(db, g, d, r)
    ensures forall d :: ConsumesIn(db, g, d, r) ==> mid.xdeps[d].status == Forecast(db, d, attested)
  {
    ConsumerForeseen(db, mid, g, r, attested);
    forall d | ConsumesIn(db, g, d, r) ensures mid.xdeps[d].status == Forecast(db, d, attested) {
      assert DepForeseen(db, mid, d, attested);
    }
  }

  lemma InboundForeseen(db: Db, mid: Db, g: Global, r: RunId, s: DepStatus, attested: Attestations)
    requires Foreseen(db, mid, g, attested)
    ensures AnyInbound(mid, g, r, s) <==> AnySoon(db, g, r, s, attested)
    ensures AllInbound(mid, g, r, s) <==> AllSoon(db, g, r, s, attested)
  {
    InboundStatuses(db, mid, g, r, attested);
    InboundSame(db, mid, g, r, s, attested);
  }

  lemma InboundSame(db: Db, mid: Db, g: Global, r: RunId, s: DepStatus, attested: Attestations)
    requires forall d :: ConsumesIn(mid, g, d, r) <==> ConsumesIn(db, g, d, r)
    requires forall d :: ConsumesIn(db, g, d, r) ==> d in mid.xdeps && mid.xdeps[d].status == Forecast(db, d, attested)
    ensures AnyInbound(mid, g, r, s) <==> AnySoon(db, g, r, s, attested)
    ensures AllInbound(mid, g, r, s) <==> AllSoon(db, g, r, s, attested)
  {
    if AnyInbound(mid, g, r, s) {
      var d :| d in g.deps && d in mid.xdeps && mid.xdeps[d].consumer == r && mid.xdeps[d].status == s;
      assert ConsumesIn(mid, g, d, r);
    }
    if AllInbound(mid, g, r, s) { forall d | ConsumesIn(db, g, d, r) ensures Forecast(db, d, attested) == s { } }
    if AllSoon(db, g, r, s, attested) {
      forall d | d in g.deps && d in mid.xdeps && mid.xdeps[d].consumer == r ensures mid.xdeps[d].status == s {
        assert ConsumesIn(mid, g, d, r);
      }
    }
  }

  lemma MemberPreparing(db: Db, mid: Db, r: RunId)
    requires MemberSettled(db, mid, r)
    ensures RunPreparingIn(mid, r) <==> RunPreparingIn(db, r) && !OverSoon(db, r)
    ensures RunRunningIn(mid, r) <==> RunRunningIn(db, r) && !OverSoon(db, r)
  {
  }

  /** The turns at the forecast tables are the ones foretold. */
  lemma TurnForeseen(db: Db, mid: Db, g: Global, r: RunId, attested: Attestations)
    requires Foreseen(db, mid, g, attested) && r in g.members
    ensures TurnDooms(mid, g, r) <==> DoomedSoon(db, g, r, attested)
    ensures Consumer(db, g, r) && TurnThrows(mid, g, r) <==> RefusedSoon(db, g, r, attested)
    ensures Consumer(db, g, r) && TurnStarts(mid, g, r) <==> StartedSoon(db, g, r, attested)
  {
    assert MemberSettled(db, mid, r);
    MemberPreparing(db, mid, r);
    InboundForeseen(db, mid, g, r, DepPending, attested);
    InboundForeseen(db, mid, g, r, DepFailed, attested);
    InboundForeseen(db, mid, g, r, DepSkipped, attested);
    InboundForeseen(db, mid, g, r, DepSatisfied, attested);
  }

  /** A member after the consumers' turns. */
  ghost predicate MemberAfter(db: Db, b: Db, g: Global, r: RunId, attested: Attestations) {
    && r in b.runs
    && (Over(b, r) <==> EndedSoon(db, g, r, attested))
    && (RunCompletedIn(b, r) <==> Succeeding(db, r))
    && (RunRunningIn(b, r) <==> RunningSoon(db, g, r, attested))
    && (RunPreparingIn(b, r) <==>
      RunPreparingIn(db, r) && !EndedSoon(db, g, r, attested) && !StartedSoon(db, g, r, attested))
  }

  lemma StatusAfter(db: Db, mid: Db, b: Db, g: Global, r: RunId, attested: Attestations)
    requires MemberSettled(db, mid, r) && r in b.runs
    requires TurnDooms(mid, g, r) <==> DoomedSoon(db, g, r, attested)
    requires Consumer(db, g, r) && TurnStarts(mid, g, r) <==> StartedSoon(db, g, r, attested)
    requires b.runs[r].status ==
               if TurnDooms(mid, g, r) then RunFailed
               else if Consumer(db, g, r) && TurnStarts(mid, g, r) then RunRunning else mid.runs[r].status
    ensures MemberAfter(db, b, g, r, attested)
  {
    MemberPreparing(db, mid, r);
  }

  lemma AttentionAfter(db: Db, mid: Db, b: Db, g: Global, r: RunId, attested: Attestations)
    requires mid.tasks == db.tasks && RowsTurned(mid, b, g, r)
    requires (TurnDooms(mid, g, r) <==> DoomedSoon(db, g, r, attested))
    ensures NeedsAttention(b, r) <==> AttentionSoon(db, g, r, attested)
  {
    if NeedsAttention(b, r) {
      var id :| id in b.tasks && b.tasks[id].runId == r && Attention(b.tasks[id].status);
      assert InRun(b, id, r) && TurnedTask(mid, g, r, mid.tasks[id], b.tasks[id]);
      assert InRun(db, id, r);
    }
    if AttentionSoon(db, g, r, attested) {
      var id :| InRun(db, id, r)
                && (Attention(db.tasks[id].status) || (DoomedSoon(db, g, r, attested) && Owned(db.tasks[id].status)));
      assert InRun(mid, id, r) && TurnedTask(mid, g, r, mid.tasks[id], b.tasks[id]);
      assert InRun(b, id, r) && Attention(b.tasks[id].status);
    }
  }

  lemma SameAttention(mid: Db, b: Db, r: RunId)
    requires SameRun(mid, b, r)
    ensures NeedsAttention(b, r) <==> NeedsAttention(mid, r)
  {
    if NeedsAttention(b, r) {
      var id :| id in b.tasks && b.tasks[id].runId == r && Attention(b.tasks[id].status);
      assert InRun(b, id, r) && InRun(mid, id, r);
    }
    if NeedsAttention(mid, r) {
      var id :| id in mid.tasks && mid.tasks[id].runId == r && Attention(mid.tasks[id].status);
      assert InRun(mid, id, r) && InRun(b, id, r);
    }
  }

  lemma QuietAttention(db: Db, g: Global, r: RunId, attested: Attestations)
    requires !DoomedSoon(db, g, r, attested)
    ensures NeedsAttention(db, r) <==> AttentionSoon(db, g, r, attested)
  {
    if NeedsAttention(db, r) {
      var id :| id in db.tasks && db.tasks[id].runId == r && Attention(db.tasks[id].status);
      assert InRun(db, id, r);
    }
  }

  // ---------- The tables before the projection ----------

  function Before(db: Db, g: GlobalId, attested: Attestations): Consumed
    requires g in db.globals
  {
    var mid := Resolved(db, g, attested);
    SettleConsumers(mid, db.globals[g], Consumers(mid, db.globals[g].deps))
  }

  /** A Global Run that a refresh would look at, in tables nobody tampered with. */
  ghost predicate Refreshing(db: Db, g: GlobalId) {
    Good(db) && Regular(db) && g in db.globals && !GlobalTerminal(db.globals[g].status)
  }

  lemma ConsumerListed(db: Db, g: Global, r: RunId)
    requires Consumer(db, g, r)
    ensures r in Consumers(db, g.deps)
  {
    var d :| ConsumesIn(db, g, d, r);
  }

  lemma ListedConsumer(db: Db, g: GlobalId, r: RunId)
    requires Wired(db) && g in db.globals && r in Consumers(db, db.globals[g].deps)
    ensures Consumer(db, db.globals[g], r)
  {
    ConsumersAreMembers(db, g);
    var d :| d in db.globals[g].deps && d in db.xdeps && db.xdeps[d].consumer == r;
    assert ConsumesIn(db, db.globals[g], d, r);
  }

  lemma ResolvedTables(db: Db, g: GlobalId, attested: Attestations)
    requires Refreshing(db, g)
    ensures TablesReady(Resolved(db, g, attested), g) && Resolved(db, g, attested).globals == db.globals
  {
    var mid := Resolved(db, g, attested);
    ResolvedForeseen(db, g, attested);
    ResolvedHeld(db, g, attested);
    forall d | d in mid.globals[g].deps ensures Backed(mid, d) { assert DepForeseen(db, mid, d, attested); }
  }

  lemma ResolvedReady(db: Db, g: GlobalId, attested: Attestations)
    requires Refreshing(db, g)
    ensures TurnsReady(Resolved(db, g, attested), g, Consumers(Resolved(db, g, attested), db.globals[g].deps))
  {
    var mid := Resolved(db, g, attested);
    ResolvedTables(db, g, attested);
    ResolvedForeseen(db, g, attested);
    ResolvedUnsettled(db, g, attested);
    ConsumersDistinct(mid, db.globals[g].deps);
    forall r | r in Consumers(mid, db.globals[g].deps) ensures ConsumerReady(mid, mid.globals[g], r) {
      ListedConsumer(mid, g, r);
    }
  }

  /** The turns throw iff some member's does. */
  lemma BeforeThrowsIff(db: Db, g: GlobalId, attested: Attestations)
    requires Refreshing(db, g)
    ensures Before(db, g, attested).ok <==>
      forall r :: r in db.globals[g].members ==> !RefusedSoon(db, db.globals[g], r, attested)
  {
    var row, mid := db.globals[g], Resolved(db, g, attested);
    var rs := Consumers(mid, row.deps);
    ResolvedTables(db, g, attested);
    ResolvedReady(db, g, attested);
    ResolvedForeseen(db, g, attested);
    TurnsThrowIff(mid, g, rs);
    forall r | r in rs
      ensures r in row.members && Consumer(db, row, r)
      ensures (TurnThrows(mid, row, r) <==> RefusedSoon(db, row, r, attested))
    {
      ListedConsumer(mid, g, r);
      ConsumerForeseen(db, mid, row, r, attested);
      TurnForeseen(db, mid, row, r, attested);
    }
    forall r | r in row.members && RefusedSoon(db, row, r, attested) ensures r in rs {
      ConsumerForeseen(db, mid, row, r, attested);
      ConsumerListed(mid, row, r);
    }
  }

  /** A member whose turn there was. */
  lemma ConsumerAfter(db: Db, g: GlobalId, attested: Attestations, r: RunId)
    requires Refreshing(db, g) && Before(db, g, attested).ok && r in db.globals[g].members
    requires Consumer(db, db.globals[g], r)
    ensures MemberAfter(db, Before(db, g, attested).db, db.globals[g], r, attested)
    ensures NeedsAttention(Before(db, g, attested).db, r) <==> AttentionSoon(db, db.globals[g], r, attested)
    ensures DoomedSoon(db, db.globals[g], r, attested) ==> TasksEnded(Before(db, g, attested).db, r)
  {
    var row, mid := db.globals[g], Resolved(db, g, attested);
    ResolvedTables(db, g, attested);
    ResolvedReady(db, g, attested);
    ResolvedForeseen(db, g, attested);
    ConsumerForeseen(db, mid, row, r, attested);
    ConsumerListed(mid, row, r);
    TurnsTurn(mid, g, Consumers(mid, row.deps), r);
    TurnForeseen(db, mid, row, r, attested);
    assert MemberSettled(db, mid, r);
    StatusAfter(db, mid, Before(db, g, attested).db, row, r, attested);
    AttentionAfter(db, mid, Before(db, g, attested).db, row, r, attested);
  }

  lemma RootAfter(db: Db, g: GlobalId, attested: Attestations, r: RunId)
    requires Refreshing(db, g) && Before(db, g, attested).ok && r in db.globals[g].members
    requires !Consumer(db, db.globals[g], r)
    ensures MemberAfter(db, Before(db, g, attested).db, db.globals[g], r, attested)
    ensures NeedsAttention(Before(db, g, attested).db, r) <==> AttentionSoon(db, db.globals[g], r, attested)
    ensures !DoomedSoon(db, db.globals[g], r, attested)
  {
    var row, mid := db.globals[g], Resolved(db, g, attested);
    var b := Before(db, g, attested).db;
    ResolvedTables(db, g, attested);
    ResolvedReady(db, g, attested);
    ResolvedForeseen(db, g, attested);
    ConsumerForeseen(db, mid, row, r, attested);
    if r in Consumers(mid, row.deps) { ListedConsumer(mid, g, r); }
    assert MemberSettled(db, mid, r);
    TurnsLeave(mid, g, Consumers(mid, row.deps), r);
    TurnForeseen(db, mid, row, r, attested);
    NoInbound(db, row, r, attested);
    StatusAfter(db, mid, b, row, r, attested);
    SameAttention(mid, b, r);
    QuietAttention(db, row, r, attested);
    assert NeedsAttention(mid, r) <==> NeedsAttention(db, r);
  }

  lemma NoInbound(db: Db, g: Global, r: RunId, attested: Attestations)
    requires r in g.members && !Consumer(db, g, r)
    ensures !DoomedSoon(db, g, r, attested)
  {
  }

  lemma MembersAfter(db: Db, g: GlobalId, attested: Attestations, r: RunId)
    requires Refreshing(db, g) && Before(db, g, attested).ok && r in db.globals[g].members
    ensures MemberAfter(db, Before(db, g, attested).db, db.globals[g], r, attested)
    ensures NeedsAttention(Before(db, g, attested).db, r) <==> AttentionSoon(db, db.globals[g], r, attested)
    ensures DoomedSoon(db, db.globals[g], r, attested) ==> TasksEnded(Before(db, g, attested).db, r)
  {
    if Consumer(db, db.globals[g], r) { ConsumerAfter(db, g, attested, r); } else { RootAfter(db, g, attested, r); }
  }

  lemma BeforeReleased(db: Db, g: GlobalId, attested: Attestations)
    requires Refreshing(db, g) && Before(db, g, attested).ok
    ensures Before(db, g, attested).released <==>
      exists r :: r in db.globals[g].members && StartedSoon(db, db.globals[g], r, attested)
  {
    var row, mid := db.globals[g], Resolved(db, g, attested);
    var rs := Consumers(mid, row.deps);
    ResolvedTables(db, g, attested);
    ResolvedReady(db, g, attested);
    ResolvedForeseen(db, g, attested);
    TurnsRelease(mid, g, rs);
    forall r | r in rs ensures r in row.members && (TurnStarts(mid, row, r) <==> StartedSoon(db, row, r, attested)) {
      ListedConsumer(mid, g, r);
      ConsumerForeseen(db, mid, row, r, attested);
      TurnForeseen(db, mid, row, r, attested);
    }
    forall r | r in row.members && StartedSoon(db, row, r, attested) ensures r in rs {
      ConsumerForeseen(db, mid, row, r, attested);
      ConsumerListed(mid, row, r);
    }
  }

  lemma BeforeDeps(db: Db, g: GlobalId, attested: Attestations)
    requires Refreshing(db, g)
    ensures SameDeps(Resolved(db, g, attested), Before(db, g, attested).db)
    ensures Before(db, g, attested).db.globals == db.globals
  {
    ResolvedTables(db, g, attested);
    ResolvedReady(db, g, attested);
    TurnsKeepDeps(Resolved(db, g, attested), g, Consumers(Resolved(db, g, attested), db.globals[g].deps));
  }

  // ---------- The projection ----------

  /** deriveGlobalRunStatus over the members themselves. */
  ghost function MembersStatus(b: Db, g: Global): Option<GlobalStatus> {
    if g.members == [] || exists r :: r in g.members && !Over(b, r) then None
    else if g.cancelRequested then Some(GlobalCancelled)
    else if exists r :: r in g.members && NeedsAttention(b, r) then Some(GlobalAttention)
    else if exists r :: r in g.members && r !in g.optional && !RunCompletedIn(b, r) then Some(GlobalFailed)
    else Some(GlobalCompleted)
  }

  lemma MemberAt(b: Db, g: Global, r: RunId)
    requires r in g.members && r in b.runs
    ensures Membership(b.runs[r].status, r !in g.optional, NeedsAttention(b, r)) in Projected(b, g)
  {
    var i :| 0 <= i < |g.members| && g.members[i] == r;
    assert Projected(b, g)[i] == Membership(b.runs[r].status, r !in g.optional, NeedsAttention(b, r));
  }

  lemma MemberOf(b: Db, g: Global, m: Membership) returns (r: RunId)
    requires m in Projected(b, g) && forall r :: r in g.members ==> r in b.runs
    ensures r in g.members && m == Membership(b.runs[r].status, r !in g.optional, NeedsAttention(b, r))
  {
    var i :| 0 <= i < |g.members| && Projected(b, g)[i] == m;
    r := g.members[i];
  }

  /** The projection asks exactly whether every member is over, whether one needs attention and
      whether every required one completed. */
  lemma DerivedStatus(b: Db, g: Global)
    requires forall r :: r in g.members ==> r in b.runs
    ensures DeriveGlobalStatus(Projected(b, g), g.cancelRequested) == MembersStatus(b, g)
  {
    var ms := Projected(b, g);
    forall r | r in g.members ensures Membership(b.runs[r].status, r !in g.optional, NeedsAttention(b, r)) in ms {
      MemberAt(b, g, r);
    }
    forall m | m in ms
      ensures exists r :: r in g.members && m == Membership(b.runs[r].status, r !in g.optional, NeedsAttention(b, r))
    {
      var r := MemberOf(b, g, m);
    }
  }

  /** The status the refresh is about to give the Global Run. */
  ghost function Destiny(db: Db, g: Global, attested: Attestations): GlobalStatus {
    if g.members != [] && forall r :: r in g.members ==> EndedSoon(db, g, r, attested) then
      if g.cancelRequested then GlobalCancelled
      else if exists r :: r in g.members && AttentionSoon(db, g, r, attested) then GlobalAttention
      else if exists r :: r in g.members && r !in g.optional && !Succeeding(db, r) then GlobalFailed
      else GlobalCompleted
    else if exists r :: r in g.members && RunningSoon(db, g, r, attested) then GlobalRunning
    else GlobalWaiting
  }

  ghost predicate AllAfter(db: Db, b: Db, g: Global, attested: Attestations) {
    forall r :: r in g.members ==>
      MemberAfter(db, b, g, r, attested) && (NeedsAttention(b, r) <==> AttentionSoon(db, g, r, attested))
  }

  lemma RunningAfter(db: Db, b: Db, g: Global, attested: Attestations)
    requires AllAfter(db, b, g, attested)
    ensures AnyRunning(b, g) <==> exists r :: r in g.members && RunningSoon(db, g, r, attested)
  {
    if AnyRunning(b, g) {
      var r :| r in g.members && r in b.runs && b.runs[r].status.RunRunning?;
      assert RunRunningIn(b, r) && RunningSoon(db, g, r, attested);
    }
    if r :| r in g.members && RunningSoon(db, g, r, attested) { assert RunRunningIn(b, r); }
  }

  lemma MembersStatusDestiny(db: Db, b: Db, g: Global, attested: Attestations)
    requires AllAfter(db, b, g, attested)
    ensures if MembersStatus(b, g).Some? then Destiny(db, g, attested) == MembersStatus(b, g).value
            else Destiny(db, g, attested) == if AnyRunning(b, g) then GlobalRunning else GlobalWaiting
  {
    RunningAfter(db, b, g, attested);
    if r :| r in g.members && !EndedSoon(db, g, r, attested) { assert !Over(b, r); }
    if r :| r in g.members && !Over(b, r) { assert !EndedSoon(db, g, r, attested); }
  }

  lemma ProjectionIs(b: Db, g: GlobalId, released: bool)
    requires g in b.globals && forall r :: r in b.globals[g].members ==> r in b.runs
    requires released ==> AnyRunning(b, b.globals[g])
    ensures var row := b.globals[g];
      ProjectGlobal(b, g, released) == SetGlobal(b, g, if MembersStatus(b, row).Some? then MembersStatus(b, row).value
                                                      else if AnyRunning(b, row) then GlobalRunning else GlobalWaiting)
  {
    DerivedStatus(b, b.globals[g]);
  }

  lemma RefreshUnfolds(db: Db, g: GlobalId, attested: Attestations)
    requires Refreshable(db, g) && SettleAll(db, db.globals[g].members).ok
    ensures RefreshGlobal(db, g, attested) ==
      var c := Before(db, g, attested);
      if !c.ok || g !in c.db.globals then Outcome(c.db, false) else ProjectGlobal(c.db, g, c.released)
  {
  }

  lemma WiredRefreshable(db: Db, g: GlobalId)
    requires GlobalsWired(db) && g in db.globals && !GlobalTerminal(db.globals[g].status)
    ensures Refreshable(db, g)
  {
    assert GlobalWired(db, g, db.globals[g]);
  }

  lemma RefreshIs(db: Db, g: GlobalId, attested: Attestations)
    requires Refreshing(db, g)
    ensures var c := Before(db, g, attested);
      g in c.db.globals
        && RefreshGlobal(db, g, attested) == if c.ok then ProjectGlobal(c.db, g, c.released) else Outcome(c.db, false)
  {
    BeforeDeps(db, g, attested);
    SettleAllOf(db, db.globals[g]);
    WiredRefreshable(db, g);
    RefreshUnfolds(db, g, attested);
  }

  lemma AllMembersAfter(db: Db, g: GlobalId, attested: Attestations)
    requires Refreshing(db, g) && Before(db, g, attested).ok
    ensures AllAfter(db, Before(db, g, attested).db, db.globals[g], attested)
  {
    forall r | r in db.globals[g].members
      ensures MemberAfter(db, Before(db, g, attested).db, db.globals[g], r, attested)
      ensures NeedsAttention(Before(db, g, attested).db, r) <==> AttentionSoon(db, db.globals[g], r, attested)
    {
      MembersAfter(db, g, attested, r);
    }
  }

  lemma ReleasedRuns(db: Db, g: GlobalId, attested: Attestations)
    requires Refreshing(db, g) && Before(db, g, attested).ok && Before(db, g, attested).released
    ensures AnyRunning(Before(db, g, attested).db, db.globals[g])
  {
    BeforeReleased(db, g, attested);
    AllMembersAfter(db, g, attested);
    var r :| r in db.globals[g].members && StartedSoon(db, db.globals[g], r, attested);
    assert MemberAfter(db, Before(db, g, attested).db, db.globals[g], r, attested);
  }

  /** If no turn throws, the refresh is one write: the Global Run gets its destiny. */
  lemma RefreshWrites(db: Db, g: GlobalId, attested: Attestations)
    requires Refreshing(db, g) && Before(db, g, attested).ok
    ensures g in Before(db, g, attested).db.globals && Before(db, g, attested).db.globals[g] == db.globals[g]
    ensures RefreshGlobal(db, g, attested)
      == SetGlobal(Before(db, g, attested).db, g, Destiny(db, db.globals[g], attested))
  {
    var c, row := Before(db, g, attested), db.globals[g];
    RefreshIs(db, g, attested);
    BeforeDeps(db, g, attested);
    AllMembersAfter(db, g, attested);
    if c.released { ReleasedRuns(db, g, attested); }
    MembersStay(db, c.db, row, attested);
    ProjectionIs(c.db, g, c.released);
    MembersStatusDestiny(db, c.db, row, attested);
  }

  lemma MembersStay(db: Db, b: Db, g: Global, attested: Attestations)
    requires AllAfter(db, b, g, attested)
    ensures forall r :: r in g.members ==> r in b.runs
  {
    forall r | r in g.members ensures r in b.runs { assert MemberAfter(db, b, g, r, attested); }
  }

  /** A refresh of any Global Run that has not ended, in tables nobody tampered with: it throws
      iff some member's turn is refused or the table has no edge to the Global Run's destiny;
      otherwise the Global Run gets that status. All of it can be read before the call. */
  lemma RefreshForecast(db: Db, g: GlobalId, attested: Attestations)
    requires Refreshing(db, g)
    ensures var row, o := db.globals[g], RefreshGlobal(db, g, attested);
      && (o.ok <==> (forall r :: r in row.members ==> !RefusedSoon(db, row, r, attested))
                    && GlobalMayBecome(row.status, Destiny(db, row, attested)))
      && g in o.db.globals
      && o.db.globals[g] == row.(status := if o.ok then Destiny(db, row, attested) else row.status)
  {
    BeforeThrowsIff(db, g, attested);
    RefreshIs(db, g, attested);
    BeforeDeps(db, g, attested);
    if Before(db, g, attested).ok { RefreshWrites(db, g, attested); }
  }

  ghost predicate CompletesSoon(db: Db, g: Global, attested: Attestations) {
    && g.members != [] && (forall r :: r in g.members ==> EndedSoon(db, g, r, attested))
    && (forall r :: r in g.members ==> !AttentionSoon(db, g, r, attested))
    && (forall r :: r in g.members && r !in g.optional ==> Succeeding(db, r))
  }

  lemma DestinyUnderWay(db: Db, g: Global, attested: Attestations)
    requires !g.cancelRequested && g.status in {GlobalRunning, GlobalWaiting}
    ensures Destiny(db, g, attested).GlobalCompleted? <==> CompletesSoon(db, g, attested)
    ensures GlobalMayBecome(g.status, Destiny(db, g, attested)) <==>
      !(g.status.GlobalWaiting? && CompletesSoon(db, g, attested))
  {
  }

  /** A preparing consumer with nothing inbound but what was skipped. */
  ghost predicate SkippedSoon(db: Db, g: Global, r: RunId, attested: Attestations) {
    StillPreparing(db, g, r) && AllSoon(db, g, r, DepSkipped, attested)
  }

  lemma RefusedIsSkipped(db: Db, g: Global, r: RunId, attested: Attestations)
    requires !g.cancelRequested
    ensures RefusedSoon(db, g, r, attested) <==> SkippedSoon(db, g, r, attested)
  {
  }

  /** The same for a Global Run that is under way and not cancelled: a refresh throws iff a
      preparing consumer has nothing inbound but skipped dependencies, or the Global Run waits,
      every member is over or about to be, none shows attention, and every required one succeeds. */
  lemma RefreshThrowsIff(db: Db, g: GlobalId, attested: Attestations)
    requires Refreshing(db, g) && db.globals[g].status in {GlobalRunning, GlobalWaiting}
    requires !db.globals[g].cancelRequested
    ensures var row := db.globals[g];
      !RefreshGlobal(db, g, attested).ok <==>
        || (exists r :: r in row.members && SkippedSoon(db, row, r, attested))
        || (row.status.GlobalWaiting? && CompletesSoon(db, row, attested))
  {
    var row := db.globals[g];
    RefreshForecast(db, g, attested);
    DestinyUnderWay(db, row, attested);
    forall r ensures RefusedSoon(db, row, r, attested) <==> SkippedSoon(db, row, r, attested) {
      RefusedIsSkipped(db, row, r, attested);
    }
  }
}
