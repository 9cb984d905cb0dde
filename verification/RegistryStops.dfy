/** The three ways in which a Global Run stops for good although no worker is left to wait for. */
module RegistryStops {
  import opened DomainStates
  import opened TaskRows
  import opened Handoffs
  import opened RegistrySteps
  import opened RegistryInvariant
  import opened RegistryKeeps
  import opened RegistryGlobal
  import opened RegistryForecast
  import opened RegistryTurns
  import opened RegistryFinish
  import opened RegistryConvergence

  // ---------- Every dependency skipped ----------

  lemma SameForecastTurn(mid: Db, c: Db, g: Global, r: RunId)
    requires SameRun(mid, c, r) && c.xdeps == mid.xdeps && Consumer(mid, g, r)
    requires RunPreparingIn(mid, r) && !TasksEnded(mid, r) && AllInbound(mid, g, r, DepSkipped)
    ensures forall attested :: SkippedSoon(c, g, r, attested)
  {
    var d :| ConsumesIn(mid, g, d, r);
    assert ConsumesIn(c, g, d, r);
    SameEnded(mid, c, r);
    forall i, attested | ConsumesIn(c, g, i, r) ensures Forecast(c, i, attested) == DepSkipped {
      assert ConsumesIn(mid, g, i, r);
    }
  }

  lemma RefusedUntouched(db: Db, g: GlobalId, r: RunId, attested: Attestations)
    requires Refreshing(db, g) && r in db.globals[g].members && SkippedSoon(db, db.globals[g], r, attested)
    ensures var mid, b := Resolved(db, g, attested), Before(db, g, attested);
      && !b.ok && SameRun(mid, b.db, r) && b.db.xdeps == mid.xdeps && Consumer(mid, db.globals[g], r)
      && RunPreparingIn(mid, r) && !TasksEnded(mid, r) && AllInbound(mid, db.globals[g], r, DepSkipped)
  {
    var row, mid := db.globals[g], Resolved(db, g, attested);
    ResolvedTables(db, g, attested);
    ResolvedReady(db, g, attested);
    ResolvedForeseen(db, g, attested);
    ConsumerForeseen(db, mid, row, r, attested);
    InboundForeseen(db, mid, row, r, DepSkipped, attested);
    assert MemberSettled(db, mid, r);
    MemberPreparing(db, mid, r);
    assert TurnThrows(mid, row, r) && RefusedSoon(db, row, r, attested);
    BeforeThrowsIff(db, g, attested);
    TurnsLeave(mid, g, Consumers(mid, row.deps), r);
    BeforeDeps(db, g, attested);
  }

  /** A refresh that throws because everything inbound was skipped leaves it so: every later one
      throws as well, and the Global Run keeps the status it has. */
  lemma SkippedStays(db: Db, g: GlobalId, r: RunId, attested: Attestations)
    requires Refreshing(db, g) && r in db.globals[g].members && SkippedSoon(db, db.globals[g], r, attested)
    ensures var o := RefreshGlobal(db, g, attested);
      && !o.ok && Refreshing(o.db, g) && o.db.globals[g] == db.globals[g]
      && forall next :: SkippedSoon(o.db, db.globals[g], r, next)
  {
    RefusedUntouched(db, g, r, attested);
    StillRefreshing(db, g, attested);
    RefreshCore(db, g, attested);
    RefreshIs(db, g, attested);
    SameForecastTurn(Resolved(db, g, attested), Before(db, g, attested).db, db.globals[g], r);
  }

  /** All these refreshes throw, and the Global Run's row never changes. */
  ghost predicate AllThrow(db: Db, g: GlobalId, calls: seq<Attestations>)
    requires g in db.globals
    decreases |calls|
  {
    calls == [] ||
    var o := RefreshGlobal(db, g, calls[0]);
    !o.ok && g in o.db.globals && o.db.globals[g] == db.globals[g] && AllThrow(o.db, g, calls[1..])
  }

  /** Every refresh throws, for ever. */
  lemma {:induction false} SkippedForever(db: Db, g: GlobalId, r: RunId, calls: seq<Attestations>)
    requires Refreshing(db, g) && r in db.globals[g].members
    requires forall attested :: SkippedSoon(db, db.globals[g], r, attested)
    ensures AllThrow(db, g, calls)
    decreases |calls|
  {
    if calls != [] {
      SkippedStays(db, g, r, calls[0]);
      SkippedForever(RefreshGlobal(db, g, calls[0]).db, g, r, calls[1..]);
    }
  }

  // ---------- Completed while waiting ----------

  lemma CompletesOver(db: Db, c: Db, g: Global, attested: Attestations, next: Attestations)
    requires CompletesSoon(db, g, attested) && AllAfter(db, c, g, attested)
    ensures CompletesSoon(c, g, next)
  {
    forall r | r in g.members
      ensures EndedSoon(c, g, r, next) && !AttentionSoon(c, g, r, next) && (r !in g.optional ==> Succeeding(c, r))
    {
      assert MemberAfter(db, c, g, r, attested) && !NeedsAttention(c, r);
    }
  }

  lemma CompletesRefused(db: Db, g: Global, attested: Attestations)
    requires CompletesSoon(db, g, attested) && !g.cancelRequested
    ensures forall r :: r in g.members ==> !RefusedSoon(db, g, r, attested)
  {
    forall r | r in g.members ensures !RefusedSoon(db, g, r, attested) {
      assert EndedSoon(db, g, r, attested);
      if StillPreparing(db, g, r) && DoomedSoon(db, g, r, attested) {
        var d :| ConsumesIn(db, g, d, r) && Forecast(db, d, attested) == DepFailed;
      }
    }
  }

  lemma AfterCore(db: Db, b: Db, c: Db, g: Global, attested: Attestations)
    requires SameCore(b, c) && AllAfter(db, b, g, attested)
    ensures AllAfter(db, c, g, attested)
  {
    forall r | r in g.members
      ensures MemberAfter(db, c, g, r, attested) && (NeedsAttention(c, r) <==> AttentionSoon(db, g, r, attested))
    {
      CoreAfter(db, b, c, g, r, attested);
      assert NeedsAttention(c, r) <==> NeedsAttention(b, r);
    }
  }

  /** A refresh that throws because a waiting Global Run cannot become completed leaves it so. */
  lemma CompletesStays(db: Db, g: GlobalId, attested: Attestations)
    requires UnderWay(db, g) && db.globals[g].status.GlobalWaiting? && CompletesSoon(db, db.globals[g], attested)
    ensures var o := RefreshGlobal(db, g, attested);
      && !o.ok && UnderWay(o.db, g) && o.db.globals[g] == db.globals[g]
      && forall next :: CompletesSoon(o.db, db.globals[g], next)
  {
    var row, c := db.globals[g], RefreshGlobal(db, g, attested).db;
    RefreshThrowsIff(db, g, attested);
    StillRefreshing(db, g, attested);
    CompletesRefused(db, row, attested);
    BeforeThrowsIff(db, g, attested);
    AllMembersAfter(db, g, attested);
    RefreshCore(db, g, attested);
    AfterCore(db, Before(db, g, attested).db, c, row, attested);
    forall next ensures CompletesSoon(c, row, next) { CompletesOver(db, c, row, attested, next); }
  }

  /** Every refresh throws, for ever, although every required project has completed. */
  lemma {:induction false} WaitingForever(db: Db, g: GlobalId, calls: seq<Attestations>)
    requires UnderWay(db, g) && db.globals[g].status.GlobalWaiting?
    requires calls != [] ==> CompletesSoon(db, db.globals[g], calls[0])
    ensures AllThrow(db, g, calls)
    decreases |calls|
  {
    if calls != [] {
      CompletesStays(db, g, calls[0]);
      WaitingForever(RefreshGlobal(db, g, calls[0]).db, g, calls[1..]);
    }
  }

  // ---------- Skipped and satisfied dependencies mixed ----------

  /** Every member is over, or preparing with something pending or a mix; and one has a mix. */
  ghost predicate Stalled(db: Db, g: Global, attested: Attestations) {
    && (forall r :: r in g.members ==> OverSoon(db, r) || Standing(db, g, r, attested))
    && exists r :: r in g.members && MixedSoon(db, g, r, attested)
  }

  ghost predicate Standing(db: Db, g: Global, r: RunId, attested: Attestations) {
    StillPreparing(db, g, r) && (AnySoon(db, g, r, DepPending, attested) || MixedSoon(db, g, r, attested))
  }

  lemma StandingStays(db: Db, g: Global, r: RunId, attested: Attestations)
    requires Standing(db, g, r, attested)
    ensures !DoomedSoon(db, g, r, attested) && !StartedSoon(db, g, r, attested) && !SkippedSoon(db, g, r, attested)
    ensures !EndedSoon(db, g, r, attested) && !RunningSoon(db, g, r, attested)
  {
    if AnySoon(db, g, r, DepPending, attested) {
      var d :| ConsumesIn(db, g, d, r) && Forecast(db, d, attested) == DepPending;
    } else {
      var d :| ConsumesIn(db, g, d, r) && Forecast(db, d, attested) == DepSkipped;
      var e :| ConsumesIn(db, g, e, r) && Forecast(db, e, attested) == DepSatisfied;
    }
  }

  lemma StalledDestiny(db: Db, g: Global, attested: Attestations)
    requires Stalled(db, g, attested) && forall r :: r in g.members ==> r in db.runs
    ensures Destiny(db, g, attested) == GlobalWaiting && forall r :: r in g.members ==> !SkippedSoon(db, g, r, attested)
  {
    forall r | r in g.members ensures !RunningSoon(db, g, r, attested) && !SkippedSoon(db, g, r, attested) {
      if Standing(db, g, r, attested) { StandingStays(db, g, r, attested); }
    }
    var r :| r in g.members && MixedSoon(db, g, r, attested);
    StandingStays(db, g, r, attested);
  }

  lemma StalledMember(db: Db, c: Db, g: Global, r: RunId, attested: Attestations)
    requires MemberFacts(db, c, g, r, attested) && r in db.runs && (OverSoon(db, r) || Standing(db, g, r, attested))
    ensures OverSoon(c, r) <==> OverSoon(db, r)
    ensures Standing(db, g, r, attested) ==> RunPreparingIn(c, r)
  {
    if Standing(db, g, r, attested) { StandingStays(db, g, r, attested); }
  }

  lemma StalledDep(db: Db, c: Db, g: Global, d: DepId, attested: Attestations, next: Attestations)
    requires DepForeseen(db, c, d, attested)
    requires (OverSoon(c, db.xdeps[d].producer) <==> OverSoon(db, db.xdeps[d].producer))
    ensures Forecast(c, d, next) == Forecast(db, d, attested)
  {
  }

  lemma StalledStands(db: Db, c: Db, g: Global, g': Global, r: RunId, attested: Attestations, next: Attestations)
    requires Standing(db, g, r, attested) && RunPreparingIn(c, r) && !OverSoon(c, r) && g' == g.(status := g'.status)
    requires DepsLater(db, c) && forall d :: d in g.deps && d in db.xdeps ==>
      Forecast(c, d, next) == Forecast(db, d, attested)
    requires c.xdeps.Keys == db.xdeps.Keys
    ensures Standing(c, g', r, next) && (MixedSoon(db, g, r, attested) ==> MixedSoon(c, g', r, next))
  {
    forall d ensures ConsumesIn(c, g', d, r) <==> ConsumesIn(db, g, d, r) {
      if d in db.xdeps { assert DepLater(db.xdeps[d], c.xdeps[d]); }
    }
    var d :| ConsumesIn(db, g, d, r);
    assert ConsumesIn(c, g', d, r);
    forall s ensures AnySoon(c, g', r, s, next) <==> AnySoon(db, g, r, s, attested) {
      if AnySoon(db, g, r, s, attested) {
        var e :| ConsumesIn(db, g, e, r) && Forecast(db, e, attested) == s;
        assert ConsumesIn(c, g', e, r);
      }
      if AnySoon(c, g', r, s, next) {
        var e :| ConsumesIn(c, g', e, r) && Forecast(c, e, next) == s;
        assert ConsumesIn(db, g, e, r);
      }
    }
  }

  lemma StalledFacts(db: Db, c: Db, g: GlobalId, attested: Attestations)
    requires g in db.globals && RefreshedTo(db, c, g, attested) && Stalled(db, db.globals[g], attested)
    requires forall r :: r in db.globals[g].members ==> r in db.runs
    ensures forall r :: r in db.globals[g].members ==>
      (OverSoon(c, r) <==> OverSoon(db, r)) && (Standing(db, db.globals[g], r, attested) ==> RunPreparingIn(c, r))
  {
    forall r | r in db.globals[g].members
      ensures (OverSoon(c, r) <==> OverSoon(db, r))
      ensures (Standing(db, db.globals[g], r, attested) ==> RunPreparingIn(c, r))
    {
      assert MemberFacts(db, c, db.globals[g], r, attested);
      StalledMember(db, c, db.globals[g], r, attested);
    }
  }

  lemma StalledShape(db: Db, c: Db, g: Global, g': Global, attested: Attestations, next: Attestations)
    requires Stalled(db, g, attested) && g' == g.(status := g'.status) && DepsLater(db, c)
    requires c.xdeps.Keys == db.xdeps.Keys
    requires forall r :: r in g.members ==>
               (OverSoon(c, r) <==> OverSoon(db, r)) && (Standing(db, g, r, attested) ==> RunPreparingIn(c, r))
    requires forall d :: d in g.deps && d in db.xdeps ==> Forecast(c, d, next) == Forecast(db, d, attested)
    ensures Stalled(c, g', next) && forall r :: r in g.members && MixedSoon(db, g, r, attested) ==>
      MixedSoon(c, g', r, next)
  {
    forall r | r in g.members && Standing(db, g, r, attested)
      ensures Standing(c, g', r, next) && (MixedSoon(db, g, r, attested) ==> MixedSoon(c, g', r, next))
    {
      StalledStands(db, c, g, g', r, attested, next);
    }
    var r :| r in g.members && MixedSoon(db, g, r, attested);
    assert Standing(db, g, r, attested);
  }

  lemma StalledDeps(db: Db, c: Db, g: GlobalId, attested: Attestations, next: Attestations)
    requires g in db.globals && c.xdeps.Keys == db.xdeps.Keys
    requires forall d :: d in db.globals[g].deps && d in db.xdeps ==>
      DepForeseen(db, c, d, attested) && (OverSoon(c, db.xdeps[d].producer) <==> OverSoon(db, db.xdeps[d].producer))
    ensures forall d :: d in db.globals[g].deps && d in db.xdeps ==> Forecast(c, d, next) == Forecast(db, d, attested)
  {
    forall d | d in db.globals[g].deps && d in db.xdeps ensures Forecast(c, d, next) == Forecast(db, d, attested) {
      StalledDep(db, c, db.globals[g], d, attested, next);
    }
  }

  /** A refresh that left the Global Run waiting, its dependencies as foreseen. */
  ghost predicate WaitedTo(db: Db, c: Db, g: GlobalId, attested: Attestations)
    requires g in db.globals
  {
    && RefreshedTo(db, c, g, attested) && Destiny(db, db.globals[g], attested).GlobalWaiting?
    && (forall d :: d in db.globals[g].deps && d in db.xdeps ==> DepForeseen(db, c, d, attested))
    && (forall r :: r in db.globals[g].members ==> r in db.runs)
    && (forall d :: d in db.globals[g].deps && d in db.xdeps ==> db.xdeps[d].producer in db.globals[g].members)
  }

  lemma StalledWaits(db: Db, g: GlobalId, attested: Attestations)
    requires UnderWay(db, g) && Stalled(db, db.globals[g], attested)
    ensures var o := RefreshGlobal(db, g, attested);
      o.ok && Good(o.db) && Regular(o.db) && WaitedTo(db, o.db, g, attested)
  {
    MembersWired(db, g);
    StalledDestiny(db, db.globals[g], attested);
    RefreshThrowsIff(db, g, attested);
    DestinyUnderWay(db, db.globals[g], attested);
    RefreshDone(db, g, attested);
    forall d | d in db.globals[g].deps && d in db.xdeps
      ensures DepForeseen(db, RefreshGlobal(db, g, attested).db, d, attested)
    {
      DepAfter(db, g, attested, d);
    }
  }

  /** The Global Run waits, as stalled as it was, with every mix still a mix. */
  ghost predicate AsStalled(db: Db, c: Db, g: GlobalId, attested: Attestations, next: Attestations)
    requires g in db.globals
  {
    && g in c.globals && c.globals[g] == db.globals[g].(status := GlobalWaiting) && Stalled(c, c.globals[g], next)
    && forall r :: r in db.globals[g].members && MixedSoon(db, db.globals[g], r, attested) ==>
      MixedSoon(c, c.globals[g], r, next)
  }

  lemma WaitedStalled(db: Db, c: Db, g: GlobalId, attested: Attestations, next: Attestations)
    requires g in db.globals && WaitedTo(db, c, g, attested) && Stalled(db, db.globals[g], attested)
    ensures AsStalled(db, c, g, attested, next)
  {
    StalledFacts(db, c, g, attested);
    StalledDeps(db, c, g, attested, next);
    StalledShape(db, c, db.globals[g], c.globals[g], attested, next);
  }

  lemma WaitedUnderWay(db: Db, c: Db, g: GlobalId, attested: Attestations)
    requires g in db.globals && !db.globals[g].cancelRequested && WaitedTo(db, c, g, attested) && Good(c) && Regular(c)
    ensures UnderWay(c, g)
  {
  }

  /** A stalled Global Run waits, without a throw, and is as stalled as before, whatever is
      attested next. */
  lemma StalledStays(db: Db, g: GlobalId, attested: Attestations, next: Attestations)
    requires UnderWay(db, g) && Stalled(db, db.globals[g], attested)
    ensures var o := RefreshGlobal(db, g, attested); o.ok && UnderWay(o.db, g) && AsStalled(db, o.db, g, attested, next)
  {
    StalledWaits(db, g, attested);
    var c := RefreshGlobal(db, g, attested).db;
    assert UnderWay(c, g) by { WaitedUnderWay(db, c, g, attested); }
    assert AsStalled(db, c, g, attested, next) by { WaitedStalled(db, c, g, attested, next); }
  }

  /** None of these refreshes throws, and after each the Global Run waits with `r` preparing. */
  ghost predicate WaitsOn(db: Db, g: GlobalId, r: RunId, calls: seq<Attestations>)
    requires g in db.globals
    decreases |calls|
  {
    calls == [] ||
    var o := RefreshGlobal(db, g, calls[0]);
    o.ok && g in o.db.globals && o.db.globals[g].status.GlobalWaiting? && RunPreparingIn(o.db, r)
      && WaitsOn(o.db, g, r, calls[1..])
  }

  /** Stalled around the mix in `r`, whatever is attested. */
  ghost predicate StalledOn(db: Db, g: GlobalId, r: RunId)
    requires g in db.globals
  {
    r in db.globals[g].members && forall attested ::
      Stalled(db, db.globals[g], attested) && MixedSoon(db, db.globals[g], r, attested)
  }

  lemma StalledStep(db: Db, g: GlobalId, r: RunId, attested: Attestations)
    requires UnderWay(db, g) && StalledOn(db, g, r)
    ensures var o := RefreshGlobal(db, g, attested);
      o.ok && UnderWay(o.db, g) && o.db.globals[g].status.GlobalWaiting? && StalledOn(o.db, g, r)
  {
    var c := RefreshGlobal(db, g, attested).db;
    StalledStays(db, g, attested, attested);
    forall next ensures Stalled(c, c.globals[g], next) && MixedSoon(c, c.globals[g], r, next) {
      StalledStays(db, g, attested, next);
    }
  }

  /** A consumer in which skipped and satisfied mix is never released and never fails: the Global
      Run waits through every refresh. */
  lemma {:induction false} StalledForever(db: Db, g: GlobalId, r: RunId, calls: seq<Attestations>)
    requires UnderWay(db, g) && StalledOn(db, g, r)
    ensures WaitsOn(db, g, r, calls)
    decreases |calls|
  {
    if calls != [] {
      var o := RefreshGlobal(db, g, calls[0]);
      StalledStep(db, g, r, calls[0]);
      assert MixedSoon(o.db, o.db.globals[g], r, calls[0]);
      StalledForever(o.db, g, r, calls[1..]);
    }
  }
}
