/** What one event can do to one row, and the laws of claim tokens that follow. */
module RegistryEvents {
  import opened DomainStates
  import opened TaskRows
  import opened RegistrySteps
  import opened RegistryInvariant
  import opened RegistryKeeps
  import opened RegistryHistory

  // ---------- One row across one event ----------

  predicate WorkedOn(e: Event, id: TaskId, t: Task, t': Task, now: int) {
    e.Row? && e.id == id && ApplyRow(t, e.op, now) == Some(t')
  }

  predicate ClaimedBy(e: Event, id: TaskId, t: Task, t': Task, k: Token, now: int) {
    e.ClaimTask? && e.id == id && t' == ClaimRow(t, e.worker, k, now)
    && Claimable(t.status) && (t.nextRetryAt.Some? ==> t.nextRetryAt.value <= now)
  }

  predicate RepairedBy(e: Event, id: TaskId, t: Task, t': Task) {
    e.RepairTask? && e.id == id && Repairable(t.status) && t' == RepairedRow(t, e.contract)
  }

  /** The four ways a row can fare under an event. */
  ghost predicate RowStep(a: Db, e: Event, id: TaskId, t: Task, t': Task) {
    || Steady(t, t')
    || WorkedOn(e, id, t, t', a.clock)
    || ClaimedBy(e, id, t, t', a.nextToken, a.clock)
    || RepairedBy(e, id, t, t')
  }

  lemma SteadyReflexive(t: Task)
    ensures Steady(t, t)
  {
  }

  lemma ClaimStep(db: Db, id: TaskId, w: WorkerId, env: ClaimEnv, i: TaskId)
    requires i in db.tasks
    ensures var o := Claim(db, id, w, env);
      && i in o.db.tasks && o.db.clock == db.clock
      && (if o.ok && i == id
        then ClaimedBy(ClaimTask(id, w, env), i, db.tasks[i], o.db.tasks[i], db.nextToken, db.clock)
          else o.db.tasks[i] == db.tasks[i])
      && o.db.nextToken == db.nextToken + (if o.ok then 1 else 0)
  {
  }

  lemma OnRowStep(db: Db, id: TaskId, op: RowOp, i: TaskId)
    requires i in db.tasks
    ensures var o := OnRow(db, id, op);
      && i in o.db.tasks && o.db.nextToken == db.nextToken && o.db.clock == db.clock
      && (if o.ok && i == id then ApplyRow(db.tasks[i], op, db.clock) == Some(o.db.tasks[i])
          else o.db.tasks[i] == db.tasks[i])
  {
  }

  lemma RepairStep(db: Db, id: TaskId, c: Contract, i: TaskId)
    requires i in db.tasks
    ensures var o := Repair(db, id, c);
      && i in o.db.tasks && o.db.nextToken == db.nextToken && o.db.clock == db.clock
      && (o.db.tasks[i] == db.tasks[i]
          || (i == id && Repairable(db.tasks[i].status) && o.db.tasks[i] == RepairedRow(db.tasks[i], c)))
  {
  }

  ghost predicate RowsOk(a: Db) { forall id :: id in a.tasks ==> RowOk(a.tasks[id], a.nextToken) }

  lemma GoodRowsOk(a: Db)
    requires Inv(a)
    ensures RowsOk(a)
  {
    forall id | id in a.tasks ensures RowOk(a.tasks[id], a.nextToken) { assert RowFits(a, a.tasks[id], a.nextToken); }
  }

  /** Everything the laws over histories need to know about one event. */
  ghost predicate Step(a: Db, e: Event, o: Outcome) {
    && a.clock <= o.db.clock && RowsOk(a)
    && (forall id :: id in a.tasks ==> id in o.db.tasks && RowStep(a, e, id, a.tasks[id], o.db.tasks[id]))
    && (forall id :: id in o.db.tasks && id !in a.tasks ==> FreshTask(o.db.tasks[id]))
    && o.db.nextToken == a.nextToken + (if e.ClaimTask? && o.ok then 1 else 0)
    && (e.ClaimTask? && o.ok ==>
      e.id in a.tasks && ClaimedBy(e, e.id, a.tasks[e.id], o.db.tasks[e.id], a.nextToken, a.clock))
    && (e.ClaimTask? && !o.ok ==> o.db.tasks == a.tasks)
    && (e.Row? ==> o == OnRow(a, e.id, e.op))
  }

  lemma ClaimEventStep(db: Db, id: TaskId, w: WorkerId, env: ClaimEnv)
    requires RowsOk(db)
    ensures Step(db, ClaimTask(id, w, env), Claim(db, id, w, env))
  {
    forall i | i in db.tasks
      ensures i in Claim(db, id, w, env).db.tasks
      ensures RowStep(db, ClaimTask(id, w, env), i, db.tasks[i], Claim(db, id, w, env).db.tasks[i])
    {
      ClaimStep(db, id, w, env, i);
      SteadyReflexive(db.tasks[i]);
    }
  }

  lemma RowEventStep(db: Db, id: TaskId, op: RowOp)
    requires RowsOk(db)
    ensures Step(db, Row(id, op), OnRow(db, id, op))
  {
    forall i | i in db.tasks ensures RowStep(db, Row(id, op), i, db.tasks[i], OnRow(db, id, op).db.tasks[i]) {
      OnRowStep(db, id, op, i);
      SteadyReflexive(db.tasks[i]);
    }
  }

  lemma RepairEventStep(db: Db, id: TaskId, c: Contract)
    requires RowsOk(db)
    ensures Step(db, RepairTask(id, c), Repair(db, id, c))
  {
    forall i | i in db.tasks
      ensures i in Repair(db, id, c).db.tasks
      ensures RowStep(db, RepairTask(id, c), i, db.tasks[i], Repair(db, id, c).db.tasks[i])
    {
      RepairStep(db, id, c, i);
      SteadyReflexive(db.tasks[i]);
    }
  }

  lemma CreateEventStep(db: Db, b: Batch)
    requires RowsOk(db)
    ensures Step(db, Create(b), CreateGraph(db, b))
  {
    forall i | i in db.tasks ensures RowStep(db, Create(b), i, db.tasks[i], CreateGraph(db, b).db.tasks[i]) {
      SteadyReflexive(db.tasks[i]);
    }
    forall i | i in CreateGraph(db, b).db.tasks && i !in db.tasks ensures FreshTask(CreateGraph(db, b).db.tasks[i]) {
      assert TaskAdmissible(b, b.tasks[i]);
    }
  }

  lemma SteadyStep(a: Db, e: Event, o: Outcome)
    requires RowsOk(a) && a.clock <= o.db.clock && SteadyDb(a, o.db) && !TaskEvent(e)
    ensures Step(a, e, o)
  {
  }

  /** Every event leaves a row steady, answers its worker, claims it or repairs it; new rows
      are fresh; a token is issued exactly by a successful claim. */
  lemma EventStep(db: Db, e: Event)
    requires Good(db)
    ensures Step(db, e, Apply(db, e))
  {
    GoodRowsOk(db);
    match e
    case ClaimTask(i, w, env) => ClaimEventStep(db, i, w, env);
    case Row(i, op) => RowEventStep(db, i, op);
    case RepairTask(i, c) => RepairEventStep(db, i, c);
    case Create(b) => CreateEventStep(db, b);
    case _ => EventMoved(db, e); SteadyStep(db, e, Apply(db, e));
  }

  /** The last event of a history. */
  lemma LastStep(es: seq<Event>)
    requires es != []
    ensures exists o :: Step(Replay(es[..|es| - 1]), es[|es| - 1], o) && o.db == Replay(es)
  {
    ReachableGood(es[..|es| - 1]);
    EventStep(Replay(es[..|es| - 1]), es[|es| - 1]);
    ReplayStep(es);
  }

  // ---------- Terminal permanence ----------

  lemma TerminalRow(a: Db, e: Event, id: TaskId, t: Task, t': Task)
    requires RowOk(t, a.nextToken) && RowStep(a, e, id, t, t') && Terminal(t.status) && t'.status != t.status
    ensures e.RepairTask? && e.id == id && Repairable(t.status) && t'.status.Blocked?
  {
    if WorkedOn(e, id, t, t', a.clock) { RowOpKeeps(t, e.op, a.clock, a.nextToken); }
  }

  /** Only repair leaves a terminal status; a success is never left. */
  lemma TerminalPermanence(a: Db, e: Event, o: Outcome, id: TaskId)
    requires Step(a, e, o) && id in a.tasks && Terminal(a.tasks[id].status)
    ensures o.db.tasks[id].status != a.tasks[id].status ==>
      e.RepairTask? && e.id == id && Repairable(a.tasks[id].status) && o.db.tasks[id].status.Blocked?
    ensures Successful(a.tasks[id].status) ==> o.db.tasks[id].status == a.tasks[id].status
  {
    if o.db.tasks[id].status != a.tasks[id].status { TerminalRow(a, e, id, a.tasks[id], o.db.tasks[id]); }
  }

  /** Over any stretch of history in which it is not repaired, an ended task keeps its status. */
  lemma {:induction false} TerminalForever(es: seq<Event>, n: nat, id: TaskId)
    requires n <= |es| && id in Replay(es[..n]).tasks && Terminal(Replay(es[..n]).tasks[id].status)
    requires forall i :: n <= i < |es| ==> !(es[i].RepairTask? && es[i].id == id)
    ensures id in Replay(es).tasks && Replay(es).tasks[id].status == Replay(es[..n]).tasks[id].status
  {
    if n == |es| {
      assert es[..n] == es;
    } else {
      var a, e := Replay(es[..|es| - 1]), es[|es| - 1];
      assert es[..|es| - 1][..n] == es[..n];
      TerminalForever(es[..|es| - 1], n, id);
      LastStep(es);
      var o :| Step(a, e, o) && o.db == Replay(es);
      TerminalPermanence(a, e, o, id);
    }
  }

  // ---------- No blind replay ----------

  /** The owner's own ending call on row `t`. */
  predicate OwnEnding(t: Task, op: RowOp) { Ends(op) && TokenOf(op).Some? && Carries(t, TokenOf(op).value) }

  /** Recovery of an undeferred running task whose valid contract allows no side effect. */
  predicate SafeReplay(t: Task, op: RowOp) {
    op.RecoverInterrupted? && !op.deferred && t.status.Running? && ReplaySafe(t.contract)
  }

  lemma ReclaimedCall(t: Task, op: RowOp, now: int)
    requires Owned(t.status) && ApplyRow(t, op, now).Some? && Claimable(ApplyRow(t, op, now).value.status)
    ensures OwnEnding(t, op) || SafeReplay(t, op)
  {
    if Tokened(op) { CallNeedsToken(t, op, now); }
  }

  /** Work is never started over behind its worker's back: a held task becomes claimable again
      only by its owner's ending call, or by restart recovery of a task that is safe to replay. */
  lemma NoBlindReplay(a: Db, e: Event, o: Outcome, id: TaskId)
    requires Step(a, e, o) && id in a.tasks && Owned(a.tasks[id].status) && Claimable(o.db.tasks[id].status)
    ensures e.Row? && e.id == id && (OwnEnding(a.tasks[id], e.op) || SafeReplay(a.tasks[id], e.op))
  {
    assert RowStep(a, e, id, a.tasks[id], o.db.tasks[id]);
    if WorkedOn(e, id, a.tasks[id], o.db.tasks[id], a.clock) { ReclaimedCall(a.tasks[id], e.op, a.clock); }
  }

  // ---------- Fencing ----------

  predicate Carries(t: Task, k: Token) { t.claimToken == Some(k) && Owned(t.status) }

  /** Token `k` was issued and no worker can still act with it. */
  ghost predicate Spent(db: Db, k: Token) {
    k < db.nextToken && forall id :: id in db.tasks ==> !Carries(db.tasks[id], k)
  }

  ghost predicate TokensApart(db: Db) {
    forall i, j :: i in db.tasks && j in db.tasks && i != j && db.tasks[i].claimToken.Some? ==>
      db.tasks[i].claimToken != db.tasks[j].claimToken
  }

  function TokenOf(op: RowOp): (k: Option<Token>)
    ensures k.Some? <==> Tokened(op)
  {
    match op
    case BindClaim(_, k) => Some(k)
    case SetClaimTurn(_, k) => Some(k)
    case HeartbeatClaim(_, k) => Some(k)
    case MarkAgentDone(_, k) => Some(k)
    case MarkValidating(_, k) => Some(k)
    case MarkIntegrationPending(_, k) => Some(k)
    case CompleteClaim(_, k) => Some(k)
    case FinishValidation(_, k, _) => Some(k)
    case FinishTurn(_, k, _) => Some(k)
    case FinishFailure(_, k, _, _, _) => Some(k)
    case WaitForLease(_, k, _) => Some(k)
    case _ => None
  }

  /** A call presenting a token needs the row to carry exactly that token. */
  lemma CallNeedsToken(t: Task, op: RowOp, now: int)
    requires Tokened(op) && ApplyRow(t, op, now).Some?
    ensures Carries(t, TokenOf(op).value)
  {
  }

  /** A row call keeps the token or clears it, an ending call clears it, and no row call
      makes an unowned row owned. */
  lemma CallTokens(t: Task, op: RowOp, now: int)
    requires ApplyRow(t, op, now).Some?
    ensures var t' := ApplyRow(t, op, now).value;
      && (t'.claimToken == t.claimToken || t'.claimToken.None?)
      && (Ends(op) ==> t'.claimToken.None?)
      && (Owned(t'.status) ==> Owned(t.status))
  {
  }

  lemma RowStepToken(a: Db, e: Event, id: TaskId, t: Task, t': Task)
    requires RowStep(a, e, id, t, t')
    ensures t'.claimToken == t.claimToken || t'.claimToken.None?
      || (ClaimedBy(e, id, t, t', a.nextToken, a.clock) && t'.claimToken == Some(a.nextToken))
    ensures forall k :: Carries(t', k) ==> Carries(t, k) || (k == a.nextToken && ClaimedBy(e, id, t, t', k, a.clock))
  {
    if WorkedOn(e, id, t, t', a.clock) { CallTokens(t, e.op, a.clock); }
  }

  /** A spent token stays spent, whatever happens. */
  lemma SpentStep(a: Db, e: Event, o: Outcome, k: Token)
    requires Step(a, e, o) && Spent(a, k)
    ensures Spent(o.db, k)
  {
    forall id | id in o.db.tasks ensures !Carries(o.db.tasks[id], k) {
      if id in a.tasks { RowStepToken(a, e, id, a.tasks[id], o.db.tasks[id]); }
    }
  }

  lemma TokensApartStep(a: Db, e: Event, o: Outcome)
    requires Step(a, e, o) && TokensApart(a)
    ensures TokensApart(o.db)
  {
    var b := o.db;
    forall id | id in b.tasks
      ensures b.tasks[id].claimToken.None? || (id in a.tasks && b.tasks[id].claimToken == a.tasks[id].claimToken)
        || (e.ClaimTask? && e.id == id && b.tasks[id].claimToken == Some(a.nextToken))
    {
      if id in a.tasks { RowStepToken(a, e, id, a.tasks[id], b.tasks[id]); }
    }
  }

  lemma {:induction false} ReachableTokensApart(es: seq<Event>)
    ensures TokensApart(Replay(es))
  {
    if es != [] {
      var a, e := Replay(es[..|es| - 1]), es[|es| - 1];
      ReachableTokensApart(es[..|es| - 1]);
      LastStep(es);
      var o :| Step(a, e, o) && o.db == Replay(es);
      TokensApartStep(a, e, o);
    }
  }

  /** A call with a spent token is refused and changes nothing. */
  lemma SpentCallRefused(db: Db, id: TaskId, op: RowOp)
    requires Tokened(op) && Spent(db, TokenOf(op).value)
    ensures OnRow(db, id, op) == Outcome(db, false)
  {
    if OnRow(db, id, op).ok { CallNeedsToken(db.tasks[id], op, db.clock); }
  }

  /** A row that stops carrying its token, for whatever reason, leaves the token spent. */
  lemma LeavingSpends(a: Db, e: Event, o: Outcome, id: TaskId, k: Token)
    requires Step(a, e, o) && TokensApart(a) && id in a.tasks && Carries(a.tasks[id], k)
    requires !Carries(o.db.tasks[id], k)
    ensures Spent(o.db, k)
  {
    forall i | i in o.db.tasks ensures !Carries(o.db.tasks[i], k) {
      if i in a.tasks { RowStepToken(a, e, i, a.tasks[i], o.db.tasks[i]); }
    }
  }

  /** An ending call that succeeds with token `k`. */
  predicate EndsClaim(a: Db, e: Event, k: Token) {
    e.Row? && Ends(e.op) && TokenOf(e.op) == Some(k) && OnRow(a, e.id, e.op).ok
  }

  lemma EndingSpends(a: Db, e: Event, o: Outcome, k: Token)
    requires Step(a, e, o) && TokensApart(a) && EndsClaim(a, e, k)
    ensures !Spent(a, k) && Spent(o.db, k)
  {
    CallNeedsToken(a.tasks[e.id], e.op, a.clock);
    CallTokens(a.tasks[e.id], e.op, a.clock);
    LeavingSpends(a, e, o, e.id, k);
  }

  ghost function Endings(es: seq<Event>, k: Token): nat {
    if es == [] then 0 else
      Endings(es[..|es| - 1], k) + if EndsClaim(Replay(es[..|es| - 1]), es[|es| - 1], k) then 1 else 0
  }

  /** Fencing: over any history at most one ending call succeeds for a token, and once one
      has, the token is spent. */
  lemma {:induction false} OneEndingPerToken(es: seq<Event>, k: Token)
    ensures Endings(es, k) <= 1
    ensures Endings(es, k) == 1 ==> Spent(Replay(es), k)
  {
    if es != [] {
      var a, e := Replay(es[..|es| - 1]), es[|es| - 1];
      OneEndingPerToken(es[..|es| - 1], k);
      ReachableTokensApart(es[..|es| - 1]);
      LastStep(es);
      var o :| Step(a, e, o) && o.db == Replay(es);
      if Spent(a, k) { SpentStep(a, e, o, k); }
      if EndsClaim(a, e, k) { EndingSpends(a, e, o, k); }
    }
  }

  lemma {:induction false} SpentForever(es: seq<Event>, n: nat, k: Token)
    requires n <= |es| && Spent(Replay(es[..n]), k)
    ensures Spent(Replay(es), k)
  {
    if n == |es| {
      assert es[..n] == es;
    } else {
      var a, e := Replay(es[..|es| - 1]), es[|es| - 1];
      assert es[..|es| - 1][..n] == es[..n];
      SpentForever(es[..|es| - 1], n, k);
      LastStep(es);
      var o :| Step(a, e, o) && o.db == Replay(es);
      SpentStep(a, e, o, k);
    }
  }

  lemma {:induction false} LeftAndSpent(es: seq<Event>, n: nat, id: TaskId, k: Token)
    requires n <= |es| && id in Replay(es[..n]).tasks && Carries(Replay(es[..n]).tasks[id], k)
    ensures id in Replay(es).tasks
    ensures Carries(Replay(es).tasks[id], k) || Spent(Replay(es), k)
  {
    if n == |es| {
      assert es[..n] == es;
    } else {
      var a, e := Replay(es[..|es| - 1]), es[|es| - 1];
      assert es[..|es| - 1][..n] == es[..n];
      LeftAndSpent(es[..|es| - 1], n, id, k);
      ReachableTokensApart(es[..|es| - 1]);
      LastStep(es);
      var o :| Step(a, e, o) && o.db == Replay(es);
      if Spent(a, k) { SpentStep(a, e, o, k); }
      else if !Carries(o.db.tasks[id], k) { LeavingSpends(a, e, o, id, k); }
    }
  }

  /** A stale worker: it once held the row with token `k`; since then the row was ended,
      cancelled, recovered, repaired or claimed again. Every later call it makes is refused
      and leaves all tables as they are, on this row and on any other. */
  lemma StaleWorkerIsFenced(es: seq<Event>, held: nat, now: nat, id: TaskId, k: Token, target: TaskId, op: RowOp)
    requires held <= now <= |es|
    requires id in Replay(es[..held]).tasks && Carries(Replay(es[..held]).tasks[id], k)
    requires id in Replay(es[..now]).tasks && !Carries(Replay(es[..now]).tasks[id], k)
    requires TokenOf(op) == Some(k)
    ensures OnRow(Replay(es), target, op) == Outcome(Replay(es), false)
  {
    assert es[..now][..held] == es[..held];
    LeftAndSpent(es[..now], held, id, k);
    SpentForever(es, now, k);
    SpentCallRefused(Replay(es), target, op);
  }
}
