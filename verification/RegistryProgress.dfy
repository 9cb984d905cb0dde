/** Dependency sweeps: what refreshBlockedTasks reaches, in whatever order it reads the
    rows, and what it leaves for workers to do. */
module RegistryProgress {
  import opened DomainStates
  import opened TaskRows
  import opened RegistrySteps
  import opened RegistryInvariant
  import opened RegistryRuns

  // ---------- Sweeping in any order ----------

  function SweepAll(db: Db, ids: seq<TaskId>): Db
    decreases |ids|
  {
    if ids == [] then db else SweepAll(Sweep(db, ids[0]), ids[1..])
  }

  /** `SweepTask` changes nothing. */
  predicate Quiet(db: Db, id: TaskId) {
    id in db.tasks && db.tasks[id].status.Blocked? ==> SweepVerdict(db, db.tasks[id]).Blocked?
  }

  predicate AllQuiet(db: Db) { forall id :: id in db.tasks ==> Quiet(db, id) }

  predicate Swept(t: Task, t': Task, verdict: TaskStatus) {
    t.status.Blocked? && !verdict.Blocked? && t' == SetStatus(t, verdict)
  }

  /** `b` came from `a` by sweeps, and each row it changed would get the same verdict now. */
  ghost predicate SweptFrom(a: Db, b: Db) {
    && b == a.(tasks := b.tasks) && b.tasks.Keys == a.tasks.Keys
    && forall id :: id in a.tasks ==>
         b.tasks[id] == a.tasks[id] || Swept(a.tasks[id], b.tasks[id], SweepVerdict(b, a.tasks[id]))
  }

  /** Every dependency of `t` that is over in `b` is the same row in `c`. */
  ghost predicate OverFixed(b: Db, c: Db, t: Task) {
    b.tasks.Keys == c.tasks.Keys
    && forall d :: d in t.dependsOn && d in b.tasks && Terminal(b.tasks[d].status) ==> c.tasks[d] == b.tasks[d]
  }

  lemma FailedFixed(b: Db, c: Db, t: Task)
    requires OverFixed(b, c, t) && HasFailedDependency(b, t)
    ensures HasFailedDependency(c, t)
  {
    var d :| d in t.dependsOn && d in b.tasks && FailedForDependents(b.tasks[d].status);
    assert c.tasks[d] == b.tasks[d];
  }

  lemma TerminalFixed(b: Db, c: Db, t: Task)
    requires OverFixed(b, c, t) && AllDependenciesTerminal(b, t)
    ensures AllDependenciesTerminal(c, t) && (HasFailedDependency(c, t) <==> HasFailedDependency(b, t))
    ensures AllDependenciesAchieved(c, t) <==> AllDependenciesAchieved(b, t)
  {
    assert forall d :: d in t.dependsOn && d in b.tasks ==> c.tasks[d] == b.tasks[d];
  }

  /** A verdict once reached stands as long as terminal dependencies do. */
  lemma VerdictStands(b: Db, c: Db, t: Task)
    requires OverFixed(b, c, t) && !SweepVerdict(b, t).Blocked?
    ensures SweepVerdict(c, t) == SweepVerdict(b, t)
  {
    if HasFailedDependency(b, t) { FailedFixed(b, c, t); }
    if AllDependenciesTerminal(b, t) { TerminalFixed(b, c, t); } else { assert !AllDependenciesAchieved(b, t); }
  }

  lemma VerdictStable(db: Db, id: TaskId, t: Task)
    requires !SweepVerdict(db, t).Blocked?
    ensures SweepVerdict(Sweep(db, id), t) == SweepVerdict(db, t)
  {
    VerdictStands(db, Sweep(db, id), t);
  }

  lemma SweepFrom(a: Db, b: Db, id: TaskId)
    requires SweptFrom(a, b)
    ensures SweptFrom(a, Sweep(b, id))
  {
    var c := Sweep(b, id);
    forall i | i in a.tasks
      ensures c.tasks[i] == a.tasks[i] || Swept(a.tasks[i], c.tasks[i], SweepVerdict(c, a.tasks[i]))
    {
      if !SweepVerdict(b, a.tasks[i]).Blocked? { VerdictStable(b, id, a.tasks[i]); }
    }
  }

  lemma {:induction false} SweepAllFrom(a: Db, b: Db, ids: seq<TaskId>)
    requires SweptFrom(a, b)
    ensures SweptFrom(a, SweepAll(b, ids))
    decreases |ids|
  {
    if ids != [] {
      SweepFrom(a, b, ids[0]);
      SweepAllFrom(a, Sweep(b, ids[0]), ids[1..]);
    }
  }

  /** Every row `b` has changed, `c` has changed in the same way. */
  ghost predicate Within(a: Db, b: Db, c: Db) {
    b == a.(tasks := b.tasks) && b.tasks.Keys == a.tasks.Keys && c.tasks.Keys == a.tasks.Keys
    && forall id :: id in a.tasks ==> b.tasks[id] == a.tasks[id] || b.tasks[id] == c.tasks[id]
  }

  lemma VerdictWithin(a: Db, b: Db, c: Db, t: Task)
    requires SweptFrom(a, c) && Within(a, b, c) && !SweepVerdict(b, t).Blocked?
    ensures SweepVerdict(c, t) == SweepVerdict(b, t)
  {
    forall d | d in t.dependsOn && d in b.tasks && Terminal(b.tasks[d].status) ensures c.tasks[d] == b.tasks[d] {
    }
    VerdictStands(b, c, t);
  }

  lemma SweepWithin(a: Db, b: Db, c: Db, id: TaskId)
    requires SweptFrom(a, c) && AllQuiet(c) && Within(a, b, c)
    ensures Within(a, Sweep(b, id), c)
  {
    if Sweep(b, id) != b {
      var t := b.tasks[id];
      VerdictWithin(a, b, c, t);
      assert t == a.tasks[id];
      assert Quiet(c, id);
    }
  }

  lemma {:induction false} SweepAllWithin(a: Db, b: Db, c: Db, ids: seq<TaskId>)
    requires SweptFrom(a, c) && AllQuiet(c) && Within(a, b, c)
    ensures Within(a, SweepAll(b, ids), c)
    decreases |ids|
  {
    if ids != [] {
      SweepWithin(a, b, c, ids[0]);
      SweepAllWithin(a, Sweep(b, ids[0]), c, ids[1..]);
    }
  }

  lemma SweptSelf(a: Db)
    ensures SweptFrom(a, a)
  {
  }

  /** Confluence: any two orders of sweeping that come to rest come to the same tables. */
  lemma SweepOrderIrrelevant(a: Db, ids: seq<TaskId>, ids': seq<TaskId>)
    requires AllQuiet(SweepAll(a, ids)) && AllQuiet(SweepAll(a, ids'))
    ensures SweepAll(a, ids) == SweepAll(a, ids')
  {
    var b, c := SweepAll(a, ids), SweepAll(a, ids');
    SweptSelf(a);
    SweepAllFrom(a, a, ids);
    SweepAllFrom(a, a, ids');
    SweepAllWithin(a, a, c, ids);
    SweepAllWithin(a, a, b, ids');
    assert b.tasks == c.tasks;
  }

  /** What a sweep decides for a blocked task: a fallback is skipped iff everything it stands in
      for succeeded, and runs iff all is over and something did not; an `all_success` task fails
      iff something it needs failed or was canceled, and is queued iff everything is achieved. */
  lemma SweepMeans(db: Db, id: TaskId)
    requires id in db.tasks && db.tasks[id].status.Blocked?
    ensures var t, now := db.tasks[id], Sweep(db, id).tasks[id].status;
      var over := DependenciesIn(db, t, ENDED);
      var succeeded := DependenciesIn(db, t, {Completed, CompletedWithWarnings, Skipped});
      var achieved := DependenciesIn(db, t, {Completed, CompletedWithWarnings});
      var failed := AnyDependencyIn(db, t, ENDED - {Completed, CompletedWithWarnings, Skipped});
      match t.policy
      case OnFailure => now == if succeeded then Skipped else if over then Queued else Blocked
      case AllTerminal => now == if over then Queued else Blocked
      case AllSuccess => now == if failed then Failed else if achieved then Queued else Blocked
    ensures Sweep(db, id).tasks == db.tasks[id := Sweep(db, id).tasks[id]]
  {
    var t := db.tasks[id];
    assert AllDependenciesTerminal(db, t) <==> DependenciesIn(db, t, ENDED);
    assert AllDependenciesAchieved(db, t) <==> DependenciesIn(db, t, {Completed, CompletedWithWarnings});
    assert HasFailedDependency(db, t) <==> AnyDependencyIn(db, t, ENDED - {Completed, CompletedWithWarnings, Skipped});
  }

  // ---------- Failure propagation as a least fixpoint ----------

  predicate Vulnerable(db: Db, id: TaskId) {
    id in db.tasks && db.tasks[id].status.Blocked? && db.tasks[id].policy.AllSuccess?
  }

  predicate HasDependencyIn(db: Db, id: TaskId, s: set<TaskId>)
    requires id in db.tasks
  {
    exists d :: d in db.tasks[id].dependsOn && d in s
  }

  /** Closed under propagation: a blocked `all_success` task with a failed or canceled
      dependency, or with one in the set, is in the set. */
  ghost predicate PropagationClosed(db: Db, s: set<TaskId>) {
    forall id :: Vulnerable(db, id) && (HasFailedDependency(db, db.tasks[id]) || HasDependencyIn(db, id, s)) ==> id in s
  }

  /** Every closed set contains `s`, and `s` is closed. */
  ghost predicate LeastClosed(db: Db, s: set<TaskId>) {
    PropagationClosed(db, s) && forall other :: PropagationClosed(db, other) ==> s <= other
  }

  /** The rows `b` failed since `a`. */
  function NewlyFailed(a: Db, b: Db): set<TaskId>
    requires b.tasks.Keys == a.tasks.Keys
  {
    set id | id in a.tasks && a.tasks[id].status.Blocked? && b.tasks[id].status.Failed?
  }

  lemma FailsInside(a: Db, b: Db, id: TaskId, other: set<TaskId>)
    requires SweptFrom(a, b) && PropagationClosed(a, other) && NewlyFailed(a, b) <= other
    requires id in b.tasks && b.tasks[id].status.Blocked? && SweepVerdict(b, b.tasks[id]).Failed?
    ensures id in other
  {
    var t := b.tasks[id];
    assert t == a.tasks[id] && HasFailedDependency(b, t);
    var d :| d in t.dependsOn && d in b.tasks && FailedForDependents(b.tasks[d].status);
    assert d in NewlyFailed(a, b) || b.tasks[d] == a.tasks[d];
    assert Vulnerable(a, id);
  }

  lemma SweepFailsInside(a: Db, b: Db, id: TaskId, other: set<TaskId>)
    requires SweptFrom(a, b) && PropagationClosed(a, other) && NewlyFailed(a, b) <= other
    ensures Sweep(b, id).tasks.Keys == a.tasks.Keys && NewlyFailed(a, Sweep(b, id)) <= other
  {
    if id in b.tasks && b.tasks[id].status.Blocked? && SweepVerdict(b, b.tasks[id]).Failed? {
      FailsInside(a, b, id, other);
    }
  }

  /** No blocked `all_success` task still has a failed or canceled dependency. */
  ghost predicate FailuresPropagated(db: Db) {
    forall id :: Vulnerable(db, id) ==> !HasFailedDependency(db, db.tasks[id])
  }

  lemma PropagatedIsClosed(a: Db, b: Db)
    requires SweptFrom(a, b) && FailuresPropagated(b)
    ensures PropagationClosed(a, NewlyFailed(a, b))
  {
    var s := NewlyFailed(a, b);
    forall id | Vulnerable(a, id) && (HasFailedDependency(a, a.tasks[id]) || HasDependencyIn(a, id, s))
      ensures id in s
    {
      var t := a.tasks[id];
      if HasFailedDependency(a, t) {
        var d :| d in t.dependsOn && d in a.tasks && FailedForDependents(a.tasks[d].status);
        assert b.tasks[d] == a.tasks[d];
      } else {
        var d :| d in t.dependsOn && d in s;
        assert FailedForDependents(b.tasks[d].status);
      }
      assert HasFailedDependency(b, t);
      assert SweepVerdict(b, t).Failed?;
    }
  }

  /** Whatever is closed under propagation holds every row failed so far. */
  ghost predicate Inside(a: Db, b: Db) {
    b.tasks.Keys == a.tasks.Keys && forall other :: PropagationClosed(a, other) ==> NewlyFailed(a, b) <= other
  }

  lemma InsideSelf(a: Db)
    ensures Inside(a, a)
  {
  }

  lemma SweepInside(a: Db, b: Db, id: TaskId)
    requires SweptFrom(a, b) && Inside(a, b)
    ensures Inside(a, Sweep(b, id))
  {
    forall other | PropagationClosed(a, other) ensures NewlyFailed(a, Sweep(b, id)) <= other {
      SweepFailsInside(a, b, id, other);
    }
  }

  lemma LeastReached(a: Db, b: Db)
    requires SweptFrom(a, b) && Inside(a, b) && FailuresPropagated(b)
    ensures LeastClosed(a, NewlyFailed(a, b))
  {
    PropagatedIsClosed(a, b);
  }

  // ---------- Progress ----------

  /** Not terminal, with every dependency terminal. */
  predicate FrontLine(db: Db, id: TaskId) {
    id in db.tasks && !Terminal(db.tasks[id].status) && AllDependenciesTerminal(db, db.tasks[id])
  }

  /** A worker holds it, or a worker can claim it: now, or when its retry or lease delay is over. */
  predicate Mover(db: Db, id: TaskId) {
    id in db.tasks
    && (Owned(db.tasks[id].status) || (Claimable(db.tasks[id].status) && DependenciesAllow(db, db.tasks[id])))
  }

  /** Blocked for good: `all_success` over a dependency that was skipped. */
  predicate Starved(db: Db, id: TaskId) {
    Vulnerable(db, id) && AllDependenciesTerminal(db, db.tasks[id])
    && exists d :: d in db.tasks[id].dependsOn && d in db.tasks && db.tasks[d].status.Skipped?
  }

  /** What a call of refreshBlockedTasks leaves in a released run when it changes nothing. */
  ghost predicate AtRestIn(db: Db, r: RunId) {
    forall id :: InRun(db, id, r) ==> !db.tasks[id].status.Staged? && Quiet(db, id)
  }

  lemma {:induction false} FrontLineExists(db: Db, rank: map<TaskId, nat>, id: TaskId) returns (front: TaskId)
    requires Wired(db) && id in db.tasks && !Terminal(db.tasks[id].status)
    requires TaskRank(rank, db.tasks, db.tasks[id].runId)
    ensures FrontLine(db, front) && db.tasks[front].runId == db.tasks[id].runId
    decreases if id in rank then rank[id] else 0
  {
    if FrontLine(db, id) { front := id; } else {
      var d :| d in db.tasks[id].dependsOn && d in db.tasks && !Terminal(db.tasks[d].status);
      assert TaskPlaced(db, db.tasks[id]) && RanksBelow(rank, db.tasks[id].dependsOn, rank[id]);
      front := FrontLineExists(db, rank, d);
    }
  }

  /** A released run at rest, with something unfinished, has a front line, and a task in the
      front line moves exactly when it is not starved. */
  lemma FrontLineMoves(db: Db, id: TaskId)
    requires Wired(db) && Inv(db) && FrontLine(db, id) && !db.tasks[id].status.Staged? && Quiet(db, id)
    ensures Mover(db, id) <==> !Starved(db, id)
  {
    var t := db.tasks[id];
    assert RowFits(db, t, db.nextToken) && TaskPlaced(db, t);
    if t.status.Blocked? && !HasFailedDependency(db, t) && t.policy.AllSuccess? {
      var d :| d in t.dependsOn && d in db.tasks && !Achieved(db.tasks[d].status);
      assert !FailedForDependents(db.tasks[d].status);
    }
  }

  /** No `all_success` task of the run depends on an `on_failure` task. */
  ghost predicate NoFallbackRelied(db: Db, r: RunId) {
    forall id, d ::
      InRun(db, id, r) && db.tasks[id].policy.AllSuccess? && d in db.tasks[id].dependsOn && d in db.tasks ==>
      !db.tasks[d].policy.OnFailure?
  }

  lemma NotStarved(db: Db, id: TaskId)
    requires Inv(db) && id in db.tasks && NoFallbackRelied(db, db.tasks[id].runId)
    ensures !Starved(db, id)
  {
    assert InRun(db, id, db.tasks[id].runId);
  }

  ghost predicate Unfinished(db: Db, r: RunId) { exists id :: InRun(db, id, r) && !Terminal(db.tasks[id].status) }

  ghost predicate Moving(db: Db, r: RunId) { exists id :: InRun(db, id, r) && Mover(db, id) }

  ghost predicate StarvedIn(db: Db, r: RunId) { exists id :: InRun(db, id, r) && Starved(db, id) }

  /** Progress: a released run that a sweep leaves unchanged is finished, has a task that a
      worker holds or can claim, or has a starved task. */
  lemma Progress(db: Db, r: RunId)
    requires Wired(db) && Inv(db) && r in db.runs && AtRestIn(db, r) && Unfinished(db, r)
    ensures Moving(db, r) || StarvedIn(db, r)
    ensures NoFallbackRelied(db, r) ==> Moving(db, r)
  {
    assert RunWired(db, r, db.runs[r]);
    var rank :| TaskRank(rank, db.tasks, r);
    var id :| InRun(db, id, r) && !Terminal(db.tasks[id].status);
    var front := FrontLineExists(db, rank, id);
    assert InRun(db, front, r);
    FrontLineMoves(db, front);
    if NoFallbackRelied(db, r) { NotStarved(db, front); }
  }
}
