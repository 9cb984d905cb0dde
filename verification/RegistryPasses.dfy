/** One call of refreshBlockedTasks: passes over the blocked rows until one fails nothing, and what
    that leaves to do. */
module RegistryPasses {
  import opened DomainStates
  import opened TaskRows
  import opened RegistrySteps
  import opened RegistryProgress
  import opened FiniteSets

  // ---------- When a skip comes too late ----------

  predicate SkipsNow(db: Db, id: TaskId) {
    id in db.tasks && db.tasks[id].status.Blocked? && SweepVerdict(db, db.tasks[id]).Skipped?
  }

  /** A blocked row that only skips are missing to: what it depends on is over or about to be
      skipped, and something is about to be. */
  predicate EnabledBySkip(db: Db, id: TaskId) {
    && id in db.tasks && db.tasks[id].status.Blocked? && !db.tasks[id].policy.AllSuccess?
    && (forall d :: d in db.tasks[id].dependsOn && d in db.tasks ==> Terminal(db.tasks[d].status) || SkipsNow(db, d))
    && exists d :: d in db.tasks[id].dependsOn && SkipsNow(db, d)
  }

  ghost predicate NoSkipEnables(db: Db) { forall id :: !EnabledBySkip(db, id) }

  /** No blocked `all_terminal` or `on_failure` row depends on a blocked fallback. */
  ghost predicate NoFallbackAwaited(db: Db) { forall id, d :: !AwaitsFallback(db, id, d) }

  predicate AwaitsFallback(db: Db, id: TaskId, d: TaskId) {
    && id in db.tasks && db.tasks[id].status.Blocked? && !db.tasks[id].policy.AllSuccess?
    && d in db.tasks[id].dependsOn && d in db.tasks && db.tasks[d].status.Blocked? && db.tasks[d].policy.OnFailure?
  }

  /** What lets one call do everything there is to do. */
  ghost predicate Undelayed(db: Db) { NoFallbackAwaited(db) || (FailuresPropagated(db) && NoSkipEnables(db)) }

  ghost predicate RestedBut(db: Db, left: set<TaskId>) { forall id :: id in db.tasks && id !in left ==> Quiet(db, id) }

  lemma EnabledAwaits(db: Db, id: TaskId)
    requires EnabledBySkip(db, id)
    ensures exists d :: AwaitsFallback(db, id, d)
  {
    var d :| d in db.tasks[id].dependsOn && SkipsNow(db, d);
    assert AwaitsFallback(db, id, d);
  }

  lemma UndelayedEnables(db: Db)
    requires Undelayed(db)
    ensures NoSkipEnables(db)
  {
    forall id ensures !EnabledBySkip(db, id) {
      if EnabledBySkip(db, id) { EnabledAwaits(db, id); }
    }
  }

  lemma PropagatedFailsNothing(db: Db, id: TaskId)
    requires FailuresPropagated(db)
    ensures !FailsNow(db, id)
  {
    if FailsNow(db, id) { assert Vulnerable(db, id); }
  }

  lemma SameAchieved(b: Db, x: TaskId, t: Task)
    requires x in b.tasks && !FailsNow(b, x)
    ensures AllDependenciesAchieved(Sweep(b, x), t) <==> AllDependenciesAchieved(b, t)
  {
    var c := Sweep(b, x);
    forall d | d in b.tasks ensures Achieved(c.tasks[d].status) <==> Achieved(b.tasks[d].status) { }
  }

  /** Apart from skips, a sweep that fails nothing ends nothing. */
  lemma SameEnds(b: Db, x: TaskId, t: Task)
    requires x in b.tasks && !FailsNow(b, x)
    ensures AllDependenciesTerminal(b, t) ==> AllDependenciesTerminal(Sweep(b, x), t)
    ensures AllDependenciesTerminal(Sweep(b, x), t) && !AllDependenciesTerminal(b, t) ==>
      SkipsNow(b, x) && x in t.dependsOn
  {
    var c := Sweep(b, x);
    forall d | d in b.tasks && !(d == x && SkipsNow(b, x))
      ensures Terminal(c.tasks[d].status) <==> Terminal(b.tasks[d].status)
    {
    }
    assert Terminal(b.tasks[x].status) ==> c.tasks[x] == b.tasks[x];
  }

  lemma EnabledThen(b: Db, x: TaskId, id: TaskId)
    requires x in b.tasks && SkipsNow(b, x) && id in b.tasks && b.tasks[id].status.Blocked?
    requires !b.tasks[id].policy.AllSuccess?
    requires x in b.tasks[id].dependsOn && AllDependenciesTerminal(Sweep(b, x), b.tasks[id])
    ensures EnabledBySkip(b, id)
  {
    var c := Sweep(b, x);
    forall d | d in b.tasks[id].dependsOn && d in b.tasks ensures Terminal(b.tasks[d].status) || SkipsNow(b, d) {
      if d != x { assert c.tasks[d] == b.tasks[d]; }
    }
  }

  lemma VerdictKept(b: Db, x: TaskId, id: TaskId)
    requires NoSkipEnables(b) && x in b.tasks && !FailsNow(b, x) && id in b.tasks && b.tasks[id].status.Blocked?
    ensures SweepVerdict(Sweep(b, x), b.tasks[id]) == SweepVerdict(b, b.tasks[id])
  {
    var t := b.tasks[id];
    SweepKeepsFailures(b, x, t);
    SameAchieved(b, x, t);
    SameEnds(b, x, t);
    if AllDependenciesTerminal(Sweep(b, x), t) && !AllDependenciesTerminal(b, t) && !t.policy.AllSuccess? {
      EnabledThen(b, x, id);
    }
  }

  lemma RestedStep(b: Db, left: set<TaskId>, id: TaskId)
    requires id in b.tasks && NoSkipEnables(b) && !FailsNow(b, id) && RestedBut(b, left)
    ensures RestedBut(Sweep(b, id), left - {id})
  {
    var c := Sweep(b, id);
    forall i | i in c.tasks && i !in left - {id} ensures Quiet(c, i) {
      if b.tasks[i].status.Blocked? { VerdictKept(b, id, i); }
    }
  }

  lemma AwaitsBefore(b: Db, x: TaskId, id: TaskId, d: TaskId)
    requires AwaitsFallback(Sweep(b, x), id, d)
    ensures AwaitsFallback(b, id, d)
  {
  }

  lemma AwaitedStays(b: Db, x: TaskId)
    requires NoFallbackAwaited(b)
    ensures NoFallbackAwaited(Sweep(b, x))
  {
    forall id, d ensures !AwaitsFallback(Sweep(b, x), id, d) {
      if AwaitsFallback(Sweep(b, x), id, d) { AwaitsBefore(b, x, id, d); }
    }
  }

  lemma SkipsKept(b: Db, x: TaskId, d: TaskId)
    requires NoSkipEnables(b) && x in b.tasks && !FailsNow(b, x) && SkipsNow(Sweep(b, x), d)
    ensures SkipsNow(b, d)
  {
    VerdictKept(b, x, d);
  }

  lemma EnablesStays(b: Db, x: TaskId)
    requires NoSkipEnables(b) && x in b.tasks && !FailsNow(b, x)
    ensures NoSkipEnables(Sweep(b, x))
  {
    var c := Sweep(b, x);
    forall id ensures !EnabledBySkip(c, id) {
      if EnabledBySkip(c, id) {
        forall d | d in b.tasks[id].dependsOn && d in b.tasks ensures Terminal(b.tasks[d].status) || SkipsNow(b, d) {
          if SkipsNow(c, d) { SkipsKept(b, x, d); }
        }
        var d :| d in c.tasks[id].dependsOn && SkipsNow(c, d);
        SkipsKept(b, x, d);
        assert EnabledBySkip(b, id);
      }
    }
  }

  lemma UndelayedStep(b: Db, id: TaskId)
    requires Undelayed(b) && id in b.tasks
    ensures Undelayed(Sweep(b, id)) && NoSkipEnables(b)
  {
    UndelayedEnables(b);
    if NoFallbackAwaited(b) { AwaitedStays(b, id); } else {
      PropagatedFailsNothing(b, id);
      PropagatedStep(b, {}, id);
      EnablesStays(b, id);
    }
  }

  // ---------- Passes ----------

  function BlockedIn(db: Db): set<TaskId> { set id | id in db.tasks && db.tasks[id].status.Blocked? }

  function BlockedCount(db: Db): nat { |BlockedIn(db)| }

  /** Unchanged and with nothing to do, or with fewer rows blocked. */
  ghost predicate Progressed(a: Db, b: Db) {
    (b == a && AllQuiet(a)) || (b != a && !AllQuiet(a) && BlockedIn(b) < BlockedIn(a))
  }

  /** Failures have reached every row but those left. */
  ghost predicate PropagatedBut(db: Db, left: set<TaskId>) {
    forall id :: Vulnerable(db, id) && id !in left ==> !HasFailedDependency(db, db.tasks[id])
  }

  /** As far as the rows not left go, `b` is what `Progressed` asks for. */
  ghost predicate PassedOver(a: Db, b: Db, left: set<TaskId>) {
    if b == a then (forall id :: id in a.tasks && id !in left ==> Quiet(a, id)) && left <= a.tasks.Keys
    else BlockedIn(b) < BlockedIn(a) && exists id :: id in a.tasks && !Quiet(a, id)
  }

  lemma SweepKeepsFailures(b: Db, x: TaskId, t: Task)
    requires x in b.tasks && !FailsNow(b, x)
    ensures HasFailedDependency(Sweep(b, x), t) <==> HasFailedDependency(b, t)
  {
    var c := Sweep(b, x);
    forall d | d in b.tasks
      ensures FailedForDependents(c.tasks[d].status) <==> FailedForDependents(b.tasks[d].status)
    {
    }
  }

  lemma PropagatedStep(b: Db, left: set<TaskId>, id: TaskId)
    requires id in b.tasks && PropagatedBut(b, left)
    requires !FailsNow(b, id)
    ensures PropagatedBut(Sweep(b, id), left - {id})
  {
    var c := Sweep(b, id);
    forall i | Vulnerable(c, i) && i !in left - {id} ensures !HasFailedDependency(c, c.tasks[i]) {
      SweepKeepsFailures(b, id, b.tasks[i]);
      assert c.tasks[i] == b.tasks[i];
    }
  }

  lemma SweepShrinks(b: Db, id: TaskId)
    requires Sweep(b, id) != b
    ensures BlockedIn(Sweep(b, id)) < BlockedIn(b) && !Quiet(b, id)
  {
    assert id in BlockedIn(b) && id !in BlockedIn(Sweep(b, id));
  }

  lemma PassedStep(a: Db, b: Db, left: set<TaskId>, id: TaskId)
    requires id in left && id in b.tasks && PassedOver(a, b, left)
    ensures PassedOver(a, Sweep(b, id), left - {id})
    ensures FailsNow(b, id) ==> Sweep(b, id) != a
  {
    if Sweep(b, id) != b { SweepShrinks(b, id); }
  }

  ghost predicate PassSoFar(start: Db, now: Db, left: set<TaskId>, failed: bool) {
    && PassedOver(start, now, left) && (failed ==> now != start) && (!failed ==> PropagatedBut(now, left))
    && (Undelayed(start) ==> Undelayed(now) && (!failed ==> RestedBut(now, left)))
  }

  ghost predicate PassDone(start: Db, now: Db, failed: bool) {
    && Progressed(start, now) && (failed ==> now != start) && (!failed ==> FailuresPropagated(now))
    && (Undelayed(start) ==> Undelayed(now) && (!failed ==> AllQuiet(now)))
  }

  ghost predicate PassesDone(origin: Db, now: Db, again: bool) {
    && Progressed(origin, now) && (!again ==> FailuresPropagated(now))
    && (Undelayed(origin) ==> Undelayed(now) && (!again ==> AllQuiet(now)))
  }

  lemma PassStarts(start: Db)
    ensures PassSoFar(start, start, BlockedIn(start), false)
  {
  }

  predicate FailsNow(db: Db, id: TaskId) {
    id in db.tasks && db.tasks[id].status.Blocked? && SweepVerdict(db, db.tasks[id]).Failed?
  }

  predicate QueuesNow(db: Db, id: TaskId) {
    id in db.tasks && db.tasks[id].status.Blocked? && SweepVerdict(db, db.tasks[id]).Queued?
  }

  /** The rows `b` queued since `a`. */
  function NewlyQueued(a: Db, b: Db): set<TaskId>
    requires b.tasks.Keys == a.tasks.Keys
  {
    set id | id in a.tasks && a.tasks[id].status.Blocked? && b.tasks[id].status.Queued?
  }

  /** The counters of a sweep from `a` to `b`. */
  ghost predicate Counted(a: Db, b: Db, queued: nat, failed: nat) {
    b.tasks.Keys == a.tasks.Keys && queued == |NewlyQueued(a, b)| && failed == |NewlyFailed(a, b)|
  }

  ghost predicate CountedFrom(a: Db, b: Db, queued: nat, failed: nat) {
    SweptFrom(a, b) && Counted(a, b, queued, failed)
  }

  lemma CountStarts(a: Db)
    ensures CountedFrom(a, a, 0, 0)
  {
    SweptSelf(a);
    assert NewlyQueued(a, a) == {} && NewlyFailed(a, a) == {};
  }

  lemma SweptRow(b: Db, id: TaskId)
    requires id in b.tasks && b.tasks[id].status.Blocked?
    ensures var c := Sweep(b, id);
      && c.tasks.Keys == b.tasks.Keys && (forall i :: i in b.tasks && i != id ==> c.tasks[i] == b.tasks[i])
      && (c.tasks[id].status.Queued? <==> QueuesNow(b, id)) && (c.tasks[id].status.Failed? <==> FailsNow(b, id))
  {
  }

  /** A row leaves `blocked` at most once, so it joins at most one set, once. */
  lemma NewlySwept(a: Db, b: Db, c: Db, id: TaskId)
    requires SweptFrom(a, b) && id in b.tasks && b.tasks[id].status.Blocked? && c.tasks.Keys == b.tasks.Keys
    requires forall i :: i in b.tasks && i != id ==> c.tasks[i] == b.tasks[i]
    ensures a.tasks[id].status.Blocked? && id !in NewlyQueued(a, b) && id !in NewlyFailed(a, b)
    ensures NewlyQueued(a, c) == NewlyQueued(a, b) + (if c.tasks[id].status.Queued? then {id} else {})
    ensures NewlyFailed(a, c) == NewlyFailed(a, b) + (if c.tasks[id].status.Failed? then {id} else {})
  {
  }

  lemma CountStep(a: Db, b: Db, id: TaskId, queued: nat, failed: nat)
    requires CountedFrom(a, b, queued, failed)
    ensures CountedFrom(a, Sweep(b, id), queued + (if QueuesNow(b, id) then 1 else 0),
                        failed + (if FailsNow(b, id) then 1 else 0))
  {
    SweepFrom(a, b, id);
    if id in b.tasks && b.tasks[id].status.Blocked? {
      SweptRow(b, id);
      NewlySwept(a, b, Sweep(b, id), id);
    }
  }

  lemma PassStep(start: Db, now: Db, left: set<TaskId>, failed: bool, id: TaskId)
    requires PassSoFar(start, now, left, failed) && id in left && id in now.tasks
    ensures PassSoFar(start, Sweep(now, id), left - {id}, failed || FailsNow(now, id))
  {
    PassedStep(start, now, left, id);
    if Undelayed(start) {
      UndelayedStep(now, id);
      if !failed && !FailsNow(now, id) { RestedStep(now, left, id); }
    }
    if failed { StillDifferent(start, now, left, id); }
    else if !FailsNow(now, id) { PropagatedStep(now, left, id); }
  }

  lemma {:induction false} SweepMore(db: Db, ids: seq<TaskId>, more: seq<TaskId>)
    ensures SweepAll(db, ids + more) == SweepAll(SweepAll(db, ids), more)
    decreases |ids|
  {
    if ids == [] { assert ids + more == more; } else {
      assert (ids + more)[1..] == ids[1..] + more;
      SweepMore(Sweep(db, ids[0]), ids[1..], more);
    }
  }

  lemma StillDifferent(start: Db, now: Db, left: set<TaskId>, id: TaskId)
    requires PassedOver(start, now, left) && now != start
    ensures Sweep(now, id) != start
  {
    if Sweep(now, id) != now { SweepShrinks(now, id); }
  }

  /** A pass that began at `start` and has swept `ids` stands at `now`. */
  ghost predicate InPass(origin: Db, start: Db, now: Db, left: set<TaskId>, again: bool, queued: nat, failed: nat,
                         ids: seq<TaskId>) {
    PassSoFar(start, now, left, again) && CountedFrom(origin, now, queued, failed) && now == SweepAll(start, ids)
    && left <= BlockedIn(start) && left <= now.tasks.Keys && InOrder(ids, BlockedIn(start) - left)
  }

  lemma OrderGrows(ids: seq<TaskId>, all: set<TaskId>, left: set<TaskId>, id: TaskId)
    requires InOrder(ids, all - left) && id in left && left <= all
    ensures InOrder(ids + [id], all - (left - {id}))
  {
  }

  lemma PassBegins(origin: Db, start: Db, queued: nat, failed: nat)
    requires CountedFrom(origin, start, queued, failed)
    ensures InPass(origin, start, start, BlockedIn(start), false, queued, failed, [])
  {
    PassStarts(start);
  }

  /** One row of a pass. */
  lemma PassTurn(origin: Db, start: Db, now: Db, left: set<TaskId>, again: bool, queued: nat, failed: nat,
                 ids: seq<TaskId>, id: TaskId)
    requires InPass(origin, start, now, left, again, queued, failed, ids) && id in left
    ensures InPass(origin, start, Sweep(now, id), left - {id}, again || FailsNow(now, id),
                   queued + (if QueuesNow(now, id) then 1 else 0), failed + (if FailsNow(now, id) then 1 else 0),
                   ids + [id])
  {
    PassStep(start, now, left, again, id);
    SweepMore(start, ids, [id]);
    CountStep(origin, now, id, queued, failed);
    OrderGrows(ids, BlockedIn(start), left, id);
  }

  lemma PassOver(origin: Db, start: Db, now: Db, again: bool, queued: nat, failed: nat, ids: seq<TaskId>)
    requires InPass(origin, start, now, {}, again, queued, failed, ids)
    ensures PassDone(start, now, again) && CountedFrom(origin, now, queued, failed) && now == SweepAll(start, ids)
    ensures InOrder(ids, BlockedIn(start))
  {
    assert BlockedIn(start) - {} == BlockedIn(start);
    PassEnds(start, now, again);
  }

  lemma PassEnds(start: Db, now: Db, failed: bool)
    requires PassSoFar(start, now, {}, failed)
    ensures PassDone(start, now, failed)
  {
  }

  lemma PassesStart(origin: Db, now: Db, failed: bool)
    requires PassDone(origin, now, failed)
    ensures PassesDone(origin, now, failed)
  {
  }

  /** Passes add up, and one that goes on leaves fewer rows blocked. */
  lemma PassesStep(origin: Db, start: Db, now: Db, failed: bool)
    requires PassesDone(origin, start, true) && PassDone(start, now, failed)
    ensures PassesDone(origin, now, failed)
    ensures BlockedCount(now) <= BlockedCount(start) && (failed ==> BlockedCount(now) < BlockedCount(start))
  {
    if now != start { ProperSubsetSmaller(BlockedIn(now), BlockedIn(start)); }
  }

  lemma {:induction false} SweepAllInside(a: Db, b: Db, ids: seq<TaskId>)
    requires SweptFrom(a, b) && Inside(a, b)
    ensures SweptFrom(a, SweepAll(b, ids)) && Inside(a, SweepAll(b, ids))
    decreases |ids|
  {
    if ids != [] {
      SweepFrom(a, b, ids[0]);
      SweepInside(a, b, ids[0]);
      SweepAllInside(a, Sweep(b, ids[0]), ids[1..]);
    }
  }

  lemma PassesEnd(origin: Db, now: Db, ids: seq<TaskId>)
    requires now == SweepAll(origin, ids) && PassesDone(origin, now, false)
    ensures SweptFrom(origin, now) && FailuresPropagated(now) && LeastClosed(origin, NewlyFailed(origin, now))
    ensures (now == origin <==> AllQuiet(origin)) && (Undelayed(origin) ==> AllQuiet(now))
  {
    SweptSelf(origin);
    InsideSelf(origin);
    SweepAllInside(origin, origin, ids);
    LeastReached(origin, now);
  }

  /** Runs of which a row was failed or skipped. */
  function EndedRuns(a: Db, b: Db): set<RunId>
    requires a.tasks.Keys == b.tasks.Keys
  {
    set id | id in a.tasks && a.tasks[id].status.Blocked? && b.tasks[id].status in {Failed, Skipped} ::
      a.tasks[id].runId
  }

  // ---------- Whether one call is enough ----------

  /** `ids` lists the set, each element once. */
  ghost predicate InOrder(ids: seq<TaskId>, all: set<TaskId>) {
    (forall i, j :: 0 <= i < j < |ids| ==> ids[i] != ids[j]) && forall id :: id in ids <==> id in all
  }

  lemma {:induction false} SomeOrder(all: set<TaskId>) returns (ids: seq<TaskId>)
    ensures InOrder(ids, all)
    decreases |all|
  {
    if all == {} { ids := []; } else {
      var id :| id in all;
      var rest := SomeOrder(all - {id});
      ids := [id] + rest;
    }
  }

  function Elements(ids: seq<TaskId>): set<TaskId> { set id | id in ids }

  lemma {:induction false} PassRests(b: Db, ids: seq<TaskId>)
    requires FailuresPropagated(b) && NoSkipEnables(b) && RestedBut(b, Elements(ids))
    ensures AllQuiet(SweepAll(b, ids))
    decreases |ids|
  {
    if ids != [] {
      var id, c := ids[0], Sweep(b, ids[0]);
      PropagatedFailsNothing(b, id);
      if id in b.tasks {
        PropagatedStep(b, {}, id);
        EnablesStays(b, id);
        RestedStep(b, Elements(ids), id);
      }
      assert forall i :: i in ids ==> i == id || i in ids[1..];
      assert RestedBut(c, Elements(ids[1..]));
      PassRests(c, ids[1..]);
    }
  }

  lemma {:induction false} SkipHappens(b: Db, ids: seq<TaskId>, d: TaskId)
    requires SkipsNow(b, d) && d in ids
    ensures d in SweepAll(b, ids).tasks && SweepAll(b, ids).tasks[d].status.Skipped?
    decreases |ids|
  {
    var c := Sweep(b, ids[0]);
    if ids[0] == d {
      SweptSelf(c);
      SweepAllFrom(c, c, ids[1..]);
    } else {
      VerdictStable(b, ids[0], b.tasks[d]);
      SkipHappens(c, ids[1..], d);
    }
  }

  lemma {:induction false} RowUntouched(b: Db, ids: seq<TaskId>, id: TaskId)
    requires id !in ids && id in b.tasks
    ensures id in SweepAll(b, ids).tasks && SweepAll(b, ids).tasks[id] == b.tasks[id]
    decreases |ids|
  {
    if ids != [] { RowUntouched(Sweep(b, ids[0]), ids[1..], id); }
  }

  lemma EnabledAfter(a: Db, b: Db, id: TaskId)
    requires EnabledBySkip(a, id) && SweptFrom(a, b) && b.tasks[id] == a.tasks[id]
    requires forall d :: SkipsNow(a, d) && d in a.tasks[id].dependsOn ==> b.tasks[d].status.Skipped?
    ensures !Quiet(b, id)
  {
    forall d | d in b.tasks[id].dependsOn && d in b.tasks ensures Terminal(b.tasks[d].status) {
      if !SkipsNow(a, d) { assert b.tasks[d] == a.tasks[d]; }
    }
  }

  /** A blocked row that a skip would enable has nothing to do before the skip. */
  lemma NotYet(a: Db, id: TaskId)
    requires EnabledBySkip(a, id)
    ensures Sweep(a, id) == a && !SkipsNow(a, id)
  {
  }

  lemma TheSkipsHappen(a: Db, rest: seq<TaskId>, id: TaskId)
    requires EnabledBySkip(a, id) && InOrder(rest, BlockedIn(a) - {id})
    ensures forall d :: SkipsNow(a, d) && d in a.tasks[id].dependsOn ==>
      d in SweepAll(a, rest).tasks && SweepAll(a, rest).tasks[d].status.Skipped?
  {
    NotYet(a, id);
    SweptSelf(a);
    forall d | SkipsNow(a, d) && d in a.tasks[id].dependsOn
      ensures d in SweepAll(a, rest).tasks && SweepAll(a, rest).tasks[d].status.Skipped?
    {
      SkipHappens(a, rest, d);
    }
  }

  /** The order that sweeps the enabled row before the fallbacks it waits for. */
  lemma TooLate(a: Db, id: TaskId) returns (ids: seq<TaskId>)
    requires EnabledBySkip(a, id)
    ensures InOrder(ids, BlockedIn(a)) && !Quiet(SweepAll(a, ids), id) && id in SweepAll(a, ids).tasks
  {
    var rest := SomeOrder(BlockedIn(a) - {id});
    ids := [id] + rest;
    assert ids[0] == id && ids[1..] == rest;
    NotYet(a, id);
    SweptSelf(a);
    SweepAllFrom(a, a, rest);
    RowUntouched(a, rest, id);
    TheSkipsHappen(a, rest, id);
    EnabledAfter(a, SweepAll(a, rest), id);
  }

  /** Where no failure is left to pass on, a call is one pass. It leaves nothing to do, in whatever
      order it reads the rows, iff no blocked row is missing only skips that the call itself makes. */
  lemma OneCallRestsIff(a: Db)
    requires FailuresPropagated(a)
    ensures (forall ids :: InOrder(ids, BlockedIn(a)) ==> AllQuiet(SweepAll(a, ids))) <==> NoSkipEnables(a)
  {
    if NoSkipEnables(a) {
      forall ids | InOrder(ids, BlockedIn(a)) ensures AllQuiet(SweepAll(a, ids)) { PassRests(a, ids); }
    } else {
      var id :| EnabledBySkip(a, id);
      var ids := TooLate(a, id);
    }
  }
}
