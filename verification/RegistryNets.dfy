/** Histories after which a Global Run stops for good: two root projects of one task each, and
    consumers that wait for them. */
module RegistryNets {
  import opened DomainStates
  import opened TaskRows
  import opened Handoffs
  import opened RegistrySteps
  import opened RegistryLog

  const TheGate := Gate(0, 1, 0, 0, 0)

  const Sealed := Contract(true, 0, 0, Sound, false, false)

  function StagedIn(r: RunId): Task {
    Task(r, AllSuccess, {}, Some(TheGate), 0, 0, 1, Sealed, Staged, None, None, 0, None, None, None, [], 0, 0)
  }

  /** A root project's run and its task. */
  datatype Root = Root(run: RunStatus, task: Task)

  /** Projects 0 and 1 are the roots, every other one consumes. */
  datatype Net = Net(consumers: seq<RunId>, optional: set<RunId>, deps: seq<XDep>, policy: DependencyPolicy) {
    function Members(): seq<RunId> { [0, 1] + consumers }

    /** A consumer's only task. */
    function Consuming(r: RunId): Task { StagedIn(r).(policy := policy) }

    function Row(s: GlobalStatus): Global {
      Global(s, 1, true, 0, 0, map r | r in Members() :: 0, Members(), optional, seq(|deps|, i => i), false)
    }

    function Inserted(): Batch {
      Batch(map r | r in Members() :: if r < 2 then StagedIn(r) else Consuming(r),
            map r | r in Members() :: Run(RunPreparing, Some(TheGate)),
            Some(NamedGlobal(0, Row(GlobalPreparing))), map d: DepId | d < |deps| :: deps[d])
    }

    ghost predicate Valid() {
      && (forall d :: 0 <= d < |deps| ==>
            deps[d].global == 0 && deps[d].status.DepPending? && deps[d].producer < deps[d].consumer
            && deps[d].producer in Members() && deps[d].consumer in consumers)
      && (forall r :: r in consumers ==> r > 1 && exists d :: 0 <= d < |deps| && deps[d].consumer == r)
    }

    predicate Member(r: RunId) { r < 2 || r in consumers }

    predicate TasksAt(tasks: map<TaskId, Task>, a: Task, b: Task) {
      && 0 in tasks && tasks[0] == a && 1 in tasks && tasks[1] == b
      && (forall id :: id in tasks ==> Member(id))
      && (forall r :: r in consumers ==> r in tasks && tasks[r] == Consuming(r))
    }

    predicate RunsAt(runs: map<RunId, Run>, a: RunStatus, b: RunStatus) {
      && 0 in runs && runs[0] == Run(a, Some(TheGate)) && 1 in runs && runs[1] == Run(b, Some(TheGate))
      && (forall r :: r in runs ==> Member(r))
      && (forall r :: r in consumers ==> r in runs && runs[r] == Run(RunPreparing, Some(TheGate)))
    }

    predicate DepsAt(xdeps: map<DepId, XDep>) {
      (forall d :: d in xdeps ==> d < |deps| && xdeps[d] == deps[d]) && forall d: nat :: d < |deps| ==> d in xdeps
    }

    /** The tables with these two roots, everything else as it was inserted. */
    predicate At(db: Db, s: GlobalStatus, a: Root, b: Root) {
      && db.clock == 0 && TasksAt(db.tasks, a.task, b.task) && RunsAt(db.runs, a.run, b.run)
      && 0 in db.globals && db.globals[0] == Row(s) && DepsAt(db.xdeps) && db.handoffs == map[]
    }
  }

  function NewRoot(r: RunId): Root { Root(RunPreparing, StagedIn(r)) }

  function OpenRoot(r: RunId): Root { Root(RunRunning, Released(StagedIn(r))) }

  // ---------- Insertion ----------

  lemma NetRanked(n: Net)
    requires n.Valid()
    ensures Ranked(n.Row(GlobalPreparing).deps, n.Inserted().xdeps)
  {
    var rank := map r | r in n.Members() :: r;
    assert RunRank(rank, n.Row(GlobalPreparing).deps, n.Inserted().xdeps);
  }

  lemma NetTasks(n: Net)
    requires n.Valid()
    ensures TasksAdmissible(n.Inserted())
  {
  }

  lemma NetRun(n: Net, b: Batch, r: RunId)
    requires b == n.Inserted() && r in b.runs
    ensures RunAdmissible(b, r, b.runs[r])
  {
    assert b.tasks[r].runId == r;
    assert TaskRank(map[r := 0], b.tasks, r);
  }

  lemma NetRuns(n: Net)
    ensures RunsAdmissible(n.Inserted())
  {
    var b := n.Inserted();
    forall r | r in b.runs ensures RunAdmissible(b, r, b.runs[r]) { NetRun(n, b, r); }
  }

  lemma NetDeps(n: Net)
    requires n.Valid()
    ensures DepsAdmissible(n.Inserted()) && forall d :: d in n.Row(GlobalPreparing).deps <==> d in n.Inserted().xdeps
  {
    MembersAre(n);
    var ds := n.Row(GlobalPreparing).deps;
    forall d ensures d in ds <==> d in n.Inserted().xdeps {
      if d in n.Inserted().xdeps { assert ds[d] == d; }
    }
  }

  lemma NetMembers(n: Net)
    ensures forall r :: r in n.Row(GlobalPreparing).members <==> r in n.Inserted().runs
  {
  }

  lemma NetGlobal(n: Net)
    requires n.Valid()
    ensures GlobalAdmissible(n.Inserted(), n.Row(GlobalPreparing)) && DepsAdmissible(n.Inserted())
  {
    NetRanked(n);
    NetDeps(n);
    NetMembers(n);
  }

  lemma NetAdmissible(n: Net)
    requires n.Valid()
    ensures Admissible(n.Inserted()) && Apart(EmptyDb, n.Inserted())
  {
    NetTasks(n);
    NetRuns(n);
    NetGlobal(n);
  }

  lemma JoinedEmpty(b: Batch)
    requires b.global.Some?
    ensures Joined(EmptyDb, b)
      == Db(0, 0, b.tasks, b.runs, map[b.global.value.id := b.global.value.row], b.xdeps, map[])
  {
    assert map[] + b.tasks == b.tasks && map[] + b.runs == b.runs && map[] + b.xdeps == b.xdeps;
  }

  lemma NetGraph(n: Net)
    requires n.Valid()
    ensures var b := n.Inserted();
      CreateGraph(EmptyDb, b).db == Db(0, 0, b.tasks, b.runs, map[0 := n.Row(GlobalPreparing)], b.xdeps, map[])
  {
    NetAdmissible(n);
    JoinedEmpty(n.Inserted());
  }

  lemma MembersAre(n: Net)
    ensures forall r :: r in n.Members() <==> n.Member(r)
  {
    assert n.Members()[0] == 0 && n.Members()[1] == 1;
  }

  lemma InsertedTables(n: Net)
    requires n.Valid()
    ensures n.TasksAt(n.Inserted().tasks, StagedIn(0), StagedIn(1))
    ensures n.RunsAt(n.Inserted().runs, RunPreparing, RunPreparing)
    ensures n.DepsAt(n.Inserted().xdeps)
  {
    MembersAre(n);
  }

  lemma InsertedAt(n: Net, db: Db)
    requires n.Valid()
    requires var b := n.Inserted(); db == Db(0, 0, b.tasks, b.runs, map[0 := n.Row(GlobalPreparing)], b.xdeps, map[])
    ensures n.At(db, GlobalPreparing, NewRoot(0), NewRoot(1)) && db.nextToken == 0
  {
    InsertedTables(n);
  }

  lemma FirstEvent(b: Batch)
    ensures Replay([Create(b)]) == CreateGraph(EmptyDb, b).db
  {
    CreateLogged([], b);
    assert [] + [Create(b)] == [Create(b)];
  }

  lemma NetCreated(n: Net)
    requires n.Valid()
    ensures n.At(Replay([Create(n.Inserted())]), GlobalPreparing, NewRoot(0), NewRoot(1))
    ensures Replay([Create(n.Inserted())]).nextToken == 0
  {
    FirstEvent(n.Inserted());
    NetGraph(n);
    InsertedAt(n, Replay([Create(n.Inserted())]));
  }

  // ---------- Release ----------

  lemma {:induction false} NoneInbound(db: Db, ds: seq<DepId>, r: RunId)
    requires forall d :: d in ds && d in db.xdeps ==> db.xdeps[d].consumer != r
    ensures Inbound(db, ds, r) == []
  {
    if ds != [] { NoneInbound(db, ds[1..], r); }
  }

  lemma RootInbound(n: Net, db: Db, r: RunId, s: GlobalStatus)
    requires n.Valid() && n.DepsAt(db.xdeps) && r < 2
    ensures Inbound(db, n.Row(s).deps, r) == []
  {
    NoneInbound(db, n.Row(s).deps, r);
  }

  lemma ConsumerInbound(n: Net, db: Db, r: RunId, s: GlobalStatus)
    requires n.Valid() && n.DepsAt(db.xdeps) && r in n.consumers
    ensures Inbound(db, n.Row(s).deps, r) != []
  {
    var d :| 0 <= d < |n.deps| && n.deps[d].consumer == r;
    assert n.Row(s).deps[d] == d;
    assert d in Inbound(db, n.Row(s).deps, r);
  }

  lemma {:induction false} NoRoots(db: Db, g: Global, rs: seq<RunId>)
    requires forall r :: r in rs ==> Inbound(db, g.deps, r) != []
    ensures Roots(db, g, rs) == []
  {
    if rs != [] { NoRoots(db, g, rs[1..]); }
  }

  lemma TwoRoots(db: Db, g: Global, rest: seq<RunId>)
    requires Inbound(db, g.deps, 0) == [] && Inbound(db, g.deps, 1) == []
    requires forall r :: r in rest ==> Inbound(db, g.deps, r) != []
    ensures Roots(db, g, [0, 1] + rest) == [0, 1]
  {
    NoRoots(db, g, rest);
    assert ([0, 1] + rest)[1..] == [1] + rest && ([1] + rest)[1..] == rest;
    assert Roots(db, g, [1] + rest) == [1];
  }

  lemma NetRoots(n: Net, db: Db, s: GlobalStatus)
    requires n.Valid() && n.DepsAt(db.xdeps)
    ensures Roots(db, n.Row(s), n.Members()) == [0, 1]
  {
    RootInbound(n, db, 0, s);
    RootInbound(n, db, 1, s);
    forall r | r in n.consumers ensures Inbound(db, n.Row(s).deps, r) != [] { ConsumerInbound(n, db, r, s); }
    TwoRoots(db, n.Row(s), n.consumers);
  }

  lemma RootFenced(n: Net, db: Db, r: RunId, s: GlobalStatus)
    requires n.Valid() && r < 2 && r in db.runs && db.runs[r].gate == Some(TheGate) && 0 in db.globals
    requires db.globals[0] == n.Row(s)
    requires n.DepsAt(db.xdeps)
    ensures Releasable(db, r) && GateMatches(db.globals[0], TheGate, r)
  {
    MembersAre(n);
  }

  lemma ReleaseFirst(n: Net, db: Db, s: GlobalStatus)
    requires n.Valid() && n.At(db, s, NewRoot(0), NewRoot(1))
    ensures var o := ReleaseRun(db, 0); o.ok && n.At(o.db, s, OpenRoot(0), NewRoot(1)) && o.db.nextToken == db.nextToken
  {
    RootFenced(n, db, 0, s);
  }

  lemma ReleaseSecond(n: Net, db: Db, s: GlobalStatus)
    requires n.Valid() && n.At(db, s, OpenRoot(0), NewRoot(1))
    ensures var o := ReleaseRun(db, 1);
      o.ok && n.At(o.db, s, OpenRoot(0), OpenRoot(1)) && o.db.nextToken == db.nextToken
  {
    RootFenced(n, db, 1, s);
  }

  lemma TwoReleases(db: Db)
    requires ReleaseRun(db, 0).ok
    ensures ReleaseAll(db, [0, 1]) == ReleaseRun(ReleaseRun(db, 0).db, 1)
  {
    var a := ReleaseRun(db, 0).db;
    assert [0, 1][1..] == [1] && [1][1..] == [];
    assert ReleaseAll(a, [1]) == ReleaseRun(a, 1);
  }

  lemma RootsRelease(n: Net, db: Db)
    requires n.Valid() && n.At(db, GlobalPreparing, NewRoot(0), NewRoot(1))
    ensures var o := ReleaseAll(db, [0, 1]);
      o.ok && n.At(o.db, GlobalPreparing, OpenRoot(0), OpenRoot(1)) && o.db.nextToken == db.nextToken
  {
    ReleaseFirst(n, db, GlobalPreparing);
    TwoReleases(db);
    ReleaseSecond(n, ReleaseRun(db, 0).db, GlobalPreparing);
  }

  lemma SetRunning(n: Net, db: Db, a: Root, b: Root)
    requires n.At(db, GlobalPreparing, a, b)
    ensures var o := SetGlobal(db, 0, GlobalRunning);
      o.ok && n.At(o.db, GlobalRunning, a, b) && o.db.nextToken == db.nextToken
  {
  }

  lemma NetReleases(n: Net, db: Db)
    requires n.Valid() && n.At(db, GlobalPreparing, NewRoot(0), NewRoot(1))
    ensures var o := ReleaseGlobal(db, 0);
      o.ok && n.At(o.db, GlobalRunning, OpenRoot(0), OpenRoot(1)) && o.db.nextToken == db.nextToken
  {
    NetRoots(n, db, GlobalPreparing);
    RootsRelease(n, db);
    SetRunning(n, ReleaseAll(db, [0, 1]).db, OpenRoot(0), OpenRoot(1));
  }

  lemma NetReleased(n: Net)
    requires n.Valid()
    ensures var es := [Create(n.Inserted()), ReleaseProjects(0)];
      n.At(Replay(es), GlobalRunning, OpenRoot(0), OpenRoot(1)) && Replay(es).nextToken == 0
  {
    var es := [Create(n.Inserted())];
    NetCreated(n);
    NetReleases(n, Replay(es));
    ReleaseProjectsLogged(es, 0);
    assert es + [ReleaseProjects(0)] == [Create(n.Inserted()), ReleaseProjects(0)];
  }

  // ---------- The roots' work ----------

  const AnyEnv := ClaimEnv(true, true, map[])

  function DoneRoot(r: RunId): Root {
    Root(RunRunning, StagedIn(r).(status := Completed, attempt := 1, startedAt := Some(0), version := 3))
  }

  function LostRoot(r: RunId): Root { Root(RunRunning, StagedIn(r).(status := Failed, version := 2)) }

  function HeldRoot(r: RunId, k: Token): Root { Root(RunRunning, ClaimRow(Released(StagedIn(r)), 0, k, 0)) }

  lemma RootClaims(n: Net, db: Db, r: RunId, a: Root, b: Root)
    requires n.Valid() && n.At(db, GlobalRunning, a, b) && r < 2 && db.tasks[r] == Released(StagedIn(r))
    ensures Claim(db, r, 0, AnyEnv).ok && Claim(db, r, 0, AnyEnv).db == Claimed(db, r, 0)
  {
    RootFenced(n, db, r, GlobalRunning);
    RootInbound(n, db, r, GlobalRunning);
  }

  lemma FirstHeld(n: Net, db: Db, b: Root)
    requires n.At(db, GlobalRunning, OpenRoot(0), b)
    ensures n.At(Claimed(db, 0, 0), GlobalRunning, HeldRoot(0, db.nextToken), b)
  {
  }

  lemma SecondHeld(n: Net, db: Db, a: Root)
    requires n.At(db, GlobalRunning, a, OpenRoot(1))
    ensures n.At(Claimed(db, 1, 0), GlobalRunning, a, HeldRoot(1, db.nextToken))
  {
  }

  lemma HeldCompletes(r: RunId, k: Token)
    ensures ApplyRow(HeldRoot(r, k).task, CompleteClaim(0, k), 0) == Some(DoneRoot(r).task)
  {
  }

  lemma FirstDone(n: Net, db: Db, k: Token, b: Root)
    requires n.At(db, GlobalRunning, HeldRoot(0, k), b)
    ensures var c := OnRow(db, 0, CompleteClaim(0, k)).db;
      n.At(c, GlobalRunning, DoneRoot(0), b) && c.nextToken == db.nextToken
  {
    HeldCompletes(0, k);
  }

  lemma SecondDone(n: Net, db: Db, k: Token, a: Root)
    requires n.At(db, GlobalRunning, a, HeldRoot(1, k))
    ensures n.At(OnRow(db, 1, CompleteClaim(0, k)).db, GlobalRunning, a, DoneRoot(1))
  {
    HeldCompletes(1, k);
  }

  lemma FirstWorks(n: Net, db: Db)
    requires n.Valid() && n.At(db, GlobalRunning, OpenRoot(0), OpenRoot(1))
    ensures var c := OnRow(Claim(db, 0, 0, AnyEnv).db, 0, CompleteClaim(0, db.nextToken)).db;
      n.At(c, GlobalRunning, DoneRoot(0), OpenRoot(1)) && c.nextToken == db.nextToken + 1
  {
    RootClaims(n, db, 0, OpenRoot(0), OpenRoot(1));
    FirstHeld(n, db, OpenRoot(1));
    FirstDone(n, Claimed(db, 0, 0), db.nextToken, OpenRoot(1));
  }

  lemma SecondWorks(n: Net, db: Db)
    requires n.Valid() && n.At(db, GlobalRunning, DoneRoot(0), OpenRoot(1))
    ensures var c := OnRow(Claim(db, 1, 0, AnyEnv).db, 1, CompleteClaim(0, db.nextToken)).db;
      n.At(c, GlobalRunning, DoneRoot(0), DoneRoot(1))
  {
    RootClaims(n, db, 1, DoneRoot(0), OpenRoot(1));
    SecondHeld(n, db, DoneRoot(0));
    SecondDone(n, Claimed(db, 1, 0), db.nextToken, DoneRoot(0));
  }

  lemma SecondRejected(n: Net, db: Db)
    requires n.Valid() && n.At(db, GlobalRunning, DoneRoot(0), OpenRoot(1))
    ensures n.At(OnRow(db, 1, RejectBeforeClaim(1, false)).db, GlobalRunning, DoneRoot(0), LostRoot(1))
  {
    assert ApplyRow(db.tasks[1], RejectBeforeClaim(1, false), 0) == Some(LostRoot(1).task);
  }

  /** The first root's task is done, the second's is queued. */
  function HalfDone(n: Net): seq<Event> {
    [Create(n.Inserted()), ReleaseProjects(0)] + [ClaimTask(0, 0, AnyEnv)] + [Row(0, CompleteClaim(0, 0))]
  }

  lemma WorkLogged(es: seq<Event>, id: TaskId, k: Token)
    ensures Replay(es + [ClaimTask(id, 0, AnyEnv)] + [Row(id, CompleteClaim(0, k))])
      == OnRow(Claim(Replay(es), id, 0, AnyEnv).db, id, CompleteClaim(0, k)).db
  {
    ClaimLogged(es, id, 0, AnyEnv);
    RowLogged(es + [ClaimTask(id, 0, AnyEnv)], id, CompleteClaim(0, k));
  }

  lemma NetHalfDone(n: Net)
    requires n.Valid()
    ensures n.At(Replay(HalfDone(n)), GlobalRunning, DoneRoot(0), OpenRoot(1)) && Replay(HalfDone(n)).nextToken == 1
  {
    var es := [Create(n.Inserted()), ReleaseProjects(0)];
    NetReleased(n);
    FirstWorks(n, Replay(es));
    WorkLogged(es, 0, 0);
  }

  /** Both roots' tasks are done. */
  function BothDone(n: Net): seq<Event> { HalfDone(n) + [ClaimTask(1, 0, AnyEnv)] + [Row(1, CompleteClaim(0, 1))] }

  lemma NetBothDone(n: Net)
    requires n.Valid()
    ensures n.At(Replay(BothDone(n)), GlobalRunning, DoneRoot(0), DoneRoot(1))
  {
    NetHalfDone(n);
    SecondWorks(n, Replay(HalfDone(n)));
    WorkLogged(HalfDone(n), 1, 1);
  }

  /** The first root's task is done, the second's was rejected before a claim. */
  function OneLost(n: Net): seq<Event> { HalfDone(n) + [Row(1, RejectBeforeClaim(1, false))] }

  lemma NetOneLost(n: Net)
    requires n.Valid()
    ensures n.At(Replay(OneLost(n)), GlobalRunning, DoneRoot(0), LostRoot(1))
  {
    NetHalfDone(n);
    SecondRejected(n, Replay(HalfDone(n)));
    RowLogged(HalfDone(n), 1, RejectBeforeClaim(1, false));
  }
}
