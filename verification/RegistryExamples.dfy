/** Histories that show where dependency sweeps fall short of what one might expect. */
module RegistryExamples {
  import opened DomainStates
  import opened TaskRows
  import opened RegistrySteps
  import opened RegistryProgress
  import opened RegistryPasses
  import opened RegistryInvariant
  import opened RegistryLog

  const Fine := Contract(true, 0, 0, Sound, false, false)

  function Row0(policy: DependencyPolicy, dependsOn: set<TaskId>, status: TaskStatus, version: nat): Task {
    Task(0, policy, dependsOn, None, 0, 0, 1, Fine, status, None, None, 0, None, None, None, [], 0, version)
  }

  /** A task, its fallback, and a task that depends on the fallback under policy `p`. */
  function Graph(p: DependencyPolicy): Batch {
    Batch(map[0 := Row0(AllSuccess, {}, Staged, 0), 1 := Row0(OnFailure, {0}, Staged, 0), 2 := Row0(p, {1}, Staged, 0)],
          map[0 := Run(RunPreparing, None)], None, map[])
  }

  function Begun(p: DependencyPolicy): Db {
    Db(0, 0,
       map[0 := Row0(AllSuccess, {}, Queued, 1), 1 := Row0(OnFailure, {0}, Blocked, 1), 2 := Row0(p, {1}, Blocked, 1)],
       map[0 := Run(RunRunning, None)], map[], map[], map[])
  }

  function Finished(p: DependencyPolicy): Db {
    Begun(p).(nextToken := 1, tasks := Begun(p).tasks[0 :=
      Row0(AllSuccess, {}, Completed, 3).(attempt := 1, startedAt := Some(0))])
  }

  function Skipping(p: DependencyPolicy): Db {
    Finished(p).(tasks := Finished(p).tasks[1 := Row0(OnFailure, {0}, Skipped, 2)])
  }

  const AnyEnv := ClaimEnv(true, true, map[])

  lemma GraphTasks(p: DependencyPolicy)
    ensures TasksAdmissible(Graph(p))
  {
  }

  lemma GraphAdmissible(p: DependencyPolicy)
    ensures Admissible(Graph(p))
  {
    GraphTasks(p);
    assert TaskRank(map[0 := 0, 1 := 1, 2 := 2], Graph(p).tasks, 0);
    assert Graph(p).tasks[0].runId == 0;
    assert RunAdmissible(Graph(p), 0, Graph(p).runs[0]);
  }

  lemma GraphJoined(p: DependencyPolicy)
    ensures CreateGraph(EmptyDb, Graph(p)).db == Db(0, 0, Graph(p).tasks, Graph(p).runs, map[], map[], map[])
  {
    GraphAdmissible(p);
    assert map[] + Graph(p).tasks == Graph(p).tasks && map[] + Graph(p).runs == Graph(p).runs;
  }

  lemma Created(p: DependencyPolicy)
    ensures Replay([Create(Graph(p))]) == CreateGraph(EmptyDb, Graph(p)).db
  {
    assert [] + [Create(Graph(p))] == [Create(Graph(p))];
    CreateLogged([], Graph(p));
  }

  lemma ReleasedRows(p: DependencyPolicy)
    ensures (map id | id in Graph(p).tasks :: ReleasedIn(Graph(p).tasks[id], 0)) == Begun(p).tasks
  {
  }

  lemma ReleasedTables(p: DependencyPolicy, db: Db)
    requires db == Db(0, 0, Graph(p).tasks, Graph(p).runs, map[], map[], map[])
    ensures ReleaseRun(db, 0).db == Begun(p)
  {
    ReleasedRows(p);
  }

  lemma ReleasedGraph(p: DependencyPolicy)
    ensures ReleaseRun(CreateGraph(EmptyDb, Graph(p)).db, 0).db == Begun(p)
  {
    GraphJoined(p);
    ReleasedTables(p, CreateGraph(EmptyDb, Graph(p)).db);
  }

  lemma CreatedAndReleased(p: DependencyPolicy)
    ensures Replay([Create(Graph(p))] + [Release(0)]) == Begun(p)
  {
    Created(p);
    ReleasedGraph(p);
    ReleaseLogged([Create(Graph(p))], 0);
  }

  lemma WorkedRow(p: DependencyPolicy)
    ensures OnRow(Claim(Begun(p), 0, 0, AnyEnv).db, 0, CompleteClaim(0, 0)).db == Finished(p)
  {
    assert Claim(Begun(p), 0, 0, AnyEnv).ok;
  }

  /** The first task is done; its fallback and what depends on that are blocked. */
  lemma Worked(p: DependencyPolicy) returns (es: seq<Event>)
    ensures Replay(es) == Finished(p)
  {
    var before := [Create(Graph(p))] + [Release(0)];
    CreatedAndReleased(p);
    ClaimLogged(before, 0, 0, AnyEnv);
    RowLogged(before + [ClaimTask(0, 0, AnyEnv)], 0, CompleteClaim(0, 0));
    WorkedRow(p);
    es := before + [ClaimTask(0, 0, AnyEnv)] + [Row(0, CompleteClaim(0, 0))];
  }

  lemma Swept(p: DependencyPolicy)
    ensures Sweep(Finished(p), 1) == Skipping(p)
  {
    assert SweepVerdict(Finished(p), Finished(p).tasks[1]).Skipped?;
  }

  // ---------- An all_success task behind a fallback ----------

  lemma SkippingRests()
    ensures AtRestIn(Skipping(AllSuccess), 0)
  {
    assert 1 in Skipping(AllSuccess).tasks[2].dependsOn;
  }

  lemma SkippingStarves()
    ensures var db := Skipping(AllSuccess); Unfinished(db, 0) && !Moving(db, 0) && StarvedIn(db, 0)
  {
    var db := Skipping(AllSuccess);
    assert InRun(db, 2, 0) && 1 in db.tasks[2].dependsOn && Starved(db, 2);
  }

  /** A released run at rest and stuck: a sweep changes nothing, something is unfinished, and
      no worker holds or can claim anything. The graph validators accept such graphs. */
  lemma FallbackStarves() returns (es: seq<Event>)
    ensures AtRestIn(Replay(es), 0) && Unfinished(Replay(es), 0) && !Moving(Replay(es), 0) && StarvedIn(Replay(es), 0)
  {
    var before := Worked(AllSuccess);
    Swept(AllSuccess);
    SweepLogged(before, 1);
    SkippingRests();
    SkippingStarves();
    es := before + [SweepTask(1)];
  }

  // ---------- An all_terminal task swept before its fallback ----------

  lemma LateOrder()
    ensures FailuresPropagated(Finished(AllTerminal)) && InOrder([2, 1], BlockedIn(Finished(AllTerminal)))
  {
  }

  lemma TwoSweeps(db: Db, a: TaskId, b: TaskId)
    ensures SweepAll(db, [a, b]) == Sweep(Sweep(db, a), b)
  {
    assert [a, b][1..] == [b] && [b][1..] == [];
    assert SweepAll(Sweep(db, a), [b]) == Sweep(Sweep(db, a), b);
  }

  lemma LateSweeps()
    ensures SweepAll(Finished(AllTerminal), [2, 1]) == Skipping(AllTerminal)
  {
    var db := Finished(AllTerminal);
    TwoSweeps(db, 2, 1);
    assert 1 in db.tasks[2].dependsOn && Sweep(db, 2) == db;
    Swept(AllTerminal);
  }

  lemma LateRow()
    ensures !Quiet(Skipping(AllTerminal), 2)
  {
    assert AllDependenciesTerminal(Skipping(AllTerminal), Skipping(AllTerminal).tasks[2]);
  }

  /** A history after which no failure is left to pass on and one call of refreshBlockedTasks, in the
      order 2, 1, skips the fallback 1 but leaves the task that waits for it blocked. */
  lemma SkipComesLate() returns (es: seq<Event>)
    ensures FailuresPropagated(Replay(es)) && InOrder([2, 1], BlockedIn(Replay(es)))
    ensures !AllQuiet(SweepAll(Replay(es), [2, 1]))
  {
    es := Worked(AllTerminal);
    LateOrder();
    LateSweeps();
    LateRow();
  }
}
