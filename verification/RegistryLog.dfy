/** How one more event extends a history. */
module RegistryLog {
  import opened DomainStates
  import opened TaskRows
  import opened RegistrySteps

  lemma Extended(es: seq<Event>, e: Event)
    ensures Replay(es + [e]) == Apply(Replay(es), e).db
  {
    ReplayStep(es + [e]);
    assert (es + [e])[..|es|] == es;
  }

  lemma TickLogged(es: seq<Event>, d: nat)
    ensures Replay(es + [Tick(d)]) == Replay(es).(clock := Replay(es).clock + d)
  {
    Extended(es, Tick(d));
  }

  lemma RowLogged(es: seq<Event>, id: TaskId, op: RowOp)
    ensures Replay(es + [Row(id, op)]) == OnRow(Replay(es), id, op).db
  {
    Extended(es, Row(id, op));
  }

  lemma SweepLogged(es: seq<Event>, id: TaskId)
    ensures Replay(es + [SweepTask(id)]) == Sweep(Replay(es), id)
  {
    Extended(es, SweepTask(id));
  }

  lemma ClaimLogged(es: seq<Event>, id: TaskId, w: WorkerId, env: ClaimEnv)
    ensures Replay(es + [ClaimTask(id, w, env)]) == Claim(Replay(es), id, w, env).db
  {
    Extended(es, ClaimTask(id, w, env));
  }

  lemma RepairLogged(es: seq<Event>, id: TaskId, c: Contract)
    ensures Replay(es + [RepairTask(id, c)]) == Repair(Replay(es), id, c).db
  {
    Extended(es, RepairTask(id, c));
  }

  lemma ReleaseLogged(es: seq<Event>, r: RunId)
    ensures Replay(es + [Release(r)]) == ReleaseRun(Replay(es), r).db
  {
    Extended(es, Release(r));
  }

  lemma FailPreparedLogged(es: seq<Event>, r: RunId)
    ensures Replay(es + [FailPrepared(r)]) == FailPreparedRun(Replay(es), r).db
  {
    Extended(es, FailPrepared(r));
  }

  lemma CancelRunLogged(es: seq<Event>, r: RunId)
    ensures Replay(es + [CancelRunTasks(r)]) == CancelRun(Replay(es), r).db
  {
    Extended(es, CancelRunTasks(r));
  }

  lemma RefreshLogged(es: seq<Event>, r: RunId, attested: Attestations)
    ensures Replay(es + [Refresh(r, attested)]) == RefreshRun(Replay(es), r, attested).db
  {
    Extended(es, Refresh(r, attested));
  }

  lemma ReleaseProjectsLogged(es: seq<Event>, g: GlobalId)
    ensures Replay(es + [ReleaseProjects(g)]) == ReleaseGlobal(Replay(es), g).db
  {
    Extended(es, ReleaseProjects(g));
  }

  lemma RefreshProjectsLogged(es: seq<Event>, g: GlobalId, attested: Attestations)
    ensures Replay(es + [RefreshProjects(g, attested)]) == RefreshGlobal(Replay(es), g, attested).db
  {
    Extended(es, RefreshProjects(g, attested));
  }

  lemma RequestCancelLogged(es: seq<Event>, g: GlobalId)
    ensures Replay(es + [RequestCancel(g)]) == RequestCancellation(Replay(es), g).db
  {
    Extended(es, RequestCancel(g));
  }

  lemma CancelProjectsLogged(es: seq<Event>, g: GlobalId, childrenDone: bool)
    ensures Replay(es + [CancelProjects(g, childrenDone)]) == CancelGlobal(Replay(es), g, childrenDone).db
  {
    Extended(es, CancelProjects(g, childrenDone));
  }

  lemma CreateLogged(es: seq<Event>, b: Batch)
    ensures Replay(es + [Create(b)]) == CreateGraph(Replay(es), b).db
  {
    Extended(es, Create(b));
  }

  predicate Grew(before: seq<Event>, now: seq<Event>, e: Event) {
    before < now && |now| == |before| + 1 && now[|before|] == e
  }

  // ---------- Restart recovery ----------

  function RecoverableIn(tasks: map<TaskId, Task>, chosen: set<TaskId>, deferred: set<TaskId>): set<TaskId> {
    set id | id in tasks && id in chosen && id !in deferred && Owned(tasks[id].status)
  }

  function Recovered(t: Task): Task { Freed(t, RecoveredStatus(t)).(nextRetryAt := None) }

  ghost predicate AllRecovered(before: map<TaskId, Task>, now: map<TaskId, Task>, done: set<TaskId>) {
    now.Keys == before.Keys && forall id :: id in now ==>
      now[id] == if id in done then Recovered(before[id]) else before[id]
  }

  lemma RecoveredMore(before: map<TaskId, Task>, now: map<TaskId, Task>, done: set<TaskId>, id: TaskId)
    requires AllRecovered(before, now, done) && id in now && id !in done
    ensures now[id] == before[id] && AllRecovered(before, now[id := Recovered(now[id])], done + {id})
  {
  }

  // ---------- Repair ----------

  predicate RunRepairs(runs: map<RunId, Run>, r: RunId) {
    r in runs && runs[r].status !in {RunAccepted, RunPlanning}
  }

  function RunAgain(runs: map<RunId, Run>, r: RunId): map<RunId, Run>
    requires r in runs
  {
    runs[r := runs[r].(status := RunRunning)]
  }

  lemma RepairMeans(db: Db, id: TaskId, c: Contract)
    ensures var o := Repair(db, id, c);
      && OneRow(db.tasks, o.db.tasks, id, MayRepair(db.tasks, id, c))
      && (MayRepair(db.tasks, id, c) ==> Repaired(db.tasks[id], o.db.tasks[id], c))
      && (o.ok <==> MayRepair(db.tasks, id, c) && RunRepairs(db.runs, db.tasks[id].runId))
      && o.db.runs == if o.ok then RunAgain(db.runs, db.tasks[id].runId) else db.runs
  {
  }

  // ---------- Rows rewritten one at a time ----------

  /** Every row is rewritten by `f` except those left. */
  ghost predicate Rewritten(before: map<TaskId, Task>, now: map<TaskId, Task>, left: set<TaskId>, f: Task -> Task) {
    now.Keys == before.Keys
    && forall id :: id in now ==> if id in left then now[id] == before[id] else now[id] == f(before[id])
  }

  lemma RewrittenAll(before: map<TaskId, Task>, now: map<TaskId, Task>, f: Task -> Task)
    requires Rewritten(before, now, {}, f)
    ensures now == map id | id in before :: f(before[id])
  {
  }

  /** What a loop over consumers has released together with what is still to come. */
  function Joint(c: Consumed, released: bool): Consumed { c.(released := released || c.released) }
}
