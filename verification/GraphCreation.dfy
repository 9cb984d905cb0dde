/** From validated input to admissible rows (src/registry.js createTaskGraph and
    createGlobalRunGraph): what the graph validators accept is what RegistrySteps.Create asks. */
module GraphCreation {
  import opened DomainStates
  import opened TaskRows
  import opened Handoffs
  import opened RegistrySteps
  import G = TaskGraph

  datatype NewTask = NewTask(
    id: TaskId,
    policy: DependencyPolicy,
    dependsOn: seq<TaskId>,
    retryDelay: nat,
    timeout: nat,
    maxAttempts: nat,
    contract: Contract)

  datatype NewProject = NewProject(run: RunId, rows: seq<NewTask>, manifest: Fingerprint, optional: bool)

  datatype NewDep = NewDep(
    id: DepId, producer: RunId, consumer: RunId, condition: Condition, required: set<Output>, schema: nat,
    fingerprint: Fingerprint)

  datatype Header = Header(global: GlobalId, revision: nat, graph: Fingerprint, authorization: Fingerprint)

  function RowOf(run: RunId, gate: Option<Gate>, n: NewTask): Task {
    Task(run, n.policy, (set d | d in n.dependsOn), gate, n.retryDelay, n.timeout, n.maxAttempts, n.contract, Staged,
         None, None, 0, None, None, None, [], 0, 0)
  }

  function DeclaredOf(rows: seq<NewTask>): seq<G.Declared> {
    seq(|rows|, i requires 0 <= i < |rows| => G.Declared(rows[i].id, rows[i].dependsOn))
  }

  function RowsOf(run: RunId, gate: Option<Gate>, rows: seq<NewTask>): (tasks: map<TaskId, Task>)
    ensures forall id :: id in tasks <==> exists i :: 0 <= i < |rows| && rows[i].id == id
    ensures forall id :: id in tasks ==>
      exists i :: 0 <= i < |rows| && rows[i].id == id && tasks[id] == RowOf(run, gate, rows[i])
  {
    if rows == [] then map[] else
      var n := rows[|rows| - 1];
      RowsOf(run, gate, rows[..|rows| - 1])[n.id := RowOf(run, gate, n)]
  }

  /** The inputs the source accepts; the budget of at least one attempt is this model's
      assumption on callers. */
  predicate Contracted(rows: seq<NewTask>) { forall i :: 0 <= i < |rows| ==> ContractCurrent(rows[i].contract) }

  ghost predicate GraphAccepted(rows: seq<NewTask>) {
    rows != [] && G.WellDeclared(DeclaredOf(rows)) && !G.Cyclic(G.EdgesOf(DeclaredOf(rows)))
  }

  // ---------- One run ----------

  lemma DependenciesInside(run: RunId, gate: Option<Gate>, rows: seq<NewTask>, id: TaskId)
    requires G.WellDeclared(DeclaredOf(rows)) && id in RowsOf(run, gate, rows)
    ensures forall d :: d in RowsOf(run, gate, rows)[id].dependsOn ==> d in RowsOf(run, gate, rows)
  {
    var ds := DeclaredOf(rows);
    var i :| 0 <= i < |rows| && rows[i].id == id && RowsOf(run, gate, rows)[id] == RowOf(run, gate, rows[i]);
    assert ds[i] == G.Declared(rows[i].id, rows[i].dependsOn) && G.KnownTargets(ds[i], G.EdgesOf(ds));
    forall d | d in rows[i].dependsOn ensures d in RowsOf(run, gate, rows) {
      var k :| 0 <= k < |rows[i].dependsOn| && rows[i].dependsOn[k] == d;
      assert d in G.EdgesOf(ds);
      var j :| 0 <= j < |ds| && ds[j].id == d;
      assert rows[j].id == d;
    }
  }

  lemma EdgeAt(rows: seq<NewTask>, i: nat)
    requires G.UniqueIds(DeclaredOf(rows)) && i < |rows|
    ensures rows[i].id in G.EdgesOf(DeclaredOf(rows)) && G.EdgesOf(DeclaredOf(rows))[rows[i].id] == rows[i].dependsOn
  {
    assert DeclaredOf(rows)[i] == G.Declared(rows[i].id, rows[i].dependsOn);
    G.EdgesAt(DeclaredOf(rows), i);
  }

  lemma EdgesMatch(run: RunId, gate: Option<Gate>, rows: seq<NewTask>, id: TaskId)
    requires G.UniqueIds(DeclaredOf(rows)) && id in RowsOf(run, gate, rows)
    ensures id in G.EdgesOf(DeclaredOf(rows))
    ensures forall d :: d in RowsOf(run, gate, rows)[id].dependsOn ==> d in G.EdgesOf(DeclaredOf(rows))[id]
  {
    var i :| 0 <= i < |rows| && rows[i].id == id && RowsOf(run, gate, rows)[id] == RowOf(run, gate, rows[i]);
    EdgeAt(rows, i);
  }

  /** A finishing order numbers the tasks along their dependencies. */
  lemma OrderRanks(run: RunId, gate: Option<Gate>, rows: seq<NewTask>, order: seq<G.Node>)
    requires G.WellDeclared(DeclaredOf(rows)) && G.Topological(order, G.EdgesOf(DeclaredOf(rows)))
    ensures exists rank :: TaskRank(rank, RowsOf(run, gate, rows), run)
  {
    var tasks := RowsOf(run, gate, rows);
    var edges := G.EdgesOf(DeclaredOf(rows));
    forall id | id in tasks ensures id in order { EdgesMatch(run, gate, rows, id); }
    var rank := map id | id in tasks :: G.Position(order, id);
    forall id | id in tasks && tasks[id].runId == run ensures RanksBelow(rank, tasks[id].dependsOn, rank[id]) {
      EdgesMatch(run, gate, rows, id);
      DependenciesInside(run, gate, rows, id);
      forall d | d in tasks[id].dependsOn ensures d in rank && rank[d] < rank[id] {
        G.PositionFalls(order, edges, id, d);
      }
    }
    assert TaskRank(rank, tasks, run);
  }

  /** Rows and runs gathered so far are admissible but for what the Global Run adds. */
  ghost predicate Gathered(b: Batch) { TasksAdmissible(b) && RunsAdmissible(b) }

  function WithRun(b: Batch, run: RunId, gate: Option<Gate>, rows: seq<NewTask>): Batch {
    b.(tasks := b.tasks + RowsOf(run, gate, rows), runs := b.runs[run := Run(RunPreparing, gate)])
  }

  ghost predicate GateFits(b: Batch, run: RunId, gate: Option<Gate>) {
    (b.global.None? ==> gate.None?)
    && (b.global.Some? ==> run in b.global.value.row.manifests && gate == Some(GateFor(b.global.value, run)))
  }

  lemma GatheredRows(b: Batch, run: RunId, gate: Option<Gate>, rows: seq<NewTask>)
    requires TasksAdmissible(b) && run !in b.runs && RowsOf(run, gate, rows).Keys !! b.tasks.Keys
    requires G.WellDeclared(DeclaredOf(rows)) && Contracted(rows)
    ensures TasksAdmissible(WithRun(b, run, gate, rows))
  {
    var c, tasks := WithRun(b, run, gate, rows), RowsOf(run, gate, rows);
    forall id | id in c.tasks ensures TaskAdmissible(c, c.tasks[id]) {
      if id in tasks {
        DependenciesInside(run, gate, rows, id);
        forall d | d in tasks[id].dependsOn ensures d in c.tasks && c.tasks[d].runId == run { assert d in tasks; }
      } else {
        var t := b.tasks[id];
        assert TaskAdmissible(b, t);
        forall d | d in t.dependsOn ensures d in c.tasks && c.tasks[d].runId == t.runId { assert d !in tasks; }
      }
    }
  }

  lemma GatheredOldRun(b: Batch, run: RunId, gate: Option<Gate>, rows: seq<NewTask>, r: RunId)
    requires r in b.runs && r != run && RunAdmissible(b, r, b.runs[r]) && RowsOf(run, gate, rows).Keys !! b.tasks.Keys
    ensures RunAdmissible(WithRun(b, run, gate, rows), r, b.runs[r])
  {
    var c := WithRun(b, run, gate, rows);
    var id :| id in b.tasks && b.tasks[id].runId == r;
    assert c.tasks[id].runId == r;
    var rank :| TaskRank(rank, b.tasks, r);
    forall i | i in c.tasks && c.tasks[i].runId == r
      ensures i in rank && RanksBelow(rank, c.tasks[i].dependsOn, rank[i])
    {
      assert i in b.tasks;
    }
    assert TaskRank(rank, c.tasks, r);
  }

  lemma NewRunRanked(b: Batch, run: RunId, gate: Option<Gate>, rows: seq<NewTask>, rank: map<TaskId, nat>)
    requires TaskRank(rank, RowsOf(run, gate, rows), run) && forall i :: i in b.tasks ==> b.tasks[i].runId != run
    ensures TaskRank(rank, WithRun(b, run, gate, rows).tasks, run)
  {
  }

  lemma OldRunsDiffer(b: Batch, run: RunId)
    requires TasksAdmissible(b) && run !in b.runs
    ensures forall i :: i in b.tasks ==> b.tasks[i].runId != run
  {
    forall i | i in b.tasks ensures b.tasks[i].runId != run { assert TaskAdmissible(b, b.tasks[i]); }
  }

  lemma GatheredNewRun(b: Batch, run: RunId, gate: Option<Gate>, rows: seq<NewTask>, order: seq<G.Node>)
    requires TasksAdmissible(b) && run !in b.runs && GateFits(b, run, gate) && rows != []
    requires G.WellDeclared(DeclaredOf(rows)) && G.Topological(order, G.EdgesOf(DeclaredOf(rows)))
    ensures RunAdmissible(WithRun(b, run, gate, rows), run, Run(RunPreparing, gate))
  {
    var c, tasks := WithRun(b, run, gate, rows), RowsOf(run, gate, rows);
    assert rows[0].id in tasks && c.tasks[rows[0].id].runId == run;
    OrderRanks(run, gate, rows, order);
    var rank :| TaskRank(rank, tasks, run);
    OldRunsDiffer(b, run);
    NewRunRanked(b, run, gate, rows, rank);
  }

  /** A validated run extends an admissible batch. */
  lemma GatheredRun(b: Batch, run: RunId, gate: Option<Gate>, rows: seq<NewTask>, order: seq<G.Node>)
    requires Gathered(b) && run !in b.runs && GateFits(b, run, gate) && rows != []
    requires G.WellDeclared(DeclaredOf(rows)) && G.Topological(order, G.EdgesOf(DeclaredOf(rows)))
    requires Contracted(rows) && RowsOf(run, gate, rows).Keys !! b.tasks.Keys
    ensures Gathered(WithRun(b, run, gate, rows))
  {
    var c := WithRun(b, run, gate, rows);
    GatheredRows(b, run, gate, rows);
    forall r | r in c.runs ensures RunAdmissible(c, r, c.runs[r]) {
      if r == run { GatheredNewRun(b, run, gate, rows, order); } else { GatheredOldRun(b, run, gate, rows, r); }
    }
  }

  // ---------- A Global Run ----------

  function RunsOfDeps(ds: seq<NewDep>): seq<G.Edge> {
    seq(|ds|, i requires 0 <= i < |ds| => G.Edge(ds[i].producer, ds[i].consumer))
  }

  function RunIds(ps: seq<NewProject>): seq<RunId> { seq(|ps|, i requires 0 <= i < |ps| => ps[i].run) }

  function Manifests(ps: seq<NewProject>): (m: map<RunId, Fingerprint>)
    ensures forall r :: r in m <==> r in RunIds(ps)
  {
    if ps == [] then map[] else
      assert RunIds(ps) == RunIds(ps[..|ps| - 1]) + [ps[|ps| - 1].run];
      Manifests(ps[..|ps| - 1])[ps[|ps| - 1].run := ps[|ps| - 1].manifest]
  }

  function DepRow(g: GlobalId, d: NewDep): XDep {
    XDep(g, d.producer, d.consumer, d.condition, d.required, d.schema, d.fingerprint, DepPending)
  }

  function DepRows(g: GlobalId, ds: seq<NewDep>): (rows: map<DepId, XDep>)
    ensures forall d :: d in rows <==> exists i :: 0 <= i < |ds| && ds[i].id == d
    ensures forall d :: d in rows ==> exists i :: 0 <= i < |ds| && ds[i].id == d && rows[d] == DepRow(g, ds[i])
  {
    if ds == [] then map[] else DepRows(g, ds[..|ds| - 1])[ds[|ds| - 1].id := DepRow(g, ds[|ds| - 1])]
  }

  function GlobalRow(h: Header, ps: seq<NewProject>, ds: seq<NewDep>): NamedGlobal {
    NamedGlobal(h.global,
                Global(GlobalPreparing, h.revision, true, h.graph, h.authorization, Manifests(ps), RunIds(ps),
                       (set i | 0 <= i < |ps| && ps[i].optional :: ps[i].run),
                       seq(|ds|, i requires 0 <= i < |ds| => ds[i].id), false))
  }

  /** The project order numbers runs so that producers come first. Edges run from producer to
      consumer, so the finishing order is the other way round. */
  lemma ProjectRanks(h: Header, ps: seq<NewProject>, ds: seq<NewDep>, order: seq<G.Node>)
    requires G.EdgesKnown(RunIds(ps), RunsOfDeps(ds))
    requires G.Topological(order, G.ProjectEdges(RunIds(ps), RunsOfDeps(ds)))
    ensures Ranked(GlobalRow(h, ps, ds).row.deps, DepRows(h.global, ds))
  {
    var edges, xdeps := G.ProjectEdges(RunIds(ps), RunsOfDeps(ds)), DepRows(h.global, ds);
    forall r | r in RunIds(ps) ensures r in order { }
    var rank := map r | r in RunIds(ps) :: |order| - G.Position(order, r);
    forall d | d in GlobalRow(h, ps, ds).row.deps && d in xdeps
      ensures xdeps[d].producer in rank && xdeps[d].consumer in rank
      ensures rank[xdeps[d].producer] < rank[xdeps[d].consumer]
    {
      var i :| 0 <= i < |ds| && ds[i].id == d && xdeps[d] == DepRow(h.global, ds[i]);
      assert RunsOfDeps(ds)[i] == G.Edge(ds[i].producer, ds[i].consumer);
      G.ProjectEdgeListed(RunIds(ps), RunsOfDeps(ds), i);
      G.PositionFalls(order, edges, ds[i].producer, ds[i].consumer);
    }
    assert RunRank(rank, GlobalRow(h, ps, ds).row.deps, xdeps);
  }

  lemma GlobalGathered(h: Header, ps: seq<NewProject>, ds: seq<NewDep>, b: Batch, order: seq<G.Node>)
    requires Gathered(b) && b.global == Some(GlobalRow(h, ps, ds)) && b.xdeps == DepRows(h.global, ds)
    requires forall r :: r in b.runs <==> r in RunIds(ps)
    requires G.EdgesKnown(RunIds(ps), RunsOfDeps(ds))
    requires G.Topological(order, G.ProjectEdges(RunIds(ps), RunsOfDeps(ds)))
    ensures Admissible(b)
  {
    ProjectRanks(h, ps, ds, order);
    DepsGathered(h, ps, ds, b);
    DepsListed(h, ps, ds);
  }

  lemma DepsGathered(h: Header, ps: seq<NewProject>, ds: seq<NewDep>, b: Batch)
    requires b.global == Some(GlobalRow(h, ps, ds)) && b.xdeps == DepRows(h.global, ds)
    requires (forall r :: r in b.runs <==> r in RunIds(ps)) && G.EdgesKnown(RunIds(ps), RunsOfDeps(ds))
    ensures DepsAdmissible(b)
  {
    forall d | d in b.xdeps
      ensures b.xdeps[d].status.DepPending? && b.xdeps[d].producer in b.runs && b.xdeps[d].consumer in b.runs
    {
      var i :| 0 <= i < |ds| && ds[i].id == d && b.xdeps[d] == DepRow(h.global, ds[i]);
      assert RunsOfDeps(ds)[i] == G.Edge(ds[i].producer, ds[i].consumer);
    }
  }

  lemma DepsListed(h: Header, ps: seq<NewProject>, ds: seq<NewDep>)
    ensures forall d :: d in GlobalRow(h, ps, ds).row.deps <==> d in DepRows(h.global, ds)
  {
    var deps := GlobalRow(h, ps, ds).row.deps;
    forall d ensures d in deps <==> d in DepRows(h.global, ds) {
      if d in deps { var i :| 0 <= i < |ds| && deps[i] == d; assert ds[i].id == d; }
      if d in DepRows(h.global, ds) { var i :| 0 <= i < |ds| && ds[i].id == d; assert deps[i] == d; }
    }
  }

  // ---------- What the creating calls accept ----------

  function OneRun(run: RunId, rows: seq<NewTask>): Batch {
    Batch(RowsOf(run, None, rows), map[run := Run(RunPreparing, None)], None, map[])
  }

  lemma OneRunAdmissible(run: RunId, rows: seq<NewTask>, order: seq<G.Node>)
    requires rows != [] && G.WellDeclared(DeclaredOf(rows)) && G.Topological(order, G.EdgesOf(DeclaredOf(rows)))
    requires Contracted(rows)
    ensures Admissible(OneRun(run, rows))
  {
    GatheredRun(NoRows, run, None, rows, order);
    OneRunIs(run, rows);
  }

  const NoRows := Batch(map[], map[], None, map[])

  lemma OneRunIs(run: RunId, rows: seq<NewTask>)
    ensures OneRun(run, rows) == WithRun(NoRows, run, None, rows)
  {
    assert map[] + RowsOf(run, None, rows) == RowsOf(run, None, rows);
  }

  /** A run id and task ids nobody has used. */
  predicate FreshRun(db: Db, run: RunId, rows: seq<NewTask>) {
    run !in db.runs && forall i :: 0 <= i < |rows| ==> rows[i].id !in db.tasks
  }

  function GateUnder(h: Header, manifest: Fingerprint): Option<Gate> {
    Some(Gate(h.global, h.revision, h.graph, h.authorization, manifest))
  }

  /** The rows of the first `n` projects, with the Global Run and its dependencies. */
  function FirstProjects(h: Header, ps: seq<NewProject>, ds: seq<NewDep>, n: nat): Batch
    requires n <= |ps|
  {
    if n == 0 then Batch(map[], map[], Some(GlobalRow(h, ps, ds)), DepRows(h.global, ds))
    else
      assert RunIds(ps)[n - 1] == ps[n - 1].run;
      WithRun(FirstProjects(h, ps, ds, n - 1), ps[n - 1].run, GateUnder(h, Manifests(ps)[ps[n - 1].run]),
              ps[n - 1].rows)
  }

  /** Project `i` can be added to the tables and to the projects before it. */
  ghost predicate ProjectAccepted(db: Db, h: Header, ps: seq<NewProject>, ds: seq<NewDep>, i: nat)
    requires i < |ps|
  {
    var p := ps[i];
    && GraphAccepted(p.rows) && Contracted(p.rows) && p.run !in db.runs
    && forall k :: 0 <= k < |p.rows| ==> p.rows[k].id !in db.tasks && p.rows[k].id !in FirstProjects(h, ps, ds, i).tasks
  }

  predicate DepsFresh(db: Db, ds: seq<NewDep>) {
    (forall i, j :: 0 <= i < j < |ds| ==> ds[i].id != ds[j].id)
    && forall i :: 0 <= i < |ds| ==> ds[i].id !in db.xdeps && ds[i].id !in db.handoffs
  }

  /** All of it: projects and their dependencies form an acyclic graph, each project's tasks do,
      and every id is new. */
  ghost predicate ProjectsAccepted(db: Db, h: Header, ps: seq<NewProject>, ds: seq<NewDep>) {
    && ps != [] && G.UniqueNodes(RunIds(ps)) && G.EdgesKnown(RunIds(ps), RunsOfDeps(ds))
    && !G.Cyclic(G.ProjectEdges(RunIds(ps), RunsOfDeps(ds)))
    && h.global !in db.globals && DepsFresh(db, ds)
    && forall i :: 0 <= i < |ps| ==> ProjectAccepted(db, h, ps, ds, i)
  }

  lemma {:induction false} FirstGlobal(h: Header, ps: seq<NewProject>, ds: seq<NewDep>, n: nat)
    requires n <= |ps|
    ensures FirstProjects(h, ps, ds, n).global == Some(GlobalRow(h, ps, ds))
    ensures FirstProjects(h, ps, ds, n).xdeps == DepRows(h.global, ds)
  {
    if n > 0 { FirstGlobal(h, ps, ds, n - 1); }
  }

  lemma {:induction false} FirstRuns(h: Header, ps: seq<NewProject>, ds: seq<NewDep>, n: nat)
    requires n <= |ps|
    ensures FirstProjects(h, ps, ds, n).runs.Keys == (set r | r in RunIds(ps)[..n])
  {
    if n > 0 {
      FirstRuns(h, ps, ds, n - 1);
      assert RunIds(ps)[..n] == RunIds(ps)[..n - 1] + [ps[n - 1].run];
    }
  }

  /** One more accepted project keeps the batch admissible and apart from the tables. */
  lemma NextProject(db: Db, h: Header, ps: seq<NewProject>, ds: seq<NewDep>, n: nat, order: seq<G.Node>)
    requires n < |ps| && G.UniqueNodes(RunIds(ps)) && ProjectAccepted(db, h, ps, ds, n)
    requires Gathered(FirstProjects(h, ps, ds, n)) && FirstProjects(h, ps, ds, n).tasks.Keys !! db.tasks.Keys
    requires FirstProjects(h, ps, ds, n).runs.Keys !! db.runs.Keys
    requires G.Topological(order, G.EdgesOf(DeclaredOf(ps[n].rows)))
    ensures Gathered(FirstProjects(h, ps, ds, n + 1)) && FirstProjects(h, ps, ds, n + 1).tasks.Keys !! db.tasks.Keys
    ensures FirstProjects(h, ps, ds, n + 1).runs.Keys !! db.runs.Keys
  {
    NextRunFits(h, ps, ds, n);
    GatheredRun(FirstProjects(h, ps, ds, n), ps[n].run, GateUnder(h, Manifests(ps)[ps[n].run]), ps[n].rows, order);
  }

  lemma NextRunFits(h: Header, ps: seq<NewProject>, ds: seq<NewDep>, n: nat)
    requires n < |ps| && G.UniqueNodes(RunIds(ps))
    ensures ps[n].run in Manifests(ps) && ps[n].run !in FirstProjects(h, ps, ds, n).runs
    ensures GateFits(FirstProjects(h, ps, ds, n), ps[n].run, GateUnder(h, Manifests(ps)[ps[n].run]))
  {
    FirstGlobal(h, ps, ds, n);
    FirstRuns(h, ps, ds, n);
    assert RunIds(ps)[n] == ps[n].run;
    forall r | r in RunIds(ps)[..n] ensures r != ps[n].run {
      var k :| 0 <= k < n && RunIds(ps)[..n][k] == r;
      assert RunIds(ps)[k] == r;
    }
  }

  lemma AllProjects(db: Db, h: Header, ps: seq<NewProject>, ds: seq<NewDep>, order: seq<G.Node>)
    requires ProjectsAccepted(db, h, ps, ds) && G.Topological(order, G.ProjectEdges(RunIds(ps), RunsOfDeps(ds)))
    requires var b := FirstProjects(h, ps, ds, |ps|);
      Gathered(b) && b.tasks.Keys !! db.tasks.Keys && b.runs.Keys !! db.runs.Keys
    ensures var b := FirstProjects(h, ps, ds, |ps|); Admissible(b) && Apart(db, b)
  {
    FirstGlobal(h, ps, ds, |ps|);
    FirstRuns(h, ps, ds, |ps|);
    assert RunIds(ps)[..|ps|] == RunIds(ps);
    GlobalGathered(h, ps, ds, FirstProjects(h, ps, ds, |ps|), order);
  }

  ghost predicate GatheredSoFar(db: Db, h: Header, ps: seq<NewProject>, ds: seq<NewDep>, n: nat)
    requires n <= |ps|
  {
    var b := FirstProjects(h, ps, ds, n);
    && Gathered(b) && b.tasks.Keys !! db.tasks.Keys && b.runs.Keys !! db.runs.Keys
    && forall i :: 0 <= i < n ==> ProjectAccepted(db, h, ps, ds, i)
  }

  lemma NextGathered(db: Db, h: Header, ps: seq<NewProject>, ds: seq<NewDep>, n: nat, order: seq<G.Node>)
    requires n < |ps| && G.UniqueNodes(RunIds(ps)) && ProjectAccepted(db, h, ps, ds, n)
    requires GatheredSoFar(db, h, ps, ds, n) && G.Topological(order, G.EdgesOf(DeclaredOf(ps[n].rows)))
    ensures GatheredSoFar(db, h, ps, ds, n + 1)
  {
    NextProject(db, h, ps, ds, n, order);
  }

  lemma MergeThenSet(base: map<TaskId, Task>, more: map<TaskId, Task>, id: TaskId, t: Task)
    ensures base + more[id := t] == (base + more)[id := t]
  {
  }

  lemma RowsGrow(base: map<TaskId, Task>, run: RunId, gate: Option<Gate>, rows: seq<NewTask>, i: nat)
    requires i < |rows|
    ensures base + RowsOf(run, gate, rows[..i + 1])
      == (base + RowsOf(run, gate, rows[..i]))[rows[i].id := RowOf(run, gate, rows[i])]
  {
    RowsStep(run, gate, rows, i);
    MergeThenSet(base, RowsOf(run, gate, rows[..i]), rows[i].id, RowOf(run, gate, rows[i]));
  }

  lemma RowsStep(run: RunId, gate: Option<Gate>, rows: seq<NewTask>, i: nat)
    requires i < |rows|
    ensures RowsOf(run, gate, rows[..i + 1]) == RowsOf(run, gate, rows[..i])[rows[i].id := RowOf(run, gate, rows[i])]
  {
    assert rows[..i + 1][..i] == rows[..i];
  }

  lemma OneRunApart(db: Db, run: RunId, rows: seq<NewTask>)
    requires FreshRun(db, run, rows)
    ensures Apart(db, OneRun(run, rows))
  {
  }

  lemma JoinedOneRun(db: Db, run: RunId, rows: seq<NewTask>)
    ensures Joined(db, OneRun(run, rows))
      == db.(tasks := db.tasks + RowsOf(run, None, rows), runs := db.runs[run := Run(RunPreparing, None)])
  {
    assert db.runs + map[run := Run(RunPreparing, None)] == db.runs[run := Run(RunPreparing, None)];
    assert db.xdeps + map[] == db.xdeps;
  }

  // ---------- What the inserted rows say ----------

  /** The row of a task as its input declares it: staged, never attempted, in nobody's hands. */
  ghost predicate AsDeclared(t: Task, run: RunId, gate: Option<Gate>, n: NewTask) {
    && t.runId == run && t.gate == gate && t.policy == n.policy
    && (forall d :: d in t.dependsOn <==> d in n.dependsOn)
    && t.retryDelay == n.retryDelay && t.timeout == n.timeout && t.maxAttempts == n.maxAttempts
    && t.contract == n.contract && t.status.Staged? && t.attempt == 0 && t.workerId.None? && t.claimToken.None?
    && t.nextRetryAt.None? && t.startedAt.None? && t.waitingSince.None? && t.feedback == []
    && t.feedbackRevision == 0 && t.version == 0
  }

  ghost predicate IdOf(rows: seq<NewTask>, id: TaskId) { exists i :: 0 <= i < |rows| && rows[i].id == id }

  /** The tables with one new run: a row for every declared task, and nothing else new. */
  ghost predicate RunCreated(a: Db, b: Db, run: RunId, rows: seq<NewTask>) {
    && b == a.(tasks := b.tasks, runs := a.runs[run := Run(RunPreparing, None)])
    && (forall id :: id in b.tasks <==> id in a.tasks || IdOf(rows, id))
    && (forall id :: id in a.tasks ==> b.tasks[id] == a.tasks[id])
    && (forall i :: 0 <= i < |rows| ==> AsDeclared(b.tasks[rows[i].id], run, None, rows[i]))
  }

  lemma RowOfDeclared(run: RunId, gate: Option<Gate>, n: NewTask)
    ensures AsDeclared(RowOf(run, gate, n), run, gate, n)
  {
  }

  predicate DistinctRows(rows: seq<NewTask>) { forall i, j :: 0 <= i < j < |rows| ==> rows[i].id != rows[j].id }

  lemma UniqueRows(rows: seq<NewTask>)
    requires G.UniqueIds(DeclaredOf(rows))
    ensures DistinctRows(rows)
  {
    forall i, j | 0 <= i < j < |rows| ensures rows[i].id != rows[j].id {
      assert DeclaredOf(rows)[i].id == rows[i].id && DeclaredOf(rows)[j].id == rows[j].id;
    }
  }

  lemma {:induction false} RowAt(run: RunId, gate: Option<Gate>, rows: seq<NewTask>, i: nat)
    requires DistinctRows(rows) && i < |rows|
    ensures rows[i].id in RowsOf(run, gate, rows)
    ensures RowsOf(run, gate, rows)[rows[i].id] == RowOf(run, gate, rows[i])
  {
    if i < |rows| - 1 { RowAt(run, gate, rows[..|rows| - 1], i); }
  }

  lemma RowDeclared(run: RunId, gate: Option<Gate>, rows: seq<NewTask>, i: nat)
    requires DistinctRows(rows) && i < |rows|
    ensures rows[i].id in RowsOf(run, gate, rows)
    ensures AsDeclared(RowsOf(run, gate, rows)[rows[i].id], run, gate, rows[i])
  {
    RowAt(run, gate, rows, i);
    RowOfDeclared(run, gate, rows[i]);
  }

  lemma OneRunCreates(db: Db, run: RunId, rows: seq<NewTask>)
    requires G.UniqueIds(DeclaredOf(rows)) && FreshRun(db, run, rows)
    ensures RunCreated(db, Joined(db, OneRun(run, rows)), run, rows)
  {
    var b := Joined(db, OneRun(run, rows));
    JoinedOneRun(db, run, rows);
    UniqueRows(rows);
    forall i | 0 <= i < |rows| ensures AsDeclared(b.tasks[rows[i].id], run, None, rows[i]) {
      RowDeclared(run, None, rows, i);
    }
  }

  function GateOf(h: Header, p: NewProject): Gate {
    Gate(h.global, h.revision, h.graph, h.authorization, p.manifest)
  }

  ghost predicate DepAsDeclared(dep: XDep, h: Header, d: NewDep) {
    && dep.global == h.global && dep.producer == d.producer && dep.consumer == d.consumer
    && dep.condition == d.condition && dep.required == d.required && dep.schema == d.schema
    && dep.fingerprint == d.fingerprint && dep.status.DepPending?
  }

  /** The Global Run's row: its projects and dependencies in their order, each project with its
      manifest, and which of them are optional. */
  ghost predicate GlobalAsDeclared(g: Global, h: Header, ps: seq<NewProject>, ds: seq<NewDep>) {
    && g.status.GlobalPreparing? && !g.cancelRequested && g.revisionValid && g.revision == h.revision
    && g.graph == h.graph && g.authorization == h.authorization
    && |g.members| == |ps| && (forall i :: 0 <= i < |ps| ==> g.members[i] == ps[i].run)
    && |g.deps| == |ds| && (forall j :: 0 <= j < |ds| ==> g.deps[j] == ds[j].id)
    && (forall i :: 0 <= i < |ps| ==> ps[i].run in g.manifests && g.manifests[ps[i].run] == ps[i].manifest)
    && (forall i :: 0 <= i < |ps| ==> (ps[i].run in g.optional <==> ps[i].optional))
  }

  ghost predicate ProjectsDeclared(b: Batch, h: Header, ps: seq<NewProject>, n: nat)
    requires n <= |ps|
  {
    forall i :: 0 <= i < n ==> ProjectDeclared(b.tasks, b.runs, h, ps[i])
  }

  ghost predicate ProjectDeclared(tasks: map<TaskId, Task>, runs: map<RunId, Run>, h: Header, p: NewProject) {
    && p.run in runs && runs[p.run] == Run(RunPreparing, Some(GateOf(h, p)))
    && forall k :: 0 <= k < |p.rows| ==>
      p.rows[k].id in tasks && AsDeclared(tasks[p.rows[k].id], p.run, Some(GateOf(h, p)), p.rows[k])
  }

  /** A batch that holds what the input declares and nothing else. */
  ghost predicate BatchDeclared(b: Batch, h: Header, ps: seq<NewProject>, ds: seq<NewDep>) {
    && ProjectsDeclared(b, h, ps, |ps|)
    && (forall r :: r in b.runs <==> exists i :: 0 <= i < |ps| && ps[i].run == r)
    && IdsOf(b, ps, |ps|)
    && (forall d :: d in b.xdeps <==> exists j :: 0 <= j < |ds| && ds[j].id == d)
    && (forall j :: 0 <= j < |ds| ==> DepAsDeclared(b.xdeps[ds[j].id], h, ds[j]))
    && b.global.Some? && b.global.value.id == h.global && GlobalAsDeclared(b.global.value.row, h, ps, ds)
  }

  lemma {:induction false} ManifestOf(ps: seq<NewProject>, i: nat)
    requires G.UniqueNodes(RunIds(ps)) && i < |ps|
    ensures ps[i].run in Manifests(ps) && Manifests(ps)[ps[i].run] == ps[i].manifest
  {
    var n := |ps| - 1;
    assert RunIds(ps)[i] == ps[i].run && RunIds(ps)[n] == ps[n].run;
    if i < n {
      var before := ps[..n];
      assert forall j :: 0 <= j < n ==> RunIds(before)[j] == RunIds(ps)[j];
      ManifestOf(before, i);
    }
  }

  lemma DepsDeclared(h: Header, ds: seq<NewDep>, j: nat)
    requires (forall i, k :: 0 <= i < k < |ds| ==> ds[i].id != ds[k].id) && j < |ds|
    ensures ds[j].id in DepRows(h.global, ds) && DepAsDeclared(DepRows(h.global, ds)[ds[j].id], h, ds[j])
  {
    var d := ds[j].id;
    var i :| 0 <= i < |ds| && ds[i].id == d && DepRows(h.global, ds)[d] == DepRow(h.global, ds[i]);
  }

  lemma OptionalOf(ps: seq<NewProject>, i: nat)
    requires G.UniqueNodes(RunIds(ps)) && i < |ps|
    ensures ps[i].run in (set j | 0 <= j < |ps| && ps[j].optional :: ps[j].run) <==> ps[i].optional
  {
    assert forall j :: 0 <= j < |ps| ==> RunIds(ps)[j] == ps[j].run;
  }

  lemma GlobalDeclared(h: Header, ps: seq<NewProject>, ds: seq<NewDep>)
    requires G.UniqueNodes(RunIds(ps))
    ensures GlobalAsDeclared(GlobalRow(h, ps, ds).row, h, ps, ds)
  {
    forall i | 0 <= i < |ps|
      ensures ps[i].run in Manifests(ps) && Manifests(ps)[ps[i].run] == ps[i].manifest
      ensures ps[i].run in (set j | 0 <= j < |ps| && ps[j].optional :: ps[j].run) <==> ps[i].optional
    {
      ManifestOf(ps, i);
      OptionalOf(ps, i);
    }
  }

  /** One more project leaves the rows of those before it alone and adds its own. */
  lemma NextDeclared(b: Batch, c: Batch, h: Header, ps: seq<NewProject>, n: nat)
    requires n < |ps| && ProjectsDeclared(b, h, ps, n) && Linked(b, c, h, ps[n])
    ensures ProjectsDeclared(c, h, ps, n + 1)
  {
    var p := ps[n];
    forall k | 0 <= k < |p.rows|
      ensures p.rows[k].id in c.tasks && AsDeclared(c.tasks[p.rows[k].id], p.run, Some(GateOf(h, p)), p.rows[k])
    {
      RowDeclared(p.run, Some(GateOf(h, p)), p.rows, k);
    }
    forall i | 0 <= i < n ensures ProjectDeclared(c.tasks, c.runs, h, ps[i]) {
      assert ProjectDeclared(b.tasks, b.runs, h, ps[i]);
    }
    assert ProjectDeclared(c.tasks, c.runs, h, ps[n]);
  }

  /** `c` is `b` with the rows of project `p`, all of them new. */
  ghost predicate Linked(b: Batch, c: Batch, h: Header, p: NewProject) {
    && c == WithRun(b, p.run, Some(GateOf(h, p)), p.rows) && DistinctRows(p.rows)
    && p.run !in b.runs && forall k :: 0 <= k < |p.rows| ==> p.rows[k].id !in b.tasks
  }

  /** The batches of a growing number of projects. */
  ghost predicate Chain(bs: seq<Batch>, h: Header, ps: seq<NewProject>) {
    |bs| == |ps| + 1 && bs[0].tasks == map[] && forall i :: 0 <= i < |ps| ==> Linked(bs[i], bs[i + 1], h, ps[i])
  }

  lemma {:induction false} ChainDeclared(bs: seq<Batch>, h: Header, ps: seq<NewProject>, n: nat)
    requires Chain(bs, h, ps) && n <= |ps|
    ensures ProjectsDeclared(bs[n], h, ps, n) && IdsOf(bs[n], ps, n)
  {
    if n > 0 {
      ChainDeclared(bs, h, ps, n - 1);
      assert Linked(bs[n - 1], bs[n], h, ps[n - 1]);
      NextDeclared(bs[n - 1], bs[n], h, ps, n - 1);
      NextIds(bs[n - 1], bs[n], h, ps, n - 1);
    }
  }

  ghost predicate IdsOf(b: Batch, ps: seq<NewProject>, n: nat)
    requires n <= |ps|
  {
    forall id :: id in b.tasks <==> exists i :: 0 <= i < n && IdOf(ps[i].rows, id)
  }

  lemma NextIds(b: Batch, c: Batch, h: Header, ps: seq<NewProject>, n: nat)
    requires n < |ps| && IdsOf(b, ps, n) && Linked(b, c, h, ps[n])
    ensures IdsOf(c, ps, n + 1)
  {
    forall id ensures id in c.tasks <==> id in b.tasks || IdOf(ps[n].rows, id) { }
  }

  lemma NextLinked(db: Db, h: Header, ps: seq<NewProject>, ds: seq<NewDep>, n: nat)
    requires n < |ps| && G.UniqueNodes(RunIds(ps)) && ProjectAccepted(db, h, ps, ds, n)
    ensures Linked(FirstProjects(h, ps, ds, n), FirstProjects(h, ps, ds, n + 1), h, ps[n])
  {
    ManifestOf(ps, n);
    NextRunFits(h, ps, ds, n);
    UniqueRows(ps[n].rows);
  }

  function Batches(h: Header, ps: seq<NewProject>, ds: seq<NewDep>): seq<Batch> {
    seq(|ps| + 1, i requires 0 <= i <= |ps| => FirstProjects(h, ps, ds, i))
  }

  lemma LinkedAt(db: Db, h: Header, ps: seq<NewProject>, ds: seq<NewDep>, i: nat)
    requires i < |ps| && G.UniqueNodes(RunIds(ps)) && ProjectAccepted(db, h, ps, ds, i)
    ensures Linked(Batches(h, ps, ds)[i], Batches(h, ps, ds)[i + 1], h, ps[i])
  {
    NextLinked(db, h, ps, ds, i);
  }

  lemma BatchesStart(h: Header, ps: seq<NewProject>, ds: seq<NewDep>)
    ensures |Batches(h, ps, ds)| == |ps| + 1 && Batches(h, ps, ds)[0].tasks == map[]
    ensures Batches(h, ps, ds)[|ps|] == FirstProjects(h, ps, ds, |ps|)
  {
  }

  lemma BatchesChain(db: Db, h: Header, ps: seq<NewProject>, ds: seq<NewDep>, bs: seq<Batch>)
    requires G.UniqueNodes(RunIds(ps)) && bs == Batches(h, ps, ds)
    requires forall i :: 0 <= i < |ps| ==> ProjectAccepted(db, h, ps, ds, i)
    ensures Chain(bs, h, ps)
  {
    BatchesStart(h, ps, ds);
    forall i | 0 <= i < |ps| ensures Linked(bs[i], bs[i + 1], h, ps[i]) { LinkedAt(db, h, ps, ds, i); }
  }

  lemma {:induction false} RunsListed(ps: seq<NewProject>, r: RunId)
    ensures r in RunIds(ps) <==> exists i :: 0 <= i < |ps| && ps[i].run == r
  {
    if i :| 0 <= i < |ps| && ps[i].run == r { assert RunIds(ps)[i] == r; }
  }

  lemma DepsAsDeclared(h: Header, ps: seq<NewProject>, ds: seq<NewDep>, b: Batch)
    requires (forall i, k :: 0 <= i < k < |ds| ==> ds[i].id != ds[k].id) && b.xdeps == DepRows(h.global, ds)
    ensures forall d :: d in b.xdeps <==> exists j :: 0 <= j < |ds| && ds[j].id == d
    ensures forall j :: 0 <= j < |ds| ==> DepAsDeclared(b.xdeps[ds[j].id], h, ds[j])
  {
    forall j | 0 <= j < |ds| ensures DepAsDeclared(b.xdeps[ds[j].id], h, ds[j]) { DepsDeclared(h, ds, j); }
  }

  lemma RowsDeclared(db: Db, h: Header, ps: seq<NewProject>, ds: seq<NewDep>)
    requires ProjectsAccepted(db, h, ps, ds)
    ensures ProjectsDeclared(FirstProjects(h, ps, ds, |ps|), h, ps, |ps|)
    ensures IdsOf(FirstProjects(h, ps, ds, |ps|), ps, |ps|)
  {
    var bs := Batches(h, ps, ds);
    BatchesStart(h, ps, ds);
    BatchesChain(db, h, ps, ds, bs);
    ChainDeclared(bs, h, ps, |ps|);
  }

  lemma BatchIsDeclared(db: Db, h: Header, ps: seq<NewProject>, ds: seq<NewDep>)
    requires ProjectsAccepted(db, h, ps, ds)
    ensures BatchDeclared(FirstProjects(h, ps, ds, |ps|), h, ps, ds)
  {
    var b := FirstProjects(h, ps, ds, |ps|);
    RowsDeclared(db, h, ps, ds);
    FirstGlobal(h, ps, ds, |ps|);
    FirstRuns(h, ps, ds, |ps|);
    GlobalDeclared(h, ps, ds);
    DepsAsDeclared(h, ps, ds, b);
    assert RunIds(ps)[..|ps|] == RunIds(ps);
    forall r ensures r in b.runs <==> exists i :: 0 <= i < |ps| && ps[i].run == r { RunsListed(ps, r); }
  }

  /** Old rows stay, and every new one belongs to the input. */
  ghost predicate OnlyNew(a: Db, b: Db, ps: seq<NewProject>, ds: seq<NewDep>) {
    && (forall id :: id in a.tasks ==> id in b.tasks && b.tasks[id] == a.tasks[id])
    && (forall id :: id in b.tasks ==> id in a.tasks || exists i :: 0 <= i < |ps| && IdOf(ps[i].rows, id))
    && (forall r :: r in a.runs ==> r in b.runs && b.runs[r] == a.runs[r])
    && (forall r :: r in b.runs ==> r in a.runs || exists i :: 0 <= i < |ps| && ps[i].run == r)
    && (forall d :: d in a.xdeps ==> d in b.xdeps && b.xdeps[d] == a.xdeps[d])
    && (forall d :: d in b.xdeps ==> d in a.xdeps || exists j :: 0 <= j < |ds| && ds[j].id == d)
  }

  /** The tables with a new Global Run: its row, a run for every project, a row for every declared
      task and dependency, and nothing else new or changed. */
  ghost predicate GraphCreated(a: Db, b: Db, h: Header, ps: seq<NewProject>, ds: seq<NewDep>) {
    && b == a.(tasks := b.tasks, runs := b.runs, globals := b.globals, xdeps := b.xdeps)
    && (forall i :: 0 <= i < |ps| ==> ProjectDeclared(b.tasks, b.runs, h, ps[i]))
    && (forall j :: 0 <= j < |ds| ==> ds[j].id in b.xdeps && DepAsDeclared(b.xdeps[ds[j].id], h, ds[j]))
    && h.global in b.globals && GlobalAsDeclared(b.globals[h.global], h, ps, ds)
    && b.globals == a.globals[h.global := b.globals[h.global]]
    && OnlyNew(a, b, ps, ds)
  }

  lemma BatchCreates(a: Db, b: Batch, h: Header, ps: seq<NewProject>, ds: seq<NewDep>)
    requires BatchDeclared(b, h, ps, ds) && Apart(a, b)
    ensures GraphCreated(a, Joined(a, b), h, ps, ds)
  {
    JoinedDeclares(a, b, h, ps);
    JoinedOnlyNew(a, b, h, ps, ds);
  }

  lemma JoinedOnlyNew(a: Db, b: Batch, h: Header, ps: seq<NewProject>, ds: seq<NewDep>)
    requires BatchDeclared(b, h, ps, ds) && Apart(a, b)
    ensures OnlyNew(a, Joined(a, b), ps, ds)
  {
  }

  lemma JoinedDeclares(a: Db, b: Batch, h: Header, ps: seq<NewProject>)
    requires ProjectsDeclared(b, h, ps, |ps|) && Apart(a, b)
    ensures forall i :: 0 <= i < |ps| ==> ProjectDeclared(Joined(a, b).tasks, Joined(a, b).runs, h, ps[i])
  {
    var c := Joined(a, b);
    forall i | 0 <= i < |ps| ensures ProjectDeclared(c.tasks, c.runs, h, ps[i]) {
      assert ProjectDeclared(b.tasks, b.runs, h, ps[i]);
    }
  }
}
