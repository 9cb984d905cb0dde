/** The durable tables and every registry call as one atomic step over them
    (src/registry.js). A call that throws keeps the writes it made before the throw. */
module RegistrySteps {
  import opened DomainStates
  import opened TaskRows
  import opened Handoffs
  import G = TaskGraph

  datatype Run = Run(status: RunStatus, gate: Option<Gate>)

  datatype Global = Global(
    status: GlobalStatus,
    revision: nat,
    revisionValid: bool,
    graph: Fingerprint,
    authorization: Fingerprint,
    manifests: map<RunId, Fingerprint>,
    members: seq<RunId>,
    optional: set<RunId>,
    deps: seq<DepId>,
    cancelRequested: bool)

  datatype Db = Db(
    clock: int,
    nextToken: Token,
    tasks: map<TaskId, Task>,
    runs: map<RunId, Run>,
    globals: map<GlobalId, Global>,
    xdeps: map<DepId, XDep>,
    handoffs: map<DepId, Handoff>)

  const EmptyDb := Db(0, 0, map[], map[], map[], map[], map[])

  /** `ok` is false when the call throws. */
  datatype Outcome = Outcome(db: Db, ok: bool)

  type Attestations = map<TaskId, set<Output>>

  /** What a claim reads outside these tables. */
  datatype ClaimEnv = ClaimEnv(contextValid: bool, manifestIntact: bool, attested: Attestations)

  // ---------- Task dependencies ----------

  predicate DependenciesAllow(db: Db, t: Task) {
    forall d :: d in t.dependsOn && d in db.tasks ==>
      if t.policy.AllSuccess? then Achieved(db.tasks[d].status) else Terminal(db.tasks[d].status)
  }

  predicate FailedForDependents(s: TaskStatus) { FailedStatus(s) || s.Canceled? }

  predicate HasFailedDependency(db: Db, t: Task) {
    exists d :: d in t.dependsOn && d in db.tasks && FailedForDependents(db.tasks[d].status)
  }

  predicate AllDependenciesTerminal(db: Db, t: Task) {
    forall d :: d in t.dependsOn && d in db.tasks ==> Terminal(db.tasks[d].status)
  }

  predicate AllDependenciesAchieved(db: Db, t: Task) {
    forall d :: d in t.dependsOn && d in db.tasks ==> Achieved(db.tasks[d].status)
  }

  /** The branch refreshBlockedTasks takes for a blocked task; Blocked means no branch. */
  function SweepVerdict(db: Db, t: Task): TaskStatus {
    if t.policy.OnFailure? && AllDependenciesTerminal(db, t) && !HasFailedDependency(db, t) then Skipped
    else if t.policy.OnFailure? && AllDependenciesTerminal(db, t) && HasFailedDependency(db, t) then Queued
    else if t.policy.AllTerminal? && AllDependenciesTerminal(db, t) then Queued
    else if t.policy.AllSuccess? && HasFailedDependency(db, t) then Failed
    else if t.policy.AllSuccess? && AllDependenciesAchieved(db, t) then Queued
    else Blocked
  }

  function SetStatus(t: Task, s: TaskStatus): Task { t.(status := s, version := t.version + 1) }

  function Sweep(db: Db, id: TaskId): Db {
    if id in db.tasks && db.tasks[id].status.Blocked? && SweepVerdict(db, db.tasks[id]) != Blocked
    then db.(tasks := db.tasks[id := SetStatus(db.tasks[id], SweepVerdict(db, db.tasks[id]))])
    else db
  }

  // ---------- Runs ----------

  function StatusesOf(db: Db, r: RunId): set<TaskStatus> {
    set id | id in db.tasks && db.tasks[id].runId == r :: db.tasks[id].status
  }

  /** updateRun: the table check throws before the write. */
  function SetRun(db: Db, r: RunId, s: RunStatus, allowRepair: bool): Outcome {
    if r !in db.runs || !RunMayBecome(db.runs[r].status, s, allowRepair) then Outcome(db, false)
    else Outcome(db.(runs := db.runs[r := db.runs[r].(status := s)]), true)
  }

  predicate Settles(db: Db, r: RunId) {
    r in db.runs && !RunTerminal(db.runs[r].status) && DeriveRunStatus(StatusesOf(db, r)).Some?
  }

  /** refreshRun without its notification and its parent's refresh. */
  function SettleRun(db: Db, r: RunId): Outcome {
    if Settles(db, r) then SetRun(db, r, DeriveRunStatus(StatusesOf(db, r)).value, false) else Outcome(db, true)
  }

  function Released(t: Task): Task { SetStatus(t, if t.dependsOn == {} then Queued else Blocked) }

  function ReleasedIn(t: Task, r: RunId): Task { if t.runId == r && t.status.Staged? then Released(t) else t }

  predicate GateMatches(g: Global, gate: Gate, r: RunId) {
    && g.revisionValid && g.revision == gate.revision && !g.cancelRequested
    && g.graph == gate.graph && g.authorization == gate.authorization
    && r in g.manifests && g.manifests[r] == gate.manifest
  }

  function HandoffOf(db: Db, d: DepId): Option<Handoff> {
    if d in db.handoffs then Some(db.handoffs[d]) else None
  }

  predicate InboundDeliverable(db: Db, g: Global, r: RunId) {
    forall d :: d in g.deps && d in db.xdeps && db.xdeps[d].consumer == r ==> Deliverable(db.xdeps[d], HandoffOf(db, d))
  }

  predicate Releasable(db: Db, r: RunId) {
    r in db.runs && (db.runs[r].gate.Some? ==>
      var gate := db.runs[r].gate.value;
      && gate.global in db.globals
      && GateMatches(db.globals[gate.global], gate, r)
      && InboundDeliverable(db, db.globals[gate.global], r))
  }

  function ReleaseRun(db: Db, r: RunId): Outcome {
    if !Releasable(db, r) then Outcome(db, false) else
      SetRun(db.(tasks := map id | id in db.tasks :: ReleasedIn(db.tasks[id], r)), r, RunRunning, false)
  }

  predicate ExecutionBegun(t: Task) { t.attempt != 0 || t.workerId.Some? || t.claimToken.Some? }

  predicate AnyBegun(db: Db, r: RunId) {
    exists id :: id in db.tasks && db.tasks[id].runId == r && !Terminal(db.tasks[id].status)
      && ExecutionBegun(db.tasks[id])
  }

  function FailedIn(t: Task, r: RunId): Task {
    if t.runId == r && !Terminal(t.status) then Freed(t, Failed).(nextRetryAt := None) else t
  }

  function FailPreparedRun(db: Db, r: RunId): Outcome {
    if r !in db.runs then Outcome(db, false)
    else if RunTerminal(db.runs[r].status) then Outcome(db, true)
    else if db.runs[r].status !in {RunPreparing, RunAgentsPrepared, RunAwaitingStart} then Outcome(db, false)
    else if AnyBegun(db, r) then Outcome(db, false)
    else
      SetRun(db.(tasks := map id | id in db.tasks :: FailedIn(db.tasks[id], r)), r, RunFailed, false)
  }

  function CanceledIn(t: Task, r: RunId): Task {
    if t.runId == r && CancelRow(t).Some? then CancelRow(t).value else t
  }

  function CancelRun(db: Db, r: RunId): Outcome {
    if r !in db.runs then Outcome(db, false)
    else SetRun(db.(tasks := map id | id in db.tasks :: CanceledIn(db.tasks[id], r)), r, RunCancelled, false)
  }

  // ---------- Handoffs ----------

  function PayloadFor(db: Db, d: DepId, attested: Attestations): Payload
    requires d in db.xdeps
  {
    var dep := db.xdeps[d];
    Payload(dep.schema, d, dep.producer, dep.consumer,
            if dep.producer in db.runs then Some(db.runs[dep.producer].status) else None,
            dep.required,
            map id | id in db.tasks && db.tasks[id].runId == dep.producer ::
              Evidence(db.tasks[id].status, if id in attested then attested[id] else {}))
  }

  function MaterialiseDep(db: Db, d: DepId, attested: Attestations): Db {
    if d !in db.xdeps then db else
      var r := Materialise(d, db.xdeps[d], HandoffOf(db, d), PayloadFor(db, d, attested));
      db.(xdeps := db.xdeps[d := r.dep],
          handoffs := if r.handoff.Some? then db.handoffs[d := r.handoff.value] else db.handoffs)
  }

  /** The part of a Global Run's dependencies that end at `r`, in their order. */
  function Inbound(db: Db, ds: seq<DepId>, r: RunId): (inbound: seq<DepId>)
    ensures forall d :: d in inbound <==> d in ds && d in db.xdeps && db.xdeps[d].consumer == r
  {
    if ds == [] then []
    else if ds[0] in db.xdeps && db.xdeps[ds[0]].consumer == r then [ds[0]] + Inbound(db, ds[1..], r)
    else Inbound(db, ds[1..], r)
  }

  // ---------- Claims ----------

  /** assertGlobalTaskGate's loop: stops at the first dependency that is not received. */
  function OpenInbound(db: Db, ds: seq<DepId>, attested: Attestations): (o: Outcome)
    ensures o.db == db.(xdeps := o.db.xdeps, handoffs := o.db.handoffs)
    decreases |ds|
  {
    if ds == [] then Outcome(db, true)
    else if ds[0] !in db.xdeps || !db.xdeps[ds[0]].status.DepSatisfied? then Outcome(db, false)
    else
      var next := MaterialiseDep(db, ds[0], attested);
      if ds[0] in next.handoffs && next.handoffs[ds[0]].status.Received?
      then OpenInbound(next, ds[1..], attested) else Outcome(next, false)
  }

  predicate GateLive(db: Db, t: Task) {
    t.gate.Some? ==>
      && t.gate.value.global in db.globals
      && GateMatches(db.globals[t.gate.value.global], t.gate.value, t.runId)
      && db.globals[t.gate.value.global].status in {GlobalRunning, GlobalWaiting}
  }

  function OpenGate(db: Db, t: Task, env: ClaimEnv): (o: Outcome)
    ensures o.db == db.(xdeps := o.db.xdeps, handoffs := o.db.handoffs)
  {
    if t.gate.None? then Outcome(db, true)
    else if !GateLive(db, t) || t.runId !in db.runs || !env.manifestIntact then Outcome(db, false)
    else
      OpenInbound(db, Inbound(db, db.globals[t.gate.value.global].deps, t.runId), env.attested)
  }

  predicate ClaimGuard(db: Db, t: Task, env: ClaimEnv) {
    && Claimable(t.status)
    && ContractCurrent(t.contract)
    && env.contextValid
    && GateLive(db, t)
    && (t.gate.Some? ==> InboundDeliverable(db, db.globals[t.gate.value.global], t.runId))
    && (t.nextRetryAt.Some? ==> t.nextRetryAt.value <= db.clock)
    && DependenciesAllow(db, t)
  }

  function ClaimRow(t: Task, w: WorkerId, k: Token, now: int): Task {
    t.(status := Running, workerId := Some(w), claimToken := Some(k), attempt := t.attempt + 1,
       startedAt := if t.startedAt.Some? then t.startedAt else Some(now), nextRetryAt := None,
       version := t.version + 1)
  }

  function Claimed(db: Db, id: TaskId, w: WorkerId): Db
    requires id in db.tasks
  {
    db.(tasks := db.tasks[id := ClaimRow(db.tasks[id], w, db.nextToken, db.clock)], nextToken := db.nextToken + 1)
  }

  /** claimTask; `ok` tells whether a row was claimed. */
  function Claim(db: Db, id: TaskId, w: WorkerId, env: ClaimEnv): Outcome {
    if id !in db.tasks then Outcome(db, false) else
      var entry := OpenGate(db, db.tasks[id], env);
      if !entry.ok || !ClaimGuard(entry.db, entry.db.tasks[id], env) then Outcome(entry.db, false)
      else Outcome(Claimed(entry.db, id, w), true)
  }

  /** One of the row calls; `ok` tells whether a row changed. */
  function OnRow(db: Db, id: TaskId, op: RowOp): Outcome {
    if id in db.tasks && ApplyRow(db.tasks[id], op, db.clock).Some?
    then Outcome(db.(tasks := db.tasks[id := ApplyRow(db.tasks[id], op, db.clock).value]), true)
    else Outcome(db, false)
  }

  /** src/mcp-server.js, #repairTaskContract: the two registry writes. */
  function RepairedRow(t: Task, c: Contract): Task {
    t.(status := Blocked, contract := c.(validated := true, recorded := c.fingerprint), workerId := None,
       claimToken := None, startedAt := None, nextRetryAt := None,
       maxAttempts := Max(t.maxAttempts, t.attempt + 1), feedback := [], feedbackRevision := 0,
       version := t.version + 1)
  }

  function Repair(db: Db, id: TaskId, c: Contract): Outcome {
    if id !in db.tasks || !Repairable(db.tasks[id].status) || c.fingerprint == db.tasks[id].contract.fingerprint
    then Outcome(db, false)
    else SetRun(db.(tasks := db.tasks[id := RepairedRow(db.tasks[id], c)]), db.tasks[id].runId, RunRunning, true)
  }

  // ---------- Global Runs ----------

  function SetGlobal(db: Db, g: GlobalId, s: GlobalStatus): Outcome {
    if g !in db.globals || !GlobalMayBecome(db.globals[g].status, s) then Outcome(db, false)
    else Outcome(db.(globals := db.globals[g := db.globals[g].(status := s)]), true)
  }

  function SettleAll(db: Db, rs: seq<RunId>): Outcome
    decreases |rs|
  {
    if rs == [] then Outcome(db, true) else
      var s := SettleRun(db, rs[0]);
      if s.ok then SettleAll(s.db, rs[1..]) else s
  }

  function ResolvedStatus(c: Condition, producer: RunStatus): DepStatus {
    match c
    case IfAllTerminal => DepSatisfied
    case IfFailure => if producer.RunCompleted? then DepSkipped else DepSatisfied
    case IfAllSuccess => if producer.RunCompleted? then DepSatisfied else DepFailed
  }

  predicate Resolves(db: Db, d: DepId) {
    d in db.xdeps && db.xdeps[d].status.DepPending? && db.xdeps[d].producer in db.runs
    && RunTerminal(db.runs[db.xdeps[d].producer].status)
  }

  function ResolveDep(db: Db, d: DepId): Db {
    if Resolves(db, d) then
      var s := ResolvedStatus(db.xdeps[d].condition, db.runs[db.xdeps[d].producer].status);
      db.(xdeps := db.xdeps[d := db.xdeps[d].(status := s)])
    else db
  }

  function ResolveAll(db: Db, ds: seq<DepId>): Db
    decreases |ds|
  {
    if ds == [] then db else ResolveAll(ResolveDep(db, ds[0]), ds[1..])
  }

  function MaterialiseAll(db: Db, ds: seq<DepId>, attested: Attestations): Db
    decreases |ds|
  {
    if ds == [] then db
    else if ds[0] in db.xdeps && db.xdeps[ds[0]].status.DepSatisfied?
    then MaterialiseAll(MaterialiseDep(db, ds[0], attested), ds[1..], attested)
    else MaterialiseAll(db, ds[1..], attested)
  }

  /** Consumers in order of their first inbound dependency. */
  function Consumers(db: Db, ds: seq<DepId>): (rs: seq<RunId>)
    ensures forall r :: r in rs <==> exists d :: d in ds && d in db.xdeps && db.xdeps[d].consumer == r
  {
    if ds == [] then [] else
      var before := Consumers(db, ds[..|ds| - 1]);
      var d := ds[|ds| - 1];
      if d in db.xdeps && db.xdeps[d].consumer !in before then before + [db.xdeps[d].consumer] else before
  }

  predicate Unstarted(s: TaskStatus) { s.Staged? || s.Blocked? || Claimable(s) }

  /** A consumer's task when an inbound dependency has failed. */
  function DoomedIn(t: Task, r: RunId): Task {
    if t.runId != r then t
    else if Unstarted(t.status) then SetStatus(t, Failed)
    else if Owned(t.status) then SetStatus(t, RecoveryAttention)
    else t
  }

  function DoomRun(db: Db, r: RunId): Outcome {
    SetRun(db.(tasks := map id | id in db.tasks :: DoomedIn(db.tasks[id], r)), r, RunFailed, false)
  }

  /** Staged tasks cannot become skipped (the table has no such edge), so the first one throws. */
  function SkipRun(db: Db, r: RunId): Outcome {
    if exists id :: id in db.tasks && db.tasks[id].runId == r && db.tasks[id].status.Staged? then Outcome(db, false)
    else
      var s := SetRun(db, r, RunRunning, false);
      if s.ok then SetRun(s.db, r, RunCompleted, false) else s
  }

  predicate AnyInbound(db: Db, g: Global, r: RunId, s: DepStatus) {
    exists d :: d in g.deps && d in db.xdeps && db.xdeps[d].consumer == r && db.xdeps[d].status == s
  }

  predicate AllInbound(db: Db, g: Global, r: RunId, s: DepStatus) {
    forall d :: d in g.deps && d in db.xdeps && db.xdeps[d].consumer == r ==> db.xdeps[d].status == s
  }

  predicate AllReceived(db: Db, g: Global, r: RunId) {
    forall d :: d in g.deps && d in db.xdeps && db.xdeps[d].consumer == r ==>
      db.xdeps[d].status.DepSatisfied? && d in db.handoffs && db.handoffs[d].status.Received?
  }

  predicate ConsumerIdle(db: Db, g: Global, r: RunId) {
    r !in db.runs || RunTerminal(db.runs[r].status) || AnyInbound(db, g, r, DepPending)
  }

  predicate ConsumerReleases(db: Db, g: Global, r: RunId) {
    !ConsumerIdle(db, g, r) && !AnyInbound(db, g, r, DepFailed) && db.runs[r].status.RunPreparing?
    && !AllInbound(db, g, r, DepSkipped) && AllReceived(db, g, r)
  }

  function SettleConsumer(db: Db, g: Global, r: RunId): Outcome {
    if ConsumerIdle(db, g, r) then Outcome(db, true)
    else if AnyInbound(db, g, r, DepFailed) then DoomRun(db, r)
    else if db.runs[r].status.RunPreparing? && AllInbound(db, g, r, DepSkipped) then SkipRun(db, r)
    else if ConsumerReleases(db, g, r) then ReleaseRun(db, r)
    else Outcome(db, true)
  }

  datatype Consumed = Consumed(db: Db, ok: bool, released: bool)

  function SettleConsumers(db: Db, g: Global, rs: seq<RunId>): Consumed
    decreases |rs|
  {
    if rs == [] then Consumed(db, true, false) else
      var s := SettleConsumer(db, g, rs[0]);
      if !s.ok then Consumed(s.db, false, false) else
        var rest := SettleConsumers(s.db, g, rs[1..]);
        rest.(released := ConsumerReleases(db, g, rs[0]) || rest.released)
  }

  predicate NeedsAttention(db: Db, r: RunId) {
    exists id :: id in db.tasks && db.tasks[id].runId == r && Attention(db.tasks[id].status)
  }

  function Projected(db: Db, g: Global): seq<Membership> {
    seq(|g.members|, i requires 0 <= i < |g.members| =>
      var r := g.members[i];
      Membership(if r in db.runs then db.runs[r].status else RunDraft, r !in g.optional, NeedsAttention(db, r)))
  }

  predicate AnyRunning(db: Db, g: Global) {
    exists r :: r in g.members && r in db.runs && db.runs[r].status.RunRunning?
  }

  function ProjectGlobal(db: Db, g: GlobalId, released: bool): Outcome
    requires g in db.globals
  {
    var row := db.globals[g];
    var terminal := DeriveGlobalStatus(Projected(db, row), row.cancelRequested);
    if terminal.Some? then SetGlobal(db, g, terminal.value)
    else SetGlobal(db, g, if AnyRunning(db, row) || released then GlobalRunning else GlobalWaiting)
  }

  function RefreshGlobal(db: Db, g: GlobalId, attested: Attestations): Outcome {
    if g !in db.globals || !db.globals[g].revisionValid || GlobalTerminal(db.globals[g].status) then Outcome(db, true)
    else
      var row := db.globals[g];
      var settled := SettleAll(db, row.members);
      if !settled.ok then settled else
        var resolved := MaterialiseAll(ResolveAll(settled.db, row.deps), row.deps, attested);
        var consumed := SettleConsumers(resolved, row, Consumers(resolved, row.deps));
        if !consumed.ok || g !in consumed.db.globals then Outcome(consumed.db, false)
        else ProjectGlobal(consumed.db, g, consumed.released)
  }

  function RefreshRun(db: Db, r: RunId, attested: Attestations): Outcome {
    var s := SettleRun(db, r);
    if s.ok && Settles(db, r) && db.runs[r].gate.Some?
    then RefreshGlobal(s.db, db.runs[r].gate.value.global, attested) else s
  }

  /** Members with no inbound dependency, in membership order. */
  function Roots(db: Db, g: Global, rs: seq<RunId>): seq<RunId> {
    if rs == [] then []
    else if Inbound(db, g.deps, rs[0]) == [] then [rs[0]] + Roots(db, g, rs[1..])
    else Roots(db, g, rs[1..])
  }

  function ReleaseAll(db: Db, rs: seq<RunId>): Outcome
    decreases |rs|
  {
    if rs == [] then Outcome(db, true) else
      var s := ReleaseRun(db, rs[0]);
      if s.ok then ReleaseAll(s.db, rs[1..]) else s
  }

  function ReleaseGlobal(db: Db, g: GlobalId): Outcome {
    if g !in db.globals || !db.globals[g].revisionValid || db.globals[g].cancelRequested then Outcome(db, false)
    else if db.globals[g].status !in {GlobalPreparing, GlobalWaiting} then Outcome(db, true)
    else
      var s := ReleaseAll(db, Roots(db, db.globals[g], db.globals[g].members));
      if s.ok then SetGlobal(s.db, g, GlobalRunning) else s
  }

  function RequestCancellation(db: Db, g: GlobalId): Outcome {
    if g !in db.globals then Outcome(db, false)
    else if GlobalTerminal(db.globals[g].status) then Outcome(db, true)
    else Outcome(db.(globals := db.globals[g := db.globals[g].(cancelRequested := true)]), true)
  }

  function CancelMembers(db: Db, rs: seq<RunId>): Outcome
    decreases |rs|
  {
    if rs == [] then Outcome(db, true)
    else if rs[0] in db.runs && !RunTerminal(db.runs[rs[0]].status) then
      var s := CancelRun(db, rs[0]);
      if s.ok then CancelMembers(s.db, rs[1..]) else s
    else CancelMembers(db, rs[1..])
  }

  function CancelGlobal(db: Db, g: GlobalId, childrenDone: bool): Outcome {
    var requested := RequestCancellation(db, g);
    if !requested.ok || GlobalTerminal(requested.db.globals[g].status) then requested else
      var children := if childrenDone then Outcome(requested.db, true)
                      else CancelMembers(requested.db, requested.db.globals[g].members);
      if children.ok then SetGlobal(children.db, g, GlobalCancelled) else children
  }

  // ---------- Graph creation ----------

  datatype NamedGlobal = NamedGlobal(id: GlobalId, row: Global)

  /** The rows one graph-creating transaction inserts; `global` for a multi-project graph. */
  datatype Batch = Batch(
    tasks: map<TaskId, Task>,
    runs: map<RunId, Run>,
    global: Option<NamedGlobal>,
    xdeps: map<DepId, XDep>)

  predicate FreshTask(t: Task) {
    && t.status.Staged? && t.attempt == 0 && ContractCurrent(t.contract)
    && t.workerId.None? && t.claimToken.None? && t.nextRetryAt.None? && t.startedAt.None? && t.waitingSince.None?
    && t.feedback == [] && t.feedbackRevision == 0
  }

  /** A numbering of a run's tasks that grows along dependencies. */
  ghost predicate TaskRank(rank: map<TaskId, nat>, tasks: map<TaskId, Task>, r: RunId) {
    forall id :: id in tasks && tasks[id].runId == r ==> id in rank && RanksBelow(rank, tasks[id].dependsOn, rank[id])
  }

  ghost predicate RanksBelow(rank: map<TaskId, nat>, ds: set<TaskId>, k: nat) {
    forall d :: d in ds ==> d in rank && rank[d] < k
  }

  ghost predicate RunRank(rank: map<RunId, nat>, ds: seq<DepId>, xdeps: map<DepId, XDep>) {
    forall d :: d in ds && d in xdeps ==>
      xdeps[d].producer in rank && xdeps[d].consumer in rank && rank[xdeps[d].producer] < rank[xdeps[d].consumer]
  }

  ghost predicate Ranked(ds: seq<DepId>, xdeps: map<DepId, XDep>) { exists rank :: RunRank(rank, ds, xdeps) }

  ghost predicate TasksAdmissible(b: Batch) {
    forall id :: id in b.tasks ==> TaskAdmissible(b, b.tasks[id])
  }

  ghost predicate TaskAdmissible(b: Batch, t: Task) {
    && FreshTask(t) && t.runId in b.runs && t.gate == b.runs[t.runId].gate
    && forall d :: d in t.dependsOn ==> d in b.tasks && b.tasks[d].runId == t.runId
  }

  ghost predicate RunsAdmissible(b: Batch) {
    forall r :: r in b.runs ==> RunAdmissible(b, r, b.runs[r])
  }

  ghost predicate RunAdmissible(b: Batch, r: RunId, run: Run) {
    && run.status.RunPreparing?
    && (exists id :: id in b.tasks && b.tasks[id].runId == r)
    && (exists rank :: TaskRank(rank, b.tasks, r))
    && (b.global.None? ==> run.gate.None?)
    && (b.global.Some? ==> r in b.global.value.row.manifests && run.gate == Some(GateFor(b.global.value, r)))
  }

  function GateFor(g: NamedGlobal, r: RunId): Gate
    requires r in g.row.manifests
  {
    Gate(g.id, g.row.revision, g.row.graph, g.row.authorization, g.row.manifests[r])
  }

  ghost predicate GlobalAdmissible(b: Batch, g: Global) {
    && g.status.GlobalPreparing? && g.revisionValid && !g.cancelRequested
    && (forall r :: r in g.members <==> r in b.runs)
    && (forall d :: d in g.deps <==> d in b.xdeps)
    && Ranked(g.deps, b.xdeps)
  }

  ghost predicate DepsAdmissible(b: Batch) {
    forall d :: d in b.xdeps ==>
      && b.global.Some? && b.xdeps[d].global == b.global.value.id && b.xdeps[d].status.DepPending?
      && b.xdeps[d].producer in b.runs && b.xdeps[d].consumer in b.runs
  }

  /** What the validators let through: fresh staged rows, each run's tasks in a dependency
      order, at most one Global Run, its projects in a dependency order. */
  ghost predicate Admissible(b: Batch) {
    TasksAdmissible(b) && RunsAdmissible(b) && DepsAdmissible(b)
    && (b.global.Some? ==> GlobalAdmissible(b, b.global.value.row))
  }

  ghost predicate Apart(db: Db, b: Batch) {
    b.tasks.Keys !! db.tasks.Keys && b.runs.Keys !! db.runs.Keys
    && (b.global.Some? ==> b.global.value.id !in db.globals)
    && b.xdeps.Keys !! db.xdeps.Keys && b.xdeps.Keys !! db.handoffs.Keys
  }

  function Joined(db: Db, b: Batch): Db {
    db.(tasks := db.tasks + b.tasks,
        runs := db.runs + b.runs,
        globals := if b.global.Some? then db.globals[b.global.value.id := b.global.value.row] else db.globals,
        xdeps := db.xdeps + b.xdeps)
  }

  ghost function CreateGraph(db: Db, b: Batch): Outcome {
    if Admissible(b) && Apart(db, b) then Outcome(Joined(db, b), true) else Outcome(db, false)
  }

  // ---------- Events ----------

  datatype Event =
    | Tick(d: nat)
    | Create(batch: Batch)
    | Release(run: RunId)
    | SweepTask(id: TaskId)
    | ClaimTask(id: TaskId, worker: WorkerId, env: ClaimEnv)
    | Row(id: TaskId, op: RowOp)
    | RepairTask(id: TaskId, contract: Contract)
    | FailPrepared(run: RunId)
    | CancelRunTasks(run: RunId)
    | Refresh(run: RunId, attested: Attestations)
    | ReleaseProjects(global: GlobalId)
    | RefreshProjects(global: GlobalId, attested: Attestations)
    | RequestCancel(global: GlobalId)
    | CancelProjects(global: GlobalId, childrenDone: bool)
    | RewriteHandoff(dep: DepId, handoff: Handoff)

  ghost function Apply(db: Db, e: Event): Outcome {
    match e
    case Tick(d) => Outcome(db.(clock := db.clock + d), true)
    case Create(batch) => CreateGraph(db, batch)
    case Release(run) => ReleaseRun(db, run)
    case SweepTask(id) => Outcome(Sweep(db, id), true)
    case ClaimTask(id, worker, env) => Claim(db, id, worker, env)
    case Row(id, op) => OnRow(db, id, op)
    case RepairTask(id, contract) => Repair(db, id, contract)
    case FailPrepared(run) => FailPreparedRun(db, run)
    case CancelRunTasks(run) => CancelRun(db, run)
    case Refresh(run, attested) => RefreshRun(db, run, attested)
    case ReleaseProjects(global) => ReleaseGlobal(db, global)
    case RefreshProjects(global, attested) => RefreshGlobal(db, global, attested)
    case RequestCancel(global) => RequestCancellation(db, global)
    case CancelProjects(global, childrenDone) => CancelGlobal(db, global, childrenDone)
    // Not a registry call: a row changed behind the registry's back.
    case RewriteHandoff(dep, handoff) =>
      if dep in db.handoffs then Outcome(db.(handoffs := db.handoffs[dep := handoff]), true) else Outcome(db, false)
  }

  /** The tables after a history of events, oldest first, from an empty database. */
  ghost function Replay(es: seq<Event>): Db
    decreases |es|, 1
  {
    if es == [] then EmptyDb else LastOutcome(es).db
  }

  ghost function LastOutcome(es: seq<Event>): Outcome
    requires es != []
    decreases |es|, 0
  {
    Following(es[..|es| - 1], es[|es| - 1])
  }

  /** What event `e` does after history `es`. */
  ghost function Following(es: seq<Event>, e: Event): Outcome
    decreases |es|, 2
  {
    Apply(Replay(es), e)
  }

  lemma ReplayStep(es: seq<Event>)
    requires es != []
    ensures Replay(es) == Apply(Replay(es[..|es| - 1]), es[|es| - 1]).db
  {
    assert LastOutcome(es) == Following(es[..|es| - 1], es[|es| - 1]);
  }
}
