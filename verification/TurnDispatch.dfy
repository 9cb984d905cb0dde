/** One `turn_dispatches` row and the guarded writes to it (src/registry.js,
    src/domain-states.js). Writers work from rows they read earlier; every write bumps the
    version, and that is what keeps two of them apart. */
module TurnDispatch {
  import opened DomainStates

  datatype Status =
    | Prepared | ThreadAcquiring | ThreadCreated | TurnSubmitting | TurnRunning | Cancelling
    | RecoveryNeeded | TurnCompleted | TurnFailed | TurnInterrupted | TurnCancelled

  type Instance = nat
  type OwnerToken = nat
  type Thread = nat
  type Turn = nat

  datatype Dispatch = Dispatch(
    status: Status,
    owner: Option<Instance>,
    token: Option<OwnerToken>,
    leaseExpires: Option<int>,
    thread: Option<Thread>,
    turn: Option<Turn>,
    generation: nat,
    version: nat)

  predicate Ended(s: Status) {
    s.RecoveryNeeded? || s.TurnCompleted? || s.TurnFailed? || s.TurnInterrupted? || s.TurnCancelled?
  }

  predicate Table(from: Status, to: Status) {
    match from
    case Prepared => to in {ThreadAcquiring, Cancelling, TurnFailed, TurnCancelled, RecoveryNeeded}
    case ThreadAcquiring => to in {ThreadCreated, Cancelling, TurnFailed, TurnCancelled, RecoveryNeeded}
    case ThreadCreated => to in {TurnSubmitting, Cancelling, TurnFailed, TurnCancelled, RecoveryNeeded}
    case TurnSubmitting =>
      to in {TurnRunning, TurnCompleted, TurnFailed, TurnInterrupted, Cancelling, TurnCancelled, RecoveryNeeded}
    case TurnRunning => to in {TurnCompleted, TurnFailed, TurnInterrupted, Cancelling, RecoveryNeeded}
    case Cancelling => to in {TurnCompleted, TurnFailed, TurnInterrupted, TurnCancelled, RecoveryNeeded}
    case _ => false
  }

  /** What a recovery read back from the thread; `recovered` stands for its decision and
      method both naming recovery. */
  datatype Evidence = Evidence(recovered: bool, complete: bool, thread: Option<Thread>, turn: Option<Turn>,
                               status: Status)

  predicate EvidenceFits(e: Evidence, read: Dispatch, to: Status) {
    e.recovered && e.complete && e.thread == read.thread && e.turn.Some? && (read.turn.Some? ==> e.turn == read.turn)
    && e.status == to
  }

  predicate MayBecome(from: Status, to: Status, observed: bool) {
    (from.RecoveryNeeded? && observed && to in {TurnCompleted, TurnFailed, TurnInterrupted}) || from == to
      || Table(from, to)
  }

  datatype Call =
    | Claim(instance: Instance, issued: OwnerToken, expires: int, now: int, force: bool)
    | Transition(read: Dispatch, to: Status, observed: Option<Evidence>, asToken: Option<OwnerToken>,
                 asGeneration: Option<nat>, lease: Option<int>, thread: Option<Thread>, turn: Option<Turn>)
    | Heartbeat(holder: Instance, holding: OwnerToken, until: int)
    | RequestCancellation(read: Dispatch)

  /** The earlier row the call acts on, if it acts on one. */
  function ReadOf(c: Call): Option<Dispatch> {
    if c.Transition? || c.RequestCancellation? then Some(c.read) else None
  }

  /** claimTurnDispatch gives an owner whose lease still runs its row back unwritten. */
  predicate AlreadyOwns(row: Dispatch, instance: Instance, now: int) {
    row.owner == Some(instance) && row.token.Some? && (row.leaseExpires.Some? ==> row.leaseExpires.value > now)
  }

  function Or<T>(a: Option<T>, b: Option<T>): Option<T> { if a.Some? then a else b }

  /** transitionTurnDispatch up to its UPDATE: checks against the row it read. */
  predicate Proposable(c: Call)
    requires c.Transition?
  {
    && (c.observed.Some? ==> EvidenceFits(c.observed.value, c.read, c.to))
    && MayBecome(c.read.status, c.to, c.observed.Some?)
    && (c.asToken.Some? ==> c.read.token == c.asToken)
    && (c.asGeneration.Some? ==> c.read.generation == c.asGeneration.value)
  }

  /** The row written, or nothing when the call throws, returns null or needs no write. */
  function Written(row: Dispatch, c: Call): Option<Dispatch> {
    match c
    case Claim(instance, issued, expires, now, force) =>
      if Ended(row.status) || (!force && AlreadyOwns(row, instance, now)) then None
      else if row.token.None? || row.leaseExpires.None? || row.leaseExpires.value <= now || row.owner == Some(instance)
        || force
      then Some(row.(owner := Some(instance), token := Some(issued), leaseExpires := Some(expires),
                     version := row.version + 1))
      else None
    case Transition(read, to, _, asToken, asGeneration, lease, thread, turn) =>
      if Proposable(c) && row.version == read.version
         && (asToken.Some? ==> row.token == asToken)
         && (asGeneration.Some? ==> row.generation == asGeneration.value)
      then Some(row.(status := to, leaseExpires := Or(lease, read.leaseExpires), thread := Or(thread, read.thread),
                     turn := Or(turn, read.turn), version := row.version + 1))
      else None
    case Heartbeat(holder, holding, until) =>
      if row.owner == Some(holder) && row.token == Some(holding) && !Ended(row.status)
      then Some(row.(leaseExpires := Some(until), version := row.version + 1)) else None
    case RequestCancellation(read) =>
      if !Ended(read.status) && row.version == read.version
      then Some(row.(status := Cancelling, generation := row.generation + 1, version := row.version + 1)) else None
  }

  /** The statuses of a dispatch that is not over. */
  const OPEN: set<Status> := {Prepared, ThreadAcquiring, ThreadCreated, TurnSubmitting, TurnRunning, Cancelling}

  /** Where a dispatch can come from: an open one can always fail or need recovery, a turn completes or
      is interrupted only after its submission, and a running one is not cancelled outright. */
  predicate WaysInto(from: Status, to: Status) {
    match to
    case TurnFailed => from in OPEN
    case RecoveryNeeded => from in OPEN
    case Cancelling => from in OPEN - {Cancelling}
    case TurnCancelled => from in OPEN - {TurnRunning}
    case TurnCompleted => from in {TurnSubmitting, TurnRunning, Cancelling}
    case TurnInterrupted => from in {TurnSubmitting, TurnRunning, Cancelling}
    case TurnRunning => from.TurnSubmitting?
    case TurnSubmitting => from.ThreadCreated?
    case ThreadCreated => from.ThreadAcquiring?
    case ThreadAcquiring => from.Prepared?
    case Prepared => false
  }

  lemma WaysIntoStatus(from: Status, to: Status)
    ensures Table(from, to) <==> WaysInto(from, to)
    ensures Ended(from) <==> from !in OPEN
  {
  }

  /** The observation is recovery's, complete, of this thread and, if one is recorded, of this turn, and
      ended in the status put forward. */
  predicate Observes(e: Evidence, read: Dispatch, to: Status) {
    e.recovered && e.complete && e.status == to && e.thread == read.thread && e.turn.Some?
    && read.turn in {None, e.turn}
  }

  /** The change of status, or the observation put forward for it, is not allowed. */
  predicate Refused(read: Dispatch, to: Status, observed: Option<Evidence>) {
    (observed.Some? && !Observes(observed.value, read, to))
    || !(to == read.status || WaysInto(read.status, to) || EndObserved(read, to, observed))
  }

  /** Recovery read the end of the turn back from its thread. */
  predicate EndObserved(read: Dispatch, to: Status, observed: Option<Evidence>) {
    observed.Some? && read.status.RecoveryNeeded? && to in {TurnCompleted, TurnFailed, TurnInterrupted}
  }

  /** The token and the generation that are named are the row's. */
  predicate Named(read: Dispatch, token: Option<OwnerToken>, generation: Option<nat>) {
    (token.Some? ==> read.token == token) && (generation.Some? ==> read.generation == generation.value)
  }

  predicate Overwritten(read: Dispatch, row: Dispatch, to: Status, lease: Option<int>, thread: Option<Thread>,
                        turn: Option<Turn>) {
    row == read.(status := to, version := read.version + 1,
                 leaseExpires := if lease.Some? then lease else read.leaseExpires,
                 thread := if thread.Some? then thread else read.thread,
                 turn := if turn.Some? then turn else read.turn)
  }

  /** The instance owns the open dispatch under a lease that still runs, and does not insist on a new
      claim. */
  predicate InHand(row: Dispatch, instance: Instance, now: int, force: bool) {
    row.status in OPEN && !force && row.owner == Some(instance) && row.token.Some?
    && (row.leaseExpires.Some? ==> row.leaseExpires.value > now)
  }

  /** An open dispatch is claimed when nobody's lease on it runs, by its own owner, or by force. */
  predicate OpenTo(row: Dispatch, instance: Instance, now: int, force: bool) {
    row.status in OPEN && !InHand(row, instance, now, force)
    && (force || row.owner == Some(instance) || row.token.None? || row.leaseExpires.None?
        || row.leaseExpires.value <= now)
  }

  /** A writer that holds the current row and its token gets its transition through iff the table has
      the way, or recovery observed the end of the turn. */
  lemma CurrentWriterWrites(row: Dispatch, to: Status, e: Option<Evidence>, lease: Option<int>, thread: Option<Thread>,
                            turn: Option<Turn>)
    ensures var w := Written(row, Transition(row, to, e, row.token, Some(row.generation), lease, thread, turn));
      (w.Some? <==> !Refused(row, to, e)) && (w.Some? ==> Overwritten(row, w.value, to, lease, thread, turn))
  {
    WaysIntoStatus(row.status, to);
  }

  /** A turn can run its course: each of these steps is open to the writer that holds the row. */
  lemma TurnCanComplete(row: Dispatch, thread: Thread, turn: Turn) returns (rows: seq<Dispatch>)
    requires row.status.Prepared?
    ensures Life(rows) && rows[0] == row && |rows| == 6
    ensures rows[4].status.TurnRunning? && rows[4].thread == Some(thread) && rows[4].turn == Some(turn)
    ensures rows[5].status.TurnCompleted?
  {
    rows := [row];
    LifeOfOne(row);
    rows := NextRow(rows, ThreadAcquiring, None, None);
    rows := NextRow(rows, ThreadCreated, Some(thread), None);
    rows := NextRow(rows, TurnSubmitting, None, None);
    rows := NextRow(rows, TurnRunning, None, Some(turn));
    rows := NextRow(rows, TurnCompleted, None, None);
  }

  lemma LifeOfOne(row: Dispatch)
    ensures Life([row])
  {
  }

  lemma NextRow(rows: seq<Dispatch>, to: Status, thread: Option<Thread>, turn: Option<Turn>)
    returns (more: seq<Dispatch>)
    requires Life(rows) && WaysInto(rows[|rows| - 1].status, to)
    ensures Life(more) && |more| == |rows| + 1 && rows < more && more[|rows|].status == to
    ensures more[|rows|].thread == if thread.Some? then thread else rows[|rows| - 1].thread
    ensures more[|rows|].turn == if turn.Some? then turn else rows[|rows| - 1].turn
  {
    var row := rows[|rows| - 1];
    var c := Transition(row, to, None, row.token, Some(row.generation), None, thread, turn);
    CurrentWriterWrites(row, to, None, None, thread, turn);
    more := rows + [Written(row, c).value];
    assert Follows(rows, Written(row, c).value, c);
    LifeGrows(rows, Written(row, c).value, c);
  }

  // ---------- Lives ----------

  /** `next` was written over the last row by a call that acts on a row of this life. */
  ghost predicate Follows(rows: seq<Dispatch>, next: Dispatch, c: Call)
    requires rows != []
  {
    (ReadOf(c).Some? ==> ReadOf(c).value in rows) && Written(rows[|rows| - 1], c) == Some(next)
  }

  /** Every row the table ever held for one dispatch, oldest first. */
  ghost predicate Life(rows: seq<Dispatch>) {
    rows != [] && forall i :: 0 < i < |rows| ==> WrittenAt(rows, i)
  }

  ghost predicate WrittenAt(rows: seq<Dispatch>, i: nat)
    requires 0 < i < |rows|
  {
    exists c :: Follows(rows[..i], rows[i], c)
  }

  function Rank(s: Status): nat {
    match s
    case Prepared => 0
    case ThreadAcquiring => 1
    case ThreadCreated => 2
    case TurnSubmitting => 3
    case TurnRunning => 4
    case Cancelling => 5
    case RecoveryNeeded => 6
    case _ => 7
  }

  /** One write on the row it claims to be about. */
  predicate Advances(a: Dispatch, b: Dispatch) {
    && b.version == a.version + 1
    && (b.status == a.status || Rank(a.status) < Rank(b.status))
    && a.generation <= b.generation
    && (b.generation > a.generation ==> b.status.Cancelling?)
  }

  lemma WriteAdvances(row: Dispatch, c: Call)
    requires Written(row, c).Some?
    requires (ReadOf(c).Some? && ReadOf(c).value.version == row.version ==> ReadOf(c).value == row)
    ensures Advances(row, Written(row, c).value)
  {
  }

  lemma LifePrefix(rows: seq<Dispatch>, n: nat)
    requires Life(rows) && 0 < n <= |rows|
    ensures Life(rows[..n])
  {
    forall i | 0 < i < n ensures WrittenAt(rows[..n], i) {
      assert rows[..n][..i] == rows[..i] && WrittenAt(rows, i);
    }
  }

  lemma LifeGrows(rows: seq<Dispatch>, next: Dispatch, c: Call)
    requires Life(rows) && Follows(rows, next, c)
    ensures Life(rows + [next])
  {
    var grown := rows + [next];
    forall i | 0 < i < |grown| ensures WrittenAt(grown, i) {
      assert grown[..i] == rows[..i];
      if i < |rows| {
        assert WrittenAt(rows, i);
        var d :| Follows(rows[..i], rows[i], d);
        assert Follows(grown[..i], grown[i], d);
      } else {
        assert grown[..i] == rows;
        assert Follows(grown[..i], grown[i], c);
      }
    }
  }

  /** What any two rows of one life have to do with each other. */
  predicate Ordered(a: Dispatch, b: Dispatch) {
    a.version < b.version && a.generation <= b.generation
    && (b.status == a.status || Rank(a.status) < Rank(b.status))
    && (b.generation > a.generation ==> Rank(b.status) >= Rank(Cancelling))
  }

  lemma AdvancesOrders(a: Dispatch, b: Dispatch, c: Dispatch)
    requires (a == b || Ordered(a, b)) && Advances(b, c)
    ensures Ordered(a, c)
  {
  }

  /** Versions strictly increase, statuses only climb, and so do generations. */
  lemma {:induction false} LifeOrdered(rows: seq<Dispatch>, i: nat, j: nat)
    requires Life(rows) && i < j < |rows|
    ensures Ordered(rows[i], rows[j])
  {
    var before := rows[..j];
    LifePrefix(rows, j);
    assert WrittenAt(rows, j);
    var c :| Follows(rows[..j], rows[j], c);
    if ReadOf(c).Some? && ReadOf(c).value.version == rows[j - 1].version {
      var k :| 0 <= k < j && before[k] == ReadOf(c).value;
      if k < j - 1 { LifeOrdered(before, k, j - 1); }
    }
    WriteAdvances(rows[j - 1], c);
    if i < j - 1 { LifeOrdered(before, i, j - 1); }
    AdvancesOrders(rows[i], rows[j - 1], rows[j]);
  }

  function Changes(rows: seq<Dispatch>): nat {
    if |rows| <= 1 then 0
    else Changes(rows[..|rows| - 1]) + if rows[|rows| - 1].status != rows[|rows| - 2].status then 1 else 0
  }

  /** A dispatch changes status at most seven times in its life. */
  lemma {:induction false} FewChanges(rows: seq<Dispatch>)
    requires Life(rows)
    ensures Changes(rows) <= Rank(rows[|rows| - 1].status) - Rank(rows[0].status) <= 7
  {
    if |rows| > 1 {
      LifePrefix(rows, |rows| - 1);
      FewChanges(rows[..|rows| - 1]);
      LifeOrdered(rows, |rows| - 2, |rows| - 1);
    }
  }

  /** Of two writers working from the same read, the second changes nothing: once one of them
      wrote, no row of the life has that version again. */
  lemma OneWriterPerRead(rows: seq<Dispatch>, i: nat, c: Call, d: Call)
    requires Life(rows) && 0 < i < |rows| && Follows(rows[..i], rows[i], c)
    requires ReadOf(c).Some? && ReadOf(d) == ReadOf(c)
    ensures Written(rows[|rows| - 1], d).None?
  {
    LifeOrdered(rows, i - 1, i);
    if i < |rows| - 1 { LifeOrdered(rows, i, |rows| - 1); }
    assert ReadOf(c).value.version == rows[i - 1].version;
  }

  /** After a cancellation: no write that names an older generation succeeds, whatever row it
      read, and the dispatch never submits or runs a turn again. */
  lemma CancellationHolds(rows: seq<Dispatch>, i: nat, j: nat, c: Call)
    requires Life(rows) && 0 < i <= j < |rows| && rows[i].generation > rows[i - 1].generation
    ensures !rows[j].status.TurnSubmitting? && !rows[j].status.TurnRunning? && Rank(rows[j].status) >= Rank(Cancelling)
    ensures c.Transition? && c.asGeneration.Some? && c.asGeneration.value <= rows[i - 1].generation ==>
      Written(rows[j], c).None?
  {
    LifeOrdered(rows, i - 1, i);
    if i < j { LifeOrdered(rows, i, j); }
  }

  /** A terminal verdict is final; only a recovery that observed the same turn's end adds one. */
  lemma EndedStays(rows: seq<Dispatch>, i: nat, j: nat)
    requires Life(rows) && i <= j < |rows| && Ended(rows[i].status)
    ensures rows[j].status == rows[i].status || (rows[i].status.RecoveryNeeded? && Rank(rows[j].status) == 7)
  {
    if i < j { LifeOrdered(rows, i, j); }
  }

  // ---------- The row in place ----------

  class DispatchRow {
    var row: Dispatch
    ghost var rows: seq<Dispatch>

    ghost predicate Valid()
      reads this
    {
      Life(rows) && rows[|rows| - 1] == row
    }

    constructor (thread: Option<Thread>)
      ensures Valid() && rows == [row] && row == Dispatch(Prepared, None, None, None, thread, None, 0, 0)
    {
      row := Dispatch(Prepared, None, None, None, thread, None, 0, 0);
      rows := [Dispatch(Prepared, None, None, None, thread, None, 0, 0)];
    }

    /** The call's effect on the row and its life. */
    twostate predicate Did(c: Call, wrote: bool)
      reads this
    {
      Valid()
      && wrote == Written(old(row), c).Some?
      && (if wrote then row == Written(old(row), c).value && rows == old(rows) + [row]
        else row == old(row) && rows == old(rows))
    }

    ghost method Record(c: Call)
      requires Life(rows) && Follows(rows, row, c)
      modifies this`rows
      ensures Valid() && rows == old(rows) + [row]
    {
      LifeGrows(rows, row, c);
      rows := rows + [row];
    }

    method ClaimTurnDispatch(instance: Instance, issued: OwnerToken, expires: int, now: int, force: bool)
      returns (claimed: Option<Dispatch>, ghost wrote: bool)
      requires Valid()
      modifies this
      ensures Did(Claim(instance, issued, expires, now, force), wrote)
      ensures wrote <==> OpenTo(old(row), instance, now, force)
      ensures row == if wrote then old(row).(owner := Some(instance), token := Some(issued),
                       leaseExpires := Some(expires), version := old(row).version + 1) else old(row)
      ensures claimed == if wrote || InHand(old(row), instance, now, force) then Some(row) else None
    {
      if Ended(row.status) { return None, false; }
      if !force && row.owner == Some(instance) && row.token.Some?
         && (row.leaseExpires.None? || row.leaseExpires.value > now) {
        return Some(row), false;
      }
      if row.token.None? || row.leaseExpires.None? || row.leaseExpires.value <= now || row.owner == Some(instance)
        || force {
        row := row.(owner := Some(instance), token := Some(issued), leaseExpires := Some(expires),
                    version := row.version + 1);
        Record(Claim(instance, issued, expires, now, force));
        return Some(row), true;
      }
      return None, false;
    }

    /** `illegal` when the call throws instead of returning null. */
    method TransitionTurnDispatch(read: Dispatch, to: Status, observed: Option<Evidence>, asToken: Option<OwnerToken>,
                                  asGeneration: Option<nat>, lease: Option<int>, thread: Option<Thread>,
                                  turn: Option<Turn>)
      returns (wrote: bool, illegal: bool)
      requires Valid() && read in rows
      modifies this
      ensures Did(Transition(read, to, observed, asToken, asGeneration, lease, thread, turn), wrote)
      ensures illegal <==> Refused(read, to, observed)
      ensures wrote <==> !illegal && old(row) == read && Named(read, asToken, asGeneration)
      ensures wrote ==> Overwritten(read, row, to, lease, thread, turn)
    {
      ghost var c := Transition(read, to, observed, asToken, asGeneration, lease, thread, turn);
      RefusedMeans(read, to, observed);
      TransitionMeans(rows, read, to, observed, asToken, asGeneration, lease, thread, turn);
      if observed.Some? && !EvidenceFits(observed.value, read, to) { return false, true; }
      if !MayBecome(read.status, to, observed.Some?) { return false, true; }
      if asToken.Some? && read.token != asToken { return false, false; }
      if asGeneration.Some? && read.generation != asGeneration.value { return false, false; }
      if row.version == read.version && (asToken.None? || row.token == asToken)
         && (asGeneration.None? || row.generation == asGeneration.value) {
        SameVersionSameRow(rows, read);
        row := row.(status := to, leaseExpires := Or(lease, read.leaseExpires), thread := Or(thread, read.thread),
                    turn := Or(turn, read.turn), version := row.version + 1);
        Record(c);
        return true, false;
      }
      return false, false;
    }

    method HeartbeatTurnDispatch(holder: Instance, holding: OwnerToken, until: int) returns (wrote: bool)
      requires Valid()
      modifies this
      ensures Did(Heartbeat(holder, holding, until), wrote)
      ensures wrote <==> old(row).owner == Some(holder) && old(row).token == Some(holding) && old(row).status in OPEN
      ensures row == if wrote then old(row).(leaseExpires := Some(until), version := old(row).version + 1) else old(row)
    {
      wrote := row.owner == Some(holder) && row.token == Some(holding) && !Ended(row.status);
      if wrote {
        row := row.(leaseExpires := Some(until), version := row.version + 1);
        Record(Heartbeat(holder, holding, until));
      }
    }

    method RequestTurnDispatchCancellation(read: Dispatch) returns (wrote: bool)
      requires Valid() && read in rows
      modifies this
      ensures Did(RequestCancellation(read), wrote)
      ensures wrote <==> old(row) == read && read.status in OPEN
      ensures row == if wrote then read.(status := Cancelling, generation := read.generation + 1,
                       version := read.version + 1) else old(row)
    {
      if row.version == read.version { SameVersionSameRow(rows, read); }
      wrote := !Ended(read.status) && row.version == read.version;
      if wrote {
        row := row.(status := Cancelling, generation := row.generation + 1, version := row.version + 1);
        Record(RequestCancellation(read));
      }
    }
  }

  /** A row read earlier whose version is still current is the current row. */
  lemma SameVersionSameRow(rows: seq<Dispatch>, read: Dispatch)
    requires Life(rows) && read in rows && read.version == rows[|rows| - 1].version
    ensures read == rows[|rows| - 1]
  {
    var k :| 0 <= k < |rows| && rows[k] == read;
    if k < |rows| - 1 { LifeOrdered(rows, k, |rows| - 1); }
  }

  lemma RefusedMeans(read: Dispatch, to: Status, observed: Option<Evidence>)
    ensures Refused(read, to, observed) <==>
      (observed.Some? && !EvidenceFits(observed.value, read, to)) || !MayBecome(read.status, to, observed.Some?)
  {
    WaysIntoStatus(read.status, to);
  }

  lemma TransitionMeans(rows: seq<Dispatch>, read: Dispatch, to: Status, observed: Option<Evidence>,
                        asToken: Option<OwnerToken>, asGeneration: Option<nat>, lease: Option<int>,
                        thread: Option<Thread>, turn: Option<Turn>)
    requires Life(rows) && read in rows
    ensures var c := Transition(read, to, observed, asToken, asGeneration, lease, thread, turn);
      var row := rows[|rows| - 1];
      && (Written(row, c).Some? <==> !Refused(read, to, observed) && row == read && Named(read, asToken, asGeneration))
      && (Written(row, c).Some? ==> Overwritten(read, Written(row, c).value, to, lease, thread, turn))
  {
    RefusedMeans(read, to, observed);
    if read.version == rows[|rows| - 1].version { SameVersionSameRow(rows, read); }
  }
}
