/** Worktree leases and agent leases (src/registry.js): who holds a key, over whole runs. */
module Leases {
  import opened DomainStates

  type Key = nat
  type Owner = nat
  type Secret = nat

  datatype LeaseStatus = Active | Released | Expired

  datatype Lease = Lease(owner: Owner, token: Option<Secret>, status: LeaseStatus, acquiredAt: int, expiresAt: int)

  /** Both tables and the time. */
  datatype Books = Books(clock: int, worktrees: map<Key, Lease>, agents: map<Key, Lease>)

  const NoBooks := Books(0, map[], map[])

  datatype Call =
    | Pass(time: nat)
    | Acquire(key: Key, owner: Owner, token: Option<Secret>, ttl: nat)
    | Renew(key: Key, owner: Owner, token: Option<Secret>, ttl: nat)
    | Release(key: Key, owner: Owner, token: Option<Secret>, target: LeaseStatus)
    | ListLeases
    | AcquireAgent(key: Key, owner: Owner, secret: Secret, ttl: nat)
    | RenewAgent(key: Key, owner: Owner, secret: Secret, ttl: nat)
    | ReleaseAgent(key: Key, owner: Owner, secret: Secret, target: LeaseStatus)
    | RecoverAgents

  /** The lease table's legal changes of status. */
  predicate LeaseTable(from: LeaseStatus, to: LeaseStatus) {
    from == to || (from.Active? && !to.Active?) || (from.Released? && to.Active?) || (from.Expired? && !to.Expired?)
  }

  predicate TokenFits(lease: Lease, token: Option<Secret>) { token.Some? ==> lease.token == token }

  function Granted(owner: Owner, token: Option<Secret>, now: int, ttl: nat): Lease {
    Lease(owner, token, Active, now, now + ttl)
  }

  /** The UPDATE's WHERE clause of releaseLease. */
  predicate Releasable(lease: Lease, owner: Owner, token: Option<Secret>) {
    lease.owner == owner && !lease.status.Released? && TokenFits(lease, token)
  }

  predicate AgentHeldBy(lease: Lease, owner: Owner, secret: Secret) {
    lease.owner == owner && lease.token == Some(secret) && lease.status.Active?
  }

  predicate AgentFree(lease: Lease, now: int) { !lease.status.Active? || lease.expiresAt <= now }

  function Lapsed(lease: Lease, now: int): Lease {
    if lease.status.Active? && lease.expiresAt <= now then lease.(status := Expired) else lease
  }

  function AllLapsed(table: map<Key, Lease>, now: int): map<Key, Lease> { map k | k in table :: Lapsed(table[k], now) }

  /** The row a call writes back, or None when it throws or returns null. */
  function Row(b: Books, c: Call): Option<Lease> {
    match c
    case Acquire(key, owner, token, ttl) =>
      if key !in b.worktrees || b.worktrees[key].status.Released?
      then Some(Granted(owner, token, b.clock, ttl)) else None
    case Renew(key, owner, token, ttl) =>
      if key in b.worktrees && b.worktrees[key].owner == owner && b.worktrees[key].status.Active?
         && TokenFits(b.worktrees[key], token)
      then Some(b.worktrees[key].(expiresAt := b.clock + ttl)) else None
    case Release(key, owner, token, target) =>
      if key in b.worktrees && LeaseTable(b.worktrees[key].status, target) && Releasable(b.worktrees[key], owner, token)
      then Some(b.worktrees[key].(status := target)) else None
    case AcquireAgent(key, owner, secret, ttl) =>
      if key !in b.agents || AgentFree(b.agents[key], b.clock)
      then Some(Granted(owner, Some(secret), b.clock, ttl)) else None
    case RenewAgent(key, owner, secret, ttl) =>
      if key in b.agents && AgentHeldBy(b.agents[key], owner, secret)
      then Some(b.agents[key].(expiresAt := b.clock + ttl)) else None
    case ReleaseAgent(key, owner, secret, target) =>
      if key in b.agents && AgentHeldBy(b.agents[key], owner, secret)
      then Some(b.agents[key].(status := target)) else None
    case _ => None
  }

  predicate OnWorktree(c: Call) { c.Acquire? || c.Renew? || c.Release? }

  function After(b: Books, c: Call): Books {
    if c.Pass? then b.(clock := b.clock + c.time)
    else if c.ListLeases? then b.(worktrees := AllLapsed(b.worktrees, b.clock))
    else if c.RecoverAgents? then b.(agents := AllLapsed(b.agents, b.clock))
    else if Row(b, c).None? then b
    else if OnWorktree(c) then b.(worktrees := b.worktrees[c.key := Row(b, c).value])
    else b.(agents := b.agents[c.key := Row(b, c).value])
  }

  function AfterAll(cs: seq<Call>): Books {
    if cs == [] then NoBooks else After(AfterAll(cs[..|cs| - 1]), cs[|cs| - 1])
  }

  // ---------- Worktree exclusion ----------

  predicate Grants(b: Books, c: Call, key: Key) { c.Acquire? && c.key == key && Row(b, c).Some? }

  /** A release of `key` that succeeds and names this owner, and this token if any. */
  predicate Frees(b: Books, c: Call, key: Key, owner: Owner, token: Option<Secret>) {
    c.Release? && c.key == key && c.target.Released? && Row(b, c).Some?
    && c.owner == owner && (c.token.Some? ==> c.token == token)
  }

  predicate HeldFor(b: Books, key: Key, owner: Owner, token: Option<Secret>) {
    key in b.worktrees && b.worktrees[key].owner == owner && b.worktrees[key].token == token
    && !b.worktrees[key].status.Released?
  }

  lemma HeldUntilFreed(b: Books, c: Call, key: Key, owner: Owner, token: Option<Secret>)
    requires HeldFor(b, key, owner, token)
    ensures HeldFor(After(b, c), key, owner, token) || Frees(b, c, key, owner, token)
    ensures !Grants(b, c, key)
  {
  }

  /** Exclusion over whole runs: between two grants of one worktree key lies a release that
      names the first owner, however long ago the first lease expired. */
  lemma {:induction false} WorktreeExclusion(cs: seq<Call>, i: nat, j: nat, key: Key)
    requires i < j < |cs| && Grants(AfterAll(cs[..i]), cs[i], key) && Grants(AfterAll(cs[..j]), cs[j], key)
    ensures exists m :: i < m < j && Frees(AfterAll(cs[..m]), cs[m], key, cs[i].owner, cs[i].token)
  {
    var m := FirstFree(cs, i, j, key);
    if m == j { HeldUntilFreed(AfterAll(cs[..j]), cs[j], key, cs[i].owner, cs[i].token); }
  }

  /** The first release after the grant at `i`, or `j` if the lease is still held there. */
  lemma {:induction false} FirstFree(cs: seq<Call>, i: nat, j: nat, key: Key) returns (m: nat)
    requires i < j <= |cs| && Grants(AfterAll(cs[..i]), cs[i], key)
    ensures i < m <= j
    ensures if m < j then Frees(AfterAll(cs[..m]), cs[m], key, cs[i].owner, cs[i].token)
            else HeldFor(AfterAll(cs[..j]), key, cs[i].owner, cs[i].token)
    decreases j
  {
    assert cs[..j][..j - 1] == cs[..j - 1];
    if j == i + 1 { return j; }
    m := FirstFree(cs, i, j - 1, key);
    if m == j - 1 {
      HeldUntilFreed(AfterAll(cs[..j - 1]), cs[j - 1], key, cs[i].owner, cs[i].token);
      if !Frees(AfterAll(cs[..j - 1]), cs[j - 1], key, cs[i].owner, cs[i].token) { m := j; }
    }
  }

  // ---------- Agent leases ----------

  predicate AgentHeld(b: Books, key: Key, owner: Owner, secret: Secret) {
    key in b.agents && AgentHeldBy(b.agents[key], owner, secret)
  }

  predicate InTime(b: Books, key: Key) { key in b.agents && b.clock < b.agents[key].expiresAt }

  predicate LetsGo(c: Call, key: Key, owner: Owner, secret: Secret) {
    c.ReleaseAgent? && c.key == key && c.owner == owner && c.secret == secret
  }

  lemma AgentKept(b: Books, c: Call, key: Key, owner: Owner, secret: Secret)
    requires AgentHeld(b, key, owner, secret) && InTime(b, key) && !LetsGo(c, key, owner, secret)
    ensures AgentHeld(After(b, c), key, owner, secret)
    ensures c.AcquireAgent? && c.key == key ==> Row(b, c).None?
  {
  }

  /** A holder that keeps its agent lease renewed, so that the clock never reaches the expiry,
      is never displaced: it holds the lease for as long as it does not release it itself, and
      nobody else is granted it. */
  lemma {:induction false} TimelyNeverDisplaced(cs: seq<Call>, i: nat, j: nat, key: Key, owner: Owner, secret: Secret)
    requires i <= j <= |cs| && AgentHeld(AfterAll(cs[..i]), key, owner, secret)
    requires forall m :: i <= m < j ==> InTime(AfterAll(cs[..m]), key) && !LetsGo(cs[m], key, owner, secret)
    ensures AgentHeld(AfterAll(cs[..j]), key, owner, secret)
    ensures i < j && cs[j - 1].AcquireAgent? && cs[j - 1].key == key ==> Row(AfterAll(cs[..j - 1]), cs[j - 1]).None?
    decreases j
  {
    if i < j {
      assert cs[..j][..j - 1] == cs[..j - 1];
      TimelyNeverDisplaced(cs, i, j - 1, key, owner, secret);
      AgentKept(AfterAll(cs[..j - 1]), cs[j - 1], key, owner, secret);
    }
  }

  predicate GrantsAgent(b: Books, c: Call, key: Key, owner: Owner, secret: Secret) {
    c.AcquireAgent? && c.key == key && c.owner == owner && c.secret == secret && Row(b, c).Some?
  }

  /** A renewal or a release presented as this holder. */
  predicate ActsAs(c: Call, key: Key, owner: Owner, secret: Secret) {
    (c.RenewAgent? || c.ReleaseAgent?) && c.key == key && c.owner == owner && c.secret == secret
  }

  lemma DisplacedStep(b: Books, c: Call, key: Key, owner: Owner, secret: Secret)
    requires !AgentHeld(b, key, owner, secret) && !GrantsAgent(b, c, key, owner, secret)
    ensures !AgentHeld(After(b, c), key, owner, secret)
    ensures ActsAs(c, key, owner, secret) ==> After(b, c) == b && Row(b, c).None?
  {
  }

  /** A displaced, expired or released holder: none of its later renewals or releases changes
      anything until it is granted the lease anew. */
  lemma {:induction false} DisplacedIsPowerless(cs: seq<Call>, i: nat, j: nat, key: Key, owner: Owner, secret: Secret)
    requires i <= j < |cs| && !AgentHeld(AfterAll(cs[..i]), key, owner, secret)
    requires forall m :: i <= m <= j ==> !GrantsAgent(AfterAll(cs[..m]), cs[m], key, owner, secret)
    ensures !AgentHeld(AfterAll(cs[..j + 1]), key, owner, secret)
    ensures ActsAs(cs[j], key, owner, secret) ==> AfterAll(cs[..j + 1]) == AfterAll(cs[..j])
    decreases j
  {
    assert cs[..j + 1][..j] == cs[..j];
    if i < j { DisplacedIsPowerless(cs, i, j - 1, key, owner, secret); }
    DisplacedStep(AfterAll(cs[..j]), cs[j], key, owner, secret);
  }

  /** From now until its time has passed, and no longer, a renewed lease is in time. */
  lemma RenewedUntil(b: Books, key: Key, owner: Owner, secret: Secret, ttl: nat, time: nat)
    requires AgentHeld(b, key, owner, secret)
    ensures var c := After(After(b, RenewAgent(key, owner, secret, ttl)), Pass(time));
      AgentHeld(c, key, owner, secret) && (InTime(c, key) <==> time < ttl)
  {
  }

  /** A lease is granted for its time, and then, and only then, another owner can take it over. */
  lemma GrantedUntil(b: Books, key: Key, owner: Owner, secret: Secret, ttl: nat, time: nat, other: Call)
    requires Row(b, AcquireAgent(key, owner, secret, ttl)).Some? && other.AcquireAgent? && other.key == key
    ensures var c := After(After(b, AcquireAgent(key, owner, secret, ttl)), Pass(time));
      AgentHeld(c, key, owner, secret) && (Row(c, other).Some? <==> ttl <= time)
  {
  }

  // ---------- The tables in place ----------

  /** The row a call returns is the one it left under the key; without one nothing changed. */
  predicate Kept(before: map<Key, Lease>, now: map<Key, Lease>, key: Key, lease: Option<Lease>) {
    now == if lease.Some? then before[key := lease.value] else before
  }

  /** The lease is this owner's, under this token if one is given, and in one of these statuses. */
  predicate Owns(table: map<Key, Lease>, key: Key, owner: Owner, token: Option<Secret>, statuses: set<LeaseStatus>) {
    key in table && table[key].status in statuses && table[key].owner == owner && token in {None, table[key].token}
  }

  /** Of the same rows, the active ones at or past their expiry are expired and the others are not
      touched. */
  predicate ExpiredBy(before: map<Key, Lease>, now: map<Key, Lease>, clock: int) {
    now.Keys == before.Keys
    && forall k :: k in before ==>
      now[k] == if before[k].status.Active? && before[k].expiresAt <= clock then before[k].(status := Expired)
        else before[k]
  }

  class LeaseStore {
    var clock: int
    var worktrees: map<Key, Lease>
    var agents: map<Key, Lease>
    ghost var calls: seq<Call>

    ghost predicate Valid()
      reads this
    {
      AfterAll(calls) == Books(clock, worktrees, agents)
    }

    constructor ()
      ensures Valid() && calls == []
    {
      clock, worktrees, agents, calls := 0, map[], map[], [];
    }

    ghost function Seen(): Books
      reads this
    {
      Books(clock, worktrees, agents)
    }

    twostate predicate Did(c: Call)
      reads this
    {
      Valid() && calls == old(calls) + [c]
    }

    ghost method Record(c: Call)
      requires AfterAll(calls + [c]) == Books(clock, worktrees, agents)
      modifies this`calls
      ensures Valid() && calls == old(calls) + [c]
    {
      calls := calls + [c];
    }

    method Wait(time: nat)
      requires Valid()
      modifies this
      ensures Did(Pass(time)) && clock == old(clock) + time
    {
      clock := clock + time;
      Appended(calls, Pass(time));
      Record(Pass(time));
    }

    method AcquireLease(key: Key, owner: Owner, token: Option<Secret>, ttl: nat) returns (lease: Option<Lease>)
      requires Valid()
      modifies this
      ensures Did(Acquire(key, owner, token, ttl)) && lease == Row(old(Seen()), Acquire(key, owner, token, ttl))
      ensures lease == if key !in old(worktrees) || old(worktrees)[key].status.Released?
        then Some(Lease(owner, token, Active, clock, clock + ttl)) else None
      ensures Kept(old(worktrees), worktrees, key, lease) && agents == old(agents) && clock == old(clock)
    {
      Appended(calls, Acquire(key, owner, token, ttl));
      if key in worktrees && !worktrees[key].status.Released? { lease := None; } else {
        lease := Some(Lease(owner, token, Active, clock, clock + ttl));
        worktrees := worktrees[key := lease.value];
      }
      Record(Acquire(key, owner, token, ttl));
    }

    method RenewLease(key: Key, owner: Owner, token: Option<Secret>, ttl: nat) returns (lease: Option<Lease>)
      requires Valid()
      modifies this
      ensures Did(Renew(key, owner, token, ttl)) && lease == Row(old(Seen()), Renew(key, owner, token, ttl))
      ensures lease.Some? <==> Owns(old(worktrees), key, owner, token, {Active})
      ensures lease.Some? ==> lease.value == old(worktrees)[key].(expiresAt := clock + ttl)
      ensures Kept(old(worktrees), worktrees, key, lease) && agents == old(agents) && clock == old(clock)
    {
      Appended(calls, Renew(key, owner, token, ttl));
      lease := None;
      if key in worktrees && worktrees[key].owner == owner && worktrees[key].status.Active?
         && (token.None? || worktrees[key].token == token) {
        lease := Some(worktrees[key].(expiresAt := clock + ttl));
        worktrees := worktrees[key := lease.value];
      }
      Record(Renew(key, owner, token, ttl));
    }

    /** `illegal` when the change of status is not in the lease table. */
    method ReleaseLease(key: Key, owner: Owner, token: Option<Secret>, target: LeaseStatus)
      returns (lease: Option<Lease>, illegal: bool)
      requires Valid()
      modifies this
      ensures Did(Release(key, owner, token, target)) && lease == Row(old(Seen()), Release(key, owner, token, target))
      ensures illegal <==> key in old(worktrees) && old(worktrees)[key].status.Released? && target.Expired?
      ensures lease.Some? <==> !illegal && Owns(old(worktrees), key, owner, token, {Active, Expired})
      ensures lease.Some? ==> lease.value == old(worktrees)[key].(status := target)
      ensures Kept(old(worktrees), worktrees, key, lease) && agents == old(agents) && clock == old(clock)
    {
      Appended(calls, Release(key, owner, token, target));
      lease := None;
      illegal := key in worktrees && worktrees[key].status != target && !LeaseTable(worktrees[key].status, target);
      if !illegal && key in worktrees && Releasable(worktrees[key], owner, token) {
        lease := Some(worktrees[key].(status := target));
        worktrees := worktrees[key := lease.value];
      }
      Record(Release(key, owner, token, target));
    }

    method ExpireLeases()
      requires Valid()
      modifies this
      ensures Did(ListLeases) && ExpiredBy(old(worktrees), worktrees, clock) && agents == old(agents)
      ensures clock == old(clock)
    {
      Appended(calls, ListLeases);
      worktrees := map k | k in worktrees :: Lapsed(worktrees[k], clock);
      Record(ListLeases);
    }

    method AcquireAgentLease(key: Key, owner: Owner, secret: Secret, ttl: nat) returns (lease: Option<Lease>)
      requires Valid()
      modifies this
      ensures Did(AcquireAgent(key, owner, secret, ttl))
      ensures lease == Row(old(Seen()), AcquireAgent(key, owner, secret, ttl))
      ensures lease ==
        if key in old(agents) && old(agents)[key].status.Active? && clock < old(agents)[key].expiresAt then None
        else Some(Lease(owner, Some(secret), Active, clock, clock + ttl))
      ensures Kept(old(agents), agents, key, lease) && worktrees == old(worktrees) && clock == old(clock)
    {
      Appended(calls, AcquireAgent(key, owner, secret, ttl));
      if key in agents && agents[key].status.Active? && agents[key].expiresAt > clock { lease := None; } else {
        lease := Some(Lease(owner, Some(secret), Active, clock, clock + ttl));
        agents := agents[key := lease.value];
      }
      Record(AcquireAgent(key, owner, secret, ttl));
    }

    method RenewAgentLease(key: Key, owner: Owner, secret: Secret, ttl: nat) returns (lease: Option<Lease>)
      requires Valid()
      modifies this
      ensures Did(RenewAgent(key, owner, secret, ttl)) && lease == Row(old(Seen()), RenewAgent(key, owner, secret, ttl))
      ensures lease.Some? <==> Owns(old(agents), key, owner, Some(secret), {Active})
      ensures lease.Some? ==> lease.value == old(agents)[key].(expiresAt := clock + ttl)
      ensures Kept(old(agents), agents, key, lease) && worktrees == old(worktrees) && clock == old(clock)
    {
      Appended(calls, RenewAgent(key, owner, secret, ttl));
      lease := None;
      if key in agents && AgentHeldBy(agents[key], owner, secret) {
        lease := Some(agents[key].(expiresAt := clock + ttl));
        agents := agents[key := lease.value];
      }
      Record(RenewAgent(key, owner, secret, ttl));
    }

    method ReleaseAgentLease(key: Key, owner: Owner, secret: Secret, target: LeaseStatus) returns (lease: Option<Lease>)
      requires Valid()
      modifies this
      ensures Did(ReleaseAgent(key, owner, secret, target))
      ensures lease == Row(old(Seen()), ReleaseAgent(key, owner, secret, target))
      ensures lease.Some? <==> Owns(old(agents), key, owner, Some(secret), {Active})
      ensures lease.Some? ==> lease.value == old(agents)[key].(status := target)
      ensures Kept(old(agents), agents, key, lease) && worktrees == old(worktrees) && clock == old(clock)
    {
      Appended(calls, ReleaseAgent(key, owner, secret, target));
      lease := None;
      if key in agents && AgentHeldBy(agents[key], owner, secret) {
        lease := Some(agents[key].(status := target));
        agents := agents[key := lease.value];
      }
      Record(ReleaseAgent(key, owner, secret, target));
    }

    /** Expires the lapsed rows one by one, in any order. */
    method RecoverExpiredAgentLeases() returns (recovered: nat)
      requires Valid()
      modifies this
      ensures Did(RecoverAgents) && ExpiredBy(old(agents), agents, clock) && worktrees == old(worktrees)
      ensures clock == old(clock)
      ensures recovered == |set k | k in old(agents) && agents[k] != old(agents)[k]|
    {
      Appended(calls, RecoverAgents);
      var left := LapsedKeys(agents, clock);
      recovered := |left|;
      while left != {}
        invariant left <= LapsedKeys(old(agents), clock) && clock == old(clock) && worktrees == old(worktrees)
        invariant calls == old(calls) && PartlyLapsed(old(agents), agents, left, clock)
        decreases |left|
      {
        var k :| k in left;
        agents := agents[k := agents[k].(status := Expired)];
        left := left - {k};
      }
      assert agents == AllLapsed(old(agents), clock);
      assert LapsedKeys(old(agents), clock) == set k | k in old(agents) && agents[k] != old(agents)[k];
      Record(RecoverAgents);
    }
  }

  function LapsedKeys(table: map<Key, Lease>, now: int): set<Key> {
    set k | k in table && table[k].status.Active? && table[k].expiresAt <= now
  }

  ghost predicate PartlyLapsed(before: map<Key, Lease>, table: map<Key, Lease>, left: set<Key>, now: int) {
    table.Keys == before.Keys && forall k :: k in table ==>
      table[k] == if k in left then before[k] else Lapsed(before[k], now)
  }

  lemma Appended(cs: seq<Call>, c: Call)
    ensures AfterAll(cs + [c]) == After(AfterAll(cs), c)
  {
    assert (cs + [c])[..|cs|] == cs;
  }
}
