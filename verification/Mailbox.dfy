/** Requests, responses and notifications of one connection (src/app-server-client.js).
    Promises are modelled by the outcome they settle with. */
module Mailbox {
  import opened DomainStates

  type RequestId = nat
  type Message = nat
  type WaiterId = nat

  const Capacity := 1000

  /** How a promise settled; a waiter's `Took` names the notification by its place. */
  datatype Reply = Answered(result: nat) | Refused(error: nat) | Took(place: nat) | TimedOut | Exited

  /** Settled promises, oldest first. */
  datatype Settlement = Settlement(id: nat, reply: Reply)

  datatype Waiter = Waiter(id: WaiterId, wants: Message -> bool)

  /** What became of a notification. */
  datatype Fate = Kept | Taken(waiter: WaiterId) | Evicted

  /** The notifications still kept, in the order they came. */
  function Backlog(received: seq<Message>, fates: seq<Fate>): seq<Message>
    requires |received| == |fates|
  {
    if received == [] then [] else
      var n := |received| - 1;
      Backlog(received[..n], fates[..n]) + if fates[n].Kept? then [received[n]] else []
  }

  /** The place of the `k`-th kept notification. */
  function PlaceOf(received: seq<Message>, fates: seq<Fate>, k: nat): (p: nat)
    requires |received| == |fates| && k < |Backlog(received, fates)|
    ensures p < |received| && fates[p].Kept? && received[p] == Backlog(received, fates)[k]
    ensures |Backlog(received[..p], fates[..p])| == k
  {
    var n := |received| - 1;
    if k < |Backlog(received[..n], fates[..n])| then
      var p := PlaceOf(received[..n], fates[..n], k);
      assert received[..n][..p] == received[..p] && fates[..n][..p] == fates[..p];
      p
    else n
  }

  lemma {:induction false} Dropping(received: seq<Message>, fates: seq<Fate>, p: nat, fate: Fate)
    requires |received| == |fates| && p < |fates| && fates[p].Kept? && !fate.Kept?
    ensures var b, k := Backlog(received, fates), |Backlog(received[..p], fates[..p])|;
      k < |b| && Backlog(received, fates[p := fate]) == b[..k] + b[k + 1..]
  {
    var n := |received| - 1;
    if p == n {
      assert fates[p := fate][..n] == fates[..n];
    } else {
      Dropping(received[..n], fates[..n], p, fate);
      assert received[..n][..p] == received[..p] && fates[..n][..p] == fates[..p];
      assert fates[p := fate][..n] == fates[..n][p := fate];
    }
  }

  lemma Receiving(received: seq<Message>, fates: seq<Fate>, m: Message, fate: Fate)
    requires |received| == |fates|
    ensures Backlog(received + [m], fates + [fate]) == Backlog(received, fates) + if fate.Kept? then [m] else []
  {
    assert (received + [m])[..|received|] == received && (fates + [fate])[..|fates|] == fates;
  }

  ghost predicate OnceEach(settled: seq<Settlement>) {
    forall i, j :: 0 <= i < j < |settled| ==> settled[i].id != settled[j].id
  }

  ghost predicate Settled(settled: seq<Settlement>, id: nat) { exists i :: 0 <= i < |settled| && settled[i].id == id }

  lemma SettledAppend(settled: seq<Settlement>, s: Settlement)
    requires OnceEach(settled) && !Settled(settled, s.id)
    ensures OnceEach(settled + [s])
    ensures forall id: nat :: Settled(settled + [s], id) <==> Settled(settled, id) || id == s.id
  {
    var more := settled + [s];
    assert more[|settled|] == s;
    forall id: nat ensures Settled(more, id) <==> Settled(settled, id) || id == s.id {
      if Settled(settled, id) {
        var i :| 0 <= i < |settled| && settled[i].id == id;
        assert more[i].id == id;
      }
    }
  }

  /** No two waiters share an id, none has settled, all ids were handed out. */
  ghost predicate WaitersFit(waiters: seq<Waiter>, wakings: seq<Settlement>, next: WaiterId) {
    && OnceEach(wakings)
    && (forall i, j :: 0 <= i < j < |waiters| ==> waiters[i].id != waiters[j].id)
    && (forall i :: 0 <= i < |waiters| ==> waiters[i].id < next && !Settled(wakings, waiters[i].id))
    && (forall id: nat :: Settled(wakings, id) ==> id < next)
  }

  /** Nothing kept is what somebody waits for. */
  ghost predicate NobodyWaitsFor(waiters: seq<Waiter>, backlog: seq<Message>) {
    forall i, j :: 0 <= i < |waiters| && 0 <= j < |backlog| ==> !waiters[i].wants(backlog[j])
  }

  /** A notification was taken by a waiter iff that waiter settled with its place. */
  ghost predicate TakenMatch(fates: seq<Fate>, wakings: seq<Settlement>) {
    && (forall p :: 0 <= p < |fates| && fates[p].Taken? ==> Settlement(fates[p].waiter, Took(p)) in wakings)
    && (forall w :: w in wakings && w.reply.Took? ==> w.reply.place < |fates| && fates[w.reply.place] == Taken(w.id))
  }

  lemma WaitersShrink(waiters: seq<Waiter>, k: nat, wakings: seq<Settlement>, next: WaiterId, reply: Reply)
    requires WaitersFit(waiters, wakings, next) && k < |waiters|
    ensures WaitersFit(waiters[..k] + waiters[k + 1..], wakings + [Settlement(waiters[k].id, reply)], next)
  {
    SettledAppend(wakings, Settlement(waiters[k].id, reply));
    var rest := waiters[..k] + waiters[k + 1..];
    forall i | 0 <= i < |rest| ensures rest[i] == waiters[if i < k then i else i + 1] { }
  }

  lemma WakingElsewhere(fates: seq<Fate>, wakings: seq<Settlement>, s: Settlement)
    requires TakenMatch(fates, wakings) && !s.reply.Took?
    ensures TakenMatch(fates, wakings + [s])
  {
  }

  lemma TakingAt(fates: seq<Fate>, wakings: seq<Settlement>, p: nat, id: WaiterId)
    requires TakenMatch(fates, wakings) && p < |fates| && !fates[p].Taken?
    ensures TakenMatch(fates[p := Taken(id)], wakings + [Settlement(id, Took(p))])
  {
  }

  lemma Untaken(fates: seq<Fate>, wakings: seq<Settlement>, p: nat)
    requires TakenMatch(fates, wakings) && p < |fates| && !fates[p].Taken?
    ensures TakenMatch(fates[p := Evicted], wakings)
  {
  }

  lemma TakingNew(fates: seq<Fate>, wakings: seq<Settlement>, id: WaiterId)
    requires TakenMatch(fates, wakings)
    ensures TakenMatch(fates + [Taken(id)], wakings + [Settlement(id, Took(|fates|))])
    ensures TakenMatch(fates + [Kept], wakings)
  {
  }

  /** The first message that is wanted, or the length. */
  function FirstWanted(wants: Message -> bool, ms: seq<Message>): (k: nat)
    ensures k <= |ms| && (k < |ms| ==> wants(ms[k])) && forall i :: 0 <= i < k ==> !wants(ms[i])
  {
    if ms == [] then 0 else if wants(ms[0]) then 0 else 1 + FirstWanted(wants, ms[1..])
  }

  /** The first waiter that wants the message, or how many there are. */
  function FirstWaiter(waiters: seq<Waiter>, m: Message): (k: nat)
    ensures k <= |waiters| && (k < |waiters| ==> waiters[k].wants(m)) && forall i :: 0 <= i < k ==> !waiters[i].wants(m)
  {
    if waiters == [] then 0 else if waiters[0].wants(m) then 0 else 1 + FirstWaiter(waiters[1..], m)
  }

  method FindWanted(wants: Message -> bool, ms: seq<Message>) returns (k: nat)
    ensures k == FirstWanted(wants, ms)
  {
    k := 0;
    while k < |ms| && !wants(ms[k])
      invariant 0 <= k <= |ms| && FirstWanted(wants, ms) == k + FirstWanted(wants, ms[k..])
    {
      k := k + 1;
    }
  }

  method FindWaiter(waiters: seq<Waiter>, m: Message) returns (k: nat)
    ensures k == FirstWaiter(waiters, m)
  {
    k := 0;
    while k < |waiters| && !waiters[k].wants(m)
      invariant 0 <= k <= |waiters| && FirstWaiter(waiters, m) == k + FirstWaiter(waiters[k..], m)
    {
      k := k + 1;
    }
  }

  /** What the notifications' bookkeeping says of the backlog. */
  ghost predicate NotesFit(received: seq<Message>, fates: seq<Fate>, backlog: seq<Message>) {
    |received| == |fates| && backlog == Backlog(received, fates) && |backlog| <= Capacity
  }

  /** The whole bookkeeping of notifications. */
  ghost predicate Notes(received: seq<Message>, fates: seq<Fate>, backlog: seq<Message>, waiters: seq<Waiter>,
                        wakings: seq<Settlement>, next: WaiterId) {
    && NotesFit(received, fates, backlog)
    && NobodyWaitsFor(waiters, backlog)
    && WaitersFit(waiters, wakings, next)
    && TakenMatch(fates, wakings)
  }

  lemma Unawaited(waiters: seq<Waiter>, k: nat, backlog: seq<Message>)
    requires NobodyWaitsFor(waiters, backlog) && k < |waiters|
    ensures NobodyWaitsFor(waiters[..k] + waiters[k + 1..], backlog)
  {
    var rest := waiters[..k] + waiters[k + 1..];
    forall i | 0 <= i < |rest| ensures rest[i] == waiters[if i < k then i else i + 1] { }
  }

  /** A new notification goes to waiter `k`. */
  lemma Delivering(received: seq<Message>, fates: seq<Fate>, backlog: seq<Message>, waiters: seq<Waiter>,
                   wakings: seq<Settlement>, next: WaiterId, k: nat, m: Message)
    requires Notes(received, fates, backlog, waiters, wakings, next) && k < |waiters|
    ensures var id := waiters[k].id;
      Notes(received + [m], fates + [Taken(id)], backlog, waiters[..k] + waiters[k + 1..],
            wakings + [Settlement(id, Took(|fates|))], next)
  {
    var id := waiters[k].id;
    Receiving(received, fates, m, Taken(id));
    WaitersShrink(waiters, k, wakings, next, Took(|fates|));
    TakingNew(fates, wakings, id);
    Unawaited(waiters, k, backlog);
  }

  /** A waiter goes without a notification. */
  lemma Leaving(received: seq<Message>, fates: seq<Fate>, backlog: seq<Message>, waiters: seq<Waiter>,
                wakings: seq<Settlement>, next: WaiterId, k: nat, reply: Reply)
    requires Notes(received, fates, backlog, waiters, wakings, next) && k < |waiters| && !reply.Took?
    ensures Notes(received, fates, backlog, waiters[..k] + waiters[k + 1..],
                  wakings + [Settlement(waiters[k].id, reply)], next)
  {
    WaitersShrink(waiters, k, wakings, next, reply);
    WakingElsewhere(fates, wakings, Settlement(waiters[k].id, reply));
    Unawaited(waiters, k, backlog);
  }

  lemma FirstLeaving(received: seq<Message>, fates: seq<Fate>, backlog: seq<Message>, waiters: seq<Waiter>,
                     wakings: seq<Settlement>, next: WaiterId, reply: Reply)
    requires Notes(received, fates, backlog, waiters, wakings, next) && waiters != [] && !reply.Took?
    ensures Notes(received, fates, backlog, waiters[1..], wakings + [Settlement(waiters[0].id, reply)], next)
  {
    Leaving(received, fates, backlog, waiters, wakings, next, 0, reply);
    assert waiters[..0] + waiters[1..] == waiters[1..];
  }

  /** A new notification that nobody wants is kept, one beyond the capacity at most. */
  lemma Keeping(received: seq<Message>, fates: seq<Fate>, backlog: seq<Message>, waiters: seq<Waiter>,
                wakings: seq<Settlement>, next: WaiterId, m: Message)
    requires Notes(received, fates, backlog, waiters, wakings, next)
    requires forall i :: 0 <= i < |waiters| ==> !waiters[i].wants(m)
    ensures Backlog(received + [m], fates + [Kept]) == backlog + [m]
    ensures NobodyWaitsFor(waiters, backlog + [m]) && TakenMatch(fates + [Kept], wakings)
  {
    Receiving(received, fates, m, Kept);
    TakingNew(fates, wakings, 0);
  }

  class Client {
    var nextRequestId: RequestId
    var pending: map<RequestId, nat>
    var backlog: seq<Message>
    var waiters: seq<Waiter>
    var nextWaiter: WaiterId
    ghost var received: seq<Message>
    ghost var fates: seq<Fate>
    ghost var answers: seq<Settlement>
    ghost var wakings: seq<Settlement>

    /** Each issued request is pending or settled, and settled at most once. */
    ghost predicate RequestsValid()
      reads this`nextRequestId, this`pending, this`answers
    {
      && OnceEach(answers)
      && (forall id: nat :: Settled(answers, id) ==> 1 <= id < nextRequestId)
      && (forall id :: id in pending <==> 1 <= id < nextRequestId && !Settled(answers, id))
    }

    /** The backlog is what was kept, in order and within capacity; nothing in it is awaited;
        every notification has one fate and every waiter settles at most once. */
    ghost predicate NotesValid()
      reads this`backlog, this`waiters, this`nextWaiter, this`received, this`fates, this`wakings
    {
      Notes(received, fates, backlog, waiters, wakings, nextWaiter)
    }

    ghost predicate Valid()
      reads this
    {
      1 <= nextRequestId && RequestsValid() && NotesValid()
    }

    constructor ()
      ensures Valid() && pending == map[] && backlog == [] && waiters == [] && received == [] && answers == []
    {
      nextRequestId, pending, backlog, waiters := 1, map[], [], [];
      nextWaiter, received, fates, answers, wakings := 0, [], [], [], [];
    }

    /** A disconnected client rejects at once and issues no id. */
    method Request(kind: nat, connected: bool) returns (id: Option<RequestId>)
      requires Valid()
      modifies this`nextRequestId, this`pending
      ensures Valid()
      ensures if connected then
                && id == Some(old(nextRequestId)) && nextRequestId == old(nextRequestId) + 1
                && id.value !in old(pending) && pending == old(pending)[id.value := kind]
              else id.None? && pending == old(pending) && nextRequestId == old(nextRequestId)
    {
      if !connected { return None; }
      id := Some(nextRequestId);
      pending := pending[nextRequestId := kind];
      nextRequestId := nextRequestId + 1;
    }

    /** Settles request `id` if it is pending; otherwise nothing happens. */
    method Settle(id: RequestId, reply: Reply) returns (done: bool)
      requires Valid()
      modifies this`pending, this`answers
      ensures Valid() && (done <==> id in old(pending))
      ensures if done then pending == old(pending) - {id} && answers == old(answers) + [Settlement(id, reply)]
              else pending == old(pending) && answers == old(answers)
    {
      done := id in pending;
      if done {
        SettledAppend(answers, Settlement(id, reply));
        pending := pending - {id};
        answers := answers + [Settlement(id, reply)];
      }
    }

    /** A response line: resolves or rejects its request, or is an orphan. */
    method HandleResponse(id: RequestId, error: Option<nat>, result: nat) returns (orphan: bool)
      requires Valid()
      modifies this`pending, this`answers
      ensures Valid() && (orphan <==> id !in old(pending)) && id !in pending
      ensures !orphan ==>
        answers == old(answers) + [Settlement(id, if error.Some? then Refused(error.value) else Answered(result))]
      ensures orphan ==> answers == old(answers) && pending == old(pending)
    {
      var done := Settle(id, if error.Some? then Refused(error.value) else Answered(result));
      orphan := !done;
    }

    method RequestTimesOut(id: RequestId)
      requires Valid()
      modifies this`pending, this`answers
      ensures Valid() && id !in pending
      ensures id in old(pending) ==> answers == old(answers) + [Settlement(id, TimedOut)]
      ensures id !in old(pending) ==> answers == old(answers)
    {
      var _ := Settle(id, TimedOut);
    }

    /** Takes the oldest kept notification that fits; without one, joins the waiters. */
    method WaitForNotification(wants: Message -> bool) returns (id: WaiterId, found: Option<Message>)
      requires Valid()
      modifies this`backlog, this`waiters, this`nextWaiter, this`fates, this`wakings
      ensures Valid() && id == old(nextWaiter) && nextWaiter == id + 1
      ensures found.None? ==>
        && (forall i :: 0 <= i < |old(backlog)| ==> !wants(old(backlog)[i]))
        && waiters == old(waiters) + [Waiter(id, wants)] && backlog == old(backlog) && fates == old(fates)
      ensures found.Some? ==>
        var k := FirstWanted(wants, old(backlog));
        && k < |old(backlog)| && found.value == old(backlog)[k] && waiters == old(waiters)
        && backlog == old(backlog)[..k] + old(backlog)[k + 1..]
        && fates == old(fates)[PlaceOf(received, old(fates), k) := Taken(id)]
    {
      id := nextWaiter;
      var k := FindWanted(wants, backlog);
      if k < |backlog| {
        found := Some(backlog[k]);
        TakeKept(k);
      } else {
        found := None;
        JoinWaiters(wants);
      }
    }

    method JoinWaiters(wants: Message -> bool)
      requires NotesValid() && forall i :: 0 <= i < |backlog| ==> !wants(backlog[i])
      modifies this`waiters, this`nextWaiter
      ensures NotesValid() && nextWaiter == old(nextWaiter) + 1
      ensures waiters == old(waiters) + [Waiter(old(nextWaiter), wants)]
    {
      waiters := waiters + [Waiter(nextWaiter, wants)];
      nextWaiter := nextWaiter + 1;
    }

    method TakeKept(k: nat)
      requires NotesValid() && k < |backlog|
      modifies this`backlog, this`fates, this`wakings, this`nextWaiter
      ensures NotesValid() && backlog == old(backlog)[..k] + old(backlog)[k + 1..] && nextWaiter == old(nextWaiter) + 1
      ensures fates == old(fates)[PlaceOf(received, old(fates), k) := Taken(old(nextWaiter))]
    {
      var id := nextWaiter;
      nextWaiter := nextWaiter + 1;
      ghost var p := PlaceOf(received, fates, k);
      Dropping(received, fates, p, Taken(id));
      TakingAt(fates, wakings, p, id);
      SettledAppend(wakings, Settlement(id, Took(p)));
      backlog := backlog[..k] + backlog[k + 1..];
      fates := fates[p := Taken(id)];
      wakings := wakings + [Settlement(id, Took(p))];
    }

    method WaiterTimesOut(k: nat)
      requires Valid() && k < |waiters|
      modifies this`waiters, this`wakings
      ensures Valid() && waiters == old(waiters)[..k] + old(waiters)[k + 1..]
      ensures wakings == old(wakings) + [Settlement(old(waiters)[k].id, TimedOut)]
    {
      Leaving(received, fates, backlog, waiters, wakings, nextWaiter, k, TimedOut);
      wakings := wakings + [Settlement(waiters[k].id, TimedOut)];
      waiters := waiters[..k] + waiters[k + 1..];
    }

    /** The first waiter that wants the notification gets it, alone; otherwise it is kept, at
        the cost of the oldest one kept if there are too many. */
    method ResolveNotificationWaiter(m: Message)
      requires Valid()
      modifies this`backlog, this`waiters, this`received, this`fates, this`wakings
      ensures Valid() && received == old(received) + [m]
      ensures var k := FirstWaiter(old(waiters), m);
        if k < |old(waiters)| then
          && waiters == old(waiters)[..k] + old(waiters)[k + 1..] && backlog == old(backlog)
          && fates == old(fates) + [Taken(old(waiters)[k].id)]
        else
          && waiters == old(waiters) && wakings == old(wakings)
          && backlog == (if |old(backlog)| < 1000 then old(backlog) else old(backlog)[1..]) + [m]
    {
      var k := FindWaiter(waiters, m);
      if k < |waiters| { Deliver(k, m); } else { Keep(m); }
    }

    method Deliver(k: nat, m: Message)
      requires Valid() && k < |waiters|
      modifies this`waiters, this`received, this`fates, this`wakings
      ensures Valid() && received == old(received) + [m] && fates == old(fates) + [Taken(old(waiters)[k].id)]
      ensures waiters == old(waiters)[..k] + old(waiters)[k + 1..]
    {
      var id := waiters[k].id;
      Delivering(received, fates, backlog, waiters, wakings, nextWaiter, k, m);
      wakings := wakings + [Settlement(id, Took(|fates|))];
      waiters := waiters[..k] + waiters[k + 1..];
      received, fates := received + [m], fates + [Taken(id)];
    }

    method Keep(m: Message)
      requires Valid() && forall i :: 0 <= i < |waiters| ==> !waiters[i].wants(m)
      modifies this`backlog, this`received, this`fates
      ensures Valid() && received == old(received) + [m]
      ensures backlog == (if |old(backlog)| < Capacity then old(backlog) else old(backlog)[1..]) + [m]
    {
      PushKept(m);
      if |backlog| > Capacity { EvictOldest(); }
    }

    method PushKept(m: Message)
      requires NotesValid() && forall i :: 0 <= i < |waiters| ==> !waiters[i].wants(m)
      modifies this`backlog, this`received, this`fates
      ensures received == old(received) + [m] && backlog == old(backlog) + [m]
      ensures |received| == |fates| && backlog == Backlog(received, fates)
      ensures NobodyWaitsFor(waiters, backlog) && WaitersFit(waiters, wakings, nextWaiter) && TakenMatch(fates, wakings)
    {
      Keeping(received, fates, backlog, waiters, wakings, nextWaiter, m);
      received, fates, backlog := received + [m], fates + [Kept], backlog + [m];
    }

    method EvictOldest()
      requires |received| == |fates| && backlog == Backlog(received, fates) && |backlog| == Capacity + 1
      requires NobodyWaitsFor(waiters, backlog) && WaitersFit(waiters, wakings, nextWaiter)
      requires TakenMatch(fates, wakings)
      modifies this`backlog, this`fates
      ensures NotesValid() && backlog == old(backlog)[1..]
    {
      ghost var p := PlaceOf(received, fates, 0);
      Dropping(received, fates, p, Evicted);
      Untaken(fates, wakings, p);
      fates := fates[p := Evicted];
      backlog := backlog[1..];
    }

    /** After the process has gone nothing is pending and nobody waits; everything that was
        has settled with the exit. */
    method HandleExit()
      requires Valid()
      modifies this`pending, this`answers, this`waiters, this`wakings
      ensures Valid() && pending == map[] && waiters == []
      ensures forall id :: id in old(pending) ==> Settlement(id, Exited) in answers
      ensures forall i :: 0 <= i < |old(waiters)| ==> Settlement(old(waiters)[i].id, Exited) in wakings
    {
      RejectPending();
      RejectWaiters();
    }

    method RejectPending()
      requires Valid()
      modifies this`pending, this`answers
      ensures Valid() && pending == map[]
      ensures forall id :: id in old(pending) ==> Settlement(id, Exited) in answers
    {
      while pending != map[]
        invariant Valid() && pending.Keys <= old(pending).Keys
        invariant forall id :: id in old(pending) && id !in pending ==> Settlement(id, Exited) in answers
        decreases |pending|
      {
        var id :| id in pending;
        var _ := Settle(id, Exited);
      }
    }

    method RejectWaiters()
      requires NotesValid()
      modifies this`waiters, this`wakings
      ensures NotesValid() && waiters == []
      ensures forall i :: 0 <= i < |old(waiters)| ==> Settlement(old(waiters)[i].id, Exited) in wakings
    {
      ghost var gone := 0;
      while waiters != []
        invariant NotesValid() && gone <= |old(waiters)| && waiters == old(waiters)[gone..]
        invariant forall i :: 0 <= i < gone ==> Settlement(old(waiters)[i].id, Exited) in wakings
        decreases |waiters|
      {
        RejectFirst();
        gone := gone + 1;
      }
    }

    method RejectFirst()
      requires NotesValid() && waiters != []
      modifies this`waiters, this`wakings
      ensures NotesValid() && waiters == old(waiters)[1..]
      ensures wakings == old(wakings) + [Settlement(old(waiters)[0].id, Exited)]
    {
      FirstLeaving(received, fates, backlog, waiters, wakings, nextWaiter, Exited);
      wakings := wakings + [Settlement(waiters[0].id, Exited)];
      waiters := waiters[1..];
    }
  }

  /** Whatever happened to a client: no two notifications went to one waiter, and a waiter that
      took one settled with nothing else. */
  lemma OneWaiterEach(fates: seq<Fate>, wakings: seq<Settlement>, p: nat, q: nat)
    requires OnceEach(wakings) && TakenMatch(fates, wakings) && p < q < |fates| && fates[p].Taken? && fates[q].Taken?
    ensures fates[p].waiter != fates[q].waiter
  {
    var i :| 0 <= i < |wakings| && wakings[i] == Settlement(fates[p].waiter, Took(p));
    var j :| 0 <= j < |wakings| && wakings[j] == Settlement(fates[q].waiter, Took(q));
    assert i != j;
  }
}
