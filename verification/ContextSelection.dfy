/** Conflict grouping and budgeted selection of context claims (src/context-resolver.js). */
module ContextSelection {
  import opened DomainStates

  type ClaimId = nat
  type Subject = nat
  type Thread = nat
  type Word = nat

  datatype Category = Authorization | Workspace | ContractCategory | Factual | Preference

  /** `size` is the length of body and subject, `words` are their tokens, `category` is what
      conflictCategory makes of the claim. */
  datatype Claim = Claim(
    id: ClaimId,
    project: Option<nat>,
    scope: nat,
    subject: Option<Subject>,
    content: nat,
    rank: nat,
    size: nat,
    words: set<Word>,
    category: Category)

  datatype Candidate = Candidate(claim: Claim, score: int)

  datatype Key = Key(project: Option<nat>, scope: nat, subject: Subject)

  /** `objective` are the tokens of the objective and the required subjects. */
  datatype Request = Request(
    excluded: set<ClaimId>, required: set<Subject>, missingThreads: set<Thread>, budget: int, objective: set<Word>)

  predicate Required(c: Claim, r: Request) { c.subject.Some? && c.subject.value in r.required }

  function Score(c: Claim, r: Request): nat {
    c.rank * 100 + |r.objective * c.words| * 10 + if Required(c, r) then 1000 else 0
  }

  function Evaluated(claims: seq<Claim>, r: Request): seq<Candidate> {
    seq(|claims|, i requires 0 <= i < |claims| => Candidate(claims[i], Score(claims[i], r)))
  }

  // ---------- Conflicts ----------

  predicate Grouped(c: Candidate, r: Request) { c.claim.subject.Some? && c.claim.id !in r.excluded }

  function KeyOf(c: Claim): Key
    requires c.subject.Some?
  {
    Key(c.project, c.scope, c.subject.value)
  }

  function GroupOf(cs: seq<Candidate>, key: Key, r: Request): (g: seq<Candidate>)
    ensures forall c :: c in g <==> c in cs && Grouped(c, r) && KeyOf(c.claim) == key
  {
    if cs == [] then [] else
      var before, c := GroupOf(cs[..|cs| - 1], key, r), cs[|cs| - 1];
      if Grouped(c, r) && KeyOf(c.claim) == key then before + [c] else before
  }

  predicate Disputed(g: seq<Candidate>) { exists a, b :: a in g && b in g && a.claim.content != b.claim.content }

  /** The first of the highest rank. */
  function Winner(g: seq<Candidate>): (w: Candidate)
    requires g != []
    ensures w in g && forall c :: c in g ==> c.claim.rank <= w.claim.rank
  {
    if |g| == 1 then g[0] else
      var w := Winner(g[..|g| - 1]);
      if g[|g| - 1].claim.rank > w.claim.rank then g[|g| - 1] else w
  }

  predicate Grave(c: Claim, r: Request) {
    c.category in {Authorization, ContractCategory, Workspace}
    || (c.category.Factual? && Required(c, r))
  }

  predicate Blocks(g: seq<Candidate>, r: Request) { Disputed(g) && Grave(Winner(g).claim, r) }

  ghost predicate BlockedBy(cs: seq<Candidate>, id: ClaimId, r: Request) {
    exists c :: c in cs && c.claim.id == id && Grouped(c, r) && Blocks(GroupOf(cs, KeyOf(c.claim), r), r)
  }

  method WinnerOf(g: seq<Candidate>) returns (w: Candidate)
    requires g != []
    ensures w == Winner(g)
  {
    w := g[0];
    assert g[..1] == [g[0]];
    for i := 1 to |g|
      invariant w == Winner(g[..i])
    {
      assert g[..i + 1][..i] == g[..i];
      if g[i].claim.rank > w.claim.rank { w := g[i]; }
    }
    assert g[..|g|] == g;
  }

  method IsDisputed(g: seq<Candidate>) returns (yes: bool)
    ensures yes <==> Disputed(g)
  {
    for i := 0 to |g|
      invariant forall k :: 0 <= k < i ==> g[k].claim.content == g[0].claim.content
    {
      if g[i].claim.content != g[0].claim.content {
        assert g[i] in g && g[0] in g;
        return true;
      }
    }
    yes := false;
  }

  method GroupCandidates(cs: seq<Candidate>, r: Request) returns (groups: map<Key, seq<Candidate>>)
    ensures GroupsOf(groups, cs, r) && forall k :: k in groups ==> groups[k] != []
  {
    groups := map[];
    for i := 0 to |cs|
      invariant forall k :: k in groups ==> groups[k] == GroupOf(cs[..i], k, r) && groups[k] != []
      invariant forall k :: k !in groups ==> GroupOf(cs[..i], k, r) == []
    {
      var c := cs[i];
      assert cs[..i + 1][..i] == cs[..i];
      if Grouped(c, r) {
        var key := KeyOf(c.claim);
        var group := if key in groups then groups[key] else [];
        groups := groups[key := group + [c]];
      }
    }
    assert cs[..|cs|] == cs;
    forall k ensures k in groups <==> exists c :: c in cs && Grouped(c, r) && KeyOf(c.claim) == k {
      if k in groups { assert groups[k][0] in cs; }
      if c :| c in cs && Grouped(c, r) && KeyOf(c.claim) == k { assert c in GroupOf(cs, k, r); }
    }
  }

  function Ids(g: seq<Candidate>): set<ClaimId> { set c | c in g :: c.claim.id }

  ghost predicate GroupsOf(groups: map<Key, seq<Candidate>>, cs: seq<Candidate>, r: Request) {
    && (forall k :: k in groups <==> exists c :: c in cs && Grouped(c, r) && KeyOf(c.claim) == k)
    && (forall k :: k in groups ==> groups[k] == GroupOf(cs, k, r))
  }

  ghost predicate InBlockingGroup(groups: map<Key, seq<Candidate>>, keys: set<Key>, id: ClaimId, r: Request) {
    exists k :: k in keys && k in groups && Blocks(groups[k], r) && id in Ids(groups[k])
  }

  lemma BlockedIffGroup(cs: seq<Candidate>, groups: map<Key, seq<Candidate>>, id: ClaimId, r: Request)
    requires GroupsOf(groups, cs, r)
    ensures BlockedBy(cs, id, r) <==> InBlockingGroup(groups, groups.Keys, id, r)
  {
    if BlockedBy(cs, id, r) {
      var c :| c in cs && c.claim.id == id && Grouped(c, r) && Blocks(GroupOf(cs, KeyOf(c.claim), r), r);
      assert c in groups[KeyOf(c.claim)];
    }
    if InBlockingGroup(groups, groups.Keys, id, r) {
      var k :| k in groups && Blocks(groups[k], r) && id in Ids(groups[k]);
      var c :| c in groups[k] && c.claim.id == id;
      assert KeyOf(c.claim) == k;
    }
  }

  method GroupBlocks(g: seq<Candidate>, r: Request) returns (blocks: bool)
    requires g != []
    ensures blocks <==> Blocks(g, r)
  {
    var disputed := IsDisputed(g);
    if !disputed { return false; }
    var winner := WinnerOf(g);
    blocks := Grave(winner.claim, r);
  }

  ghost predicate OneMore(groups: map<Key, seq<Candidate>>, done: set<Key>, key: Key, id: ClaimId, r: Request)
    requires key in groups
  {
    InBlockingGroup(groups, done, id, r) || (Blocks(groups[key], r) && id in Ids(groups[key]))
  }

  lemma OneMoreGroup(groups: map<Key, seq<Candidate>>, done: set<Key>, key: Key, r: Request)
    requires key in groups
    ensures forall id :: InBlockingGroup(groups, done + {key}, id, r) <==> OneMore(groups, done, key, id, r)
  {
  }

  /** The ids in blocking conflicts. */
  method BlockingConflicts(cs: seq<Candidate>, r: Request) returns (blocked: set<ClaimId>)
    ensures forall id :: id in blocked <==> BlockedBy(cs, id, r)
  {
    var groups := GroupCandidates(cs, r);
    var done: set<Key> := {};
    blocked := {};
    while done != groups.Keys
      invariant done <= groups.Keys
      invariant forall id :: id in blocked <==> InBlockingGroup(groups, done, id, r)
      decreases |groups.Keys - done|
    {
      var key :| key in groups.Keys - done;
      assert groups.Keys - (done + {key}) < groups.Keys - done;
      OneMoreGroup(groups, done, key, r);
      var blocks := GroupBlocks(groups[key], r);
      if blocks { blocked := blocked + Ids(groups[key]); }
      done := done + {key};
    }
    forall id ensures id in blocked <==> BlockedBy(cs, id, r) { BlockedIffGroup(cs, groups, id, r); }
  }

  // ---------- Budgeted selection ----------

  datatype Reason = ExplicitlyExcluded | BlockingConflict | ContextBudget

  datatype Dropped = Dropped(candidate: Candidate, reason: Reason)

  /** The characters taken by the first `n` candidates of the ranking. */
  function Used(ranked: seq<Candidate>, n: nat, blocked: set<ClaimId>, r: Request): nat
    requires n <= |ranked|
    decreases n, 0
  {
    if n == 0 then 0
    else
      Used(ranked, n - 1, blocked, r)
      + if ReasonAt(ranked, n - 1, blocked, r).None? then ranked[n - 1].claim.size else 0
  }

  /** Why candidate `i` is dropped, if it is. */
  function ReasonAt(ranked: seq<Candidate>, i: nat, blocked: set<ClaimId>, r: Request): Option<Reason>
    requires i < |ranked|
    decreases i, 1
  {
    var c := ranked[i].claim;
    if c.id in r.excluded then Some(ExplicitlyExcluded)
    else if c.id in blocked then Some(BlockingConflict)
    else if Used(ranked, i, blocked, r) + c.size > r.budget then Some(ContextBudget)
    else None
  }

  function Picks(ranked: seq<Candidate>, n: nat, blocked: set<ClaimId>, r: Request): seq<Candidate>
    requires n <= |ranked|
  {
    if n == 0 then [] else
      var before := Picks(ranked, n - 1, blocked, r);
      if ReasonAt(ranked, n - 1, blocked, r).None? then before + [ranked[n - 1]] else before
  }

  function Drops(ranked: seq<Candidate>, n: nat, blocked: set<ClaimId>, r: Request): seq<Dropped>
    requires n <= |ranked|
  {
    if n == 0 then [] else
      var before, reason := Drops(ranked, n - 1, blocked, r), ReasonAt(ranked, n - 1, blocked, r);
      if reason.Some? then before + [Dropped(ranked[n - 1], reason.value)] else before
  }

  function Size(cs: seq<Candidate>): nat { if cs == [] then 0 else Size(cs[..|cs| - 1]) + cs[|cs| - 1].claim.size }

  function Candidates(ds: seq<Dropped>): seq<Candidate> {
    if ds == [] then [] else Candidates(ds[..|ds| - 1]) + [ds[|ds| - 1].candidate]
  }

  method SelectClaims(ranked: seq<Candidate>, blocked: set<ClaimId>, r: Request)
    returns (selected: seq<Candidate>, dropped: seq<Dropped>, used: nat)
    ensures selected == Picks(ranked, |ranked|, blocked, r) && used == Used(ranked, |ranked|, blocked, r)
    ensures dropped == Drops(ranked, |ranked|, blocked, r)
  {
    selected, dropped, used := [], [], 0;
    for i := 0 to |ranked|
      invariant selected == Picks(ranked, i, blocked, r) && used == Used(ranked, i, blocked, r)
      invariant dropped == Drops(ranked, i, blocked, r)
    {
      var c := ranked[i];
      var reason := None;
      if c.claim.id in r.excluded { reason := Some(ExplicitlyExcluded); }
      else if c.claim.id in blocked { reason := Some(BlockingConflict); }
      else if used + c.claim.size > r.budget { reason := Some(ContextBudget); }
      if reason.Some? {
        dropped := dropped + [Dropped(c, reason.value)];
      } else {
        selected, used := selected + [c], used + c.claim.size;
      }
    }
  }

  lemma CandidatesGrow(ds: seq<Dropped>, d: Dropped)
    ensures Candidates(ds + [d]) == Candidates(ds) + [d.candidate]
  {
    assert (ds + [d])[..|ds|] == ds;
  }

  lemma SizeGrows(cs: seq<Candidate>, c: Candidate)
    ensures Size(cs + [c]) == Size(cs) + c.claim.size
  {
    assert (cs + [c])[..|cs|] == cs;
  }

  /** The two lists together hold every candidate as often as `all` does. */
  ghost predicate Parts(picks: seq<Candidate>, drops: seq<Dropped>, all: seq<Candidate>) {
    multiset(picks) + multiset(Candidates(drops)) == multiset(all)
  }

  lemma PartsGrow(picks: seq<Candidate>, drops: seq<Dropped>, all: seq<Candidate>, c: Candidate, reason: Reason)
    requires Parts(picks, drops, all)
    ensures Parts(picks + [c], drops, all + [c]) && Parts(picks, drops + [Dropped(c, reason)], all + [c])
  {
    CandidatesGrow(drops, Dropped(c, reason));
  }

  lemma PartsStep(picks: seq<Candidate>, drops: seq<Dropped>, all: seq<Candidate>, c: Candidate, reason: Option<Reason>)
    requires Parts(picks, drops, all)
    ensures Parts(if reason.None? then picks + [c] else picks,
                  if reason.Some? then drops + [Dropped(c, reason.value)] else drops, all + [c])
  {
    PartsGrow(picks, drops, all, c, if reason.Some? then reason.value else ContextBudget);
  }

  lemma SelectionStep(ranked: seq<Candidate>, n: nat, blocked: set<ClaimId>, r: Request)
    requires n < |ranked|
    ensures var c, reason := ranked[n], ReasonAt(ranked, n, blocked, r);
      && ranked[..n + 1] == ranked[..n] + [c]
      && Picks(ranked, n + 1, blocked, r)
         == (if reason.None? then Picks(ranked, n, blocked, r) + [c] else Picks(ranked, n, blocked, r))
      && Drops(ranked, n + 1, blocked, r)
         == Drops(ranked, n, blocked, r) + if reason.Some? then [Dropped(c, reason.value)] else []
  {
  }

  ghost predicate Parted(ranked: seq<Candidate>, n: nat, blocked: set<ClaimId>, r: Request)
    requires n <= |ranked|
  {
    Parts(Picks(ranked, n, blocked, r), Drops(ranked, n, blocked, r), ranked[..n])
  }

  lemma PartedStep(ranked: seq<Candidate>, n: nat, blocked: set<ClaimId>, r: Request)
    requires n < |ranked| && Parted(ranked, n, blocked, r)
    ensures Parted(ranked, n + 1, blocked, r)
  {
    SelectionStep(ranked, n, blocked, r);
    PartsStep(Picks(ranked, n, blocked, r), Drops(ranked, n, blocked, r), ranked[..n], ranked[n],
              ReasonAt(ranked, n, blocked, r));
  }

  lemma {:induction false} Partition(ranked: seq<Candidate>, n: nat, blocked: set<ClaimId>, r: Request)
    requires n <= |ranked|
    ensures Parts(Picks(ranked, n, blocked, r), Drops(ranked, n, blocked, r), ranked[..n])
  {
    if n > 0 {
      Partition(ranked, n - 1, blocked, r);
      PartedStep(ranked, n - 1, blocked, r);
      assert Parted(ranked, n, blocked, r);
    } else {
      assert ranked[..n] == [];
    }
  }

  /** The selection fills exactly the characters used, and stays within the budget. */
  lemma {:induction false} PicksFit(ranked: seq<Candidate>, n: nat, blocked: set<ClaimId>, r: Request)
    requires n <= |ranked|
    ensures Size(Picks(ranked, n, blocked, r)) == Used(ranked, n, blocked, r)
    ensures Used(ranked, n, blocked, r) > 0 ==> Used(ranked, n, blocked, r) <= r.budget
  {
    if n > 0 {
      PicksFit(ranked, n - 1, blocked, r);
      var before := Picks(ranked, n - 1, blocked, r);
      if ReasonAt(ranked, n - 1, blocked, r).None? {
        SizeGrows(before, ranked[n - 1]);
        assert Picks(ranked, n, blocked, r) == before + [ranked[n - 1]];
      } else {
        assert Picks(ranked, n, blocked, r) == before;
      }
    }
  }

  lemma {:induction false} PicksAllowed(ranked: seq<Candidate>, n: nat, blocked: set<ClaimId>, r: Request, c: Candidate)
    requires n <= |ranked| && c in Picks(ranked, n, blocked, r)
    ensures c.claim.id !in r.excluded && c.claim.id !in blocked
  {
    if c in Picks(ranked, n - 1, blocked, r) { PicksAllowed(ranked, n - 1, blocked, r, c); }
  }

  /** Each drop has its cause; one for want of room would not fit even beside what was selected
      in the end. */
  ghost predicate Justified(d: Dropped, used: nat, blocked: set<ClaimId>, r: Request) {
    var id := d.candidate.claim.id;
    match d.reason
    case ExplicitlyExcluded => id in r.excluded
    case BlockingConflict => id in blocked && id !in r.excluded
    case ContextBudget => id !in r.excluded && id !in blocked && used + d.candidate.claim.size > r.budget
  }

  lemma {:induction false} DropsJustified(ranked: seq<Candidate>, n: nat, blocked: set<ClaimId>, r: Request, d: Dropped)
    requires n <= |ranked| && d in Drops(ranked, n, blocked, r)
    ensures Justified(d, Used(ranked, n, blocked, r), blocked, r)
  {
    if d in Drops(ranked, n - 1, blocked, r) { DropsJustified(ranked, n - 1, blocked, r, d); }
  }

  // ---------- Ranking ----------

  predicate Precedes(a: Candidate, b: Candidate) {
    a.score > b.score || (a.score == b.score && a.claim.id <= b.claim.id)
  }

  ghost predicate Sorted(cs: seq<Candidate>) { forall i, j :: 0 <= i < j < |cs| ==> Precedes(cs[i], cs[j]) }

  function Insert(c: Candidate, cs: seq<Candidate>): seq<Candidate> {
    if cs == [] || Precedes(c, cs[0]) then [c] + cs else [cs[0]] + Insert(c, cs[1..])
  }

  /** The builtin sort by score, then id. */
  function Ranking(cs: seq<Candidate>): seq<Candidate> { if cs == [] then [] else Insert(cs[0], Ranking(cs[1..])) }

  lemma {:induction false} InsertPermutes(c: Candidate, cs: seq<Candidate>)
    ensures multiset(Insert(c, cs)) == multiset(cs) + multiset{c}
  {
    if cs != [] && !Precedes(c, cs[0]) {
      assert cs == [cs[0]] + cs[1..];
      InsertPermutes(c, cs[1..]);
    }
  }

  lemma {:induction false} InsertSorts(c: Candidate, cs: seq<Candidate>)
    requires Sorted(cs)
    ensures Sorted(Insert(c, cs))
  {
    if cs != [] && !Precedes(c, cs[0]) {
      InsertSorts(c, cs[1..]);
      InsertPermutes(c, cs[1..]);
      var rest := Insert(c, cs[1..]);
      forall x | x in rest ensures Precedes(cs[0], x) {
        assert x in multiset(rest);
      }
    }
  }

  lemma {:induction false} RankingSorts(cs: seq<Candidate>)
    ensures Sorted(Ranking(cs)) && multiset(Ranking(cs)) == multiset(cs)
  {
    if cs != [] {
      assert cs == [cs[0]] + cs[1..];
      RankingSorts(cs[1..]);
      InsertSorts(cs[0], Ranking(cs[1..]));
      InsertPermutes(cs[0], Ranking(cs[1..]));
    }
  }

  // ---------- Resolution ----------

  datatype Cause = UnresolvedConflict | RequiredMissing | ThreadKnowledgeMissing

  /** `cause` is None for a valid snapshot. */
  datatype Snapshot = Snapshot(
    cause: Option<Cause>, blocked: set<ClaimId>, selected: seq<Candidate>, dropped: seq<Dropped>, used: nat)

  predicate Available(cs: seq<Candidate>, s: Subject, r: Request) {
    exists c :: c in cs && c.claim.id !in r.excluded && c.claim.subject == Some(s)
  }

  /** Some claim on the subject is not excluded. */
  predicate Given(claims: seq<Claim>, s: Subject, r: Request) {
    exists i :: 0 <= i < |claims| && claims[i].subject == Some(s) && claims[i].id !in r.excluded
  }

  lemma AvailableMeans(claims: seq<Claim>, s: Subject, r: Request)
    ensures Available(Evaluated(claims, r), s, r) <==> Given(claims, s, r)
  {
    var cs := Evaluated(claims, r);
    if Available(cs, s, r) {
      var c :| c in cs && c.claim.id !in r.excluded && c.claim.subject == Some(s);
      var i :| 0 <= i < |cs| && cs[i] == c;
      assert claims[i] == c.claim;
    }
    if Given(claims, s, r) {
      var i :| 0 <= i < |claims| && claims[i].subject == Some(s) && claims[i].id !in r.excluded;
      assert cs[i].claim == claims[i];
    }
  }

  function MissingSubjects(cs: seq<Candidate>, r: Request): (missing: set<Subject>)
    ensures missing == {} <==> forall x :: x in r.required ==> Available(cs, x, r)
  {
    var missing := set x | x in r.required && !Available(cs, x, r);
    assert forall x :: x in r.required && !Available(cs, x, r) ==> x in missing;
    missing
  }

  /** Authority weighs a hundred a rank, a word shared with the objective ten, being required a
      thousand. */
  predicate Scored(c: Candidate, r: Request) {
    c.score == 100 * c.claim.rank + 10 * |r.objective * c.claim.words|
               + if c.claim.subject.Some? && c.claim.subject.value in r.required then 1000 else 0
  }

  predicate AllScored(claims: seq<Claim>, cs: seq<Candidate>, r: Request) {
    |cs| == |claims| && forall i :: 0 <= i < |cs| ==> cs[i].claim == claims[i] && Scored(cs[i], r)
  }

  /** By falling score, and by rising id where scores are equal. */
  predicate BestFirst(cs: seq<Candidate>) {
    forall i, j :: 0 <= i < j < |cs| ==>
      cs[j].score < cs[i].score || (cs[j].score == cs[i].score && cs[i].claim.id <= cs[j].claim.id)
  }

  /** A claim on a required subject comes before one that is no better but for that. */
  lemma RequiredFirst(claims: seq<Claim>, r: Request, a: Claim, b: Claim, i: nat, j: nat)
    requires var ranked := Ranking(Evaluated(claims, r));
      i < |ranked| && j < |ranked| && ranked[i].claim == a && ranked[j].claim == b
    requires a.subject.Some? && a.subject.value in r.required && (b.subject.None? || b.subject.value !in r.required)
    requires a.rank >= b.rank && |r.objective * a.words| >= |r.objective * b.words|
    ensures i < j
  {
    var cs, ranked := Evaluated(claims, r), Ranking(Evaluated(claims, r));
    RankingSorts(cs);
    forall k | 0 <= k < |ranked| ensures Scored(ranked[k], r) {
      assert ranked[k] in multiset(ranked);
      assert ranked[k] in cs;
    }
    assert j < i ==> Precedes(ranked[j], ranked[i]);
  }

  /** Both are about one subject in one scope of one project, and neither is excluded. */
  predicate Rivals(a: Claim, b: Claim, r: Request) {
    a.subject.Some? && a.subject == b.subject && a.project == b.project && a.scope == b.scope
    && a.id !in r.excluded && b.id !in r.excluded
  }

  /** Among its rivals candidate `k` has the highest rank, and is the first that has it. */
  predicate Leads(cs: seq<Candidate>, k: nat, r: Request)
    requires k < |cs|
  {
    forall j :: 0 <= j < |cs| && Rivals(cs[j].claim, cs[k].claim, r) ==>
      cs[j].claim.rank <= cs[k].claim.rank && (j < k ==> cs[j].claim.rank < cs[k].claim.rank)
  }

  /** One of its rivals says otherwise than the leading one, and what that one is about is grave:
      authorization, the workspace, a contract, or a required fact. */
  ghost predicate InGraveDispute(cs: seq<Candidate>, id: ClaimId, r: Request) {
    exists k :: 0 <= k < |cs| && GraveLeader(cs, k, r) && HasRival(cs, id, cs[k].claim, r)
  }

  predicate HasRival(cs: seq<Candidate>, id: ClaimId, c: Claim, r: Request) {
    exists i :: 0 <= i < |cs| && cs[i].claim.id == id && Rivals(cs[i].claim, c, r)
  }

  ghost predicate GraveLeader(cs: seq<Candidate>, k: nat, r: Request)
    requires k < |cs|
  {
    var c := cs[k].claim;
    && Leads(cs, k, r)
    && (exists j :: 0 <= j < |cs| && Rivals(cs[j].claim, c, r) && cs[j].claim.content != c.content)
    && (c.category in {Authorization, Workspace, ContractCategory}
        || (c.category.Factual? && c.subject.Some? && c.subject.value in r.required))
  }

  predicate InGroup(c: Candidate, key: Key, r: Request) { Grouped(c, r) && KeyOf(c.claim) == key }

  /** Of the group's members `k` is the first of the highest rank. */
  predicate Foremost(cs: seq<Candidate>, key: Key, r: Request, k: nat) {
    k < |cs| && InGroup(cs[k], key, r)
    && forall j :: 0 <= j < |cs| && InGroup(cs[j], key, r) ==>
      cs[j].claim.rank <= cs[k].claim.rank && (j < k ==> cs[j].claim.rank < cs[k].claim.rank)
  }

  lemma ForemostStays(before: seq<Candidate>, c: Candidate, key: Key, r: Request, k: nat)
    requires Foremost(before, key, r, k) && (InGroup(c, key, r) ==> c.claim.rank <= before[k].claim.rank)
    ensures Foremost(before + [c], key, r, k)
  {
  }

  lemma ForemostNow(before: seq<Candidate>, c: Candidate, key: Key, r: Request)
    requires InGroup(c, key, r)
    requires forall j :: 0 <= j < |before| && InGroup(before[j], key, r) ==> before[j].claim.rank < c.claim.rank
    ensures Foremost(before + [c], key, r, |before|)
  {
  }

  lemma GroupGrows(before: seq<Candidate>, c: Candidate, key: Key, r: Request)
    ensures GroupOf(before + [c], key, r) == GroupOf(before, key, r) + if InGroup(c, key, r) then [c] else []
  {
    assert (before + [c])[..|before|] == before;
  }

  lemma WinnerGrows(g: seq<Candidate>, c: Candidate)
    requires g != []
    ensures Winner(g + [c]) == if c.claim.rank > Winner(g).claim.rank then c else Winner(g)
  {
    assert (g + [c])[..|g|] == g;
  }

  /** The winner of a group is its foremost member among all candidates. */
  lemma {:induction false} WinnerPlaced(cs: seq<Candidate>, key: Key, r: Request) returns (k: nat)
    requires GroupOf(cs, key, r) != []
    ensures Foremost(cs, key, r, k) && Winner(GroupOf(cs, key, r)) == cs[k]
  {
    var before, c := cs[..|cs| - 1], cs[|cs| - 1];
    var g := GroupOf(before, key, r);
    assert cs == before + [c];
    GroupGrows(before, c, key, r);
    if g == [] {
      k := |before|;
      ForemostNow(before, c, key, r);
    } else {
      k := WinnerPlaced(before, key, r);
      if InGroup(c, key, r) { WinnerGrows(g, c); }
      if InGroup(c, key, r) && c.claim.rank > before[k].claim.rank {
        ForemostNow(before, c, key, r);
        k := |before|;
      } else {
        ForemostStays(before, c, key, r, k);
      }
    }
  }

  lemma LeaderWins(cs: seq<Candidate>, k: nat, r: Request)
    requires k < |cs| && Leads(cs, k, r) && Rivals(cs[k].claim, cs[k].claim, r)
    ensures Winner(GroupOf(cs, KeyOf(cs[k].claim), r)) == cs[k]
  {
    var key := KeyOf(cs[k].claim);
    assert cs[k] in GroupOf(cs, key, r);
    var w := WinnerPlaced(cs, key, r);
    assert Rivals(cs[w].claim, cs[k].claim, r) && InGroup(cs[k], key, r);
  }

  lemma WinnerLeads(cs: seq<Candidate>, c: Candidate, r: Request) returns (k: nat)
    requires c in cs && Grouped(c, r)
    ensures k < |cs| && Leads(cs, k, r) && Rivals(c.claim, cs[k].claim, r)
    ensures Winner(GroupOf(cs, KeyOf(c.claim), r)) == cs[k]
  {
    assert c in GroupOf(cs, KeyOf(c.claim), r);
    k := WinnerPlaced(cs, KeyOf(c.claim), r);
    forall j | 0 <= j < |cs| && Rivals(cs[j].claim, cs[k].claim, r)
      ensures cs[j].claim.rank <= cs[k].claim.rank && (j < k ==> cs[j].claim.rank < cs[k].claim.rank)
    {
      assert InGroup(cs[j], KeyOf(c.claim), r);
    }
  }

  lemma BlockedInDispute(cs: seq<Candidate>, id: ClaimId, r: Request)
    requires BlockedBy(cs, id, r)
    ensures InGraveDispute(cs, id, r)
  {
    var c :| c in cs && c.claim.id == id && Grouped(c, r) && Blocks(GroupOf(cs, KeyOf(c.claim), r), r);
    var k := WinnerLeads(cs, c, r);
    var g := GroupOf(cs, KeyOf(c.claim), r);
    var a, b :| a in g && b in g && a.claim.content != b.claim.content;
    var d := if a.claim.content != cs[k].claim.content then a else b;
    var j :| 0 <= j < |cs| && cs[j] == d;
    assert Rivals(cs[j].claim, cs[k].claim, r);
    assert GraveLeader(cs, k, r) && HasRival(cs, id, cs[k].claim, r);
  }

  lemma DisputeBlocks(cs: seq<Candidate>, id: ClaimId, r: Request)
    requires InGraveDispute(cs, id, r)
    ensures BlockedBy(cs, id, r)
  {
    var k :| 0 <= k < |cs| && GraveLeader(cs, k, r) && HasRival(cs, id, cs[k].claim, r);
    var i :| 0 <= i < |cs| && cs[i].claim.id == id && Rivals(cs[i].claim, cs[k].claim, r);
    var j :| 0 <= j < |cs| && Rivals(cs[j].claim, cs[k].claim, r) && cs[j].claim.content != cs[k].claim.content;
    var g := GroupOf(cs, KeyOf(cs[k].claim), r);
    LeaderWins(cs, k, r);
    assert cs[j] in g && cs[k] in g && Disputed(g);
    assert cs[i] in cs && KeyOf(cs[i].claim) == KeyOf(cs[k].claim);
  }

  /** The grouping and its winners come to this: an id is blocked iff it is in a grave dispute. */
  lemma GraveDisputesBlock(cs: seq<Candidate>, id: ClaimId, r: Request)
    ensures BlockedBy(cs, id, r) <==> InGraveDispute(cs, id, r)
  {
    if BlockedBy(cs, id, r) { BlockedInDispute(cs, id, r); }
    if InGraveDispute(cs, id, r) { DisputeBlocks(cs, id, r); }
  }

  /** Two claims a consumer must not be given together: same subject, different content, in a
      group whose winner makes the disagreement grave. */
  ghost predicate Contradict(cs: seq<Candidate>, a: Candidate, b: Candidate, r: Request) {
    a in cs && b in cs && Grouped(a, r) && Grouped(b, r) && KeyOf(a.claim) == KeyOf(b.claim)
    && a.claim.content != b.claim.content && Grave(Winner(GroupOf(cs, KeyOf(a.claim), r)).claim, r)
  }

  lemma ContradictionsBlock(cs: seq<Candidate>, a: Candidate, b: Candidate, r: Request)
    requires Contradict(cs, a, b, r)
    ensures BlockedBy(cs, a.claim.id, r) && BlockedBy(cs, b.claim.id, r)
  {
    var g := GroupOf(cs, KeyOf(a.claim), r);
    assert a in g && b in g && Disputed(g);
  }

  lemma BlockedMeansContradiction(cs: seq<Candidate>, id: ClaimId, r: Request)
    requires BlockedBy(cs, id, r)
    ensures exists a, b :: Contradict(cs, a, b, r)
  {
    var c :| c in cs && c.claim.id == id && Grouped(c, r) && Blocks(GroupOf(cs, KeyOf(c.claim), r), r);
    var g := GroupOf(cs, KeyOf(c.claim), r);
    var a, b :| a in g && b in g && a.claim.content != b.claim.content;
    assert Contradict(cs, a, b, r);
  }

  lemma {:induction false} PicksOrdered(ranked: seq<Candidate>, n: nat, blocked: set<ClaimId>, r: Request)
    requires n <= |ranked| && Sorted(ranked)
    ensures Sorted(Picks(ranked, n, blocked, r)) && BestFirst(Picks(ranked, n, blocked, r))
    ensures forall c :: c in Picks(ranked, n, blocked, r) ==> exists i :: 0 <= i < n && ranked[i] == c
  {
    if n > 0 {
      PicksOrdered(ranked, n - 1, blocked, r);
      var before := Picks(ranked, n - 1, blocked, r);
      forall i | 0 <= i < |before| ensures Precedes(before[i], ranked[n - 1]) { assert before[i] in before; }
    }
  }

  ghost predicate AllAvailable(cs: seq<Candidate>, r: Request) { forall x :: x in r.required ==> Available(cs, x, r) }

  /** The snapshot partitions the claims, keeps the budget, leaves out no claim for want of room
      that would still fit, lists the selected ones best first, and never selects contradicting
      claims; it is valid iff nothing contradicts, nothing required is missing and every thread
      is known, and its cause names the first of these that fails. */
  method Resolve(claims: seq<Claim>, r: Request) returns (cs: seq<Candidate>, s: Snapshot)
    ensures AllScored(claims, cs, r) && Parts(s.selected, s.dropped, cs) && BestFirst(s.selected)
    ensures s.used == Size(s.selected) && (s.used > 0 ==> s.used <= r.budget)
    ensures forall id :: id in s.blocked <==> InGraveDispute(cs, id, r)
    ensures forall d :: d in s.dropped ==> Justified(d, s.used, s.blocked, r)
    ensures forall c :: c in s.selected ==> c.claim.id !in r.excluded && c.claim.id !in s.blocked
    ensures forall a, b :: a in s.selected && b in s.selected ==> !Contradict(cs, a, b, r)
    ensures s.cause.None? <==> Consistent(cs, r) && AllAvailable(cs, r) && r.missingThreads == {}
    ensures s.cause == Some(UnresolvedConflict) <==> !Consistent(cs, r)
    ensures s.cause == Some(RequiredMissing) <==> Consistent(cs, r) && !AllAvailable(cs, r)
    ensures s.cause.None? ==> forall x :: x in r.required ==> Given(claims, x, r)
    ensures s.cause == Some(RequiredMissing) ==> exists x :: x in r.required && !Given(claims, x, r)
  {
    cs := Evaluated(claims, r);
    forall x ensures Available(cs, x, r) <==> Given(claims, x, r) { AvailableMeans(claims, x, r); }
    var selected, dropped, used, blocked := SelectFor(cs, r);
    var missing := MissingSubjects(cs, r);
    var cause :=
      if blocked != {} then Some(UnresolvedConflict) else if missing != {} then Some(RequiredMissing)
      else if r.missingThreads != {} then Some(ThreadKnowledgeMissing) else None;
    s := Snapshot(cause, blocked, selected, dropped, used);
  }

  method SelectFor(cs: seq<Candidate>, r: Request)
    returns (selected: seq<Candidate>, dropped: seq<Dropped>, used: nat, blocked: set<ClaimId>)
    ensures Parts(selected, dropped, cs) && BestFirst(selected)
    ensures used == Size(selected) && (used > 0 ==> used <= r.budget)
    ensures forall id :: id in blocked <==> InGraveDispute(cs, id, r)
    ensures forall d :: d in dropped ==> Justified(d, used, blocked, r)
    ensures forall c :: c in selected ==> c.claim.id !in r.excluded && c.claim.id !in blocked
    ensures forall a, b :: a in selected && b in selected ==> !Contradict(cs, a, b, r)
    ensures blocked == {} <==> Consistent(cs, r)
  {
    blocked := BlockingConflicts(cs, r);
    var ranked := Ranking(cs);
    RankingSorts(cs);
    selected, dropped, used := SelectClaims(ranked, blocked, r);
    SelectionSound(cs, ranked, blocked, r);
    ContradictionIff(cs, r);
    PicksOrdered(ranked, |ranked|, blocked, r);
    BlockedAreDisputed(cs, blocked, r);
  }

  lemma BlockedAreDisputed(cs: seq<Candidate>, blocked: set<ClaimId>, r: Request)
    requires forall id :: id in blocked <==> BlockedBy(cs, id, r)
    ensures forall id :: id in blocked <==> InGraveDispute(cs, id, r)
  {
    forall id ensures BlockedBy(cs, id, r) <==> InGraveDispute(cs, id, r) { GraveDisputesBlock(cs, id, r); }
  }

  lemma SelectionSound(cs: seq<Candidate>, ranked: seq<Candidate>, blocked: set<ClaimId>, r: Request)
    requires forall id :: id in blocked <==> BlockedBy(cs, id, r)
    ensures var n := |ranked|;
      && Parts(Picks(ranked, n, blocked, r), Drops(ranked, n, blocked, r), ranked)
      && Size(Picks(ranked, n, blocked, r)) == Used(ranked, n, blocked, r)
      && (Used(ranked, n, blocked, r) > 0 ==> Used(ranked, n, blocked, r) <= r.budget)
    ensures forall d :: d in Drops(ranked, |ranked|, blocked, r) ==>
      Justified(d, Used(ranked, |ranked|, blocked, r), blocked, r)
    ensures forall c :: c in Picks(ranked, |ranked|, blocked, r) ==> c.claim.id !in r.excluded && c.claim.id !in blocked
    ensures forall a, b :: a in Picks(ranked, |ranked|, blocked, r) && b in Picks(ranked, |ranked|, blocked, r) ==>
      !Contradict(cs, a, b, r)
  {
    var n := |ranked|;
    assert ranked[..n] == ranked;
    Partition(ranked, n, blocked, r);
    PicksFit(ranked, n, blocked, r);
    forall d | d in Drops(ranked, n, blocked, r) ensures Justified(d, Used(ranked, n, blocked, r), blocked, r) {
      DropsJustified(ranked, n, blocked, r, d);
    }
    forall c | c in Picks(ranked, n, blocked, r) ensures c.claim.id !in r.excluded && c.claim.id !in blocked {
      PicksAllowed(ranked, n, blocked, r, c);
    }
    forall a, b | a in Picks(ranked, n, blocked, r) && Contradict(cs, a, b, r) ensures a.claim.id in blocked {
      ContradictionsBlock(cs, a, b, r);
    }
  }

  ghost predicate Consistent(cs: seq<Candidate>, r: Request) { forall a, b :: !Contradict(cs, a, b, r) }

  lemma ContradictionIff(cs: seq<Candidate>, r: Request)
    ensures (exists id :: BlockedBy(cs, id, r)) <==> !Consistent(cs, r)
  {
    if id :| BlockedBy(cs, id, r) { BlockedMeansContradiction(cs, id, r); }
    if a, b :| Contradict(cs, a, b, r) { ContradictionsBlock(cs, a, b, r); }
  }
}
