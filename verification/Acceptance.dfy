/** The completion verdict (src/completion-evaluator.js evaluateTaskCompletion,
    src/failure-classifier.js assessTaskResult). Classification of prose is a parameter. */
module Acceptance {
  import opened DomainStates
  import opened CommandEvidence

  type Output = nat

  datatype Category = NoCategory | ProductTrouble | ValidationTrouble | CoordinationTrouble | OtherTrouble(n: nat)

  datatype NextAction =
    | NoAction | ContinueCompletion | Rework | ReconcileDispatch | InspectSideEffects | InspectExecution
    | OtherAction(n: nat)

  datatype Trouble = Trouble(category: Category, retryable: bool, next: NextAction)

  /** `authority` tells whether a failed command's text classifies as configuration,
      environment, infrastructure, coordination, approval or workspace trouble; `failure` what
      the classifier makes of the failure it finds in the turn. */
  datatype Heuristics = Heuristics(
    tests: Recogniser,
    authority: Item -> bool,
    failure: TurnResult -> Trouble,
    external: Output -> bool,
    claimed: Output -> bool)

  /** `reported` and `prose`: the output reports a failure as data, or in words. */
  datatype TurnResult = TurnResult(
    ended: bool,
    errored: bool,
    turnItems: seq<Item>,
    executionItems: seq<Item>,
    reported: bool,
    prose: bool,
    complete: bool,
    report: bool)

  // ---------- Items ----------

  datatype Identity = ById(id: Id) | ByReference(reference: nat)

  function IdentityOf(item: Item): Identity { if item.id.NoId? then ByReference(item.reference) else ById(item.id) }

  predicate Seen(items: seq<Item>, item: Item) {
    exists i :: 0 <= i < |items| && IdentityOf(items[i]) == IdentityOf(item)
  }

  /** First occurrences of command items. */
  function Commands(items: seq<Item>): seq<Item> {
    if items == [] then [] else
      var before, item := items[..|items| - 1], items[|items| - 1];
      if Seen(before, item) || !item.command then Commands(before) else Commands(before) + [item]
  }

  /** assessTaskResult's own first pass: repeated ids go, items without one all stay. */
  function Distinct(items: seq<Item>): seq<Item> {
    if items == [] then [] else
      var before, item := items[..|items| - 1], items[|items| - 1];
      if item.id.Named? && Seen(before, item) then Distinct(before) else Distinct(before) + [item]
  }

  lemma SeenSplit(items: seq<Item>, last: Item, item: Item)
    ensures Seen(items + [last], item) <==> Seen(items, item) || IdentityOf(last) == IdentityOf(item)
  {
    if Seen(items, item) {
      var i :| 0 <= i < |items| && IdentityOf(items[i]) == IdentityOf(item);
      assert (items + [last])[i] == items[i];
    }
    if IdentityOf(last) == IdentityOf(item) { assert (items + [last])[|items|] == last; }
  }

  lemma {:induction false} DistinctSeesAll(items: seq<Item>, item: Item)
    ensures Seen(Distinct(items), item) <==> Seen(items, item)
  {
    if items != [] {
      var before, last := items[..|items| - 1], items[|items| - 1];
      assert items == before + [last];
      DistinctSeesAll(before, item);
      SeenSplit(before, last, item);
      SeenSplit(Distinct(before), last, item);
      if last.id.Named? && Seen(before, last) && IdentityOf(last) == IdentityOf(item) {
        var i :| 0 <= i < |before| && IdentityOf(before[i]) == IdentityOf(last);
        assert IdentityOf(before[i]) == IdentityOf(item);
      }
    }
  }

  /** The verdict's ledger and the classifier look at the same command items. */
  lemma {:induction false} SameCommands(items: seq<Item>)
    ensures Commands(Distinct(items)) == Commands(items)
  {
    if items != [] {
      var before, last := items[..|items| - 1], items[|items| - 1];
      SameCommands(before);
      DistinctSeesAll(before, last);
      if !(last.id.Named? && Seen(before, last)) {
        assert (Distinct(before) + [last])[..|Distinct(before)|] == Distinct(before);
      }
    }
  }

  method DistinctItems(items: seq<Item>) returns (distinct: seq<Item>)
    ensures distinct == Distinct(items)
  {
    distinct := [];
    for i := 0 to |items|
      invariant distinct == Distinct(items[..i])
    {
      assert items[..i + 1][..i] == items[..i];
      var known := AlreadySeen(items[..i], items[i]);
      if !items[i].id.Named? || !known { distinct := distinct + [items[i]]; }
    }
    assert items[..|items|] == items;
  }

  method AlreadySeen(items: seq<Item>, item: Item) returns (seen: bool)
    ensures seen <==> Seen(items, item)
  {
    for i := 0 to |items|
      invariant !Seen(items[..i], item)
    {
      if IdentityOf(items[i]) == IdentityOf(item) { return true; }
      assert items[..i + 1] == items[..i] + [items[i]];
      SeenSplit(items[..i], items[i], item);
    }
    assert items[..|items|] == items;
    seen := false;
  }

  lemma SeenGrows(items: seq<Item>, i: nat, seen: set<Identity>)
    requires i < |items| && forall item :: IdentityOf(item) in seen <==> Seen(items[..i], item)
    ensures forall item :: IdentityOf(item) in seen + {IdentityOf(items[i])} <==> Seen(items[..i + 1], item)
  {
    assert items[..i + 1] == items[..i] + [items[i]];
    forall item ensures IdentityOf(item) in seen + {IdentityOf(items[i])} <==> Seen(items[..i + 1], item) {
      SeenSplit(items[..i], items[i], item);
    }
  }

  method CommandItems(items: seq<Item>) returns (commands: seq<Item>)
    ensures commands == Commands(items)
  {
    commands := [];
    var seen: set<Identity> := {};
    for i := 0 to |items|
      invariant commands == Commands(items[..i])
      invariant forall item :: IdentityOf(item) in seen <==> Seen(items[..i], item)
    {
      SeenGrows(items, i, seen);
      assert items[..i + 1][..i] == items[..i];
      if IdentityOf(items[i]) !in seen && items[i].command { commands := commands + [items[i]]; }
      seen := seen + {IdentityOf(items[i])};
    }
    assert items[..|items|] == items;
  }

  // ---------- assessTaskResult ----------

  predicate Clean(item: Item) {
    (item.exit.None? || item.exit == Some(0)) && item.status !in {StatusFailed, StatusError}
  }

  datatype Outcome = Passed | NeedsReview | Broken

  predicate Excused(items: seq<Item>, i: nat, t: Recogniser)
    requires i < |items|
  {
    EmptyFileSearch(items[i]) || SupersededTest(items[i], items[i + 1..], t)
  }

  /** An ordinary command that exited nonzero, and is no test. */
  predicate Reviewable(item: Item, h: Heuristics) {
    !h.authority(item) && !h.tests.isTest(item.text) && item.id.Named? && item.exit.Some? && item.exit != Some(0)
  }

  function OutcomeAt(items: seq<Item>, i: nat, reviewing: bool, h: Heuristics): Outcome
    requires i < |items|
  {
    if Seen(items[..i], items[i]) || !items[i].command || Clean(items[i]) || Excused(items, i, h.tests) then Passed
    else if reviewing && Reviewable(items[i], h) then NeedsReview
    else Broken
  }

  function Reviews(items: seq<Item>, n: nat, reviewing: bool, h: Heuristics): seq<Item>
    requires n <= |items|
  {
    if n == 0 then []
    else
      Reviews(items, n - 1, reviewing, h)
      + if OutcomeAt(items, n - 1, reviewing, h).NeedsReview? then [items[n - 1]] else []
  }

  predicate PassedTest(items: seq<Item>, i: nat, h: Heuristics)
    requires i < |items|
  {
    !Seen(items[..i], items[i]) && items[i].command && Clean(items[i]) && items[i].exit == Some(0)
      && h.tests.isTest(items[i].text)
  }

  ghost predicate AnyTestPassed(items: seq<Item>, h: Heuristics) {
    exists i :: 0 <= i < |items| && PassedTest(items, i, h)
  }

  ghost predicate NothingBroken(items: seq<Item>, reviewing: bool, h: Heuristics) {
    forall i :: 0 <= i < |items| ==> !OutcomeAt(items, i, reviewing, h).Broken?
  }

  function ItemsOf(r: TurnResult): seq<Item> { r.turnItems + r.executionItems }

  /** The turn ended well, nothing it ran is broken, and it does not report a failure that a
      passed test command does not contradict. */
  ghost predicate TurnSucceeded(r: TurnResult, reviewing: bool, h: Heuristics) {
    && r.ended && !r.errored && NothingBroken(Distinct(ItemsOf(r)), reviewing, h)
    && !r.reported && (r.prose ==> AnyTestPassed(Distinct(ItemsOf(r)), h))
  }

  method Superseded(item: Item, later: seq<Item>, t: Recogniser) returns (yes: bool)
    ensures yes <==> SupersededTest(item, later, t)
  {
    if item.cwd.None? || !t.isTest(item.text) { return false; }
    for i := 0 to |later|
      invariant forall k :: 0 <= k < i ==> !Supersedes(later[k], item, t)
    {
      if Supersedes(later[i], item, t) { return true; }
    }
    yes := false;
  }

  method OutcomeOf(items: seq<Item>, i: nat, seen: bool, reviewing: bool, h: Heuristics) returns (outcome: Outcome)
    requires i < |items| && (seen <==> Seen(items[..i], items[i]))
    ensures outcome == OutcomeAt(items, i, reviewing, h)
  {
    var item := items[i];
    if seen || !item.command || Clean(item) { return Passed; }
    var empty := IsEmptyFileSearch(item);
    if empty { return Passed; }
    var superseded := Superseded(item, items[i + 1..], h.tests);
    if superseded { return Passed; }
    outcome := if reviewing && Reviewable(item, h) then NeedsReview else Broken;
  }

  method AssessItems(items: seq<Item>, reviewing: bool, h: Heuristics)
    returns (ok: bool, tested: bool, reviews: seq<Item>)
    ensures ok <==> NothingBroken(items, reviewing, h)
    ensures ok ==> (tested <==> AnyTestPassed(items, h)) && reviews == Reviews(items, |items|, reviewing, h)
  {
    tested, reviews := false, [];
    for i := 0 to |items|
      invariant forall k :: 0 <= k < i ==> !OutcomeAt(items, k, reviewing, h).Broken?
      invariant tested <==> exists k :: 0 <= k < i && PassedTest(items, k, h)
      invariant reviews == Reviews(items, i, reviewing, h)
    {
      var seen := AlreadySeen(items[..i], items[i]);
      var outcome := OutcomeOf(items, i, seen, reviewing, h);
      if outcome.Broken? { return false, tested, reviews; }
      if outcome.NeedsReview? { reviews := reviews + [items[i]]; }
      if !seen && items[i].command && Clean(items[i]) && items[i].exit == Some(0) && h.tests.isTest(items[i].text) {
        assert PassedTest(items, i, h);
        tested := true;
      }
    }
    ok := true;
  }

  method AssessTaskResult(r: TurnResult, reviewing: bool, h: Heuristics) returns (ok: bool, reviews: seq<Item>)
    ensures ok <==> TurnSucceeded(r, reviewing, h)
    ensures ok <==> EndedWell(r, reviewing, h)
    ensures ok ==> reviews == Reviews(Distinct(ItemsOf(r)), |Distinct(ItemsOf(r))|, reviewing, h)
    ensures ok ==> forall item :: item in reviews <==> HasToReview(Distinct(ItemsOf(r)), item, reviewing, h)
  {
    TurnSucceededMeans(r, reviewing, h);
    ReviewsMean(Distinct(ItemsOf(r)), |Distinct(ItemsOf(r))|, reviewing, h);
    if !r.ended || r.errored { return false, []; }
    var items := DistinctItems(r.turnItems + r.executionItems);
    var tested;
    ok, tested, reviews := AssessItems(items, reviewing, h);
    if !ok { return; }
    if r.reported { return false, reviews; }
    if !tested && r.prose { return false, reviews; }
  }

  // ---------- The same, in the columns of the items ----------

  /** An item before it has the same id, or, where neither has one, is the same object. */
  predicate Repeated(items: seq<Item>, i: nat)
    requires i < |items|
  {
    exists j :: 0 <= j < i && Alike(items[j], items[i])
  }

  predicate Alike(a: Item, b: Item) { a.id == b.id && (a.id.NoId? ==> a.reference == b.reference) }

  /** A later item is the same test, run in the same directory, and exits with zero and no bad status. */
  predicate PassedLater(items: seq<Item>, i: nat, h: Heuristics)
    requires i < |items|
  {
    items[i].cwd.Some? && h.tests.isTest(items[i].text)
    && exists j :: i < j < |items| && Repeats(items[j], items[i], h)
  }

  predicate Repeats(next: Item, item: Item, h: Heuristics) {
    next.exit == Some(0) && next.status !in {StatusFailed, StatusError, StatusRunning, StatusInProgress}
    && next.cwd == item.cwd && h.tests.source(next.text) == h.tests.source(item.text)
  }

  /** Nothing speaks against the command: no exit but zero and no failure, a search that found nothing,
      or a test that passed later. */
  predicate Harmless(items: seq<Item>, i: nat, h: Heuristics)
    requires i < |items|
  {
    || (items[i].exit in {None, Some(0)} && items[i].status !in {StatusFailed, StatusError})
    || EmptyFileSearch(items[i])
    || PassedLater(items, i, h)
  }

  /** Only a named command that exited with another code than zero may be excused, and neither a test
      nor a command in trouble with its surroundings. */
  predicate MayBeExcused(item: Item, h: Heuristics) {
    item.id.Named? && item.exit.Some? && item.exit != Some(0) && !h.tests.isTest(item.text) && !h.authority(item)
  }

  predicate Ran(items: seq<Item>, i: nat)
    requires i < |items|
  {
    items[i].command && !Repeated(items, i)
  }

  ghost predicate TestPassed(items: seq<Item>, h: Heuristics) {
    exists i :: 0 <= i < |items| && Ran(items, i) && h.tests.isTest(items[i].text) && items[i].exit == Some(0)
      && items[i].status !in {StatusFailed, StatusError}
  }

  ghost predicate CommandsStand(items: seq<Item>, reviewing: bool, h: Heuristics) {
    forall i :: 0 <= i < |items| && Ran(items, i) ==>
      Harmless(items, i, h) || (reviewing && MayBeExcused(items[i], h))
  }

  /** The turn ended, without an error and without reporting a failure that no passed test contradicts,
      and every command it ran is harmless or, if there are reviews, may be excused by one. */
  ghost predicate EndedWell(r: TurnResult, reviewing: bool, h: Heuristics) {
    var items := Distinct(r.turnItems + r.executionItems);
    && r.ended && !r.errored && !r.reported && (r.prose ==> TestPassed(items, h))
    && CommandsStand(items, reviewing, h)
  }

  /** The commands that have to be excused. */
  ghost predicate ToReview(items: seq<Item>, i: nat, reviewing: bool, h: Heuristics)
    requires i < |items|
  {
    Ran(items, i) && !Harmless(items, i, h) && reviewing && MayBeExcused(items[i], h)
  }

  lemma RepeatedIsSeen(items: seq<Item>, i: nat)
    requires i < |items|
    ensures Seen(items[..i], items[i]) <==> Repeated(items, i)
  {
    if Seen(items[..i], items[i]) {
      var j :| 0 <= j < |items[..i]| && IdentityOf(items[..i][j]) == IdentityOf(items[i]);
      assert items[..i][j] == items[j];
    }
    if Repeated(items, i) {
      var j :| 0 <= j < i && Alike(items[j], items[i]);
      assert items[..i][j] == items[j];
    }
  }

  lemma LaterIsSuperseded(items: seq<Item>, i: nat, h: Heuristics)
    requires i < |items|
    ensures SupersededTest(items[i], items[i + 1..], h.tests) <==> PassedLater(items, i, h)
  {
    var later := items[i + 1..];
    if SupersededTest(items[i], later, h.tests) {
      var k :| 0 <= k < |later| && Supersedes(later[k], items[i], h.tests);
      assert later[k] == items[i + 1 + k];
    }
    if PassedLater(items, i, h) {
      var j :| i < j < |items| && Repeats(items[j], items[i], h);
      assert later[j - i - 1] == items[j];
      assert Supersedes(later[j - i - 1], items[i], h.tests);
    }
  }

  /** The classifier's verdict on one item. */
  lemma OutcomeMeans(items: seq<Item>, i: nat, reviewing: bool, h: Heuristics)
    requires i < |items|
    ensures var o := OutcomeAt(items, i, reviewing, h);
      && (o.Passed? <==> !Ran(items, i) || Harmless(items, i, h))
      && (o.NeedsReview? <==> ToReview(items, i, reviewing, h))
  {
    RepeatedIsSeen(items, i);
    LaterIsSuperseded(items, i, h);
  }

  lemma NothingBrokenMeans(items: seq<Item>, reviewing: bool, h: Heuristics)
    ensures NothingBroken(items, reviewing, h) <==> CommandsStand(items, reviewing, h)
  {
    forall i | 0 <= i < |items|
      ensures OutcomeAt(items, i, reviewing, h).Broken? <==>
        !(Ran(items, i) ==> Harmless(items, i, h) || (reviewing && MayBeExcused(items[i], h)))
    {
      OutcomeMeans(items, i, reviewing, h);
    }
  }

  lemma TestPassedMeans(items: seq<Item>, h: Heuristics)
    ensures AnyTestPassed(items, h) <==> TestPassed(items, h)
  {
    forall i | 0 <= i < |items| ensures Seen(items[..i], items[i]) <==> Repeated(items, i) {
      RepeatedIsSeen(items, i);
    }
    if TestPassed(items, h) {
      var i :| 0 <= i < |items| && Ran(items, i) && h.tests.isTest(items[i].text) && items[i].exit == Some(0)
               && items[i].status !in {StatusFailed, StatusError};
      assert PassedTest(items, i, h);
    }
  }

  /** assessTaskResult's passes come to this. */
  lemma TurnSucceededMeans(r: TurnResult, reviewing: bool, h: Heuristics)
    ensures TurnSucceeded(r, reviewing, h) <==> EndedWell(r, reviewing, h)
  {
    NothingBrokenMeans(Distinct(ItemsOf(r)), reviewing, h);
    TestPassedMeans(Distinct(ItemsOf(r)), h);
  }

  ghost predicate ReviewedAmong(items: seq<Item>, n: nat, item: Item, reviewing: bool, h: Heuristics)
    requires n <= |items|
  {
    exists i :: 0 <= i < n && items[i] == item && ToReview(items, i, reviewing, h)
  }

  ghost predicate HasToReview(items: seq<Item>, item: Item, reviewing: bool, h: Heuristics) {
    ReviewedAmong(items, |items|, item, reviewing, h)
  }

  lemma {:induction false} ReviewsMean(items: seq<Item>, n: nat, reviewing: bool, h: Heuristics)
    requires n <= |items|
    ensures forall item :: item in Reviews(items, n, reviewing, h) <==> ReviewedAmong(items, n, item, reviewing, h)
  {
    if n > 0 {
      ReviewsMean(items, n - 1, reviewing, h);
      OutcomeMeans(items, n - 1, reviewing, h);
    }
  }

  /** The first occurrence of everything with an id, and everything without one. */
  lemma {:induction false} DistinctMeans(items: seq<Item>, item: Item)
    ensures item in Distinct(items) <==>
      exists i :: 0 <= i < |items| && items[i] == item && !(item.id.Named? && Repeated(items, i))
  {
    if items != [] {
      var n := |items| - 1;
      var before := items[..n];
      DistinctMeans(before, item);
      RepeatedIsSeen(items, n);
      forall i | 0 <= i < n ensures Repeated(before, i) <==> Repeated(items, i) {
        RepeatedIsSeen(before, i);
        RepeatedIsSeen(items, i);
        assert before[..i] == items[..i];
      }
    }
  }

  // ---------- evaluateTaskCompletion ----------

  datatype Decision = Accept | AcceptWithWarnings | Reject | Inspect

  datatype Strategy = Unset | NoStrategy | NullStrategy | Integrates

  datatype Declared = Report | Change(kind: nat) | Other(name: Output)

  datatype Assessment = Assessment(id: Id, exit: Option<int>, excusing: bool, evidenced: bool)

  /** `product`: the validator's failureKind is `product`. */
  datatype Validation = Validation(decision: Decision, product: bool, assessments: seq<Assessment>)

  datatype Workspace = Workspace(available: bool, changed: bool, shared: bool)

  datatype Options = Options(
    result: TurnResult,
    testTask: bool,
    strategy: Strategy,
    mutates: Option<bool>,
    replaySafe: bool,
    outputs: seq<Declared>,
    criteria: bool,
    validation: Option<Validation>,
    artifact: Option<bool>,
    workspace: Option<Workspace>,
    integration: Option<bool>,
    postcondition: Option<bool>,
    verified: set<Output>,
    strict: bool,
    execution: bool)

  datatype Evidence =
    | TerminalTurn | CompleteTurn | TestCommand | TestExit | CommandLedger | ReviewedCommands | ReviewOf(id: Id)
    | OutputOf(output: Declared)
    | UnexpectedMutation | UnattributedMutation | ValidationOf | IntegrationOf | PostconditionOf

  datatype Verdict = Verdict(
    decision: Decision,
    category: Category,
    satisfied: seq<Evidence>,
    missing: seq<Evidence>,
    conflicting: seq<Evidence>,
    retryable: bool,
    next: NextAction)

  predicate Reviewing(o: Options) { o.criteria && o.strategy in {Unset, NoStrategy} }

  function PendingReviews(o: Options, h: Heuristics): seq<Item> {
    var items := Distinct(ItemsOf(o.result));
    Reviews(items, |items|, Reviewing(o), h)
  }

  function AssessmentsOf(o: Options): seq<Assessment> {
    if o.validation.Some? then o.validation.value.assessments else []
  }

  /** Exactly one assessment names the item, with its exit code, an excuse and evidence. */
  predicate Resolved(item: Item, all: seq<Assessment>) {
    exists i :: 0 <= i < |all| && all[i].id == item.id && all[i].exit == item.exit && all[i].excusing
      && all[i].evidenced
      && forall j :: 0 <= j < |all| && all[j].id == item.id ==> j == i
  }

  predicate Changed(o: Options) { o.artifact == Some(true) || (o.workspace.Some? && o.workspace.value.changed) }

  predicate Materialised(name: Output, o: Options, h: Heuristics) {
    name in o.verified || (!h.external(name) && h.claimed(name))
  }

  predicate Met(d: Declared, o: Options, h: Heuristics) {
    match d
    case Report => o.result.report
    case Change(_) => Changed(o)
    case Other(name) => Materialised(name, o, h)
  }

  /** Whether the missing output counts; a strict evaluation always counts it. */
  predicate Demanded(d: Declared, o: Options) {
    match d
    case Report => true
    case Change(_) => o.strict || o.artifact.Some? || (o.workspace.Some? && o.workspace.value.available)
    case Other(_) => o.strict
  }

  ghost predicate OutputsMet(o: Options, h: Heuristics) {
    forall i :: 0 <= i < |o.outputs| ==> Met(o.outputs[i], o, h) || !Demanded(o.outputs[i], o)
  }

  predicate NoForeignChange(o: Options) {
    o.mutates == Some(false) ==> !(o.workspace.Some? && o.workspace.value.changed)
  }

  predicate Accepting(d: Decision) { d.Accept? || d.AcceptWithWarnings? }

  predicate Validated(o: Options) { o.criteria ==> o.validation.Some? && Accepting(o.validation.value.decision) }

  predicate Integrated(o: Options) {
    o.strategy.Integrates? && !(o.integration == Some(true) && o.artifact == Some(true)) ==>
      !o.strict && o.integration.None? && o.artifact.None?
  }

  predicate PostconditionHolds(o: Options) { o.postcondition.Some? ==> o.postcondition.value }

  ghost predicate ReviewsResolved(o: Options, h: Heuristics) {
    forall item :: item in PendingReviews(o, h) ==> Resolved(item, AssessmentsOf(o))
  }

  ghost predicate TestObserved(o: Options, h: Heuristics) {
    exists item :: item in Commands(ItemsOf(o.result)) && h.tests.isTest(item.text) && Succeeded(item)
  }

  /** What both phases need. */
  ghost predicate Executed(o: Options, h: Heuristics) {
    && TurnSucceeded(o.result, Reviewing(o), h)
    && (o.strict ==> o.result.complete)
    && (o.strict && o.testTask ==> TestObserved(o, h))
  }

  /** What only the final phase needs. */
  ghost predicate Completed(o: Options, h: Heuristics) {
    ReviewsResolved(o, h) && OutputsMet(o, h) && NoForeignChange(o) && Validated(o) && Integrated(o)
      && PostconditionHolds(o)
  }

  // ---------- What a verdict asks for ----------

  predicate Incomplete(o: Options) { o.strict && !o.result.complete }

  ghost predicate Untested(o: Options, h: Heuristics) { o.strict && o.testTask && !TestObserved(o, h) }

  ghost predicate Unreviewed(o: Options, h: Heuristics) { !o.execution && !ReviewsResolved(o, h) }

  /** A read-only task's shared workspace changed, and nobody knows by whom. */
  predicate SharedChange(o: Options) {
    o.mutates == Some(false) && o.workspace.Some? && o.workspace.value.changed && o.workspace.value.shared
  }

  /** Evidence that only a person can supply is missing. */
  ghost predicate Inspecting(o: Options, h: Heuristics) {
    TurnSucceeded(o.result, Reviewing(o), h)
    && (Incomplete(o) || Untested(o, h) || Unreviewed(o, h) || (!o.execution && SharedChange(o)))
  }

  predicate Disapproved(o: Options) { o.criteria && o.validation.Some? && !Accepting(o.validation.value.decision) }

  /** Only rejected work is tried again, and a lost turn that can be replayed without harm; what
      needs inspection is not. */
  ghost predicate RetriesAsDue(v: Verdict, o: Options) {
    v.retryable <==> v.decision.Reject? || (Incomplete(o) && o.replaySafe)
  }

  ghost predicate ActsAsDue(v: Verdict, o: Options, h: Heuristics) {
    && (v.next.NoAction? <==> Accepting(v.decision) && !o.execution)
    && (v.next.ContinueCompletion? <==> Accepting(v.decision) && o.execution)
    && (v.next.Rework? <==> v.decision.Reject?)
    && (v.next.ReconcileDispatch? <==> Incomplete(o) && o.replaySafe)
    && (v.next.InspectExecution? <==> !Incomplete(o) && (Untested(o, h) || Unreviewed(o, h)))
    && (v.next.InspectSideEffects? <==>
          v.decision.Inspect? && if Incomplete(o) then !o.replaySafe else !Untested(o, h) && !Unreviewed(o, h))
  }

  ghost predicate ClassedAsDue(v: Verdict, o: Options, h: Heuristics) {
    var reviews := !Incomplete(o) && !Untested(o, h) && Unreviewed(o, h);
    && (v.category.NoCategory? <==> Accepting(v.decision))
    && (v.category.CoordinationTrouble? <==> v.decision.Inspect? && !reviews)
    && (v.category.ValidationTrouble? <==>
          (v.decision.Inspect? && reviews) || (v.decision.Reject? && Disapproved(o) && !o.validation.value.product))
    && (v.category.ProductTrouble? <==> v.decision.Reject? && !(Disapproved(o) && !o.validation.value.product))
  }

  /** Why, whether again and what next: as the classifier says of a failed turn, as due of any
      other. */
  ghost predicate Directed(v: Verdict, o: Options, h: Heuristics) {
    if TurnSucceeded(o.result, Reviewing(o), h) then RetriesAsDue(v, o) && ActsAsDue(v, o, h) && ClassedAsDue(v, o, h)
    else v.decision.Reject? && h.failure(o.result) == Trouble(v.category, v.retryable, v.next)
  }

  predicate Warned(o: Options, h: Heuristics) {
    PendingReviews(o, h) != [] || (o.validation.Some? && o.validation.value.decision.AcceptWithWarnings?)
  }

  /** Something promised is not there. */
  ghost predicate Lacking(e: Evidence, o: Options, h: Heuristics) {
    match e
    case OutputOf(d) => d in o.outputs && !OutputThere(d, o, h)
    case ValidationOf => o.criteria && o.validation.None?
    case IntegrationOf =>
      o.strategy.Integrates? && !(o.integration == Some(true) && o.artifact == Some(true))
      && (o.strict || o.integration.Some? || o.artifact.Some?)
    case _ => false
  }

  /** Something is there that contradicts the promise. */
  predicate Contradicting(e: Evidence, o: Options) {
    match e
    case UnexpectedMutation => o.mutates == Some(false) && o.workspace.Some? && o.workspace.value.changed
    case ValidationOf =>
      o.criteria && o.validation.Some? && o.validation.value.decision !in {Accept, AcceptWithWarnings}
    case PostconditionOf => o.postcondition == Some(false)
    case _ => false
  }

  /** The verdict names exactly what is lacking and what contradicts. */
  ghost predicate ToldWhy(v: Verdict, o: Options, h: Heuristics) {
    (forall e :: e in v.missing <==> Lacking(e, o, h)) && forall e :: e in v.conflicting <==> Contradicting(e, o)
  }

  method TestReceipt(commands: seq<Item>, t: Recogniser) returns (found: bool)
    ensures found <==> exists item :: item in commands && t.isTest(item.text) && Succeeded(item)
  {
    for i := 0 to |commands|
      invariant forall k :: 0 <= k < i ==> !(t.isTest(commands[k].text) && Succeeded(commands[k]))
    {
      if t.isTest(commands[i].text) && Succeeded(commands[i]) { return true; }
    }
    found := false;
  }

  function Matches(item: Item, all: seq<Assessment>): seq<Assessment> {
    if all == [] then [] else
      var before := Matches(item, all[..|all| - 1]);
      if all[|all| - 1].id == item.id then before + [all[|all| - 1]] else before
  }

  lemma {:induction false} MatchesEmpty(item: Item, all: seq<Assessment>)
    ensures Matches(item, all) == [] <==> forall i :: 0 <= i < |all| ==> all[i].id != item.id
  {
    if all != [] {
      MatchesEmpty(item, all[..|all| - 1]);
      assert forall i :: 0 <= i < |all| - 1 ==> all[..|all| - 1][i] == all[i];
    }
  }

  /** One match and the checks on it, against the declarative reading. */
  lemma {:induction false} OneMatch(item: Item, all: seq<Assessment>)
    ensures var ms := Matches(item, all);
      Resolved(item, all) <==> |ms| == 1 && ms[0].exit == item.exit && ms[0].excusing && ms[0].evidenced
  {
    if all != [] {
      var before, last := all[..|all| - 1], all[|all| - 1];
      OneMatch(item, before);
      MatchesEmpty(item, before);
      assert forall i :: 0 <= i < |before| ==> before[i] == all[i];
      if last.id == item.id && Matches(item, before) == [] {
        assert Resolved(item, all) <==> last.exit == item.exit && last.excusing && last.evidenced;
      }
      if last.id != item.id && Resolved(item, before) {
        var i :| 0 <= i < |before| && before[i].id == item.id && before[i].exit == item.exit && before[i].excusing
                 && before[i].evidenced && forall j :: 0 <= j < |before| && before[j].id == item.id ==> j == i;
        assert all[i] == before[i];
      }
    }
  }

  /** It asks for the review of an item that is not assessed exactly once. */
  ghost predicate Open(e: Evidence, reviews: seq<Item>, all: seq<Assessment>) {
    exists item :: item in reviews && !AssessedOnce(item, all) && e == ReviewOf(item.id)
  }

  method UnresolvedReviews(reviews: seq<Item>, all: seq<Assessment>) returns (unresolved: seq<Evidence>)
    ensures unresolved == [] <==> forall item :: item in reviews ==> Resolved(item, all)
    ensures forall e :: e in unresolved <==> Open(e, reviews, all)
  {
    unresolved := [];
    for i := 0 to |reviews|
      invariant unresolved == [] <==> forall k :: 0 <= k < i ==> Resolved(reviews[k], all)
      invariant forall e :: e in unresolved <==> Open(e, reviews[..i], all)
    {
      ResolvedMeans(reviews[i], all);
      assert reviews[..i + 1] == reviews[..i] + [reviews[i]];
      var ms := Matches(reviews[i], all);
      OneMatch(reviews[i], all);
      if |ms| != 1 || ms[0].exit != reviews[i].exit || !ms[0].excusing || !ms[0].evidenced {
        unresolved := unresolved + [ReviewOf(reviews[i].id)];
      }
    }
  }

  method CheckOutputs(o: Options, h: Heuristics) returns (satisfied: seq<Evidence>, missing: seq<Evidence>)
    ensures missing == [] <==> OutputsMet(o, h)
    ensures forall e :: e in missing <==> e.OutputOf? && e.output in o.outputs && !OutputThere(e.output, o, h)
    ensures forall e :: e in satisfied <==> e.OutputOf? && e.output in o.outputs && Met(e.output, o, h)
  {
    satisfied, missing := [], [];
    for i := 0 to |o.outputs|
      invariant missing == [] <==> forall k :: 0 <= k < i ==> Met(o.outputs[k], o, h) || !Demanded(o.outputs[k], o)
      invariant forall e :: e in missing <==> e.OutputOf? && e.output in o.outputs[..i] && !OutputThere(e.output, o, h)
      invariant forall e :: e in satisfied <==> e.OutputOf? && e.output in o.outputs[..i] && Met(e.output, o, h)
    {
      var d := o.outputs[i];
      OutputMeans(d, o, h);
      if Met(d, o, h) { satisfied := satisfied + [OutputOf(d)]; }
      else if Demanded(d, o) { missing := missing + [OutputOf(d)]; }
    }
  }

  /** What the promises other than the outputs have to show. */
  method CheckPromises(o: Options, h: Heuristics, outs: seq<Evidence>, lacking: seq<Evidence>)
    returns (satisfied: seq<Evidence>, missing: seq<Evidence>, conflicting: seq<Evidence>)
    requires forall e :: e in lacking <==> e.OutputOf? && e.output in o.outputs && !OutputThere(e.output, o, h)
    ensures forall e :: e in missing <==> Lacking(e, o, h)
    ensures forall e :: e in conflicting <==> Contradicting(e, o)
    ensures forall d :: OutputOf(d) in satisfied <==> OutputOf(d) in outs
  {
    satisfied, missing, conflicting := outs, lacking, [];
    if !NoForeignChange(o) { conflicting := conflicting + [UnexpectedMutation]; }
    if o.criteria {
      if o.validation.None? { missing := missing + [ValidationOf]; }
      else if !Accepting(o.validation.value.decision) { conflicting := conflicting + [ValidationOf]; }
      else { satisfied := satisfied + [ValidationOf]; }
    }
    if o.strategy.Integrates? {
      if o.integration == Some(true) && o.artifact == Some(true) { satisfied := satisfied + [IntegrationOf]; }
      else if o.strict || o.integration.Some? || o.artifact.Some? { missing := missing + [IntegrationOf]; }
    }
    if o.postcondition.Some? {
      if o.postcondition.value {
        satisfied := satisfied + [PostconditionOf];
      } else {
        conflicting := conflicting + [PostconditionOf];
      }
    }
  }

  lemma NothingAmiss(o: Options, h: Heuristics, missing: seq<Evidence>, conflicting: seq<Evidence>)
    requires forall e :: e in missing <==> Lacking(e, o, h)
    requires forall e :: e in conflicting <==> Contradicting(e, o)
    ensures missing == [] && conflicting == [] <==> Delivered(o, h)
  {
    if missing == [] && conflicting == [] {
      assert ValidationOf !in missing && IntegrationOf !in missing;
      assert UnexpectedMutation !in conflicting && ValidationOf !in conflicting && PostconditionOf !in conflicting;
      forall d | d in o.outputs ensures OutputThere(d, o, h) { assert OutputOf(d) !in missing; }
    } else if missing != [] {
      assert Lacking(missing[0], o, h);
    } else {
      assert Contradicting(conflicting[0], o);
    }
  }

  method Conclude(o: Options, h: Heuristics, start: seq<Evidence>, reviewed: bool) returns (v: Verdict)
    requires reviewed <==> PendingReviews(o, h) != []
    requires forall e :: e in start ==> !e.OutputOf?
    ensures v.decision.Inspect? <==> SharedChange(o)
    ensures v.retryable <==> v.decision.Reject?
    ensures v.decision.Inspect? ==> v.next == InspectSideEffects
    ensures !v.decision.Inspect? ==> v.next == if v.decision.Reject? then Rework else NoAction
    ensures v.category ==
      if v.decision.Inspect? then CoordinationTrouble else if Accepting(v.decision) then NoCategory
      else if Disapproved(o) && !o.validation.value.product then ValidationTrouble else ProductTrouble
    ensures Accepting(v.decision) <==>
      OutputsMet(o, h) && NoForeignChange(o) && Validated(o) && Integrated(o) && PostconditionHolds(o)
    ensures Accepting(v.decision) ==> (v.decision.AcceptWithWarnings? <==> Warned(o, h))
    ensures Accepting(v.decision) ==> v.missing == [] && v.conflicting == [] && !v.retryable
    ensures !v.decision.Inspect? ==> forall e :: e in v.missing <==> Lacking(e, o, h)
    ensures !v.decision.Inspect? ==> forall e :: e in v.conflicting <==> Contradicting(e, o)
    ensures Accepting(v.decision) ==> forall d :: OutputOf(d) in v.satisfied <==> d in o.outputs && Met(d, o, h)
  {
    var outs, lacking := CheckOutputs(o, h);
    DeliveredMeans(o, h);
    if SharedChange(o) {
      return Verdict(Inspect, CoordinationTrouble, start + outs, [], [UnattributedMutation], false, InspectSideEffects);
    }
    var satisfied, missing, conflicting := CheckPromises(o, h, start + outs, lacking);
    NothingAmiss(o, h, missing, conflicting);
    if missing != [] || conflicting != [] {
      var category :=
        if ValidationOf in conflicting && !o.validation.value.product then ValidationTrouble else ProductTrouble;
      return Verdict(Reject, category, satisfied, missing, conflicting, true, Rework);
    }
    var warned := reviewed || (o.validation.Some? && o.validation.value.decision.AcceptWithWarnings?);
    v := Verdict(if warned then AcceptWithWarnings else Accept, NoCategory, satisfied, [], [], false, NoAction);
  }

  /** The verdict is exact: it accepts iff the execution succeeded and, in the final phase, all
      that was promised is there; the plain `accept` of the final phase means that no nonzero
      exit needed a review. */
  method EvaluateTaskCompletion(o: Options, h: Heuristics) returns (v: Verdict)
    ensures Accepting(v.decision) <==> Executed(o, h) && (o.execution || Completed(o, h))
    ensures Accepting(v.decision) ==> (v.decision.AcceptWithWarnings? <==> !o.execution && Warned(o, h))
    ensures !v.decision.Inspect? && !o.execution && TurnSucceeded(o.result, Reviewing(o), h) ==> ToldWhy(v, o, h)
    ensures Accepting(v.decision) ==> v.missing == [] && v.conflicting == [] && !v.retryable
    ensures Accepting(v.decision) && !o.execution ==>
      forall d :: OutputOf(d) in v.satisfied <==> d in o.outputs && Met(d, o, h)
    ensures v.decision.Inspect? <==> Inspecting(o, h)
    ensures Directed(v, o, h)
    ensures Accepting(v.decision) ==> CommandsExcused(o, h) && (!o.execution ==> Delivered(o, h))
  {
    AcceptedMeans(o, h);
    var ok, reviews := AssessTaskResult(o.result, o.criteria && o.strategy in {Unset, NoStrategy}, h);
    if !ok {
      var failure := h.failure(o.result);
      return Verdict(Reject, failure.category, [], [], [], failure.retryable, failure.next);
    }
    var satisfied := [TerminalTurn];
    if o.strict && !o.result.complete {
      return Verdict(Inspect, CoordinationTrouble, satisfied, [CompleteTurn], [], o.replaySafe,
                     if o.replaySafe then ReconcileDispatch else InspectSideEffects);
    }
    if o.result.complete { satisfied := satisfied + [CompleteTurn]; }
    var commands := CommandItems(o.result.turnItems + o.result.executionItems);
    var receipt := TestReceipt(commands, h.tests);
    if o.testTask && o.strict && !receipt {
      var tried := exists i :: 0 <= i < |commands| && h.tests.isTest(commands[i].text);
      return Verdict(Inspect, CoordinationTrouble, satisfied, [if tried then TestExit else TestCommand], [], false,
                     InspectExecution);
    }
    if commands != [] { satisfied := satisfied + [CommandLedger]; }
    if o.execution { return Verdict(Accept, NoCategory, satisfied, [], [], false, ContinueCompletion); }
    if reviews != [] {
      var unresolved := UnresolvedReviews(reviews, AssessmentsOf(o));
      if unresolved != [] { return Verdict(Inspect, ValidationTrouble, [], unresolved, [], false, InspectExecution); }
      satisfied := satisfied + [ReviewedCommands];
    }
    v := Conclude(o, h, satisfied, reviews != []);
  }

  // ---------- Soundness ----------

  /** One assessment and no other names the item; it gives the item's own exit code, excuses it, and has
      evidence. */
  predicate AssessedOnce(item: Item, all: seq<Assessment>) {
    && (exists i :: 0 <= i < |all| && all[i].id == item.id)
    && (forall i, j :: 0 <= i < |all| && 0 <= j < |all| && all[i].id == item.id && all[j].id == item.id ==> i == j)
    && (forall i :: 0 <= i < |all| && all[i].id == item.id ==>
          all[i].exit == item.exit && all[i].excusing && all[i].evidenced)
  }

  lemma ResolvedMeans(item: Item, all: seq<Assessment>)
    ensures Resolved(item, all) <==> AssessedOnce(item, all)
  {
    if AssessedOnce(item, all) { var i :| 0 <= i < |all| && all[i].id == item.id; }
  }

  /** Every command of the turn is harmless, or one that may be excused, and then, unless judgement is
      still to come, exactly one assessment excuses it. So no failed test is ever excused. */
  ghost predicate CommandsExcused(o: Options, h: Heuristics) {
    var items := Distinct(o.result.turnItems + o.result.executionItems);
    forall i :: 0 <= i < |items| && Ran(items, i) ==>
      || Harmless(items, i, h)
      || (MayBeExcused(items[i], h) && o.criteria && o.strategy in {Unset, NoStrategy}
          && (o.execution || (o.validation.Some? && AssessedOnce(items[i], o.validation.value.assessments))))
  }

  /** What was declared is there. Evidence that is missing counts as missing where evidence is strict,
      or where the workspace or an artifact was looked at. */
  ghost predicate OutputThere(d: Declared, o: Options, h: Heuristics) {
    match d
    case Report => o.result.report
    case Change(_) =>
      o.artifact == Some(true) || (o.workspace.Some? && o.workspace.value.changed)
      || (!o.strict && o.artifact.None? && (o.workspace.Some? ==> !o.workspace.value.available))
    case Other(name) => name in o.verified || (!h.external(name) && h.claimed(name)) || !o.strict
  }

  /** All that was promised: the outputs, no change by a task that makes none, the acceptance of a
      validator, the integration, the postcondition. */
  ghost predicate Delivered(o: Options, h: Heuristics) {
    && (forall d :: d in o.outputs ==> OutputThere(d, o, h))
    && (o.mutates == Some(false) && o.workspace.Some? ==> !o.workspace.value.changed)
    && (o.criteria ==> o.validation.Some? && o.validation.value.decision in {Accept, AcceptWithWarnings})
    && (o.strategy.Integrates? ==>
          (o.integration == Some(true) && o.artifact == Some(true))
          || (!o.strict && o.integration.None? && o.artifact.None?))
    && o.postcondition != Some(false)
  }

  lemma OutputMeans(d: Declared, o: Options, h: Heuristics)
    ensures OutputThere(d, o, h) <==> Met(d, o, h) || !Demanded(d, o)
  {
  }

  lemma DeliveredMeans(o: Options, h: Heuristics)
    ensures Delivered(o, h) <==>
      OutputsMet(o, h) && NoForeignChange(o) && Validated(o) && Integrated(o) && PostconditionHolds(o)
  {
    forall d ensures OutputThere(d, o, h) <==> Met(d, o, h) || !Demanded(d, o) { OutputMeans(d, o, h); }
    assert OutputsMet(o, h) <==> forall d :: d in o.outputs ==> OutputThere(d, o, h) by {
      assert forall i :: 0 <= i < |o.outputs| ==> o.outputs[i] in o.outputs;
      if d :| d in o.outputs && !OutputThere(d, o, h) {
        var i :| 0 <= i < |o.outputs| && o.outputs[i] == d;
      }
    }
  }

  lemma CompletedMeans(o: Options, h: Heuristics)
    ensures Completed(o, h) <==> ReviewsResolved(o, h) && Delivered(o, h)
  {
    DeliveredMeans(o, h);
  }

  lemma AcceptedMeans(o: Options, h: Heuristics)
    ensures Executed(o, h) && (o.execution || Completed(o, h)) ==>
      CommandsExcused(o, h) && (!o.execution ==> Delivered(o, h))
  {
    CompletedMeans(o, h);
    if Executed(o, h) && (o.execution || ReviewsResolved(o, h)) { AcceptedCommandsExcused(o, h); }
  }

  lemma AcceptedCommandsExcused(o: Options, h: Heuristics)
    requires Executed(o, h) && (o.execution || ReviewsResolved(o, h))
    ensures CommandsExcused(o, h)
  {
    var items := Distinct(ItemsOf(o.result));
    TurnSucceededMeans(o.result, Reviewing(o), h);
    ReviewsMean(items, |items|, Reviewing(o), h);
    if !o.execution {
      forall i | 0 <= i < |items| && ToReview(items, i, Reviewing(o), h)
        ensures AssessedOnce(items[i], AssessmentsOf(o))
      {
        ResolvedMeans(items[i], AssessmentsOf(o));
        assert ReviewedAmong(items, |items|, items[i], Reviewing(o), h);
      }
    }
  }

  /** A test command with a directory, and later in the turn, repeated ids apart, the same command
      succeeded there. */
  ghost predicate SupersededLater(items: seq<Item>, item: Item, t: Recogniser) {
    && item.cwd.Some? && t.isTest(item.text)
    && exists i, j :: 0 <= i < j < |items| && items[i] == item && Supersedes(items[j], item, t)
  }

  /** The four ways a command item can stand in an accepted turn. */
  ghost predicate Accounted(item: Item, o: Options, h: Heuristics) {
    || Clean(item)
    || EmptyFileSearch(item)
    || SupersededLater(Distinct(ItemsOf(o.result)), item, h.tests)
    || (Resolved(item, AssessmentsOf(o)) && Reviewable(item, h) && o.criteria)
  }

  lemma {:induction false} CommandsPlaced(items: seq<Item>, item: Item) returns (i: nat)
    requires item in Commands(items)
    ensures i < |items| && items[i] == item && item.command && !Seen(items[..i], item)
  {
    var n := |items| - 1;
    if item in Commands(items[..n]) {
      i := CommandsPlaced(items[..n], item);
      assert items[..n][..i] == items[..i];
    } else {
      i := n;
    }
  }

  lemma {:induction false} ReviewsHold(items: seq<Item>, n: nat, i: nat, reviewing: bool, h: Heuristics)
    requires i < n <= |items| && OutcomeAt(items, i, reviewing, h).NeedsReview?
    ensures items[i] in Reviews(items, n, reviewing, h)
  {
    if i < n - 1 { ReviewsHold(items, n - 1, i, reviewing, h); }
  }

  lemma LaterPlaced(items: seq<Item>, i: nat, t: Recogniser)
    requires i < |items| && SupersededTest(items[i], items[i + 1..], t)
    ensures SupersededLater(items, items[i], t)
  {
    var k :| 0 <= k < |items[i + 1..]| && Supersedes(items[i + 1..][k], items[i], t);
    assert items[i + 1..][k] == items[i + 1 + k];
  }

  /** Acceptance soundness: in an accepted final turn every deduplicated command item is clean,
      a benign empty search, superseded by a later identical success in its directory, or
      matched by exactly one evidence-backed assessment of the same exit code. */
  lemma AcceptedCommandsAccounted(o: Options, h: Heuristics, item: Item)
    requires Executed(o, h) && Completed(o, h) && item in Commands(ItemsOf(o.result))
    ensures Accounted(item, o, h)
  {
    var items := Distinct(ItemsOf(o.result));
    SameCommands(ItemsOf(o.result));
    var i := CommandsPlaced(items, item);
    match OutcomeAt(items, i, Reviewing(o), h)
    case Passed => if SupersededTest(item, items[i + 1..], h.tests) { LaterPlaced(items, i, h.tests); }
    case NeedsReview => ReviewsHold(items, |items|, i, Reviewing(o), h);
  }

  /** Plain acceptance: no command item is left that exited nonzero without being a benign
      search or a test superseded by a later success. */
  lemma PlainAcceptNeedsNoReview(o: Options, h: Heuristics, i: nat)
    requires Executed(o, h) && !Warned(o, h)
    requires var items := Distinct(o.result.turnItems + o.result.executionItems); i < |items| && Ran(items, i)
    ensures Harmless(Distinct(o.result.turnItems + o.result.executionItems), i, h)
  {
    var items := Distinct(ItemsOf(o.result));
    TurnSucceededMeans(o.result, Reviewing(o), h);
    ReviewsMean(items, |items|, Reviewing(o), h);
    assert !ReviewedAmong(items, |items|, items[i], Reviewing(o), h);
  }

  /** Under strict evidence every declared output is met, whatever its kind. */
  lemma StrictOutputs(o: Options, h: Heuristics)
    requires o.strict && Completed(o, h)
    ensures forall d :: d in o.outputs ==> Met(d, o, h)
    ensures o.strategy.Integrates? ==> o.integration == Some(true) && o.artifact == Some(true)
  {
    forall d | d in o.outputs ensures Met(d, o, h) {
      var i :| 0 <= i < |o.outputs| && o.outputs[i] == d;
    }
  }
}
