/** Graph validation by depth-first search, shared by task graphs
    (src/registry.js, validateTaskGraph) and project graphs (src/global-runs.js,
    validateGlobalProjectGraph). */
module TaskGraph {

  type Node = nat
  type Edges = map<Node, seq<Node>>

  ghost predicate Closed(edges: Edges) {
    forall x, i :: x in edges && 0 <= i < |edges[x]| ==> edges[x][i] in edges
  }

  ghost predicate Path(p: seq<Node>, edges: Edges) {
    forall i :: 0 <= i < |p| - 1 ==> p[i] in edges && p[i + 1] in edges[p[i]]
  }

  ghost predicate Cycle(p: seq<Node>, edges: Edges) {
    |p| >= 2 && p[0] == p[|p| - 1] && Path(p, edges)
  }

  ghost predicate Cyclic(edges: Edges) { exists p :: Cycle(p, edges) }

  ghost predicate Distinct(s: seq<Node>) { forall i, j :: 0 <= i < j < |s| ==> s[i] != s[j] }

  /** Every node's edges lead to nodes placed before it. */
  ghost predicate Ordered(order: seq<Node>, edges: Edges) {
    && Distinct(order)
    && forall i :: 0 <= i < |order| ==> order[i] in edges && forall y :: y in edges[order[i]] ==> y in order[..i]
  }

  ghost predicate Topological(order: seq<Node>, edges: Edges) {
    Ordered(order, edges) && forall x :: x in edges ==> x in order
  }

  function Position(order: seq<Node>, x: Node): (k: nat)
    requires x in order
    ensures k < |order| && order[k] == x
  {
    if order[0] == x then 0 else 1 + Position(order[1..], x)
  }

  lemma PositionFalls(order: seq<Node>, edges: Edges, x: Node, y: Node)
    requires Topological(order, edges) && x in edges && y in edges[x]
    ensures y in order && Position(order, y) < Position(order, x)
  {
    var i := Position(order, x);
    assert y in order[..i];
    var j :| 0 <= j < i && order[..i][j] == y;
    assert order[Position(order, y)] == order[j];
  }

  lemma {:induction false} PathFalls(order: seq<Node>, edges: Edges, p: seq<Node>)
    requires Topological(order, edges) && Path(p, edges) && |p| >= 2
    ensures p[0] in order && p[|p| - 1] in order
    ensures Position(order, p[|p| - 1]) < Position(order, p[0])
  {
    PositionFalls(order, edges, p[0], p[1]);
    if |p| > 2 {
      assert Path(p[1..], edges);
      PathFalls(order, edges, p[1..]);
    }
  }

  /** A topological order rules out every cycle. */
  lemma OrderRefutesCycles(order: seq<Node>, edges: Edges)
    requires Topological(order, edges)
    ensures !Cyclic(edges)
  {
    forall p | Cycle(p, edges) ensures false {
      PathFalls(order, edges, p);
    }
  }

  lemma OrderedAppend(order: seq<Node>, edges: Edges, x: Node)
    requires Ordered(order, edges) && x in edges && x !in order
    requires forall y :: y in edges[x] ==> y in order
    ensures Ordered(order + [x], edges)
  {
    forall i | 0 <= i <= |order|
      ensures (order + [x])[i] in edges && forall y :: y in edges[(order + [x])[i]] ==> y in (order + [x])[..i]
    {
      if i < |order| { assert (order + [x])[..i] == order[..i]; } else { assert (order + [x])[..i] == order; }
    }
  }

  /** The closure `visit` with the two sets it mutates. */
  lemma BackEdge(stack: seq<Node>, edges: Edges, id: Node)
    requires Closed(edges) && Path(stack, edges) && id in stack && id in edges
    requires stack != [] ==> stack[|stack| - 1] in edges && id in edges[stack[|stack| - 1]]
    ensures Cyclic(edges)
  {
    var k := Position(stack, id);
    assert Cycle(stack[k..] + [id], edges);
  }

  class Visitor {
    const edges: Edges
    var visiting: set<Node>
    var visited: set<Node>
    ghost var stack: seq<Node>
    ghost var order: seq<Node>

    ghost predicate Valid()
      reads this
    {
      && Closed(edges)
      && visiting == (set x | x in stack)
      && visited == (set x | x in order)
      && visiting !! visited
      && visiting <= edges.Keys
      && Path(stack, edges)
      && Ordered(order, edges)
    }

    constructor (edges: Edges)
      requires Closed(edges)
      ensures Valid() && this.edges == edges && stack == [] && order == []
    {
      this.edges := edges;
      visiting, visited := {}, {};
      stack, order := [], [];
    }

    /** Accepts when everything reachable from `id` is free of cycles; otherwise the graph
        has one. The recursion consumes nodes in neither set. */
    method Visit(id: Node) returns (ok: bool)
      requires Valid() && id in edges
      requires stack != [] ==> id in edges[stack[|stack| - 1]]
      modifies this
      ensures ok ==> Valid() && stack == old(stack) && old(order) <= order && id in visited
      ensures !ok ==> Cyclic(edges)
      decreases edges.Keys - visiting - visited
    {
      if id in visiting {
        BackEdge(stack, edges, id);
        return false;
      }
      if id in visited { return true; }
      visiting, stack := visiting + {id}, stack + [id];
      assert id in old(edges.Keys - visiting - visited) - (edges.Keys - visiting - visited);
      var i := 0;
      while i < |edges[id]|
        invariant 0 <= i <= |edges[id]|
        invariant Valid() && stack == old(stack) + [id] && old(order) <= order
        invariant forall j :: 0 <= j < i ==> edges[id][j] in visited
        invariant edges.Keys - visiting - visited < old(edges.Keys - visiting - visited)
      {
        ok := Visit(edges[id][i]);
        if !ok { return; }
        i := i + 1;
      }
      visiting, stack := visiting - {id}, stack[..|stack| - 1];
      OrderedAppend(order, edges, id);
      visited, order := visited + {id}, order + [id];
      ok := true;
    }
  }

  /** A node with its declared edges, before any check. */
  datatype Declared = Declared(id: Node, targets: seq<Node>)

  predicate UniqueIds(ds: seq<Declared>) { forall i, j :: 0 <= i < j < |ds| ==> ds[i].id != ds[j].id }

  function EdgesOf(ds: seq<Declared>): (edges: Edges)
    ensures forall x :: x in edges <==> exists i :: 0 <= i < |ds| && ds[i].id == x
  {
    if ds == [] then map[] else
      var d := ds[|ds| - 1];
      EdgesOf(ds[..|ds| - 1])[d.id := d.targets]
  }

  lemma {:induction false} EdgesAt(ds: seq<Declared>, i: nat)
    requires i < |ds| && UniqueIds(ds)
    ensures EdgesOf(ds)[ds[i].id] == ds[i].targets
  {
    if i < |ds| - 1 { EdgesAt(ds[..|ds| - 1], i); }
  }

  predicate KnownTargets(d: Declared, edges: Edges) {
    forall k :: 0 <= k < |d.targets| ==> d.targets[k] in edges && d.targets[k] != d.id
  }

  /** No duplicate id, no unknown edge, no self-loop. */
  predicate WellDeclared(ds: seq<Declared>) {
    UniqueIds(ds) && forall i :: 0 <= i < |ds| ==> KnownTargets(ds[i], EdgesOf(ds))
  }

  method CollectEdges(ds: seq<Declared>) returns (unique: bool, edges: Edges)
    ensures unique <==> UniqueIds(ds)
    ensures unique ==> edges == EdgesOf(ds)
  {
    edges := map[];
    for i := 0 to |ds|
      invariant UniqueIds(ds[..i]) && edges == EdgesOf(ds[..i])
    {
      assert ds[..i + 1][..i] == ds[..i];
      if ds[i].id in edges {
        var j :| 0 <= j < i && ds[..i][j].id == ds[i].id;
        assert ds[j].id == ds[i].id;
        return false, edges;
      }
      assert forall j :: 0 <= j < i ==> ds[..i][j].id != ds[i].id;
      edges := edges[ds[i].id := ds[i].targets];
    }
    assert ds[..|ds|] == ds;
    unique := true;
  }

  method CheckTargets(d: Declared, edges: Edges) returns (known: bool)
    ensures known <==> KnownTargets(d, edges)
  {
    for k := 0 to |d.targets|
      invariant forall m :: 0 <= m < k ==> d.targets[m] in edges && d.targets[m] != d.id
    {
      if d.targets[k] !in edges || d.targets[k] == d.id { return false; }
    }
    known := true;
  }

  method VisitAll(ids: seq<Declared>, edges: Edges) returns (acyclic: bool, ghost order: seq<Node>)
    requires Closed(edges) && forall i :: 0 <= i < |ids| ==> ids[i].id in edges
    requires forall x :: x in edges ==> exists i :: 0 <= i < |ids| && ids[i].id == x
    ensures acyclic <==> !Cyclic(edges)
    ensures acyclic ==> Topological(order, edges)
  {
    order := [];
    var visitor := new Visitor(edges);
    for i := 0 to |ids|
      invariant fresh(visitor) && visitor.edges == edges && visitor.Valid() && visitor.stack == []
      invariant forall j :: 0 <= j < i ==> ids[j].id in visitor.order
    {
      acyclic := visitor.Visit(ids[i].id);
      if !acyclic { return; }
    }
    order := visitor.order;
    OrderRefutesCycles(order, edges);
    acyclic := true;
  }

  lemma WellDeclaredCloses(ds: seq<Declared>)
    requires WellDeclared(ds)
    ensures Closed(EdgesOf(ds))
  {
    var edges := EdgesOf(ds);
    forall x, k | x in edges && 0 <= k < |edges[x]| ensures edges[x][k] in edges {
      var i :| 0 <= i < |ds| && ds[i].id == x;
      EdgesAt(ds, i);
      assert KnownTargets(ds[i], edges);
    }
  }

  /** Exact: accepts iff the list is non-empty, ids are unique, every edge leads to another
      declared node and no cycle exists; the finishing order is then topological. */
  method Validate(ds: seq<Declared>) returns (ok: bool, ghost order: seq<Node>)
    ensures ok <==> ds != [] && WellDeclared(ds) && !Cyclic(EdgesOf(ds))
    ensures ok ==> Topological(order, EdgesOf(ds))
  {
    order := [];
    if ds == [] { return false, order; }
    var unique, edges := CollectEdges(ds);
    if !unique { return false, order; }
    for i := 0 to |ds|
      invariant forall j :: 0 <= j < i ==> KnownTargets(ds[j], edges)
    {
      var known := CheckTargets(ds[i], edges);
      if !known { return false, order; }
    }
    WellDeclaredCloses(ds);
    ok, order := VisitAll(ds, edges);
  }

  // ---------- Project graphs ----------

  datatype Edge = Edge(source: Node, target: Node)

  predicate UniqueNodes(ids: seq<Node>) { forall i, j :: 0 <= i < j < |ids| ==> ids[i] != ids[j] }

  /** Both ends are known and differ. */
  predicate EdgesKnown(ids: seq<Node>, es: seq<Edge>) {
    forall i :: 0 <= i < |es| ==> es[i].source in ids && es[i].target in ids && es[i].source != es[i].target
  }

  /** The targets of `x`, in edge order. */
  function TargetsOf(es: seq<Edge>, x: Node): seq<Node> {
    if es == [] then [] else
      var e := es[|es| - 1];
      TargetsOf(es[..|es| - 1], x) + if e.source == x then [e.target] else []
  }

  function ProjectEdges(ids: seq<Node>, es: seq<Edge>): Edges { map x | x in ids :: TargetsOf(es, x) }

  lemma {:induction false} TargetListed(es: seq<Edge>, i: nat)
    requires i < |es|
    ensures es[i].target in TargetsOf(es, es[i].source)
  {
    if i < |es| - 1 { TargetListed(es[..|es| - 1], i); }
  }

  lemma ProjectEdgeListed(ids: seq<Node>, es: seq<Edge>, i: nat)
    requires i < |es| && es[i].source in ids
    ensures es[i].source in ProjectEdges(ids, es) && es[i].target in ProjectEdges(ids, es)[es[i].source]
  {
    TargetListed(es, i);
  }

  lemma {:induction false} TargetsKnown(ids: seq<Node>, es: seq<Edge>, x: Node)
    requires EdgesKnown(ids, es)
    ensures forall y :: y in TargetsOf(es, x) ==> y in ids
  {
    if es != [] { TargetsKnown(ids, es[..|es| - 1], x); }
  }

  method CheckNodes(ids: seq<Node>) returns (unique: bool)
    ensures unique <==> UniqueNodes(ids)
  {
    var seen: set<Node> := {};
    for i := 0 to |ids|
      invariant UniqueNodes(ids[..i]) && seen == set x | x in ids[..i]
    {
      if ids[i] in seen {
        var j :| 0 <= j < i && ids[..i][j] == ids[i];
        assert ids[j] == ids[i];
        return false;
      }
      assert forall j :: 0 <= j < i ==> ids[..i][j] != ids[i];
      seen := seen + {ids[i]};
    }
    assert ids[..|ids|] == ids;
    unique := true;
  }

  lemma TargetsGrow(es: seq<Edge>, i: nat, x: Node)
    requires i < |es|
    ensures es[i].source == x ==> TargetsOf(es[..i + 1], x) == TargetsOf(es[..i], x) + [es[i].target]
    ensures es[i].source != x ==> TargetsOf(es[..i + 1], x) == TargetsOf(es[..i], x)
  {
    assert es[..i + 1][..i] == es[..i];
  }

  lemma ProjectEdgesGrow(ids: seq<Node>, es: seq<Edge>, i: nat)
    requires i < |es| && es[i].source in ids
    ensures var before := ProjectEdges(ids, es[..i]);
      ProjectEdges(ids, es[..i + 1]) == before[es[i].source := before[es[i].source] + [es[i].target]]
  {
    forall x | x in ids
      ensures es[i].source == x ==> TargetsOf(es[..i + 1], x) == TargetsOf(es[..i], x) + [es[i].target]
      ensures es[i].source != x ==> TargetsOf(es[..i + 1], x) == TargetsOf(es[..i], x)
    {
      TargetsGrow(es, i, x);
    }
  }

  method CollectProjectEdges(ids: seq<Node>, es: seq<Edge>) returns (known: bool, edges: Edges)
    ensures known <==> EdgesKnown(ids, es)
    ensures known ==> edges == ProjectEdges(ids, es)
  {
    edges := map x | x in ids :: [];
    for i := 0 to |es|
      invariant EdgesKnown(ids, es[..i]) && edges == ProjectEdges(ids, es[..i])
    {
      var e := es[i];
      if e.source !in ids || e.target !in ids || e.source == e.target { return false, edges; }
      ProjectEdgesGrow(ids, es, i);
      edges := edges[e.source := edges[e.source] + [e.target]];
    }
    assert es[..|es|] == es;
    known := true;
  }

  /** Exact, like Validate: the list of runs is non-empty and free of repeats, every dependency
      joins two different known runs, and no cycle exists. */
  method ValidateProjects(ids: seq<Node>, es: seq<Edge>) returns (ok: bool, ghost order: seq<Node>)
    ensures ok <==> ids != [] && UniqueNodes(ids) && EdgesKnown(ids, es) && !Cyclic(ProjectEdges(ids, es))
    ensures ok ==> Topological(order, ProjectEdges(ids, es))
  {
    order := [];
    if ids == [] { return false, order; }
    var unique := CheckNodes(ids);
    if !unique { return false, order; }
    var known, edges := CollectProjectEdges(ids, es);
    if !known { return false, order; }
    forall x | x in edges ensures forall k :: 0 <= k < |edges[x]| ==> edges[x][k] in edges { TargetsKnown(ids, es, x); }
    var starts := seq(|ids|, i requires 0 <= i < |ids| => Declared(ids[i], []));
    assert forall i :: 0 <= i < |ids| ==> starts[i].id == ids[i];
    forall x | x in edges ensures exists i :: 0 <= i < |starts| && starts[i].id == x {
      var i :| 0 <= i < |ids| && ids[i] == x;
      assert starts[i].id == x;
    }
    ok, order := VisitAll(starts, edges);
  }
}
