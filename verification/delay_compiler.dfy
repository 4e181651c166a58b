// The graphs of delayed expressions, and how they are connected to one graph of jobs.
module DelayCompiler {
  import opened DelayExpressions
  import G = Graphs

  // The graph of an expression: its own parts, and what was passed to on_done.
  ghost predicate IsGraphOf(e: Expr, after: set<Expr>, g: G.Adjacency<Expr>) {
    g.Keys == Own(e) + after && forall v, n :: G.HasEdge(g, v, n) <==> LocalEdge(e, after, v, n)
  }

  // ---------- Building expressions ----------

  method NewJob(id: nat) returns (e: Expr, graph: G.Graph<Expr>)
    ensures e == Job(id) && fresh(graph) && IsGraphOf(e, {}, graph.graph)
  {
    e := Job(id);
    graph := new G.Graph();
    graph.AddVertex(e);
  }

  ghost predicate Neighbours(elements: seq<Expr>, v: Expr, n: Expr) {
    exists k :: Consecutive(elements, k, v, n)
  }

  // A chain needs a first element.
  method NewChain(id: nat, elements: seq<Expr>) returns (e: Expr, graph: G.Graph<Expr>)
    requires elements != []
    ensures e == Chain(id, elements) && fresh(graph) && IsGraphOf(e, {}, graph.graph)
  {
    e := Chain(id, elements);
    graph := new G.Graph();
    graph.AddVertex(elements[0]);
    for i := 1 to |elements|
      invariant forall v :: v in graph.graph <==> v in elements[..i]
      invariant forall v, n :: G.HasEdge(graph.graph, v, n) <==> Neighbours(elements[..i], v, n)
    {
      ghost var before := graph.graph;
      graph.AddEdge(elements[i - 1], elements[i]);
      EdgeAdded(before, elements[i - 1], elements[i]);
      forall v, n ensures G.HasEdge(graph.graph, v, n) <==> Neighbours(elements[..i + 1], v, n) {
        OneMore(elements, i, v, n);
      }
    }
    assert elements[..|elements|] == elements;
    forall v, n ensures G.HasEdge(graph.graph, v, n) <==> LocalEdge(e, {}, v, n) {
      assert Neighbours(elements, v, n) <==> LocalEdge(e, {}, v, n);
    }
  }

  lemma EdgeAdded(g: G.Adjacency<Expr>, p: Expr, c: Expr)
    ensures var g' := G.WithEdge(g, p, c);
      && g'.Keys == g.Keys + {p, c}
      && (forall v, n :: G.HasEdge(g', v, n) <==> G.HasEdge(g, v, n) || (v == p && n == c))
  {
  }

  lemma OneMore(elements: seq<Expr>, i: int, v: Expr, n: Expr)
    requires 0 < i < |elements|
    ensures Neighbours(elements[..i + 1], v, n) <==> Neighbours(elements[..i], v, n) || (v == elements[i - 1] && n == elements[i])
  {
    var less, more := elements[..i], elements[..i + 1];
    if k :| Consecutive(more, k, v, n) {
      if k < i - 1 { assert Consecutive(less, k, v, n); }
    }
    if k :| Consecutive(less, k, v, n) {
      assert Consecutive(more, k, v, n);
    }
    if v == elements[i - 1] && n == elements[i] {
      assert Consecutive(more, i - 1, v, n);
    }
  }

  method NewGroup(id: nat, members: seq<Expr>) returns (e: Expr, graph: G.Graph<Expr>)
    ensures e == Group(id, members) && fresh(graph) && IsGraphOf(e, {}, graph.graph)
  {
    e := Group(id, members);
    graph := new G.Graph();
    for i := 0 to |members|
      invariant forall v :: v in graph.graph <==> v in members[..i]
      invariant forall v :: v in graph.graph ==> graph.graph[v] == {}
    {
      graph.AddVertex(members[i]);
    }
    assert members[..|members|] == members;
  }

  // The expressions from whose end edges lead to what comes after.
  function LastParts(e: Expr): seq<Expr> {
    match e
    case Job(_) => [e]
    case Chain(_, elements) => if elements == [] then [] else [elements[|elements| - 1]]
    case Group(_, members) => members
  }

  // Edges from one vertex to several.
  method AddEdges(graph: G.Graph<Expr>, parent: Expr, children: seq<Expr>)
    modifies graph
    ensures graph.graph.Keys == old(graph.graph).Keys + (if children == [] then {} else {parent}) + G.Elements(children)
    ensures forall v, n :: G.HasEdge(graph.graph, v, n) <==>
      G.HasEdge(old(graph.graph), v, n) || (v == parent && n in children)
  {
    for k := 0 to |children|
      invariant graph.graph.Keys == old(graph.graph).Keys + (if k == 0 then {} else {parent}) + G.Elements(children[..k])
      invariant forall v, n :: G.HasEdge(graph.graph, v, n) <==>
        G.HasEdge(old(graph.graph), v, n) || (v == parent && n in children[..k])
    {
      EdgeAdded(graph.graph, parent, children[k]);
      assert G.Elements(children[..k + 1]) == G.Elements(children[..k]) + {children[k]};
      graph.AddEdge(parent, children[k]);
    }
    assert children[..|children|] == children;
  }

  // What is passed to on_done follows each of the last parts. An empty group has none.
  method OnDone(e: Expr, graph: G.Graph<Expr>, delayables: seq<Expr>, ghost after: set<Expr>)
    requires IsGraphOf(e, after, graph.graph)
    modifies graph
    ensures IsGraphOf(e, if LastParts(e) == [] then after else after + G.Elements(delayables), graph.graph)
  {
    var parts := LastParts(e);
    for i := 0 to |parts|
      invariant graph.graph.Keys == Own(e) + after + (if i == 0 then {} else G.Elements(delayables))
      invariant forall v, n :: G.HasEdge(graph.graph, v, n) <==>
        LocalEdge(e, after, v, n) || (v in parts[..i] && n in delayables)
    {
      assert parts[i] in Own(e);
      AddEdges(graph, parts[i], delayables);
    }
    assert parts[..|parts|] == parts;
    forall v, n
      ensures LocalEdge(e, after + G.Elements(delayables), v, n) <==> LocalEdge(e, after, v, n) || (v in parts && n in delayables)
    {
      LaterEdge(e, after, G.Elements(delayables), v, n);
    }
  }

  lemma LaterEdge(e: Expr, after: set<Expr>, more: set<Expr>, v: Expr, n: Expr)
    ensures LocalEdge(e, after + more, v, n) <==> LocalEdge(e, after, v, n) || (v in LastParts(e) && n in more)
  {
  }

  // ---------- Connecting the graphs ----------

  // An edge from v to n, both expressions, links the tails of v to the heads of n.
  ghost predicate LinksVia(g: G.Adjacency<Expr>, v: Expr, n: Expr, x: Expr, y: Expr) {
    G.HasEdge(g, v, n) && x in Tail(v) && y in Head(n)
  }

  ghost predicate Links(g: G.Adjacency<Expr>, x: Expr, y: Expr) {
    exists v, n :: LinksVia(g, v, n, x, y)
  }

  ghost predicate IsTail(vertices: set<Expr>, x: Expr) {
    exists v :: v in vertices && x in Tail(v)
  }

  // The tails of one vertex are linked to the heads of all its neighbours.
  method MergeVertex(target: G.Graph<Expr>, v: Expr, neighbours: set<Expr>)
    modifies target
    ensures target.graph.Keys == old(target.graph).Keys + Tail(v)
    ensures forall x, y :: G.HasEdge(target.graph, x, y) <==>
      G.HasEdge(old(target.graph), x, y) || (x in Tail(v) && exists n :: n in neighbours && y in Head(n))
  {
    var heads := set n, y | n in neighbours && y in Head(n) :: y;
    var rest := Tail(v);
    ghost var before := target.graph;
    while rest != {}
      invariant rest <= Tail(v) && target.graph.Keys == before.Keys + (Tail(v) - rest)
      invariant forall x, y :: G.HasEdge(target.graph, x, y) <==>
        G.HasEdge(before, x, y) || (x in Tail(v) - rest && y in heads)
      decreases rest
    {
      var tail :| tail in rest;
      ghost var last := target.graph;
      target.graph := target.graph[tail := (if tail in target.graph then target.graph[tail] else {}) + heads];
      rest := rest - {tail};
      forall x, y ensures G.HasEdge(target.graph, x, y) <==> G.HasEdge(last, x, y) || (x == tail && y in heads) {
      }
    }
  }

  method MergeGraph(target: G.Graph<Expr>, source: G.Adjacency<Expr>)
    modifies target
    ensures forall x :: x in target.graph <==> x in old(target.graph) || IsTail(source.Keys, x)
    ensures forall x, y :: G.HasEdge(target.graph, x, y) <==> G.HasEdge(old(target.graph), x, y) || Links(source, x, y)
  {
    var rest := source.Keys;
    ghost var before := target.graph;
    while rest != {}
      invariant rest <= source.Keys
      invariant forall x :: x in target.graph <==> x in before || IsTail(source.Keys - rest, x)
      invariant forall x, y :: G.HasEdge(target.graph, x, y) <==> G.HasEdge(before, x, y) || LinksFrom(source, source.Keys - rest, x, y)
      decreases rest
    {
      var v :| v in rest;
      ghost var done := source.Keys - rest;
      MergeVertex(target, v, source[v]);
      rest := rest - {v};
      assert source.Keys - rest == done + {v};
      forall x ensures IsTail(done + {v}, x) <==> IsTail(done, x) || x in Tail(v) {
      }
      forall x, y ensures LinksFrom(source, done + {v}, x, y) <==>
        LinksFrom(source, done, x, y) || (x in Tail(v) && exists n :: n in source[v] && y in Head(n))
      {
        MoreLinks(source, done, v, x, y);
      }
    }
    assert source.Keys - rest == source.Keys;
    forall x, y ensures LinksFrom(source, source.Keys, x, y) <==> Links(source, x, y) {
    }
  }

  ghost predicate LinksFrom(g: G.Adjacency<Expr>, vertices: set<Expr>, x: Expr, y: Expr) {
    exists v, n :: v in vertices && LinksVia(g, v, n, x, y)
  }

  lemma MoreLinks(g: G.Adjacency<Expr>, done: set<Expr>, u: Expr, x: Expr, y: Expr)
    requires u in g
    ensures LinksFrom(g, done + {u}, x, y) <==>
      LinksFrom(g, done, x, y) || (x in Tail(u) && exists n :: n in g[u] && y in Head(n))
  {
    if x in Tail(u) {
      if n :| n in g[u] && y in Head(n) {
        assert LinksVia(g, u, n, x, y);
      }
    }
  }

  // ---------- All graphs that can be reached ----------

  // The graphs belong to the expressions of the system.
  ghost predicate Drawn(sys: System, graphs: map<Expr, G.Graph<Expr>>)
    reads graphs.Values
  {
    forall e :: e in sys ==> e in graphs && IsGraphOf(e, sys[e], graphs[e].graph)
  }

  ghost predicate IsLeast(sys: System, root: Expr, seen: set<Expr>) {
    forall s: set<Expr> :: root in s && Explored(sys, s) ==> seen <= s
  }

  // The graph merged from those of some expressions.
  ghost predicate MergedFrom(sys: System, merged: set<Expr>, g: G.Adjacency<Expr>) {
    && merged <= sys.Keys
    && (forall x :: x in g <==> exists e :: e in merged && IsTail(Own(e) + sys[e], x))
    && (forall x, y :: G.HasEdge(g, x, y) <==> Linked(sys, merged, x, y))
  }

  lemma MergedMore(sys: System, merged: set<Expr>, g: G.Adjacency<Expr>, e: Expr, source: G.Adjacency<Expr>, g': G.Adjacency<Expr>)
    requires MergedFrom(sys, merged, g) && e in sys && IsGraphOf(e, sys[e], source)
    requires forall x :: x in g' <==> x in g || IsTail(source.Keys, x)
    requires forall x, y :: G.HasEdge(g', x, y) <==> G.HasEdge(g, x, y) || Links(source, x, y)
    ensures MergedFrom(sys, merged + {e}, g')
  {
    forall x, y ensures Links(source, x, y) <==> exists v, n :: LinkOf(sys, e, v, n, x, y) {
      if v, n :| LinksVia(source, v, n, x, y) { assert LinkOf(sys, e, v, n, x, y); }
      if v, n :| LinkOf(sys, e, v, n, x, y) { assert LinksVia(source, v, n, x, y); }
    }
    forall x, y ensures Linked(sys, merged + {e}, x, y) <==> Linked(sys, merged, x, y) || Links(source, x, y) {
    }
  }

  method MergeExpr(target: G.Graph<Expr>, graphs: map<Expr, G.Graph<Expr>>, e: Expr, ghost sys: System, ghost merged: set<Expr>)
    requires Drawn(sys, graphs) && e in sys && target !in graphs.Values && MergedFrom(sys, merged, target.graph)
    modifies target
    ensures MergedFrom(sys, merged + {e}, target.graph)
  {
    ghost var before := target.graph;
    MergeGraph(target, graphs[e].graph);
    MergedMore(sys, merged, before, e, graphs[e].graph, target.graph);
  }

  // The state of the walk: what is merged was seen or is on the stack, and what was seen has all
  // its parts merged.
  ghost predicate Walking(sys: System, root: Expr, merged: set<Expr>, seen: set<Expr>, stack: seq<Expr>) {
    && root in merged && seen <= merged <= sys.Keys && IsLeast(sys, root, merged)
    && (forall e :: e in stack ==> e in merged) && (forall e :: e in merged ==> e in seen || e in stack)
    && (forall e :: e in seen ==> Own(e) <= merged && sys[e] <= merged)
  }

  // Merges the graphs of some expressions and puts them on the stack.
  method MergeAll(target: G.Graph<Expr>, graphs: map<Expr, G.Graph<Expr>>, vertices: set<Expr>, stack0: seq<Expr>,
                  ghost sys: System, ghost merged: set<Expr>)
    returns (stack: seq<Expr>)
    requires Drawn(sys, graphs) && vertices <= sys.Keys && target !in graphs.Values && MergedFrom(sys, merged, target.graph)
    modifies target
    ensures MergedFrom(sys, merged + vertices, target.graph)
    ensures forall e :: e in stack <==> e in stack0 || e in vertices
  {
    stack := stack0;
    var rest := vertices;
    assert merged + (vertices - rest) == merged;
    while rest != {}
      invariant rest <= vertices && MergedFrom(sys, merged + (vertices - rest), target.graph)
      invariant Drawn(sys, graphs)
      invariant forall e :: e in stack <==> e in stack0 || e in vertices - rest
      decreases rest
    {
      var v :| v in rest;
      MergeExpr(target, graphs, v, sys, merged + (vertices - rest));
      stack := stack + [v];
      assert merged + (vertices - rest) + {v} == merged + (vertices - (rest - {v}));
      rest := rest - {v};
    }
    assert merged + (vertices - rest) == merged + vertices;
  }

  lemma WalkOn(sys: System, root: Expr, merged: set<Expr>, seen: set<Expr>, stack: seq<Expr>, stack': seq<Expr>)
    requires Universe(sys) && Walking(sys, root, merged, seen, stack) && stack != [] && stack[0] !in seen
    requires stack[0] in sys && forall e :: e in stack' <==> e in stack[1..] || e in Own(stack[0]) + sys[stack[0]]
    ensures Walking(sys, root, merged + (Own(stack[0]) + sys[stack[0]]), seen + {stack[0]}, stack')
  {
    var current := stack[0];
    var merged' := merged + (Own(current) + sys[current]);
    assert current in stack;
    assert stack == [current] + stack[1..];
    forall s: set<Expr> | root in s && Explored(sys, s) ensures merged' <= s {
      assert merged <= s && current in s;
    }
  }

  // The graph of all jobs that can be reached from an expression, linked from the tails to the
  // heads of what is connected.
  method ConnectGraphs(graphs: map<Expr, G.Graph<Expr>>, root: Expr, ghost sys: System)
    returns (graph: G.Graph<Expr>, ghost seen: set<Expr>)
    requires Universe(sys) && Drawn(sys, graphs) && root in sys
    ensures fresh(graph) && root in seen && Explored(sys, seen) && IsLeast(sys, root, seen)
    ensures forall x :: x in graph.graph <==> x in seen && x.Job?
    ensures forall x, y :: G.HasEdge(graph.graph, x, y) <==> Linked(sys, seen, x, y)
    ensures G.Closed(graph.graph)
  {
    hide Walking, MergedFrom, Universe, Explored, IsLeast, Linked, G.Closed;
    graph := new G.Graph();
    NothingMerged(sys);
    WalkStarts(sys, root);
    MergeExpr(graph, graphs, root, sys, {});
    ghost var merged := {} + {root};
    var known, stack := {}, [root];
    while stack != []
      invariant Drawn(sys, graphs) && graph !in graphs.Values
      invariant Walking(sys, root, merged, known, stack) && MergedFrom(sys, merged, graph.graph)
      decreases sys.Keys - known, |stack|
    {
      var current := stack[0];
      FirstOnStack(sys, root, merged, known, stack);
      if current in known {
        Skip(sys, root, merged, known, stack);
        stack := stack[1..];
      } else {
        var vertices := graphs[current].graph.Keys;
        assert vertices == Own(current) + sys[current];
        ghost var before := stack;
        stack := MergeAll(graph, graphs, vertices, stack[1..], sys, merged);
        WalkOn(sys, root, merged, known, before, stack);
        merged := merged + vertices;
        known := known + {current};
      }
    }
    seen := merged;
    WalkEnds(sys, root, merged, known);
    MergedMeans(sys, seen, graph.graph);
    KeysAreJobs(sys, seen, graph.graph);
  }

  lemma WalkStarts(sys: System, root: Expr)
    requires root in sys
    ensures Walking(sys, root, {} + {root}, {}, [root])
  {
  }

  lemma FirstOnStack(sys: System, root: Expr, merged: set<Expr>, seen: set<Expr>, stack: seq<Expr>)
    requires Universe(sys) && Walking(sys, root, merged, seen, stack) && stack != []
    ensures stack[0] in sys && Own(stack[0]) + sys[stack[0]] <= sys.Keys && seen <= sys.Keys
  {
    assert stack[0] in stack;
  }

  lemma WalkEnds(sys: System, root: Expr, merged: set<Expr>, seen: set<Expr>)
    requires Walking(sys, root, merged, seen, [])
    ensures root in merged && Explored(sys, merged) && IsLeast(sys, root, merged)
  {
  }

  lemma MergedMeans(sys: System, merged: set<Expr>, g: G.Adjacency<Expr>)
    requires MergedFrom(sys, merged, g)
    ensures forall x, y :: G.HasEdge(g, x, y) <==> Linked(sys, merged, x, y)
  {
  }

  lemma NothingMerged(sys: System)
    ensures MergedFrom(sys, {}, map[])
  {
  }

  lemma Skip(sys: System, root: Expr, merged: set<Expr>, seen: set<Expr>, stack: seq<Expr>)
    requires Walking(sys, root, merged, seen, stack) && stack != [] && stack[0] in seen
    ensures Walking(sys, root, merged, seen, stack[1..])
  {
    assert stack == [stack[0]] + stack[1..];
  }

  lemma {:induction false} JobsSeen(sys: System, seen: set<Expr>, e: Expr)
    requires Explored(sys, seen) && e in seen
    ensures Jobs(e) <= seen
    decreases e
  {
    match e
    case Job(_) =>
    case Chain(_, elements) =>
      forall i | 0 <= i < |elements| ensures Jobs(elements[i]) <= seen {
        assert elements[i] in Own(e);
        JobsSeen(sys, seen, elements[i]);
      }
    case Group(_, members) =>
      forall i | 0 <= i < |members| ensures Jobs(members[i]) <= seen {
        assert members[i] in Own(e);
        JobsSeen(sys, seen, members[i]);
      }
  }

  lemma KeyIsJob(sys: System, seen: set<Expr>, g: G.Adjacency<Expr>, x: Expr)
    requires Explored(sys, seen) && MergedFrom(sys, seen, g)
    ensures x in g <==> x in seen && x.Job?
  {
    if x in g {
      var e :| e in seen && IsTail(Own(e) + sys[e], x);
      var v :| v in Own(e) + sys[e] && x in Tail(v);
      OfJobs(v);
      JobsSeen(sys, seen, v);
    }
    if x in seen && x.Job? {
      assert x in Own(x) && x in Tail(x);
      assert IsTail(Own(x) + sys[x], x);
    }
  }

  lemma KeysAreJobs(sys: System, seen: set<Expr>, g: G.Adjacency<Expr>)
    requires Explored(sys, seen) && MergedFrom(sys, seen, g)
    ensures forall x :: x in g <==> x in seen && x.Job?
    ensures G.Closed(g)
  {
    forall x ensures x in g <==> x in seen && x.Job? {
      KeyIsJob(sys, seen, g, x);
    }
    hide MergedFrom, Explored, Jobs, Head, Tail;
    MergedMeans(sys, seen, g);
    forall x, y | G.HasEdge(g, x, y) ensures y in g {
      var e, v, n :| e in seen && LinkOf(sys, e, v, n, x, y);
      EdgeInside(sys, seen, e, v, n);
      OfJobs(n);
      JobsSeen(sys, seen, n);
    }
  }
}
