// Directed graphs as a mapping from each vertex to its neighbours, and Kahn's algorithm on them.
module Graphs {

  type Adjacency<!V> = map<V, set<V>>

  predicate HasEdge<V(==)>(g: Adjacency<V>, p: V, c: V) {
    p in g && c in g[p]
  }

  // Every neighbour is a vertex.
  ghost predicate Closed<V(!new)>(g: Adjacency<V>) {
    forall p, c :: HasEdge(g, p, c) ==> c in g
  }

  function WithEdge<V(==)>(g: Adjacency<V>, p: V, c: V): Adjacency<V> {
    var g1 := if c in g then g else g[c := {}];
    g1[p := (if p in g1 then g1[p] else {}) + {c}]
  }

  function Predecessors<V(==)>(g: Adjacency<V>, v: V): set<V> {
    set p | p in g && v in g[p]
  }

  function EdgeSet<V(==)>(g: Adjacency<V>): set<(V, V)> {
    set p, c | p in g && c in g[p] :: (p, c)
  }

  // The vertices that are nobody's neighbours.
  function Roots<V(==)>(g: Adjacency<V>): set<V> {
    set v | v in g && Predecessors(g, v) == {}
  }

  // ---------- Cycles ----------

  ghost predicate IsWalk<V(!new)>(g: Adjacency<V>, walk: seq<V>) {
    |walk| > 0 && forall i :: 0 < i < |walk| ==> HasEdge(g, walk[i - 1], walk[i])
  }

  ghost predicate IsCycle<V(!new)>(g: Adjacency<V>, walk: seq<V>) {
    IsWalk(g, walk) && |walk| > 1 && walk[0] == walk[|walk| - 1]
  }

  ghost predicate HasNoCycle<V(!new)>(g: Adjacency<V>) {
    forall walk :: !IsCycle(g, walk)
  }

  ghost function Elements<V>(s: seq<V>): set<V> {
    set v | v in s
  }

  ghost predicate Distinct<V>(s: seq<V>) {
    forall i, k :: 0 <= i < k < |s| ==> s[i] != s[k]
  }

  lemma {:induction false} DistinctSize<V>(s: seq<V>)
    requires Distinct(s)
    ensures |Elements(s)| == |s|
  {
    if s != [] {
      DistinctSize(s[1..]);
      assert Elements(s) == Elements(s[1..]) + {s[0]} && s[0] !in s[1..];
    }
  }

  lemma SubsetSize<V>(a: set<V>, b: set<V>)
    requires a <= b
    ensures |a| <= |b|
  {
    assert b == a + (b - a);
  }

  ghost predicate FollowsOneOf<V(!new)>(g: Adjacency<V>, among: set<V>, v: V) {
    exists p :: p in among && HasEdge(g, p, v)
  }

  ghost predicate AllFollow<V(!new)>(g: Adjacency<V>, among: set<V>) {
    forall v :: v in among ==> FollowsOneOf(g, among, v)
  }

  lemma WalkBack<V(!new)>(g: Adjacency<V>, p: V, walk: seq<V>, i: nat)
    requires IsWalk(g, walk) && HasEdge(g, p, walk[0]) && i < |walk|
    ensures IsWalk(g, [p] + walk) && IsWalk(g, [p] + walk[..i + 1])
  {
    var back := [p] + walk;
    forall k | 0 < k < |back| ensures HasEdge(g, back[k - 1], back[k]) {
      if k > 1 { assert HasEdge(g, walk[k - 2], walk[k - 1]); }
    }
    assert [p] + walk[..i + 1] == back[..i + 2];
  }

  lemma StepBack<V(!new)>(g: Adjacency<V>, among: set<V>, walk: seq<V>) returns (p: V)
    requires AllFollow(g, among) && IsWalk(g, walk) && Elements(walk) <= among
    ensures walk != [] && p in among && HasEdge(g, p, walk[0])
  {
    assert walk[0] in Elements(walk);
    assert FollowsOneOf(g, among, walk[0]);
    p :| p in among && HasEdge(g, p, walk[0]);
  }

  lemma CycleParts<V(!new)>(g: Adjacency<V>, walk: seq<V>)
    requires IsWalk(g, walk) && |walk| > 1 && walk[0] == walk[|walk| - 1]
    ensures IsCycle(g, walk)
  {
  }

  // Walking backwards among vertices that all have a predecessor among them ends in a cycle.
  lemma {:induction false} BackwardsCycle<V(!new)>(g: Adjacency<V>, among: set<V>, walk: seq<V>) returns (cycle: seq<V>)
    requires AllFollow(g, among) && IsWalk(g, walk) && Distinct(walk) && Elements(walk) <= among
    ensures IsCycle(g, cycle)
    decreases |among| - |walk|
  {
    var p := StepBack(g, among, walk);
    hide IsWalk, AllFollow, HasEdge;
    if i :| 0 <= i < |walk| && walk[i] == p {
      WalkBack(g, p, walk, i);
      cycle := [p] + walk[..i + 1];
      CycleParts(g, cycle);
    } else {
      WalkBack(g, p, walk, 0);
      assert Elements([p] + walk) == Elements(walk) + {p};
      DistinctSize([p] + walk);
      SubsetSize(Elements([p] + walk), among);
      cycle := BackwardsCycle(g, among, [p] + walk);
    }
  }

  // ---------- Topological orders ----------

  // No vertex comes twice or before one of its predecessors.
  ghost predicate InTopologicalOrder<V(!new)>(g: Adjacency<V>, order: seq<V>) {
    && Distinct(order) && (forall v :: v in order ==> v in g)
    && (forall p, k :: 0 <= k < |order| && HasEdge(g, p, order[k]) ==> p in order[..k])
  }

  ghost function Missing<V>(g: Adjacency<V>, order: seq<V>): set<V> {
    set v | v in g && v !in order
  }

  lemma {:induction false} WalkFollowsOrder<V(!new)>(g: Adjacency<V>, order: seq<V>, walk: seq<V>, i: nat, k: nat)
    returns (a: nat, b: nat)
    requires InTopologicalOrder(g, order) && IsWalk(g, walk) && i < k < |walk|
    requires forall v :: v in g ==> v in order
    requires Closed(g)
    ensures a < b < |order| && order[a] == walk[i] && order[b] == walk[k]
    decreases k
  {
    assert HasEdge(g, walk[k - 1], walk[k]);
    b :| 0 <= b < |order| && order[b] == walk[k];
    a :| 0 <= a < b && order[a] == walk[k - 1];
    if i < k - 1 {
      var c;
      var a' := a;
      a, c := WalkFollowsOrder(g, order, walk, i, k - 1);
      assert c == a';
    }
  }

  lemma TotalHasNoCycle<V(!new)>(g: Adjacency<V>, order: seq<V>, walk: seq<V>)
    requires Closed(g) && InTopologicalOrder(g, order) && Missing(g, order) == {}
    ensures !IsCycle(g, walk)
  {
    if IsCycle(g, walk) {
      assert forall v :: v in g ==> v !in Missing(g, order);
      var a, b := WalkFollowsOrder(g, order, walk, 0, |walk| - 1);
    }
  }

  // An order in which every missing vertex has to wait for a missing one is total exactly if
  // there is no cycle.
  lemma OrderIsTotal<V(!new)>(g: Adjacency<V>, order: seq<V>)
    requires Closed(g) && InTopologicalOrder(g, order) && AllFollow(g, Missing(g, order))
    ensures Missing(g, order) == {} <==> HasNoCycle(g)
  {
    hide AllFollow, InTopologicalOrder, Closed, IsCycle;
    if Missing(g, order) == {} {
      forall walk ensures !IsCycle(g, walk) {
        TotalHasNoCycle(g, order, walk);
      }
    } else {
      var v :| v in Missing(g, order);
      assert Elements([v]) == {v};
      var cycle := BackwardsCycle(g, Missing(g, order), [v]);
    }
  }

  // ---------- The class ----------

  class Graph<V(==, !new)> {
    var graph: Adjacency<V>

    constructor ()
      ensures graph == map[]
    {
      graph := map[];
    }

    method AddVertex(v: V)
      modifies this
      ensures graph == if v in old(graph) then old(graph) else old(graph)[v := {}]
    {
      if v !in graph {
        graph := graph[v := {}];
      }
    }

    method AddEdge(parent: V, child: V)
      modifies this
      ensures graph == WithEdge(old(graph), parent, child)
    {
      AddVertex(child);
      if parent !in graph {
        graph := graph[parent := {}];
      }
      graph := graph[parent := graph[parent] + {child}];
    }

    method RootVertices() returns (roots: set<V>)
      ensures roots == Roots(graph)
    {
      var dependents := {};
      var rest := graph.Keys;
      while rest != {}
        invariant rest <= graph.Keys
        invariant forall v :: v in dependents <==> exists p :: p in graph.Keys - rest && HasEdge(graph, p, v)
        decreases rest
      {
        var p :| p in rest;
        ghost var before := dependents;
        dependents := dependents + graph[p];
        rest := rest - {p};
        forall v ensures v in dependents <==> exists q :: q in graph.Keys - rest && HasEdge(graph, q, v) {
          if v in graph[p] { assert HasEdge(graph, p, v); }
        }
      }
      roots := graph.Keys - dependents;
      forall v | v in graph ensures v in roots <==> v in Roots(graph) {
        if v in dependents {
          var p :| p in graph && HasEdge(graph, p, v);
          assert p in Predecessors(graph, v);
        } else {
          forall p ensures p !in Predecessors(graph, v) {
            assert p in graph ==> !HasEdge(graph, p, v);
          }
        }
      }
    }

    // How many edges lead to each vertex.
    method CountDependencies() returns (depends: map<V, int>)
      requires Closed(graph)
      ensures depends.Keys == graph.Keys && forall v :: v in graph ==> depends[v] == |Predecessors(graph, v)|
    {
      depends := map v | v in graph :: 0;
      var rest := EdgeSet(graph);
      NoneCounted(graph);
      hide Predecessors, Sources, EdgeSet;
      while rest != {}
        invariant rest <= EdgeSet(graph) && depends.Keys == graph.Keys
        invariant forall v :: v in graph ==> depends[v] == |Predecessors(graph, v) - Sources(rest, v)|
        decreases rest
      {
        var edge :| edge in rest;
        var (p, c) := edge;
        CountOne(graph, rest, p, c);
        depends := depends[c := depends[c] + 1];
        rest := rest - {edge};
      }
      forall v | v in graph ensures Predecessors(graph, v) - Sources({}, v) == Predecessors(graph, v) {
        NoSources(v);
      }
    }

    // The vertex is done: the neighbours that depend on no other vertex follow.
    method Release(vertex: V, order: seq<V>, queue0: seq<V>, depends0: map<V, int>)
      returns (queue: seq<V>, depends: map<V, int>)
      requires Closed(graph) && vertex in graph && Progress(graph, order, queue0, depends0, graph[vertex])
      requires InTopologicalOrder(graph, order) && vertex in order
      ensures Progress(graph, order, queue, depends, {})
    {
      queue, depends := queue0, depends0;
      var rest := graph[vertex];
      while rest != {}
        invariant rest <= graph[vertex] && Progress(graph, order, queue, depends, rest)
        decreases rest
      {
        var node :| node in rest;
        assert HasEdge(graph, vertex, node);
        ReleaseOne(graph, order, queue, depends, rest, node);
        depends := depends[node := depends[node] - 1];
        if depends[node] == 0 {
          queue := queue + [node];
        }
        rest := rest - {node};
      }
    }

    // Yields the vertices in an order that respects the edges; all of them if there is no cycle.
    method TopologicalSort() returns (order: seq<V>)
      requires Closed(graph)
      ensures InTopologicalOrder(graph, order)
      ensures (forall v :: v in graph ==> v in order) <==> HasNoCycle(graph)
    {
      order := [];
      var depends := CountDependencies();
      var roots := RootVertices();
      var queue := Enumerate(roots);
      NothingDone(graph, queue, depends);
      while queue != []
        invariant InTopologicalOrder(graph, order) && Progress(graph, order, queue, depends, {})
        decreases |graph| - |order|
      {
        var vertex := queue[0];
        VertexDone(graph, order, queue, depends);
        order := order + [vertex];
        queue, depends := Release(vertex, order, queue[1..], depends);
        assert Elements(order) <= graph.Keys;
        DistinctSize(order);
        SubsetSize(Elements(order), graph.Keys);
      }
      NothingReady(graph, order, depends);
      OrderIsTotal(graph, order);
      assert (forall v :: v in graph ==> v in order) <==> Missing(graph, order) == {};
    }
  }

  // The state of the sort: `order` is done, `queue` is ready, and `depends` counts the vertices
  // each one waits for. The vertices in `rest` do not know yet that the last vertex is done.
  ghost predicate Progress<V(!new)>(g: Adjacency<V>, order: seq<V>, queue: seq<V>, depends: map<V, int>, rest: set<V>) {
    && Distinct(order + queue) && rest <= g.Keys
    && (forall v :: Listed(order, queue, v) <==> IsReady(g, order, rest, v))
    && depends.Keys == g.Keys && (forall v :: v in g ==> CountOk(g, order, depends[v], rest, v))
  }

  ghost predicate Listed<V>(order: seq<V>, queue: seq<V>, v: V) {
    v in order || v in queue
  }

  ghost predicate IsReady<V(!new)>(g: Adjacency<V>, order: seq<V>, rest: set<V>, v: V) {
    v in g && v !in rest && Waits(g, order, v) == {}
  }

  ghost predicate CountOk<V(!new)>(g: Adjacency<V>, order: seq<V>, count: int, rest: set<V>, v: V) {
    count == |Waits(g, order, v)| + if v in rest then 1 else 0
  }

  // The vertices that v still waits for.
  ghost function Waits<V(!new)>(g: Adjacency<V>, order: seq<V>, v: V): set<V> {
    Predecessors(g, v) - Elements(order)
  }

  method Enumerate<V(==)>(vs: set<V>) returns (s: seq<V>)
    ensures Distinct(s) && Elements(s) == vs
  {
    s := [];
    var rest := vs;
    while rest != {}
      invariant rest <= vs && Distinct(s) && Elements(s) == vs - rest
      decreases rest
    {
      var v :| v in rest;
      assert Elements(s + [v]) == Elements(s) + {v};
      assert v !in Elements(s);
      s := s + [v];
      rest := rest - {v};
    }
  }

  // The parts of the progress that concern one vertex.
  ghost predicate ProgressAt<V(!new)>(g: Adjacency<V>, order: seq<V>, queue: seq<V>, depends: map<V, int>, rest: set<V>, v: V) {
    && (Listed(order, queue, v) <==> IsReady(g, order, rest, v))
    && (v in g ==> v in depends && CountOk(g, order, depends[v], rest, v))
  }

  lemma ProgressParts<V(!new)>(g: Adjacency<V>, order: seq<V>, queue: seq<V>, depends: map<V, int>, rest: set<V>)
    requires Distinct(order + queue) && rest <= g.Keys && depends.Keys == g.Keys
    requires forall v :: ProgressAt(g, order, queue, depends, rest, v)
    ensures Progress(g, order, queue, depends, rest)
  {
    hide Distinct, CountOk, IsReady, Listed;
    forall v ensures Listed(order, queue, v) <==> IsReady(g, order, rest, v) {
      assert ProgressAt(g, order, queue, depends, rest, v);
    }
    forall v | v in g ensures CountOk(g, order, depends[v], rest, v) {
      assert ProgressAt(g, order, queue, depends, rest, v);
    }
  }

  lemma ProgressOf<V(!new)>(g: Adjacency<V>, order: seq<V>, queue: seq<V>, depends: map<V, int>, rest: set<V>, v: V)
    requires Progress(g, order, queue, depends, rest)
    ensures ProgressAt(g, order, queue, depends, rest, v)
  {
    hide Distinct, CountOk, IsReady, Listed;
  }

  lemma NothingDone<V(!new)>(g: Adjacency<V>, queue: seq<V>, depends: map<V, int>)
    requires Distinct(queue) && Elements(queue) == Roots(g)
    requires depends.Keys == g.Keys && forall v :: v in g ==> depends[v] == |Predecessors(g, v)|
    ensures Progress(g, [], queue, depends, {})
  {
    forall v ensures ProgressAt(g, [], queue, depends, {}, v) {
      NothingDoneAt(g, queue, depends, v);
    }
    assert [] + queue == queue;
    hide ProgressAt, Distinct, Roots, Predecessors, Elements;
    ProgressParts(g, [], queue, depends, {});
  }

  lemma NothingDoneAt<V(!new)>(g: Adjacency<V>, queue: seq<V>, depends: map<V, int>, v: V)
    requires Elements(queue) == Roots(g) && (v in g ==> v in depends && depends[v] == |Predecessors(g, v)|)
    ensures ProgressAt(g, [], queue, depends, {}, v)
  {
    assert Waits(g, [], v) == Predecessors(g, v);
    assert v in queue <==> v in Elements(queue);
  }

  lemma WaitsLess<V(!new)>(g: Adjacency<V>, order: seq<V>, x: V, v: V)
    ensures Waits(g, order + [x], v) == Waits(g, order, v) - {x}
    ensures x !in order ==> (x in Waits(g, order, v) <==> HasEdge(g, x, v))
  {
    assert Elements(order + [x]) == Elements(order) + {x};
  }

  lemma CountLess<V(!new)>(g: Adjacency<V>, order: seq<V>, x: V, count: int, v: V)
    requires x in g && x !in order && CountOk(g, order, count, {}, v)
    ensures CountOk(g, order + [x], count, g[x], v)
    ensures IsReady(g, order + [x], g[x], v) <==> IsReady(g, order, {}, v)
  {
    WaitsLess(g, order, x, v);
    if v in g[x] {
      assert Waits(g, order, v) == Waits(g, order + [x], v) + {x};
    } else {
      assert Waits(g, order + [x], v) == Waits(g, order, v);
    }
  }

  lemma OrderGrows<V(!new)>(g: Adjacency<V>, order: seq<V>, x: V)
    requires InTopologicalOrder(g, order) && x !in order && IsReady(g, order, {}, x)
    ensures InTopologicalOrder(g, order + [x])
  {
    var order' := order + [x];
    forall p, k | 0 <= k < |order'| && HasEdge(g, p, order'[k]) ensures p in order'[..k] {
      if k == |order| {
        assert p !in Waits(g, order, x);
        assert order'[..k] == order;
      } else {
        assert order'[..k] == order[..k];
      }
    }
  }

  lemma FirstIsNew<V>(order: seq<V>, queue: seq<V>)
    requires Distinct(order + queue) && queue != []
    ensures queue[0] !in order && Distinct((order + [queue[0]]) + queue[1..])
  {
    assert (order + [queue[0]]) + queue[1..] == order + queue;
    forall i | 0 <= i < |order| ensures order[i] != queue[0] {
      assert (order + queue)[i] == order[i] && (order + queue)[|order|] == queue[0];
    }
  }

  lemma VertexDoneAt<V(!new)>(g: Adjacency<V>, order: seq<V>, queue: seq<V>, depends: map<V, int>, v: V)
    requires queue != [] && queue[0] in g && queue[0] !in order
    requires ProgressAt(g, order, queue, depends, {}, v)
    ensures ProgressAt(g, order + [queue[0]], queue[1..], depends, g[queue[0]], v)
  {
    SplitQueue(order, queue, v);
    if v in g { CountLess(g, order, queue[0], depends[v], v); }
  }

  lemma VertexDone<V(!new)>(g: Adjacency<V>, order: seq<V>, queue: seq<V>, depends: map<V, int>)
    requires Closed(g) && queue != [] && InTopologicalOrder(g, order) && Progress(g, order, queue, depends, {})
    ensures queue[0] in g && InTopologicalOrder(g, order + [queue[0]])
    ensures Progress(g, order + [queue[0]], queue[1..], depends, g[queue[0]])
  {
    var x := queue[0];
    FirstIsNew(order, queue);
    assert Listed(order, queue, x) && IsReady(g, order, {}, x);
    assert g[x] <= g.Keys by { forall c | c in g[x] ensures c in g { assert HasEdge(g, x, c); } }
    OrderGrows(g, order, x);
    hide InTopologicalOrder, Closed, IsReady, CountOk, Distinct, Progress, Listed, ProgressAt;
    forall v ensures ProgressAt(g, order + [x], queue[1..], depends, g[x], v) {
      ProgressOf(g, order, queue, depends, {}, v);
      VertexDoneAt(g, order, queue, depends, v);
    }
    ProgressParts(g, order + [x], queue[1..], depends, g[x]);
  }

  lemma SplitQueue<V>(order: seq<V>, queue: seq<V>, v: V)
    requires queue != []
    ensures Listed(order + [queue[0]], queue[1..], v) <==> Listed(order, queue, v)
  {
    assert queue == [queue[0]] + queue[1..];
  }

  lemma LessRest<V(!new)>(g: Adjacency<V>, order: seq<V>, queue: seq<V>, depends: map<V, int>, rest: set<V>, node: V, v: V)
    requires ProgressAt(g, order, queue, depends, rest, v) && ProgressAt(g, order, queue, depends, rest, node)
    requires node in rest && node in g
    ensures node in depends && !Listed(order, queue, node)
    ensures var d := depends[node] - 1;
      ProgressAt(g, order, if d == 0 then queue + [node] else queue, depends[node := d], rest - {node}, v)
  {
    var d := depends[node] - 1;
    assert d == 0 <==> Waits(g, order, node) == {};
    assert v in queue + [node] <==> v in queue || v == node;
  }

  lemma AppendNew<V>(order: seq<V>, queue: seq<V>, node: V)
    requires Distinct(order + queue) && !Listed(order, queue, node)
    ensures Distinct(order + (queue + [node]))
  {
    assert order + (queue + [node]) == (order + queue) + [node];
  }

  lemma ReleaseOne<V(!new)>(g: Adjacency<V>, order: seq<V>, queue: seq<V>, depends: map<V, int>, rest: set<V>, node: V)
    requires Progress(g, order, queue, depends, rest) && node in rest
    ensures node in depends
    ensures var d := depends[node] - 1;
      Progress(g, order, if d == 0 then queue + [node] else queue, depends[node := d], rest - {node})
  {
    ProgressOf(g, order, queue, depends, rest, node);
    LessRest(g, order, queue, depends, rest, node, node);
    AppendNew(order, queue, node);
    var d := depends[node] - 1;
    var queue' := if d == 0 then queue + [node] else queue;
    var depends', rest' := depends[node := d], rest - {node};
    assert Distinct(order + queue') && depends'.Keys == g.Keys;
    hide IsReady, CountOk, Distinct, Progress, Listed, ProgressAt;
    forall v ensures ProgressAt(g, order, queue', depends', rest', v) {
      ProgressOf(g, order, queue, depends, rest, v);
      LessRest(g, order, queue, depends, rest, node, v);
    }
    ProgressParts(g, order, queue', depends', rest');
  }

  lemma NothingReady<V(!new)>(g: Adjacency<V>, order: seq<V>, depends: map<V, int>)
    requires Progress(g, order, [], depends, {})
    ensures AllFollow(g, Missing(g, order))
  {
    forall v | v in Missing(g, order) ensures FollowsOneOf(g, Missing(g, order), v) {
      assert !Listed(order, [], v) && !IsReady(g, order, {}, v);
      var p :| p in Waits(g, order, v);
      assert p in Missing(g, order) && HasEdge(g, p, v);
    }
  }

  ghost function Sources<V>(edges: set<(V, V)>, v: V): set<V> {
    set e | e in edges && e.1 == v :: e.0
  }

  lemma NoSources<V>(v: V)
    ensures Sources({}, v) == {}
  {
  }

  lemma NoneCounted<V(!new)>(g: Adjacency<V>)
    ensures forall v :: Predecessors(g, v) - Sources(EdgeSet(g), v) == {}
  {
    forall v, p | p in Predecessors(g, v) ensures p in Sources(EdgeSet(g), v) {
      assert (p, v) in EdgeSet(g);
    }
  }

  lemma CountOne<V(!new)>(g: Adjacency<V>, rest: set<(V, V)>, p: V, c: V)
    requires Closed(g) && rest <= EdgeSet(g) && (p, c) in rest
    ensures c in g
    ensures |Predecessors(g, c) - Sources(rest - {(p, c)}, c)| == |Predecessors(g, c) - Sources(rest, c)| + 1
    ensures forall v :: v != c ==> Sources(rest - {(p, c)}, v) == Sources(rest, v)
  {
    assert HasEdge(g, p, c);
    var before, after := Predecessors(g, c) - Sources(rest, c), Predecessors(g, c) - Sources(rest - {(p, c)}, c);
    assert p in Sources(rest, c) && p in Predecessors(g, c);
    forall q ensures q in Sources(rest - {(p, c)}, c) <==> q in Sources(rest, c) && q != p {
      if q in Sources(rest, c) && q != p { assert (q, c) in rest - {(p, c)}; }
    }
    assert after == before + {p};
    forall v | v != c ensures Sources(rest - {(p, c)}, v) == Sources(rest, v) {
      forall q ensures q in Sources(rest - {(p, c)}, v) <==> q in Sources(rest, v) {
        if q in Sources(rest, v) { assert (q, v) in rest - {(p, c)}; }
      }
    }
  }
}
