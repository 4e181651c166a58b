// From expressions to runs: what an expression puts before a job has been done when the job is
// performed.
module DelayedOrder {
  import opened ChannelJobs
  import opened JobRows
  import opened RunnerProtocol
  import opened ProtocolExclusive
  import E = DelayExpressions
  import D = Delays
  import G = Graphs
  import O = ProtocolOrder
  import P = ProtocolEnabling

  // The rows of a batch keep their links in every later state.
  lemma {:induction false} LinksStay(ss: seq<State>, es: seq<Step>, c: nat, i: nat, u: Uuid)
    requires IsRun(ss, es) && c < i < |ss| && es[c].Create? && u in es[c].batch
    ensures u in ss[i].rows && SameLinks(es[c].batch[u], ss[i].rows[u])
    decreases i
  {
    if i == c + 1 {
      assert Next(ss[c], es[c], ss[i]);
    } else {
      LinksStay(ss, es, c, i - 1, u);
      RowsStep(ss[i - 1], es[i - 1], ss[i], u);
    }
  }

  function UuidPath(path: seq<E.Expr>, uuids: map<E.Expr, Uuid>): seq<Uuid>
    requires forall x :: x in path ==> x in uuids
  {
    seq(|path|, k requires 0 <= k < |path| => uuids[path[k]])
  }

  lemma PathInside(edges: D.Edges, uuids: map<E.Expr, Uuid>, path: seq<E.Expr>)
    requires D.Inside(edges, uuids) && E.IsPath(edges, path) && |path| > 1
    ensures forall x :: x in path ==> x in uuids
  {
    forall k | 0 <= k < |path| ensures path[k] in uuids {
      if k > 0 { assert (path[k - 1], path[k]) in edges; } else { assert (path[0], path[1]) in edges; }
    }
  }

  // A path of edges between vertices is a path of dependencies between their rows.
  lemma PathOfRows(ss: seq<State>, es: seq<Step>, c: nat, i: nat, uuids: map<E.Expr, Uuid>, retries: map<E.Expr, nat>,
                   shared: nat, edges: D.Edges, path: seq<E.Expr>)
    requires IsRun(ss, es) && c < i < |ss| && es[c].Create?
    requires uuids.Keys <= retries.Keys && D.Inside(edges, uuids)
    requires D.HoldsRows(es[c].batch, uuids.Keys, uuids, retries, shared, edges)
    requires E.IsPath(edges, path) && |path| > 1 && forall x :: x in path ==> x in uuids
    ensures O.IsPath(ss[i].rows, UuidPath(path, uuids))
  {
    var us := UuidPath(path, uuids);
    forall k | 0 < k < |us| ensures us[k] in ss[i].rows && us[k - 1] in ss[i].rows[us[k]].dependsOn {
      assert (path[k - 1], path[k]) in edges;
      assert D.RowHeld(es[c].batch, path[k], uuids, retries, shared, edges);
      D.EdgeUuids(edges, uuids, path[k], uuids[path[k - 1]]);
      LinksStay(ss, es, c, i, us[k]);
    }
  }

  lemma MeantPath(sys: E.System, seen: set<E.Expr>, graph: G.Adjacency<E.Expr>, x: E.Expr, y: E.Expr)
    returns (path: seq<E.Expr>)
    requires E.Explored(sys, seen) && E.WellConnected(sys, seen)
    requires forall u, v :: G.HasEdge(graph, u, v) <==> E.Linked(sys, seen, u, v)
    requires E.Meant(sys, seen, x, y)
    ensures E.Joins(G.EdgeSet(graph), path, x, y)
  {
    var edges := G.EdgeSet(graph);
    forall u, v ensures (u, v) in edges <==> E.Linked(sys, seen, u, v) {
      D.EdgeIn(graph, u, v);
    }
    E.MeantIsKept(sys, seen, edges, x, y);
    path :| E.Joins(edges, path, x, y);
  }

  lemma JoinsAre(edges: D.Edges, path: seq<E.Expr>, x: E.Expr, y: E.Expr)
    requires E.Joins(edges, path, x, y)
    ensures E.IsPath(edges, path) && |path| > 1 && path[0] == x && path[|path| - 1] == y
    ensures x in path && y in path
  {
  }

  // A user sets a job between x and y to done.
  ghost predicate SetsBetween(e: Step, edges: D.Edges, uuids: map<E.Expr, Uuid>, x: E.Expr, y: E.Expr) {
    e.UserDone? && exists z :: z in uuids && uuids[z] == e.uuid && E.Before(edges, x, z) && E.Before(edges, z, y)
  }

  lemma BetweenJobs(edges: D.Edges, path: seq<E.Expr>, x: E.Expr, y: E.Expr, k: nat)
    requires E.Joins(edges, path, x, y) && 0 < k < |path| - 1
    ensures E.Before(edges, x, path[k]) && E.Before(edges, path[k], y)
  {
    var before, after := path[..k + 1], path[k..];
    forall n | 0 < n < |before| ensures (before[n - 1], before[n]) in edges {
      assert (path[n - 1], path[n]) in edges;
    }
    forall n | 0 < n < |after| ensures (after[n - 1], after[n]) in edges {
      assert (path[k + n - 1], path[k + n]) in edges;
    }
    assert E.Joins(edges, before, x, path[k]) && E.Joins(edges, after, path[k], y);
  }

  lemma NoneSetBetween(e: Step, edges: D.Edges, uuids: map<E.Expr, Uuid>, path: seq<E.Expr>, x: E.Expr, y: E.Expr)
    requires E.Joins(edges, path, x, y) && (forall z :: z in path ==> z in uuids) && !SetsBetween(e, edges, uuids, x, y)
    ensures O.NotSetDone(e, O.Between(UuidPath(path, uuids)))
  {
    var us := UuidPath(path, uuids);
    forall k | 0 <= k < |O.Between(us)| ensures e.UserDone? ==> O.Between(us)[k] != e.uuid {
      assert O.Between(us)[k] == uuids[path[k + 1]];
      BetweenJobs(edges, path, x, y, k + 1);
    }
  }

  // An expression was delayed: its graph has the links of the expressions, and its jobs were
  // stored in one step. Then a job that is performed comes after every job that the expression
  // puts before it, as long as users do not set jobs between the two to done.
  lemma MeantOrderHolds(sys: E.System, seen: set<E.Expr>, graph: G.Adjacency<E.Expr>,
                        uuids: map<E.Expr, Uuid>, retries: map<E.Expr, nat>, shared: nat,
                        ss: seq<State>, es: seq<Step>, c: nat, i: nat, w: nat, x: E.Expr, y: E.Expr)
    requires E.Explored(sys, seen) && E.WellConnected(sys, seen)
    requires forall u, v :: G.HasEdge(graph, u, v) <==> E.Linked(sys, seen, u, v)
    requires uuids.Keys <= retries.Keys && D.Inside(G.EdgeSet(graph), uuids)
    requires IsRun(ss, es) && Initial(ss[0]) && c < i < |ss| && es[c].Create?
    requires D.HoldsRows(es[c].batch, uuids.Keys, uuids, retries, shared, G.EdgeSet(graph))
    requires forall n :: 0 <= n < i ==> !SetsBetween(es[n], G.EdgeSet(graph), uuids, x, y)
    requires E.Meant(sys, seen, x, y) && y in uuids && PerformedBy(ss[i], w, uuids[y])
    ensures x in uuids && exists n :: 0 <= n <= i && O.DoneIn(ss[n], uuids[x])
  {
    hide *;
    var edges := G.EdgeSet(graph);
    var path := MeantPath(sys, seen, graph, x, y);
    JoinsAre(edges, path, x, y);
    PathInside(edges, uuids, path);
    PathOfRows(ss, es, c, i, uuids, retries, shared, edges, path);
    EndsOfPath(path, uuids);
    O.RunParts(ss, es, i);
    forall n | 0 <= n < i ensures O.NotSetDone(es[n], O.Between(UuidPath(path, uuids))) {
      NoneSetBetween(es[n], edges, uuids, path, x, y);
    }
    O.AncestorsDone(ss, es, i, w, UuidPath(path, uuids), 0);
  }

  lemma EndsOfPath(path: seq<E.Expr>, uuids: map<E.Expr, Uuid>)
    requires |path| > 1 && forall x :: x in path ==> x in uuids
    ensures var us := UuidPath(path, uuids);
      |us| == |path| && us[0] == uuids[path[0]] && us[|us| - 1] == uuids[path[|path| - 1]]
  {
  }

  // ---------- Delayed graphs without cycles ----------

  lemma {:induction false} WholeOrder(g: G.Adjacency<E.Expr>, order: seq<E.Expr>) returns (whole: seq<E.Expr>)
    requires G.Closed(g) && G.HasNoCycle(g) && G.InTopologicalOrder(g, order)
    ensures G.InTopologicalOrder(g, whole) && forall x :: x in g ==> x in whole
    decreases |G.Missing(g, order)|
  {
    hide G.InTopologicalOrder, G.HasNoCycle, G.Closed;
    if G.AllFollow(g, G.Missing(g, order)) {
      G.OrderIsTotal(g, order);
      whole := order;
      forall x | x in g ensures x in whole { assert x !in G.Missing(g, order); }
    } else {
      var x :| x in G.Missing(g, order) && !G.FollowsOneOf(g, G.Missing(g, order), x);
      ReadyNext(g, order, x);
      whole := WholeOrder(g, order + [x]);
    }
  }

  lemma ReadyNext(g: G.Adjacency<E.Expr>, order: seq<E.Expr>, x: E.Expr)
    requires G.InTopologicalOrder(g, order) && x in G.Missing(g, order) && !G.FollowsOneOf(g, G.Missing(g, order), x)
    ensures G.InTopologicalOrder(g, order + [x]) && |G.Missing(g, order + [x])| < |G.Missing(g, order)|
  {
    assert G.IsReady(g, order, {}, x) by {
      forall p | G.HasEdge(g, p, x) ensures p in order {
        assert p !in G.Missing(g, order);
      }
    }
    G.OrderGrows(g, order, x);
    assert G.Missing(g, order + [x]) == G.Missing(g, order) - {x};
  }

  function Position(order: seq<E.Expr>, x: E.Expr): (i: nat)
    requires x in order
    ensures i < |order| && order[i] == x
  {
    if order[|order| - 1] == x then |order| - 1 else Position(order[..|order| - 1], x)
  }

  lemma OrderedEdge(g: G.Adjacency<E.Expr>, order: seq<E.Expr>, p: E.Expr, c: E.Expr)
    requires G.InTopologicalOrder(g, order) && G.HasEdge(g, p, c) && c in order
    ensures p in order && Position(order, p) < Position(order, c)
  {
    var k := Position(order, c);
    assert p in order[..k];
    var i :| 0 <= i < k && order[i] == p;
    assert Position(order, p) == i;
  }

  // The rows of a delayed graph have no cycle of dependencies exactly if the graph has none.
  lemma RankedExactly(graph: G.Adjacency<E.Expr>, rows: Rows, uuids: map<E.Expr, Uuid>, retries: map<E.Expr, nat>, shared: nat)
    requires G.Closed(graph) && uuids.Keys == graph.Keys && uuids.Keys <= retries.Keys
    requires D.Injective(uuids) && D.Inside(G.EdgeSet(graph), uuids)
    requires D.HoldsRows(rows, uuids.Keys, uuids, retries, shared, G.EdgeSet(graph))
    ensures P.HasRank(rows) <==> G.HasNoCycle(graph)
  {
    if G.HasNoCycle(graph) {
      var order := WholeOrder(graph, []);
      var rank := map x | x in graph :: Position(order, x);
      RankOfVertices(graph, rows, uuids, retries, shared, rank, order);
    } else {
      var walk :| G.IsCycle(graph, walk);
      if rank :| P.Acyclic(rows, rank) {
        RankAlongWalk(graph, rows, uuids, retries, shared, rank, walk, |walk| - 1);
      }
    }
  }

  lemma EdgeIsDependency(graph: G.Adjacency<E.Expr>, rows: Rows, uuids: map<E.Expr, Uuid>, retries: map<E.Expr, nat>,
                         shared: nat, x: E.Expr, u: Uuid)
    requires uuids.Keys == graph.Keys && uuids.Keys <= retries.Keys && D.Inside(G.EdgeSet(graph), uuids)
    requires D.HoldsRows(rows, uuids.Keys, uuids, retries, shared, G.EdgeSet(graph)) && x in graph
    ensures uuids[x] in rows
    ensures u in rows[uuids[x]].dependsOn <==> exists p :: p in uuids && G.HasEdge(graph, p, x) && uuids[p] == u
  {
    assert D.RowHeld(rows, x, uuids, retries, shared, G.EdgeSet(graph));
    D.EdgeUuids(G.EdgeSet(graph), uuids, x, u);
    forall p ensures (p, x) in G.EdgeSet(graph) <==> G.HasEdge(graph, p, x) { D.EdgeIn(graph, p, x); }
  }

  lemma RankOfVertices(graph: G.Adjacency<E.Expr>, rows: Rows, uuids: map<E.Expr, Uuid>, retries: map<E.Expr, nat>,
                       shared: nat, rank: map<E.Expr, nat>, order: seq<E.Expr>)
    requires uuids.Keys == graph.Keys && uuids.Keys <= retries.Keys
    requires D.Injective(uuids) && D.Inside(G.EdgeSet(graph), uuids)
    requires D.HoldsRows(rows, uuids.Keys, uuids, retries, shared, G.EdgeSet(graph))
    requires G.InTopologicalOrder(graph, order) && (forall x :: x in graph ==> x in order)
    requires rank == map x | x in graph :: Position(order, x)
    ensures P.HasRank(rows)
  {
    var byUuid := map x | x in graph :: uuids[x] := rank[x];
    forall c | c in rows ensures c in byUuid && forall u :: u in rows[c].dependsOn ==> u in byUuid && byUuid[u] < byUuid[c] {
      var x :| x in uuids && uuids[x] == c;
      forall u | u in rows[c].dependsOn ensures u in byUuid && byUuid[u] < byUuid[c] {
        EdgeIsDependency(graph, rows, uuids, retries, shared, x, u);
        var p :| p in uuids && G.HasEdge(graph, p, x) && uuids[p] == u;
        OrderedEdge(graph, order, p, x);
      }
    }
    assert P.Acyclic(rows, byUuid);
  }

  lemma {:induction false} RankAlongWalk(graph: G.Adjacency<E.Expr>, rows: Rows, uuids: map<E.Expr, Uuid>,
                                         retries: map<E.Expr, nat>, shared: nat, rank: map<Uuid, nat>, walk: seq<E.Expr>, i: nat)
    requires G.Closed(graph) && uuids.Keys == graph.Keys && uuids.Keys <= retries.Keys && D.Inside(G.EdgeSet(graph), uuids)
    requires D.HoldsRows(rows, uuids.Keys, uuids, retries, shared, G.EdgeSet(graph)) && P.Acyclic(rows, rank)
    requires G.IsWalk(graph, walk) && 0 < i < |walk|
    ensures walk[0] in graph && walk[i] in graph && uuids[walk[0]] in rank && uuids[walk[i]] in rank
    ensures rank[uuids[walk[0]]] < rank[uuids[walk[i]]]
  {
    assert G.HasEdge(graph, walk[i - 1], walk[i]);
    EdgeIsDependency(graph, rows, uuids, retries, shared, walk[i], uuids[walk[i - 1]]);
    EdgeIsDependency(graph, rows, uuids, retries, shared, walk[i - 1], 0);
    if i > 1 { RankAlongWalk(graph, rows, uuids, retries, shared, rank, walk, i - 1); }
  }
}
