// Storing a graph of delayed jobs: the jobs of one graph share a graph uuid, know each other as
// parents and children, and those with parents wait.
module Delays {
  import opened ChannelJobs
  import opened JobStates
  import opened JobRows
  import opened Jobs
  import opened DelayExpressions
  import opened RunnerProtocol
  import G = Graphs

  type Edges = set<(Expr, Expr)>

  ghost function Parents(edges: Edges, x: Expr): set<Expr> {
    set e | e in edges && e.1 == x :: e.0
  }

  ghost function Children(edges: Edges, x: Expr): set<Expr> {
    set e | e in edges && e.0 == x :: e.1
  }

  ghost function UuidsFor(uuids: map<Expr, Uuid>, xs: set<Expr>): set<Uuid>
    requires xs <= uuids.Keys
  {
    set x | x in xs :: uuids[x]
  }

  ghost function JobsFor(jobs: map<Expr, Job>, xs: set<Expr>): set<Job>
    requires xs <= jobs.Keys
  {
    set x | x in xs :: jobs[x]
  }

  // ---------- One graph uuid ----------

  // All jobs of a graph with several jobs get the same graph uuid. Jobs of different graphs cannot
  // be mixed, and a single job has none.
  method EnsureSameGraphUuid(jobs: set<Job>, newUuid: nat) returns (ok: bool)
    requires newUuid != 0
    modifies jobs`graphUuid
    ensures ok <==> jobs != {} && (if |jobs| == 1 then forall j :: j in jobs ==> old(j.graphUuid) == 0
      else forall j, k :: j in jobs && k in jobs && old(j.graphUuid) != 0 && old(k.graphUuid) != 0 ==>
        old(j.graphUuid) == old(k.graphUuid))
    ensures !ok || |jobs| == 1 ==> forall j :: j in jobs ==> j.graphUuid == old(j.graphUuid)
    ensures ok && |jobs| > 1 ==> exists u :: u != 0 && SharedUuid(jobs, u)
    ensures ok && |jobs| > 1 ==> forall j :: j in jobs && old(j.graphUuid) != 0 ==> SharedUuid(jobs, old(j.graphUuid))
    ensures ok && |jobs| > 1 && (forall j :: j in jobs ==> old(j.graphUuid) == 0) ==> SharedUuid(jobs, newUuid)
  {
    if jobs == {} {
      return false;
    }
    var known := set j | j in jobs && j.graphUuid != 0 :: j.graphUuid;
    forall j | j in jobs && j.graphUuid != 0 ensures j.graphUuid in known {
    }
    if |jobs| == 1 {
      if k: nat :| k in known {
        return false;
      }
      return true;
    }
    if k: nat :| k in known {
      if other: nat :| other in known && other != k {
        var a :| a in jobs && a.graphUuid == k;
        var b :| b in jobs && b.graphUuid == other;
        return false;
      }
      forall j | j in jobs && j.graphUuid != 0 ensures j.graphUuid == k {
        assert j.graphUuid in known;
      }
      ok := true;
      SetGraphUuid(jobs, k);
    } else {
      ok := true;
      SetGraphUuid(jobs, newUuid);
    }
  }

  ghost predicate SharedUuid(jobs: set<Job>, u: nat)
    reads jobs
  {
    forall j :: j in jobs ==> j.graphUuid == u
  }

  method SetGraphUuid(jobs: set<Job>, u: nat)
    modifies jobs`graphUuid
    ensures SharedUuid(jobs, u)
  {
    var rest := jobs;
    while rest != {}
      invariant rest <= jobs && SharedUuid(jobs - rest, u)
      decreases rest
    {
      var job :| job in rest;
      job.graphUuid := u;
      rest := rest - {job};
    }
    assert jobs - rest == jobs;
  }

  // ---------- Building the jobs ----------

  // The row of vertex x: it waits if it has parents.
  ghost function RowOf(x: Expr, uuids: map<Expr, Uuid>, retries: map<Expr, nat>, graph: nat, edges: Edges): Row
    requires x in uuids && x in retries
    requires Parents(edges, x) <= uuids.Keys && Children(edges, x) <= uuids.Keys
  {
    Row(PendingState(Parents(edges, x) == {}), 0, retries[x],
        UuidsFor(uuids, Parents(edges, x)), UuidsFor(uuids, Children(edges, x)), graph)
  }

  ghost predicate Injective(uuids: map<Expr, Uuid>) {
    forall x, y :: x in uuids && y in uuids && uuids[x] == uuids[y] ==> x == y
  }

  ghost predicate Inside(edges: Edges, uuids: map<Expr, Uuid>) {
    forall e :: e in edges ==> e.0 in uuids && e.1 in uuids
  }

  // What there is to know of a job object.
  datatype Built = Built(uuid: Uuid, row: Row, dependsOn: set<Job>, reverseDependsOn: set<Job>)

  function BuiltOf(job: Job): Built
    reads job
  {
    Built(job.uuid, job.AsRow(), job.dependsOn, job.reverseDependsOn)
  }

  // The job of vertex x when some of the edges have been added.
  ghost function Expected(x: Expr, jobs: map<Expr, Job>, uuids: map<Expr, Uuid>, retries: map<Expr, nat>, graph: nat,
                          edges: Edges): Built
    requires x in uuids && uuids.Keys == jobs.Keys && uuids.Keys <= retries.Keys && Inside(edges, uuids)
  {
    InsideParts(edges, uuids, x);
    Built(uuids[x], RowOf(x, uuids, retries, graph, edges),
          JobsFor(jobs, Parents(edges, x)), JobsFor(jobs, Children(edges, x)))
  }

  // All jobs, each for its own vertex.
  ghost predicate AllBuilt(jobs: map<Expr, Job>, uuids: map<Expr, Uuid>, retries: map<Expr, nat>, graph: nat, edges: Edges)
    reads jobs.Values
  {
    && jobs.Keys == uuids.Keys && uuids.Keys <= retries.Keys && Inside(edges, uuids)
    && (forall x :: x in jobs ==> BuiltOf(jobs[x]) == Expected(x, jobs, uuids, retries, graph, edges))
  }

  lemma EdgeParts(edges: Edges, p: Expr, c: Expr, x: Expr)
    requires (p, c) !in edges
    ensures Parents(edges + {(p, c)}, x) == Parents(edges, x) + (if x == c then {p} else {})
    ensures Children(edges + {(p, c)}, x) == Children(edges, x) + (if x == p then {c} else {})
  {
    forall q ensures q in Parents(edges + {(p, c)}, x) <==> q in Parents(edges, x) || (x == c && q == p) {
      if x == c && q == p { assert (p, c) in edges + {(p, c)}; }
      if q in Parents(edges, x) { assert (q, x) in edges; }
    }
    forall q ensures q in Children(edges + {(p, c)}, x) <==> q in Children(edges, x) || (x == p && q == c) {
      if x == p && q == c { assert (p, c) in edges + {(p, c)}; }
      if q in Children(edges, x) { assert (x, q) in edges; }
    }
  }

  // What one more edge changes for the row of a vertex.
  lemma RowMore(x: Expr, uuids: map<Expr, Uuid>, retries: map<Expr, nat>, graph: nat, edges: Edges, p: Expr, c: Expr)
    requires x in uuids && x in retries && p in uuids && c in uuids && Inside(edges, uuids) && (p, c) !in edges
    ensures Inside(edges + {(p, c)}, uuids)
    ensures Parents(edges, x) <= uuids.Keys && Children(edges, x) <= uuids.Keys
    ensures Parents(edges + {(p, c)}, x) <= uuids.Keys && Children(edges + {(p, c)}, x) <= uuids.Keys
    ensures var row := RowOf(x, uuids, retries, graph, edges);
      RowOf(x, uuids, retries, graph, edges + {(p, c)}) == row.(
        state := if x == c then WaitDependencies else row.state,
        dependsOn := row.dependsOn + (if x == c then {uuids[p]} else {}),
        reverseDependsOn := row.reverseDependsOn + (if x == p then {uuids[c]} else {}))
  {
    EdgeParts(edges, p, c, x);
    hide Parents, Children;
    InsideParts(edges, uuids, x);
    if x == c { UuidsMore(uuids, Parents(edges, x), p); }
    if x == p { UuidsMore(uuids, Children(edges, x), c); }
  }

  lemma InsideParts(edges: Edges, uuids: map<Expr, Uuid>, x: Expr)
    requires Inside(edges, uuids)
    ensures Parents(edges, x) <= uuids.Keys && Children(edges, x) <= uuids.Keys
  {
  }

  lemma UuidsMore(uuids: map<Expr, Uuid>, xs: set<Expr>, y: Expr)
    requires xs <= uuids.Keys && y in uuids
    ensures UuidsFor(uuids, xs + {y}) == UuidsFor(uuids, xs) + {uuids[y]}
  {
  }

  lemma JobsMore(jobs: map<Expr, Job>, xs: set<Expr>, y: Expr)
    requires xs <= jobs.Keys && y in jobs
    ensures JobsFor(jobs, xs + {y}) == JobsFor(jobs, xs) + {jobs[y]}
  {
  }

  lemma RelatedMore(x: Expr, jobs: map<Expr, Job>, edges: Edges, p: Expr, c: Expr)
    requires p in jobs && c in jobs && (p, c) !in edges
    requires Parents(edges, x) <= jobs.Keys && Children(edges, x) <= jobs.Keys
    ensures Parents(edges + {(p, c)}, x) <= jobs.Keys && Children(edges + {(p, c)}, x) <= jobs.Keys
    ensures JobsFor(jobs, Parents(edges + {(p, c)}, x)) == JobsFor(jobs, Parents(edges, x)) + if x == c then {jobs[p]} else {}
    ensures JobsFor(jobs, Children(edges + {(p, c)}, x)) == JobsFor(jobs, Children(edges, x)) + if x == p then {jobs[c]} else {}
  {
    EdgeParts(edges, p, c, x);
    hide Parents, Children;
    if x == c { JobsMore(jobs, Parents(edges, x), p); }
    if x == p { JobsMore(jobs, Children(edges, x), c); }
  }

  // What one more edge changes for the job of a vertex.
  lemma ExpectedMore(x: Expr, jobs: map<Expr, Job>, uuids: map<Expr, Uuid>, retries: map<Expr, nat>, graph: nat,
                     edges: Edges, p: Expr, c: Expr)
    requires x in uuids && uuids.Keys == jobs.Keys && uuids.Keys <= retries.Keys && Inside(edges, uuids)
    requires p in jobs && c in jobs && (p, c) !in edges && p != c
    ensures Inside(edges + {(p, c)}, uuids)
    ensures var b := Expected(x, jobs, uuids, retries, graph, edges);
      Expected(x, jobs, uuids, retries, graph, edges + {(p, c)}) ==
        if x == c then b.(row := b.row.(state := WaitDependencies, dependsOn := b.row.dependsOn + {uuids[p]}),
                          dependsOn := b.dependsOn + {jobs[p]})
        else if x == p then b.(row := b.row.(reverseDependsOn := b.row.reverseDependsOn + {uuids[c]}),
                               reverseDependsOn := b.reverseDependsOn + {jobs[c]})
        else b
  {
    RowMore(x, uuids, retries, graph, edges, p, c);
    RelatedMore(x, jobs, edges, p, c);
    hide Parents, Children, UuidsFor, JobsFor, RowOf;
  }

  // Different vertices have different job objects, and none is done.
  lemma OtherJob(jobs: map<Expr, Job>, x: Expr, y: Expr, uuids: map<Expr, Uuid>, retries: map<Expr, nat>, graph: nat, edges: Edges)
    requires AllBuilt(jobs, uuids, retries, graph, edges) && Injective(uuids) && x in jobs && y in jobs
    ensures x != y ==> jobs[x] != jobs[y]
    ensures jobs[x].uuid == uuids[x] && !jobs[x].state.Done?
  {
  }

  lemma OneUuid(job: Job)
    ensures UuidsOf({job}) == {job.uuid}
  {
  }

  // The child depends on the parent, which is not done yet.
  method AddEdge(jobs: map<Expr, Job>, p: Expr, c: Expr, ghost uuids: map<Expr, Uuid>, ghost retries: map<Expr, nat>,
                 ghost graph: nat, ghost edges: Edges)
    returns (ok: bool)
    requires AllBuilt(jobs, uuids, retries, graph, edges) && Injective(uuids)
    requires p in jobs && c in jobs && (p, c) !in edges
    modifies jobs.Values
    ensures ok <==> p != c
    ensures ok ==> AllBuilt(jobs, uuids, retries, graph, edges + {(p, c)})
  {
    OtherJob(jobs, p, c, uuids, retries, graph, edges);
    OtherJob(jobs, c, p, uuids, retries, graph, edges);
    OneUuid(jobs[p]);
    ghost var others := set x | x in jobs && x != p && x != c;
    forall x | x in others ensures jobs[x] != jobs[p] && jobs[x] != jobs[c] {
      OtherJob(jobs, x, p, uuids, retries, graph, edges);
      OtherJob(jobs, x, c, uuids, retries, graph, edges);
    }
    hide Expected, Injective, UuidsOf;
    ok := jobs[c].AddDepends({jobs[p]});
    if ok {
      assert BuiltOf(jobs[c]) == old(BuiltOf(jobs[c])).(
        row := old(jobs[c].AsRow()).(state := WaitDependencies, dependsOn := old(jobs[c].dependsOnUuids) + {uuids[p]}),
        dependsOn := old(jobs[c].dependsOn) + {jobs[p]});
      assert BuiltOf(jobs[p]) == old(BuiltOf(jobs[p])).(
        row := old(jobs[p].AsRow()).(reverseDependsOn := old(jobs[p].reverseDependsOnUuids) + {uuids[c]}),
        reverseDependsOn := old(jobs[p].reverseDependsOn) + {jobs[c]});
      forall x | x in jobs
        ensures Inside(edges + {(p, c)}, uuids)
        ensures BuiltOf(jobs[x]) == Expected(x, jobs, uuids, retries, graph, edges + {(p, c)})
      {
        ExpectedMore(x, jobs, uuids, retries, graph, edges, p, c);
        assert x in others ==> BuiltOf(jobs[x]) == old(BuiltOf(jobs[x]));
      }
    }
  }

  method BuildJobs(vertices: set<Expr>, uuids: map<Expr, Uuid>, retries: map<Expr, nat>) returns (jobs: map<Expr, Job>)
    requires uuids.Keys == vertices <= retries.Keys
    ensures fresh(jobs.Values) && AllBuilt(jobs, uuids, retries, 0, {})
  {
    hide AllBuilt, Expected;
    jobs := map[];
    var rest := vertices;
    while rest != {}
      invariant rest <= vertices && jobs.Keys == vertices - rest && forall x :: x in jobs ==> fresh(jobs[x])
      invariant forall x :: x in jobs ==> BuiltOf(jobs[x]) == Built(uuids[x], Row(JobState.Pending, 0, retries[x], {}, {}, 0), {}, {})
      decreases rest
    {
      var x :| x in rest;
      var job := new Job(uuids[x], retries[x]);
      jobs := jobs[x := job];
      rest := rest - {x};
    }
    NoEdges(jobs, uuids, retries);
  }

  lemma NoEdges(jobs: map<Expr, Job>, uuids: map<Expr, Uuid>, retries: map<Expr, nat>)
    requires jobs.Keys == uuids.Keys <= retries.Keys
    requires forall x :: x in jobs ==>
      BuiltOf(jobs[x]) == Built(uuids[x], Row(JobState.Pending, 0, retries[x], {}, {}, 0), {}, {})
    ensures AllBuilt(jobs, uuids, retries, 0, {})
  {
  }

  // The first uuid of a new graph.
  method ShareGraph(jobs: map<Expr, Job>, newUuid: nat, ghost uuids: map<Expr, Uuid>, ghost retries: map<Expr, nat>)
    returns (ok: bool)
    requires newUuid != 0 && AllBuilt(jobs, uuids, retries, 0, {}) && Injective(uuids)
    modifies jobs.Values
    ensures ok <==> jobs != map[]
    ensures ok ==> AllBuilt(jobs, uuids, retries, if |jobs| == 1 then 0 else newUuid, {})
  {
    forall x, y | x in jobs && y in jobs && x != y ensures jobs[x] != jobs[y] {
      OtherJob(jobs, x, y, uuids, retries, 0, {});
    }
    CountJobs(jobs);
    forall j | j in jobs.Values ensures j.graphUuid == 0 {
      var x :| x in jobs && jobs[x] == j;
      assert BuiltOf(jobs[x]) == Expected(x, jobs, uuids, retries, 0, {});
    }
    ok := EnsureSameGraphUuid(jobs.Values, newUuid);
    ghost var graph := if |jobs| == 1 then 0 else newUuid;
    if ok {
      forall x | x in jobs ensures BuiltOf(jobs[x]) == Expected(x, jobs, uuids, retries, graph, {}) {
        assert old(BuiltOf(jobs[x])) == Expected(x, jobs, uuids, retries, 0, {});
        assert jobs[x] in jobs.Values && jobs[x].graphUuid == graph;
      }
    }
  }

  lemma {:induction false} CountJobs(jobs: map<Expr, Job>)
    requires forall x, y :: x in jobs && y in jobs && x != y ==> jobs[x] != jobs[y]
    ensures |jobs.Values| == |jobs|
    decreases |jobs|
  {
    if x :| x in jobs {
      var rest := jobs - {x};
      CountJobs(rest);
      assert jobs.Values == rest.Values + {jobs[x]} by {
        forall j | j in jobs.Values ensures j in rest.Values + {jobs[x]} {
          var y :| y in jobs && jobs[y] == j;
          if y != x { assert rest[y] == j; }
        }
      }
      assert jobs.Keys == rest.Keys + {x};
    } else {
      assert jobs == map[];
    }
  }

  method StoreBuilt(job: Job, table: JobTable, ghost b: Built)
    requires BuiltOf(job) == b && UuidsOf(b.dependsOn) == b.row.dependsOn && UuidsOf(b.reverseDependsOn) == b.row.reverseDependsOn
    modifies job, table`rows
    ensures BuiltOf(job) == b && table.rows == old(table.rows)[b.uuid := b.row]
  {
    job.Store(table);
    NoneLoaded(job.dependsOn);
    NoneLoaded(job.reverseDependsOn);
    assert UuidsOf({}) == {};
  }

  lemma NoneLoaded(jobs: set<Job>)
    ensures UuidsOf(jobs) == {} ==> jobs == {}
  {
    if j :| j in jobs { assert j.uuid in UuidsOf(jobs); }
  }

  // The uuids of related job objects are those of the related vertices.
  lemma RelatedUuids(jobs: map<Expr, Job>, uuids: map<Expr, Uuid>, retries: map<Expr, nat>, graph: nat, edges: Edges, x: Expr)
    requires AllBuilt(jobs, uuids, retries, graph, edges) && x in jobs
    ensures var b := Expected(x, jobs, uuids, retries, graph, edges);
      UuidsOf(b.dependsOn) == b.row.dependsOn && UuidsOf(b.reverseDependsOn) == b.row.reverseDependsOn
  {
    InsideParts(edges, uuids, x);
    SetUuids(jobs, uuids, Parents(edges, x));
    SetUuids(jobs, uuids, Children(edges, x));
  }

  lemma SetUuids(jobs: map<Expr, Job>, uuids: map<Expr, Uuid>, xs: set<Expr>)
    requires xs <= jobs.Keys && xs <= uuids.Keys && forall x :: x in xs ==> jobs[x].uuid == uuids[x]
    ensures UuidsOf(JobsFor(jobs, xs)) == UuidsFor(uuids, xs)
  {
    forall u | u in UuidsFor(uuids, xs) ensures u in UuidsOf(JobsFor(jobs, xs)) {
      var x :| x in xs && uuids[x] == u;
      assert jobs[x] in JobsFor(jobs, xs);
    }
  }

  // ---------- The whole graph ----------

  // The rows of all vertices.
  ghost predicate HoldsRows(rows: Rows, xs: set<Expr>, uuids: map<Expr, Uuid>, retries: map<Expr, nat>, graph: nat, edges: Edges)
    requires xs <= uuids.Keys <= retries.Keys && Inside(edges, uuids)
  {
    && rows.Keys == UuidsFor(uuids, xs)
    && (forall x :: x in xs ==> RowHeld(rows, x, uuids, retries, graph, edges))
  }

  ghost predicate RowHeld(rows: Rows, x: Expr, uuids: map<Expr, Uuid>, retries: map<Expr, nat>, graph: nat, edges: Edges)
    requires x in uuids && uuids.Keys <= retries.Keys && Inside(edges, uuids)
  {
    InsideParts(edges, uuids, x);
    uuids[x] in rows && rows[uuids[x]] == RowOf(x, uuids, retries, graph, edges)
  }

  method StoreAll(jobs: map<Expr, Job>, table: JobTable, ghost uuids: map<Expr, Uuid>, ghost retries: map<Expr, nat>,
                  ghost graph: nat, ghost edges: Edges)
    returns (ghost batch: Rows)
    requires AllBuilt(jobs, uuids, retries, graph, edges) && Injective(uuids)
    modifies jobs.Values, table`rows
    ensures HoldsRows(batch, jobs.Keys, uuids, retries, graph, edges) && table.rows == old(table.rows) + batch
  {
    hide Expected, RowOf, HoldsRows, Injective, Parents, Children, UuidsFor, JobsFor, UuidsOf;
    batch := map[];
    NoRows(uuids, retries, graph, edges);
    var rest := jobs.Keys;
    assert jobs.Keys - rest == {};
    while rest != {}
      invariant rest <= jobs.Keys && AllBuilt(jobs, uuids, retries, graph, edges)
      invariant HoldsRows(batch, jobs.Keys - rest, uuids, retries, graph, edges)
      invariant table.rows == old(table.rows) + batch
      decreases rest
    {
      var x :| x in rest;
      ghost var b := Expected(x, jobs, uuids, retries, graph, edges);
      RelatedUuids(jobs, uuids, retries, graph, edges, x);
      ExpectedIs(x, jobs, uuids, retries, graph, edges);
      StoreOne(jobs, x, table, b, uuids, retries, graph, edges);
      MoreRows(batch, jobs.Keys - rest, x, uuids, retries, graph, edges);
      assert jobs.Keys - rest + {x} == jobs.Keys - (rest - {x});
      assert (old(table.rows) + batch)[b.uuid := b.row] == old(table.rows) + batch[b.uuid := b.row];
      batch := batch[b.uuid := b.row];
      rest := rest - {x};
    }
    assert jobs.Keys - rest == jobs.Keys;
  }

  lemma NoRows(uuids: map<Expr, Uuid>, retries: map<Expr, nat>, graph: nat, edges: Edges)
    requires uuids.Keys <= retries.Keys && Inside(edges, uuids)
    ensures HoldsRows(map[], {}, uuids, retries, graph, edges)
  {
  }

  lemma ExpectedIs(x: Expr, jobs: map<Expr, Job>, uuids: map<Expr, Uuid>, retries: map<Expr, nat>, graph: nat, edges: Edges)
    requires x in uuids && uuids.Keys == jobs.Keys && uuids.Keys <= retries.Keys && Inside(edges, uuids)
    ensures Parents(edges, x) <= uuids.Keys && Children(edges, x) <= uuids.Keys
    ensures Expected(x, jobs, uuids, retries, graph, edges).uuid == uuids[x]
    ensures Expected(x, jobs, uuids, retries, graph, edges).row == RowOf(x, uuids, retries, graph, edges)
  {
    InsideParts(edges, uuids, x);
  }

  method StoreOne(jobs: map<Expr, Job>, x: Expr, table: JobTable, ghost b: Built, ghost uuids: map<Expr, Uuid>,
                  ghost retries: map<Expr, nat>, ghost graph: nat, ghost edges: Edges)
    requires AllBuilt(jobs, uuids, retries, graph, edges) && x in jobs
    requires b == Expected(x, jobs, uuids, retries, graph, edges)
    requires UuidsOf(b.dependsOn) == b.row.dependsOn && UuidsOf(b.reverseDependsOn) == b.row.reverseDependsOn
    modifies jobs.Values, table`rows
    ensures AllBuilt(jobs, uuids, retries, graph, edges) && table.rows == old(table.rows)[b.uuid := b.row]
  {
    hide Expected;
    StoreBuilt(jobs[x], table, b);
    forall y | y in jobs ensures BuiltOf(jobs[y]) == old(BuiltOf(jobs[y])) {
    }
  }

  lemma MoreRows(batch: Rows, done: set<Expr>, x: Expr, uuids: map<Expr, Uuid>, retries: map<Expr, nat>, graph: nat, edges: Edges)
    requires done <= uuids.Keys <= retries.Keys && Inside(edges, uuids) && x in uuids && x !in done && Injective(uuids)
    requires HoldsRows(batch, done, uuids, retries, graph, edges)
    ensures Parents(edges, x) <= uuids.Keys && Children(edges, x) <= uuids.Keys
    ensures HoldsRows(batch[uuids[x] := RowOf(x, uuids, retries, graph, edges)], done + {x}, uuids, retries, graph, edges)
  {
    InsideParts(edges, uuids, x);
    UuidsMore(uuids, done, x);
    var batch' := batch[uuids[x] := RowOf(x, uuids, retries, graph, edges)];
    forall y | y in done + {x} ensures RowHeld(batch', y, uuids, retries, graph, edges) {
      if y != x { assert RowHeld(batch, y, uuids, retries, graph, edges) && uuids[y] != uuids[x]; }
    }
  }

  lemma EdgeUuids(edges: Edges, uuids: map<Expr, Uuid>, x: Expr, u: Uuid)
    requires Inside(edges, uuids) && x in uuids
    ensures Parents(edges, x) <= uuids.Keys && Children(edges, x) <= uuids.Keys
    ensures u in UuidsFor(uuids, Parents(edges, x)) <==> exists p :: p in uuids && (p, x) in edges && uuids[p] == u
    ensures u in UuidsFor(uuids, Children(edges, x)) <==> exists c :: c in uuids && (x, c) in edges && uuids[c] == u
  {
    InsideParts(edges, uuids, x);
    forall p ensures p in Parents(edges, x) <==> (p, x) in edges {
      if (p, x) in edges { assert (p, x).1 == x; }
    }
    forall c ensures c in Children(edges, x) <==> (x, c) in edges {
      if (x, c) in edges { assert (x, c).0 == x; }
    }
  }

  // The rows of a new graph are linked by its edges; those with parents wait, the others are pending.
  lemma RowsAreNew(rows: Rows, uuids: map<Expr, Uuid>, retries: map<Expr, nat>, graph: nat, edges: Edges)
    requires uuids.Keys <= retries.Keys && Inside(edges, uuids) && Injective(uuids) && (edges != {} ==> graph != 0)
    requires HoldsRows(rows, uuids.Keys, uuids, retries, graph, edges)
    ensures NewBatch(rows)
  {
    forall u | u in rows
      ensures LinkedAt(rows, u) && rows[u].state == PendingState(rows[u].dependsOn == {}) && rows[u].retry == 0
    {
      var x :| x in uuids && uuids[x] == u;
      assert RowHeld(rows, x, uuids, retries, graph, edges);
      RowLinked(rows, x, uuids, retries, graph, edges);
    }
  }

  lemma RowLinked(rows: Rows, x: Expr, uuids: map<Expr, Uuid>, retries: map<Expr, nat>, graph: nat, edges: Edges)
    requires uuids.Keys <= retries.Keys && Inside(edges, uuids) && Injective(uuids) && (edges != {} ==> graph != 0)
    requires HoldsRows(rows, uuids.Keys, uuids, retries, graph, edges) && x in uuids
    ensures uuids[x] in rows && LinkedAt(rows, uuids[x])
    ensures rows[uuids[x]].state == PendingState(rows[uuids[x]].dependsOn == {}) && rows[uuids[x]].retry == 0
  {
    var u := uuids[x];
    assert RowHeld(rows, x, uuids, retries, graph, edges);
    InsideParts(edges, uuids, x);
    if p :| p in Parents(edges, x) { assert uuids[p] in rows[u].dependsOn; }
    forall v | v in rows[u].dependsOn ensures v in rows && u in rows[v].reverseDependsOn && SameGraph(rows[u], rows[v]) {
      EdgeUuids(edges, uuids, x, v);
      var p :| p in uuids && (p, x) in edges && uuids[p] == v;
      assert RowHeld(rows, p, uuids, retries, graph, edges);
      EdgeUuids(edges, uuids, p, u);
    }
    forall v | v in rows[u].reverseDependsOn ensures v in rows && u in rows[v].dependsOn {
      EdgeUuids(edges, uuids, x, v);
      var c :| c in uuids && (x, c) in edges && uuids[c] == v;
      assert RowHeld(rows, c, uuids, retries, graph, edges);
      EdgeUuids(edges, uuids, c, u);
    }
  }

  // Builds the jobs of a graph and stores them. A job that depends on itself, or a graph without
  // jobs, is an error, and nothing is stored.
  method Delay(graph: G.Adjacency<Expr>, uuids: map<Expr, Uuid>, retries: map<Expr, nat>, newUuid: nat, table: JobTable)
    returns (ok: bool, ghost batch: Rows)
    requires G.Closed(graph) && uuids.Keys == graph.Keys <= retries.Keys && Injective(uuids) && newUuid != 0
    requires uuids.Values !! table.rows.Keys
    modifies table`rows
    ensures ok <==> graph != map[] && forall x :: !G.HasEdge(graph, x, x)
    ensures !ok ==> table.rows == old(table.rows)
    ensures ok ==> table.rows == old(table.rows) + batch && batch.Keys !! old(table.rows).Keys && NewBatch(batch)
    ensures ok ==> Inside(G.EdgeSet(graph), uuids)
    ensures ok ==>
      HoldsRows(batch, graph.Keys, uuids, retries, if |graph| == 1 then 0 else newUuid, G.EdgeSet(graph))
  {
    hide AllBuilt, HoldsRows, NewBatch, Injective, BuiltOf;
    batch := map[];
    var jobs := BuildJobs(graph.Keys, uuids, retries);
    KeysOfJobs(jobs, uuids, retries, 0, {});
    ok := ShareGraph(jobs, newUuid, uuids, retries);
    if !ok {
      return;
    }
    assert jobs.Keys == graph.Keys && |jobs| == |graph| by { SameSize(jobs, graph); }
    ghost var shared := if |graph| == 1 then 0 else newUuid;
    ok := LinkJobs(graph, jobs, uuids, retries, shared);
    if ok {
      KeysOfJobs(jobs, uuids, retries, shared, G.EdgeSet(graph));
      batch := StoreAll(jobs, table, uuids, retries, shared, G.EdgeSet(graph));
      LonelyHasNoEdges(graph);
      RowsAreNew(batch, uuids, retries, shared, G.EdgeSet(graph));
      BatchKeys(batch, uuids, retries, shared, G.EdgeSet(graph));
    }
  }

  // Each edge makes its head depend on its tail.
  method LinkJobs(graph: G.Adjacency<Expr>, jobs: map<Expr, Job>, ghost uuids: map<Expr, Uuid>, ghost retries: map<Expr, nat>,
                  ghost shared: nat)
    returns (ok: bool)
    requires G.Closed(graph) && jobs.Keys == graph.Keys && AllBuilt(jobs, uuids, retries, shared, {}) && Injective(uuids)
    modifies jobs.Values
    ensures ok <==> forall x :: !G.HasEdge(graph, x, x)
    ensures ok ==> AllBuilt(jobs, uuids, retries, shared, G.EdgeSet(graph))
  {
    hide AllBuilt, Injective;
    var edges := G.EdgeSet(graph);
    var rest := edges;
    assert edges - rest == {};
    while rest != {}
      invariant rest <= edges && AllBuilt(jobs, uuids, retries, shared, edges - rest)
      invariant forall e :: e in edges - rest ==> e.0 != e.1
      decreases rest
    {
      var e :| e in rest;
      var (p, c) := e;
      assert G.HasEdge(graph, p, c);
      ok := AddEdge(jobs, p, c, uuids, retries, shared, edges - rest);
      if !ok {
        return;
      }
      assert edges - rest + {(p, c)} == edges - (rest - {e});
      rest := rest - {e};
    }
    assert edges - rest == edges;
    forall x ensures !G.HasEdge(graph, x, x) {
      EdgeIn(graph, x, x);
    }
    ok := true;
  }

  lemma KeysOfJobs(jobs: map<Expr, Job>, uuids: map<Expr, Uuid>, retries: map<Expr, nat>, graph: nat, edges: Edges)
    requires AllBuilt(jobs, uuids, retries, graph, edges)
    ensures jobs.Keys == uuids.Keys && Inside(edges, uuids)
  {
  }

  lemma SameSize(jobs: map<Expr, Job>, graph: G.Adjacency<Expr>)
    requires jobs.Keys == graph.Keys
    ensures |jobs| == |graph|
  {
    assert |jobs.Keys| == |graph.Keys|;
  }

  lemma EdgeIn(graph: G.Adjacency<Expr>, p: Expr, c: Expr)
    ensures (p, c) in G.EdgeSet(graph) <==> G.HasEdge(graph, p, c)
  {
  }

  lemma LonelyHasNoEdges(graph: G.Adjacency<Expr>)
    requires G.Closed(graph) && forall x :: !G.HasEdge(graph, x, x)
    ensures |graph| == 1 ==> G.EdgeSet(graph) == {}
  {
    forall p, c | G.HasEdge(graph, p, c) ensures |graph| > 1 {
      var others := graph.Keys - {p};
      assert c in others && |graph.Keys| == |others| + 1;
    }
    forall p, c | (p, c) in G.EdgeSet(graph) ensures |graph| > 1 {
      EdgeIn(graph, p, c);
    }
  }

  lemma BatchKeys(batch: Rows, uuids: map<Expr, Uuid>, retries: map<Expr, nat>, graph: nat, edges: Edges)
    requires uuids.Keys <= retries.Keys && Inside(edges, uuids)
    requires HoldsRows(batch, uuids.Keys, uuids, retries, graph, edges)
    ensures batch.Keys == uuids.Values
  {
    forall u ensures u in UuidsFor(uuids, uuids.Keys) <==> u in uuids.Values {
    }
  }

  // Exactly the jobs of root vertices are pending.
  lemma RootsArePending(graph: G.Adjacency<Expr>, rows: Rows, uuids: map<Expr, Uuid>, retries: map<Expr, nat>, shared: nat, x: Expr)
    requires uuids.Keys == graph.Keys && uuids.Keys <= retries.Keys && Inside(G.EdgeSet(graph), uuids) && x in graph
    requires HoldsRows(rows, uuids.Keys, uuids, retries, shared, G.EdgeSet(graph))
    ensures uuids[x] in rows && (rows[uuids[x]].state.Pending? <==> x in G.Roots(graph))
  {
    assert RowHeld(rows, x, uuids, retries, shared, G.EdgeSet(graph));
    forall p ensures p in Parents(G.EdgeSet(graph), x) <==> p in G.Predecessors(graph, x) {
      EdgeIn(graph, p, x);
      if (p, x) in G.EdgeSet(graph) { assert (p, x).1 == x; }
    }
  }

  // The row of a vertex is new, has the retries and the graph uuid given for it, and knows exactly
  // the jobs that the edges lead to and come from.
  lemma RowIsStored(graph: G.Adjacency<Expr>, rows: Rows, uuids: map<Expr, Uuid>, retries: map<Expr, nat>, shared: nat, x: Expr)
    requires uuids.Keys == graph.Keys && uuids.Keys <= retries.Keys && Inside(G.EdgeSet(graph), uuids) && x in graph
    requires HoldsRows(rows, uuids.Keys, uuids, retries, shared, G.EdgeSet(graph))
    ensures uuids[x] in rows
    ensures var row := rows[uuids[x]];
      && row.retry == 0 && row.maxRetries == retries[x] && row.graph == shared
      && (forall u :: u in row.dependsOn <==> exists p :: p in uuids && uuids[p] == u && G.HasEdge(graph, p, x))
      && (forall u :: u in row.reverseDependsOn <==> exists c :: c in uuids && uuids[c] == u && G.HasEdge(graph, x, c))
  {
    var edges := G.EdgeSet(graph);
    assert RowHeld(rows, x, uuids, retries, shared, edges);
    InsideParts(edges, uuids, x);
    forall y ensures ((x, y) in edges <==> G.HasEdge(graph, x, y)) && ((y, x) in edges <==> G.HasEdge(graph, y, x)) {
      EdgeIn(graph, x, y);
      EdgeIn(graph, y, x);
    }
    forall u
      ensures u in UuidsFor(uuids, Parents(edges, x)) <==> exists p :: p in uuids && uuids[p] == u && G.HasEdge(graph, p, x)
      ensures u in UuidsFor(uuids, Children(edges, x)) <==> exists c :: c in uuids && uuids[c] == u && G.HasEdge(graph, x, c)
    {
      EdgeUuids(edges, uuids, x, u);
    }
  }
}
