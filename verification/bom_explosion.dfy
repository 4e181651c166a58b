// The explosion of a bill of materials: how much of each product an order needs, over all levels.
module BomExplosion {

  type Product = nat

  // A line of a bill of materials: so much of a product for one unit of the product above.
  datatype Line = Line(product: Product, quantity: real)

  // The lines of the bill of materials of a product, if it has one.
  type Boms = map<Product, seq<Line>>

  predicate HasBom(boms: Boms, p: Product) {
    p in boms && boms[p] != []
  }

  function LinesOf(boms: Boms, p: Product): seq<Line> {
    if p in boms then boms[p] else []
  }

  // Products lower down have smaller ranks: no product contains itself.
  ghost predicate Acyclic(boms: Boms, rank: map<Product, nat>) {
    forall p, i :: p in boms && 0 <= i < |boms[p]| ==> FallsAt(boms, rank, p, i)
  }

  ghost predicate FallsAt(boms: Boms, rank: map<Product, nat>, p: Product, i: int)
    requires p in boms && 0 <= i < |boms[p]|
  {
    p in rank && boms[p][i].product in rank && rank[boms[p][i].product] < rank[p]
  }

  ghost function RankOf(rank: map<Product, nat>, p: Product): nat {
    if p in rank then rank[p] else 0
  }

  function Amount(amounts: map<Product, real>, t: Product): real {
    if t in amounts then amounts[t] else 0.0
  }

  function Times(q: real, x: real): real {
    q * x
  }

  // ---------- Paths through the bills of materials ----------

  // A path goes down by the position of a line at each level.
  ghost predicate IsPath(boms: Boms, p: Product, path: seq<nat>)
    decreases |path|
  {
    && path != [] && p in boms && path[0] < |boms[p]|
    && (|path| == 1 || IsPath(boms, boms[p][path[0]].product, path[1..]))
  }

  // The product at the end of a path, and the product of the quantities on it.
  ghost function EndOf(boms: Boms, p: Product, path: seq<nat>): Product
    requires IsPath(boms, p, path)
    decreases |path|
  {
    var line := boms[p][path[0]];
    if |path| == 1 then line.product else EndOf(boms, line.product, path[1..])
  }

  ghost function QuantityOn(boms: Boms, p: Product, path: seq<nat>): real
    requires IsPath(boms, p, path)
    decreases |path|
  {
    var line := boms[p][path[0]];
    if |path| == 1 then line.quantity else Times(line.quantity, QuantityOn(boms, line.product, path[1..]))
  }

  ghost predicate AllPaths(boms: Boms, p: Product, paths: seq<seq<nat>>) {
    forall i :: 0 <= i < |paths| ==> IsPath(boms, p, paths[i])
  }

  // The quantities of the paths that end at product t, summed.
  ghost function SumTo(boms: Boms, p: Product, paths: seq<seq<nat>>, t: Product): real
    requires AllPaths(boms, p, paths)
  {
    if paths == [] then 0.0
    else
      var n := |paths| - 1;
      SumTo(boms, p, paths[..n], t) + if EndOf(boms, p, paths[n]) == t then QuantityOn(boms, p, paths[n]) else 0.0
  }

  ghost function Extend(k: nat, paths: seq<seq<nat>>): seq<seq<nat>> {
    seq(|paths|, i requires 0 <= i < |paths| => [k] + paths[i])
  }

  // All paths down from p whose first step is one of the first n lines.
  ghost function PathsVia(boms: Boms, rank: map<Product, nat>, p: Product, n: nat): seq<seq<nat>>
    requires Acyclic(boms, rank) && n <= |LinesOf(boms, p)|
    decreases RankOf(rank, p), n
  {
    if n == 0 then []
    else
      var child := LinesOf(boms, p)[n - 1].product;
      assert FallsAt(boms, rank, p, n - 1);
      PathsVia(boms, rank, p, n - 1) + [[n - 1]] + Extend(n - 1, PathsVia(boms, rank, child, |LinesOf(boms, child)|))
  }

  ghost function Paths(boms: Boms, rank: map<Product, nat>, p: Product): seq<seq<nat>>
    requires Acyclic(boms, rank)
  {
    PathsVia(boms, rank, p, |LinesOf(boms, p)|)
  }

  lemma InExtend(k: nat, paths: seq<seq<nat>>, path: seq<nat>)
    ensures path in Extend(k, paths) <==> path != [] && path[0] == k && path[1..] in paths
  {
    var ext := Extend(k, paths);
    if path != [] && path[0] == k && path[1..] in paths {
      var i :| 0 <= i < |paths| && paths[i] == path[1..];
      assert ext[i] == path;
    }
    if path in ext {
      var i :| 0 <= i < |paths| && ext[i] == path;
      assert path[1..] == paths[i];
    }
  }

  // The paths whose first step is line k: the line alone, or continued below.
  ghost function PathsAt(boms: Boms, rank: map<Product, nat>, p: Product, k: nat): seq<seq<nat>>
    requires Acyclic(boms, rank) && k < |LinesOf(boms, p)|
  {
    [[k]] + Extend(k, Paths(boms, rank, LinesOf(boms, p)[k].product))
  }

  lemma PathsGrow(boms: Boms, rank: map<Product, nat>, p: Product, n: nat)
    requires Acyclic(boms, rank) && n < |LinesOf(boms, p)|
    ensures PathsVia(boms, rank, p, n + 1) == PathsVia(boms, rank, p, n) + PathsAt(boms, rank, p, n)
  {
  }

  lemma {:induction false} PathsAreAll(boms: Boms, rank: map<Product, nat>, p: Product, n: nat, path: seq<nat>)
    requires Acyclic(boms, rank) && n <= |LinesOf(boms, p)|
    ensures path in PathsVia(boms, rank, p, n) <==> IsPath(boms, p, path) && path[0] < n
    decreases RankOf(rank, p), n
  {
    hide *;
    if IsPath(boms, p, path) { NotEmpty(boms, p, path); }
    if n == 0 {
      NoPaths(boms, rank, p);
    } else {
      RankFalls(boms, rank, p, n - 1);
      PathsAreAll(boms, rank, p, n - 1, path);
      PathsGrow(boms, rank, p, n - 1);
      PathsAtIs(boms, rank, p, n - 1);
      var child := LinesOf(boms, p)[n - 1].product;
      var below := PathsVia(boms, rank, child, |LinesOf(boms, child)|);
      InExtend(n - 1, below, path);
      if path != [] {
        PathsAreAll(boms, rank, child, |LinesOf(boms, child)|, path[1..]);
        StepDown(boms, p, path);
      } else {
        NotAPath(boms, p);
      }
      assert path in [[n - 1]] + Extend(n - 1, below) <==> path == [n - 1] || path in Extend(n - 1, below);
    }
  }

  lemma NotAPath(boms: Boms, p: Product)
    ensures !IsPath(boms, p, [])
  {
  }

  lemma StepDown(boms: Boms, p: Product, path: seq<nat>)
    requires path != []
    ensures IsPath(boms, p, path) <==>
      path[0] < |LinesOf(boms, p)| && (path == [path[0]] || IsPath(boms, LinesOf(boms, p)[path[0]].product, path[1..]))
    ensures IsPath(boms, p, path) && path != [path[0]] ==>
      path[1..] != [] && path[1..][0] < |LinesOf(boms, LinesOf(boms, p)[path[0]].product)|
  {
    assert path == [path[0]] <==> |path| == 1;
  }

  ghost predicate Distinct(paths: seq<seq<nat>>) {
    forall i, k :: 0 <= i < k < |paths| ==> paths[i] != paths[k]
  }

  lemma NotEmpty(boms: Boms, p: Product, path: seq<nat>)
    requires IsPath(boms, p, path)
    ensures path != []
  {
  }

  lemma PathsNotEmpty(boms: Boms, rank: map<Product, nat>, p: Product, n: nat)
    requires Acyclic(boms, rank) && n <= |LinesOf(boms, p)|
    ensures forall path :: path in PathsVia(boms, rank, p, n) ==> path != [] && path[0] < n
  {
    hide *;
    forall path | path in PathsVia(boms, rank, p, n) ensures path != [] && path[0] < n {
      PathsAreAll(boms, rank, p, n, path);
      NotEmpty(boms, p, path);
    }
  }

  lemma {:induction false} PathsAreDistinct(boms: Boms, rank: map<Product, nat>, p: Product, n: nat)
    requires Acyclic(boms, rank) && n <= |LinesOf(boms, p)|
    ensures Distinct(PathsVia(boms, rank, p, n))
    decreases RankOf(rank, p), n
  {
    hide *;
    if n == 0 {
      NoPaths(boms, rank, p);
    } else {
      var child := LinesOf(boms, p)[n - 1].product;
      RankFalls(boms, rank, p, n - 1);
      PathsAreDistinct(boms, rank, p, n - 1);
      PathsAreDistinct(boms, rank, child, |LinesOf(boms, child)|);
      PathsNotEmpty(boms, rank, p, n - 1);
      PathsNotEmpty(boms, rank, child, |LinesOf(boms, child)|);
      PathsGrow(boms, rank, p, n - 1);
      PathsAtIs(boms, rank, p, n - 1);
      ExtendDistinct(n - 1, PathsVia(boms, rank, p, n - 1), PathsVia(boms, rank, child, |LinesOf(boms, child)|));
    }
  }

  lemma NoPaths(boms: Boms, rank: map<Product, nat>, p: Product)
    requires Acyclic(boms, rank)
    ensures PathsVia(boms, rank, p, 0) == [] && Distinct([])
  {
  }

  lemma PathsAtIs(boms: Boms, rank: map<Product, nat>, p: Product, k: nat)
    requires Acyclic(boms, rank) && k < |LinesOf(boms, p)|
    ensures var child := LinesOf(boms, p)[k].product;
      PathsAt(boms, rank, p, k) == [[k]] + Extend(k, PathsVia(boms, rank, child, |LinesOf(boms, child)|))
  {
  }

  lemma RankFalls(boms: Boms, rank: map<Product, nat>, p: Product, k: nat)
    requires Acyclic(boms, rank) && k < |LinesOf(boms, p)|
    ensures RankOf(rank, LinesOf(boms, p)[k].product) < RankOf(rank, p)
  {
    assert FallsAt(boms, rank, p, k);
  }

  lemma ExtendDistinct(k: nat, before: seq<seq<nat>>, below: seq<seq<nat>>)
    requires Distinct(before) && Distinct(below)
    requires (forall path :: path in before ==> path != [] && path[0] < k) && forall path :: path in below ==> path != []
    ensures Distinct(before + ([[k]] + Extend(k, below)))
  {
    var later, ext := [[k]] + Extend(k, below), Extend(k, below);
    forall i | 0 <= i < |below| ensures ext[i][1..] == below[i] && ext[i][0] == k && |ext[i]| > 1 {
      assert below[i] in below;
    }
    forall i | 0 <= i < |later| ensures later[i] != [] && later[i][0] == k && (i > 0 ==> later[i] == ext[i - 1]) {
    }
    forall i | 0 <= i < |before| ensures before[i] != [] && before[i][0] < k {
      assert before[i] in before;
    }
  }

  // ---------- The weight of a product in another ----------

  // How much of t the first n lines of p need, for one unit of p.
  ghost function LineSum(boms: Boms, rank: map<Product, nat>, p: Product, n: nat, t: Product): real
    requires Acyclic(boms, rank) && n <= |LinesOf(boms, p)|
    decreases RankOf(rank, p), n
  {
    if n == 0 then 0.0
    else
      var line := LinesOf(boms, p)[n - 1];
      assert FallsAt(boms, rank, p, n - 1);
      LineSum(boms, rank, p, n - 1, t)
      + Times(line.quantity, (if line.product == t then 1.0 else 0.0)
                             + LineSum(boms, rank, line.product, |LinesOf(boms, line.product)|, t))
  }

  ghost function Weight(boms: Boms, rank: map<Product, nat>, p: Product, t: Product): real
    requires Acyclic(boms, rank)
  {
    LineSum(boms, rank, p, |LinesOf(boms, p)|, t)
  }

  lemma {:induction false} SumAppend(boms: Boms, p: Product, a: seq<seq<nat>>, b: seq<seq<nat>>, t: Product)
    requires AllPaths(boms, p, a) && AllPaths(boms, p, b)
    ensures AllPaths(boms, p, a + b) && SumTo(boms, p, a + b, t) == SumTo(boms, p, a, t) + SumTo(boms, p, b, t)
    decreases |b|
  {
    if b == [] {
      assert a + b == a;
    } else {
      var n := |b| - 1;
      SumAppend(boms, p, a, b[..n], t);
      assert (a + b)[..|a + b| - 1] == a + b[..n];
    }
  }

  lemma ExtendPath(boms: Boms, p: Product, k: nat, path: seq<nat>)
    requires k < |LinesOf(boms, p)| && IsPath(boms, LinesOf(boms, p)[k].product, path)
    ensures path != [] && IsPath(boms, p, [k] + path)
  {
    assert ([k] + path)[1..] == path;
  }

  lemma EndBelow(boms: Boms, p: Product, path: seq<nat>)
    requires IsPath(boms, p, path) && |path| > 1 && IsPath(boms, LinesOf(boms, p)[path[0]].product, path[1..])
    ensures EndOf(boms, p, path) == EndOf(boms, LinesOf(boms, p)[path[0]].product, path[1..])
  {
  }

  lemma QuantityBelow(boms: Boms, p: Product, path: seq<nat>)
    requires IsPath(boms, p, path) && |path| > 1 && IsPath(boms, LinesOf(boms, p)[path[0]].product, path[1..])
    ensures QuantityOn(boms, p, path) ==
      Times(LinesOf(boms, p)[path[0]].quantity, QuantityOn(boms, LinesOf(boms, p)[path[0]].product, path[1..]))
  {
  }

  lemma ExtendOne(boms: Boms, p: Product, k: nat, path: seq<nat>)
    requires k < |LinesOf(boms, p)| && IsPath(boms, LinesOf(boms, p)[k].product, path)
    ensures IsPath(boms, p, [k] + path)
    ensures EndOf(boms, p, [k] + path) == EndOf(boms, LinesOf(boms, p)[k].product, path)
    ensures QuantityOn(boms, p, [k] + path) == Times(LinesOf(boms, p)[k].quantity, QuantityOn(boms, LinesOf(boms, p)[k].product, path))
  {
    hide *;
    ExtendPath(boms, p, k, path);
    assert ([k] + path)[1..] == path;
    EndBelow(boms, p, [k] + path);
    QuantityBelow(boms, p, [k] + path);
  }

  lemma Distribute(q: real, a: real, b: real)
    ensures q * (a + b) == q * a + q * b
  {
  }

  lemma TimesSum(q: real, a: real, b: real)
    ensures Times(q, a + b) == Times(q, a) + Times(q, b) && Times(q, 0.0) == 0.0
  {
  }

  lemma SumLast(boms: Boms, p: Product, paths: seq<seq<nat>>, path: seq<nat>, t: Product)
    requires AllPaths(boms, p, paths) && IsPath(boms, p, path)
    ensures AllPaths(boms, p, paths + [path])
    ensures SumTo(boms, p, paths + [path], t) ==
      SumTo(boms, p, paths, t) + if EndOf(boms, p, path) == t then QuantityOn(boms, p, path) else 0.0
    ensures AllPaths(boms, p, []) && SumTo(boms, p, [], t) == 0.0
  {
    assert (paths + [path])[..|paths|] == paths;
  }

  lemma ExtendLast(k: nat, paths: seq<seq<nat>>, path: seq<nat>)
    ensures Extend(k, paths + [path]) == Extend(k, paths) + [[k] + path] && Extend(k, []) == []
  {
  }

  lemma PathsPrefix(boms: Boms, p: Product, paths: seq<seq<nat>>)
    requires AllPaths(boms, p, paths) && paths != []
    ensures AllPaths(boms, p, paths[..|paths| - 1]) && IsPath(boms, p, paths[|paths| - 1])
  {
  }

  lemma NoneToSum(boms: Boms, p: Product, t: Product)
    ensures AllPaths(boms, p, []) && SumTo(boms, p, [], t) == 0.0
  {
  }

  lemma {:induction false} SumExtended(boms: Boms, p: Product, k: nat, paths: seq<seq<nat>>, t: Product)
    requires k < |LinesOf(boms, p)| && AllPaths(boms, LinesOf(boms, p)[k].product, paths)
    ensures AllPaths(boms, p, Extend(k, paths))
    ensures SumTo(boms, p, Extend(k, paths), t) ==
      Times(LinesOf(boms, p)[k].quantity, SumTo(boms, LinesOf(boms, p)[k].product, paths, t))
    decreases |paths|
  {
    hide *;
    var line := LinesOf(boms, p)[k];
    NoneToSum(boms, p, t);
    NoneToSum(boms, line.product, t);
    TimesSum(line.quantity, 0.0, 0.0);
    ExtendLast(k, [], [0]);
    if paths != [] {
      var n := |paths| - 1;
      PathsPrefix(boms, line.product, paths);
      SumExtended(boms, p, k, paths[..n], t);
      ExtendOne(boms, p, k, paths[n]);
      ExtendLast(k, paths[..n], paths[n]);
      assert paths[..n] + [paths[n]] == paths;
      SumLast(boms, line.product, paths[..n], paths[n], t);
      SumLast(boms, p, Extend(k, paths[..n]), [k] + paths[n], t);
      TimesSum(line.quantity, SumTo(boms, line.product, paths[..n], t),
               if EndOf(boms, line.product, paths[n]) == t then QuantityOn(boms, line.product, paths[n]) else 0.0);
    }
  }

  lemma SumAt(boms: Boms, rank: map<Product, nat>, p: Product, k: nat, t: Product)
    requires Acyclic(boms, rank) && k < |LinesOf(boms, p)|
    requires AllPaths(boms, LinesOf(boms, p)[k].product, Paths(boms, rank, LinesOf(boms, p)[k].product))
    ensures AllPaths(boms, p, PathsAt(boms, rank, p, k))
    ensures var line := LinesOf(boms, p)[k];
      SumTo(boms, p, PathsAt(boms, rank, p, k), t) == Times(line.quantity,
        (if line.product == t then 1.0 else 0.0) + SumTo(boms, line.product, Paths(boms, rank, line.product), t))
  {
    hide *;
    var line := LinesOf(boms, p)[k];
    var below := Paths(boms, rank, line.product);
    PathsAtParts(boms, rank, p, k);
    SumExtended(boms, p, k, below, t);
    SumSingle(boms, p, k, t);
    SumAppend(boms, p, [[k]], Extend(k, below), t);
    TimesSum(line.quantity, if line.product == t then 1.0 else 0.0, SumTo(boms, line.product, below, t));
    TimesOne(line.quantity);
  }

  lemma TimesOne(q: real)
    ensures Times(q, 1.0) == q && Times(q, 0.0) == 0.0
  {
  }

  lemma PathsAtParts(boms: Boms, rank: map<Product, nat>, p: Product, k: nat)
    requires Acyclic(boms, rank) && k < |LinesOf(boms, p)|
    ensures PathsAt(boms, rank, p, k) == [[k]] + Extend(k, Paths(boms, rank, LinesOf(boms, p)[k].product))
  {
  }

  lemma LineSumGrow(boms: Boms, rank: map<Product, nat>, p: Product, n: nat, t: Product)
    requires Acyclic(boms, rank) && n < |LinesOf(boms, p)|
    ensures var line := LinesOf(boms, p)[n];
      LineSum(boms, rank, p, n + 1, t) == LineSum(boms, rank, p, n, t)
        + Times(line.quantity, (if line.product == t then 1.0 else 0.0) + Weight(boms, rank, line.product, t))
  {
  }

  // The weight of a product is the sum over all paths to it of the quantities on the path.
  lemma {:induction false} WeightIsPathSum(boms: Boms, rank: map<Product, nat>, p: Product, n: nat, t: Product)
    requires Acyclic(boms, rank) && n <= |LinesOf(boms, p)|
    ensures AllPaths(boms, p, PathsVia(boms, rank, p, n))
    ensures LineSum(boms, rank, p, n, t) == SumTo(boms, p, PathsVia(boms, rank, p, n), t)
    decreases RankOf(rank, p), n
  {
    hide *;
    if n == 0 {
      NoLines(boms, rank, p, t);
    } else {
      var line := LinesOf(boms, p)[n - 1];
      RankFalls(boms, rank, p, n - 1);
      WeightIsPathSum(boms, rank, p, n - 1, t);
      WeightIsPathSum(boms, rank, line.product, |LinesOf(boms, line.product)|, t);
      WholeSum(boms, rank, line.product, t);
      PathsGrow(boms, rank, p, n - 1);
      LineSumGrow(boms, rank, p, n - 1, t);
      SumAt(boms, rank, p, n - 1, t);
      SumAppend(boms, p, PathsVia(boms, rank, p, n - 1), PathsAt(boms, rank, p, n - 1), t);
    }
  }

  lemma NoLines(boms: Boms, rank: map<Product, nat>, p: Product, t: Product)
    requires Acyclic(boms, rank)
    ensures PathsVia(boms, rank, p, 0) == [] && AllPaths(boms, p, []) && LineSum(boms, rank, p, 0, t) == SumTo(boms, p, [], t)
  {
  }

  lemma WholeSum(boms: Boms, rank: map<Product, nat>, p: Product, t: Product)
    requires Acyclic(boms, rank)
    ensures Paths(boms, rank, p) == PathsVia(boms, rank, p, |LinesOf(boms, p)|)
    ensures Weight(boms, rank, p, t) == LineSum(boms, rank, p, |LinesOf(boms, p)|, t)
  {
  }

  lemma SumSingle(boms: Boms, p: Product, k: nat, t: Product)
    requires k < |LinesOf(boms, p)|
    ensures AllPaths(boms, p, [[k]])
    ensures SumTo(boms, p, [[k]], t) == if LinesOf(boms, p)[k].product == t then LinesOf(boms, p)[k].quantity else 0.0
  {
    assert [[k]][..0] == [];
  }

  // ---------- The explosion in place ----------

  // Some product below p is t.
  ghost predicate IsBelow(boms: Boms, p: Product, t: Product) {
    exists path :: IsPath(boms, p, path) && EndOf(boms, p, path) == t
  }

  ghost predicate BelowVia(boms: Boms, p: Product, n: nat, t: Product) {
    exists path :: IsPath(boms, p, path) && path[0] < n && EndOf(boms, p, path) == t
  }

  lemma BelowGrows(boms: Boms, p: Product, n: nat, t: Product)
    requires n < |LinesOf(boms, p)|
    ensures var child := LinesOf(boms, p)[n].product;
      BelowVia(boms, p, n + 1, t) <==> BelowVia(boms, p, n, t) || t == child || IsBelow(boms, child, t)
  {
    var child := LinesOf(boms, p)[n].product;
    if path :| IsPath(boms, p, path) && path[0] < n + 1 && EndOf(boms, p, path) == t {
      StepDown(boms, p, path);
      if path[0] == n && |path| > 1 {
        assert IsPath(boms, child, path[1..]) && EndOf(boms, child, path[1..]) == t;
      }
    }
    if t == child {
      assert IsPath(boms, p, [n]) && EndOf(boms, p, [n]) == t;
    }
    if path :| IsPath(boms, child, path) && EndOf(boms, child, path) == t {
      ExtendOne(boms, p, n, path);
      assert IsPath(boms, p, [n] + path) && ([n] + path)[0] < n + 1 && EndOf(boms, p, [n] + path) == t;
    }
  }

  lemma BelowAll(boms: Boms, p: Product, t: Product)
    ensures BelowVia(boms, p, |LinesOf(boms, p)|, t) <==> IsBelow(boms, p, t)
    ensures !BelowVia(boms, p, 0, t)
  {
  }

  lemma NestedTimes(q: real, l: real, d: real, w: real)
    ensures q * Times(l, d + w) == (q * l) * d + (q * l) * w
  {
  }

  // The amounts needed so far, and a line that asks for each product.
  class Report {
    const boms: Boms
    var amounts: map<Product, real>
    var lines: map<Product, Line>

    constructor (boms: Boms)
      ensures this.boms == boms && amounts == map[] && lines == map[]
    {
      this.boms, amounts, lines := boms, map[], map[];
    }

    // Every product with an amount has a line that asks for it.
    predicate Valid()
      reads this
    {
      amounts.Keys == lines.Keys && forall t :: t in lines ==> lines[t].product == t
    }

    method Note(line: Line, quantity: real)
      requires Valid()
      modifies this
      ensures Valid() && amounts.Keys == old(amounts).Keys + {line.product} && lines == old(lines)[line.product := line]
      ensures forall t :: Amount(amounts, t) == Amount(old(amounts), t) + if t == line.product then quantity else 0.0
    {
      if line.product !in amounts {
        amounts := amounts[line.product := quantity];
      } else {
        amounts := amounts[line.product := amounts[line.product] + quantity];
      }
      lines := lines[line.product := line];
    }

    // Adds what some amount of a product needs, level by level.
    method Explode(product: Product, quantity: real, ghost rank: map<Product, nat>)
      requires Valid() && Acyclic(boms, rank)
      modifies this
      ensures Valid() && forall t :: t in amounts <==> t in old(amounts) || IsBelow(boms, product, t)
      ensures forall t :: Amount(amounts, t) == Amount(old(amounts), t) + quantity * Weight(boms, rank, product, t)
      decreases RankOf(rank, product)
    {
      hide *;
      var below := LinesOf(boms, product);
      ghost var start := amounts;
      Begin(boms, rank, product, quantity, start);
      for i := 0 to |below|
        invariant Valid() && Exploded(boms, rank, product, quantity, i, start, amounts)
      {
        var line := below[i];
        var required := quantity * line.quantity;
        ghost var before := amounts;
        Note(line, required);
        ghost var noted := amounts;
        RankFalls(boms, rank, product, i);
        Explode(line.product, required, rank);
        NextLine(boms, rank, product, quantity, i, start, before, noted, amounts);
      }
      Whole(boms, rank, product, quantity, start, amounts);
    }

    // The lines of the ordered product. A line for a product with a bill of materials of its own
    // stands only for what that product needs, any other for itself.
    method Accumulate(top: seq<Line>, quantity: real, ghost rank: map<Product, nat>)
      requires Valid() && Acyclic(boms, rank) && amounts == map[]
      modifies this
      ensures Valid() && forall t :: Amount(amounts, t) == quantity * OrderSum(boms, rank, top, t)
      ensures forall t :: t in amounts <==> Needs(boms, top, t)
    {
      hide *;
      NothingOrdered(boms, rank, quantity, amounts);
      NothingNeeded(boms);
      assert top[..0] == [];
      for i := 0 to |top|
        invariant Valid() && Ordered(boms, rank, quantity, top[..i], amounts)
        invariant forall t :: t in amounts <==> Needs(boms, top[..i], t)
      {
        var line := top[i];
        ghost var before := amounts;
        var required := quantity * line.quantity;
        var levels := CheckBom(line.product);
        if levels {
          Explode(line.product, required, rank);
        } else {
          Note(line, required);
        }
        MoreOrdered(boms, rank, quantity, top, i, before, amounts);
        MoreNeeds(boms, top, i, before.Keys, amounts.Keys);
      }
      assert top[..|top|] == top;
      AllOrdered(boms, rank, quantity, top, amounts);
    }

    method CheckBom(p: Product) returns (b: bool)
      ensures b <==> BrokenDown(boms, p)
    {
      b := HasBom(boms, p);
      HasBomMeans(boms, p);
    }
  }

  // The product is broken down: some way leads down from it.
  ghost predicate BrokenDown(boms: Boms, p: Product) {
    exists path :: IsPath(boms, p, path)
  }

  lemma HasBomMeans(boms: Boms, p: Product)
    ensures HasBom(boms, p) <==> BrokenDown(boms, p)
  {
    if HasBom(boms, p) { assert IsPath(boms, p, [0]); }
  }

  // What one line of the order needs of t, for one unit ordered.
  ghost function TopWeight(boms: Boms, rank: map<Product, nat>, line: Line, t: Product): real
    requires Acyclic(boms, rank)
  {
    if BrokenDown(boms, line.product) then Times(line.quantity, Weight(boms, rank, line.product, t))
    else if line.product == t then line.quantity else 0.0
  }

  // A line of the order needs its own product, or what the bill of materials of that one needs.
  ghost predicate LineNeeds(boms: Boms, line: Line, t: Product) {
    if BrokenDown(boms, line.product) then IsBelow(boms, line.product, t) else t == line.product
  }

  ghost predicate Needs(boms: Boms, top: seq<Line>, t: Product) {
    exists i :: 0 <= i < |top| && LineNeeds(boms, top[i], t)
  }

  lemma NothingNeeded(boms: Boms)
    ensures forall t :: !Needs(boms, [], t)
  {
  }

  lemma MoreNeeds(boms: Boms, top: seq<Line>, i: nat, before: set<Product>, after: set<Product>)
    requires i < |top| && forall t :: t in before <==> Needs(boms, top[..i], t)
    requires var line := top[i];
      if BrokenDown(boms, line.product) then forall t :: t in after <==> t in before || IsBelow(boms, line.product, t)
      else after == before + {line.product}
    ensures forall t :: t in after <==> Needs(boms, top[..i + 1], t)
  {
    hide BrokenDown, IsBelow;
    forall t ensures Needs(boms, top[..i + 1], t) <==> Needs(boms, top[..i], t) || LineNeeds(boms, top[i], t) {
      if k :| 0 <= k < i && LineNeeds(boms, top[..i][k], t) { assert top[..i + 1][k] == top[..i][k]; }
      if LineNeeds(boms, top[i], t) { assert top[..i + 1][i] == top[i]; }
    }
  }

  ghost function OrderSum(boms: Boms, rank: map<Product, nat>, top: seq<Line>, t: Product): real
    requires Acyclic(boms, rank)
  {
    SumOf(top, (line: Line) => TopWeight(boms, rank, line, t))
  }

  ghost predicate Ordered(boms: Boms, rank: map<Product, nat>, q: real, top: seq<Line>, amounts: map<Product, real>)
    requires Acyclic(boms, rank)
  {
    forall t :: Amount(amounts, t) == q * OrderSum(boms, rank, top, t)
  }

  lemma NothingOrdered(boms: Boms, rank: map<Product, nat>, q: real, amounts: map<Product, real>)
    requires Acyclic(boms, rank) && amounts == map[]
    ensures Ordered(boms, rank, q, [], amounts)
  {
  }

  lemma AllOrdered(boms: Boms, rank: map<Product, nat>, q: real, top: seq<Line>, amounts: map<Product, real>)
    requires Acyclic(boms, rank) && Ordered(boms, rank, q, top, amounts)
    ensures forall t :: Amount(amounts, t) == q * OrderSum(boms, rank, top, t)
  {
  }

  lemma OrderMore(boms: Boms, rank: map<Product, nat>, top: seq<Line>, i: nat, t: Product)
    requires Acyclic(boms, rank) && i < |top|
    ensures OrderSum(boms, rank, top[..i + 1], t) == OrderSum(boms, rank, top[..i], t) + TopWeight(boms, rank, top[i], t)
  {
    assert top[..i + 1][..i] == top[..i];
  }

  lemma TimesTop(boms: Boms, rank: map<Product, nat>, q: real, line: Line, t: Product)
    requires Acyclic(boms, rank)
    ensures q * TopWeight(boms, rank, line, t) ==
      if BrokenDown(boms, line.product) then (q * line.quantity) * Weight(boms, rank, line.product, t)
      else if t == line.product then q * line.quantity else 0.0
  {
    hide Weight, LineSum;
    if BrokenDown(boms, line.product) {
      NestedTimes(q, line.quantity, 0.0, Weight(boms, rank, line.product, t));
    }
  }

  lemma MoreOrdered(boms: Boms, rank: map<Product, nat>, q: real, top: seq<Line>, i: nat,
                    before: map<Product, real>, after: map<Product, real>)
    requires Acyclic(boms, rank) && i < |top| && Ordered(boms, rank, q, top[..i], before)
    requires var line := top[i];
      if BrokenDown(boms, line.product)
      then forall t :: Amount(after, t) == Amount(before, t) + (q * line.quantity) * Weight(boms, rank, line.product, t)
      else forall t :: Amount(after, t) == Amount(before, t) + if t == line.product then q * line.quantity else 0.0
    ensures Ordered(boms, rank, q, top[..i + 1], after)
  {
    hide OrderSum, TopWeight, Weight, Amount, BrokenDown, Acyclic;
    var more := top[..i + 1];
    forall t ensures Amount(after, t) == q * OrderSum(boms, rank, more, t) {
      OrderMore(boms, rank, top, i, t);
      TimesTop(boms, rank, q, top[i], t);
      Distribute(q, OrderSum(boms, rank, top[..i], t), TopWeight(boms, rank, top[i], t));
    }
  }

  // ---------- The order of the lines does not matter ----------

  ghost function SumOf(lines: seq<Line>, value: Line -> real): real {
    if lines == [] then 0.0 else SumOf(lines[..|lines| - 1], value) + value(lines[|lines| - 1])
  }

  lemma {:induction false} SumOfAppend(a: seq<Line>, b: seq<Line>, value: Line -> real)
    ensures SumOf(a + b, value) == SumOf(a, value) + SumOf(b, value)
    decreases |b|
  {
    if b == [] {
      assert a + b == a;
    } else {
      SumOfAppend(a, b[..|b| - 1], value);
      assert (a + b)[..|a + b| - 1] == a + b[..|b| - 1];
    }
  }

  lemma WithoutOne(a: seq<Line>, k: nat)
    requires k < |a|
    ensures multiset(a[..k] + a[k + 1..]) == multiset(a) - multiset{a[k]}
  {
    assert a == a[..k] + [a[k]] + a[k + 1..];
    assert multiset(a) == multiset(a[..k]) + multiset{a[k]} + multiset(a[k + 1..]);
  }

  lemma SumOfRemoved(a: seq<Line>, k: nat, value: Line -> real)
    requires k < |a|
    ensures SumOf(a, value) == SumOf(a[..k] + a[k + 1..], value) + value(a[k])
  {
    assert a == (a[..k] + [a[k]]) + a[k + 1..];
    SumOfAppend(a[..k], a[k + 1..], value);
    SumOfAppend(a[..k] + [a[k]], a[k + 1..], value);
    assert (a[..k] + [a[k]])[..k] == a[..k];
  }

  lemma {:induction false} SumOfPermuted(a: seq<Line>, b: seq<Line>, value: Line -> real)
    requires multiset(a) == multiset(b)
    ensures SumOf(a, value) == SumOf(b, value)
    decreases |a|
  {
    hide *;
    assert |a| == |multiset(a)| == |multiset(b)| == |b|;
    if a == [] {
      assert b == [];
    } else {
      var n := |a| - 1;
      assert a[n] in multiset(a);
      var k :| 0 <= k < |b| && b[k] == a[n];
      WithoutOne(a, n);
      WithoutOne(b, k);
      SumOfPermuted(a[..n] + a[n + 1..], b[..k] + b[k + 1..], value);
      SumOfRemoved(a, n, value);
      SumOfRemoved(b, k, value);
    }
  }

  lemma {:induction false} SumOfSame(lines: seq<Line>, f: Line -> real, g: Line -> real)
    requires forall line :: line in lines ==> f(line) == g(line)
    ensures SumOf(lines, f) == SumOf(lines, g)
  {
    if lines != [] {
      var n := |lines| - 1;
      assert lines[n] in lines;
      SumOfSame(lines[..n], f, g);
    }
  }

  // What a line adds to the weight of t.
  ghost function LineWeight(boms: Boms, rank: map<Product, nat>, line: Line, t: Product): real
    requires Acyclic(boms, rank)
  {
    Times(line.quantity, (if line.product == t then 1.0 else 0.0) + Weight(boms, rank, line.product, t))
  }

  lemma {:induction false} LineSumIs(boms: Boms, rank: map<Product, nat>, p: Product, n: nat, t: Product)
    requires Acyclic(boms, rank) && n <= |LinesOf(boms, p)|
    ensures LineSum(boms, rank, p, n, t) == SumOf(LinesOf(boms, p)[..n], (line: Line) => LineWeight(boms, rank, line, t))
  {
    if n > 0 {
      LineSumIs(boms, rank, p, n - 1, t);
      LineSumGrow(boms, rank, p, n - 1, t);
      assert LinesOf(boms, p)[..n][..n - 1] == LinesOf(boms, p)[..n - 1];
    }
  }

  // The same bills of materials with their lines in another order.
  ghost predicate SameUpToOrder(boms: Boms, boms': Boms) {
    boms.Keys == boms'.Keys && forall p :: p in boms ==> multiset(boms[p]) == multiset(boms'[p])
  }

  lemma SameElement(a: seq<Line>, b: seq<Line>, i: nat) returns (k: nat)
    requires multiset(a) == multiset(b) && i < |b|
    ensures k < |a| && a[k] == b[i]
  {
    assert b[i] in multiset(b);
    assert b[i] in a;
    k :| 0 <= k < |a| && a[k] == b[i];
  }

  lemma ReorderedAcyclic(boms: Boms, boms': Boms, rank: map<Product, nat>)
    requires Acyclic(boms, rank) && SameUpToOrder(boms, boms')
    ensures Acyclic(boms', rank)
  {
    forall p, i | p in boms' && 0 <= i < |boms'[p]| ensures FallsAt(boms', rank, p, i) {
      var k := SameElement(boms[p], boms'[p], i);
      assert FallsAt(boms, rank, p, k);
    }
  }

  lemma {:induction false} WeightReordered(boms: Boms, boms': Boms, rank: map<Product, nat>, p: Product, t: Product)
    requires Acyclic(boms, rank) && Acyclic(boms', rank) && SameUpToOrder(boms, boms')
    ensures Weight(boms, rank, p, t) == Weight(boms', rank, p, t)
    decreases RankOf(rank, p)
  {
    hide *;
    var a, b := LinesOf(boms, p), LinesOf(boms', p);
    SameLines(boms, boms', p);
    forall i | 0 <= i < |a| ensures LineWeight(boms, rank, a[i], t) == LineWeight(boms', rank, a[i], t) {
      RankFalls(boms, rank, p, i);
      WeightReordered(boms, boms', rank, a[i].product, t);
      SameLineWeight(boms, boms', rank, a[i], t);
    }
    LinesReordered(boms, boms', rank, p, t);
  }

  lemma SameLines(boms: Boms, boms': Boms, p: Product)
    requires SameUpToOrder(boms, boms')
    ensures multiset(LinesOf(boms, p)) == multiset(LinesOf(boms', p))
  {
  }

  lemma SameLineWeight(boms: Boms, boms': Boms, rank: map<Product, nat>, line: Line, t: Product)
    requires Acyclic(boms, rank) && Acyclic(boms', rank)
    requires Weight(boms, rank, line.product, t) == Weight(boms', rank, line.product, t)
    ensures LineWeight(boms, rank, line, t) == LineWeight(boms', rank, line, t)
  {
    hide Weight;
  }

  lemma LinesReordered(boms: Boms, boms': Boms, rank: map<Product, nat>, p: Product, t: Product)
    requires Acyclic(boms, rank) && Acyclic(boms', rank)
    requires multiset(LinesOf(boms, p)) == multiset(LinesOf(boms', p))
    requires forall i :: 0 <= i < |LinesOf(boms, p)| ==>
      LineWeight(boms, rank, LinesOf(boms, p)[i], t) == LineWeight(boms', rank, LinesOf(boms, p)[i], t)
    ensures Weight(boms, rank, p, t) == Weight(boms', rank, p, t)
  {
    hide LineWeight, LineSum, Acyclic, SumOf;
    var a, b := LinesOf(boms, p), LinesOf(boms', p);
    var f, g := (line: Line) => LineWeight(boms, rank, line, t), (line: Line) => LineWeight(boms', rank, line, t);
    LineSumIs(boms, rank, p, |a|, t);
    LineSumIs(boms', rank, p, |b|, t);
    assert a[..|a|] == a && b[..|b|] == b;
    SumOfSame(a, f, g);
    SumOfPermuted(a, b, g);
  }

  // Neither the order of the lines ordered nor that of the lines of any bill of materials matters.
  lemma OrderDoesNotMatter(boms: Boms, boms': Boms, rank: map<Product, nat>, top: seq<Line>, top': seq<Line>, t: Product)
    requires Acyclic(boms, rank) && SameUpToOrder(boms, boms') && multiset(top) == multiset(top')
    ensures Acyclic(boms', rank) && OrderSum(boms, rank, top, t) == OrderSum(boms', rank, top', t)
  {
    ReorderedAcyclic(boms, boms', rank);
    var f, g := (line: Line) => TopWeight(boms, rank, line, t), (line: Line) => TopWeight(boms', rank, line, t);
    forall line | line in top ensures f(line) == g(line) {
      WeightReordered(boms, boms', rank, line.product, t);
      HasBomMeans(boms, line.product);
      HasBomMeans(boms', line.product);
      if line.product in boms { assert |multiset(boms[line.product])| == |multiset(boms'[line.product])|; }
    }
    SumOfSame(top, f, g);
    SumOfPermuted(top, top', g);
  }

  // ---------- In terms of paths ----------

  // The amount of t is the quantity ordered times the sum, over all ways down to t, of the
  // quantities on the way; lines of the order that are broken down do not count themselves.
  lemma OrderIsPathSum(boms: Boms, rank: map<Product, nat>, line: Line, t: Product)
    requires Acyclic(boms, rank)
    ensures AllPaths(boms, line.product, Paths(boms, rank, line.product))
    ensures TopWeight(boms, rank, line, t) ==
      if BrokenDown(boms, line.product) then Times(line.quantity, SumTo(boms, line.product, Paths(boms, rank, line.product), t))
      else if line.product == t then line.quantity else 0.0
    ensures forall path :: path in Paths(boms, rank, line.product) <==> IsPath(boms, line.product, path)
    ensures Distinct(Paths(boms, rank, line.product))
  {
    var n := |LinesOf(boms, line.product)|;
    WeightIsPathSum(boms, rank, line.product, n, t);
    PathsAreDistinct(boms, rank, line.product, n);
    forall path ensures path in Paths(boms, rank, line.product) <==> IsPath(boms, line.product, path) {
      PathsAreAll(boms, rank, line.product, n, path);
    }
  }

  // The amounts after the first n lines of p.
  ghost predicate Exploded(boms: Boms, rank: map<Product, nat>, p: Product, q: real, n: nat,
                           start: map<Product, real>, now: map<Product, real>)
    requires Acyclic(boms, rank) && n <= |LinesOf(boms, p)|
  {
    forall t :: ExplodedAt(boms, rank, p, q, n, start, now, t)
  }

  ghost predicate ExplodedAt(boms: Boms, rank: map<Product, nat>, p: Product, q: real, n: nat,
                             start: map<Product, real>, now: map<Product, real>, t: Product)
    requires Acyclic(boms, rank) && n <= |LinesOf(boms, p)|
  {
    && (t in now <==> t in start || BelowVia(boms, p, n, t))
    && Amount(now, t) == Amount(start, t) + q * LineSum(boms, rank, p, n, t)
  }

  lemma Begin(boms: Boms, rank: map<Product, nat>, p: Product, q: real, start: map<Product, real>)
    requires Acyclic(boms, rank)
    ensures Exploded(boms, rank, p, q, 0, start, start)
  {
    forall t ensures ExplodedAt(boms, rank, p, q, 0, start, start, t) {
      BelowAll(boms, p, t);
    }
  }

  lemma NextLine(boms: Boms, rank: map<Product, nat>, p: Product, q: real, i: nat, start: map<Product, real>,
                 before: map<Product, real>, noted: map<Product, real>, after: map<Product, real>)
    requires Acyclic(boms, rank) && i < |LinesOf(boms, p)| && Exploded(boms, rank, p, q, i, start, before)
    requires var line := LinesOf(boms, p)[i];
      && noted.Keys == before.Keys + {line.product}
      && (forall t :: Amount(noted, t) == Amount(before, t) + if t == line.product then q * line.quantity else 0.0)
      && (forall t :: t in after <==> t in noted || IsBelow(boms, line.product, t))
      && (forall t :: Amount(after, t) == Amount(noted, t) + (q * line.quantity) * Weight(boms, rank, line.product, t))
    ensures Exploded(boms, rank, p, q, i + 1, start, after)
  {
    hide LineSum, Weight, BelowVia, IsBelow, Acyclic, Amount;
    var n := i + 1;
    forall t ensures ExplodedAt(boms, rank, p, q, n, start, after, t) {
      assert ExplodedAt(boms, rank, p, q, i, start, before, t);
      OneLine(boms, rank, p, q, i, t, start, before, after);
    }
  }

  lemma Whole(boms: Boms, rank: map<Product, nat>, p: Product, q: real, start: map<Product, real>, now: map<Product, real>)
    requires Acyclic(boms, rank) && Exploded(boms, rank, p, q, |LinesOf(boms, p)|, start, now)
    ensures forall t :: t in now <==> t in start || IsBelow(boms, p, t)
    ensures forall t :: Amount(now, t) == Amount(start, t) + q * Weight(boms, rank, p, t)
  {
    hide LineSum, BelowVia, IsBelow, Acyclic, Amount;
    forall t ensures t in now <==> t in start || IsBelow(boms, p, t)
      ensures Amount(now, t) == Amount(start, t) + q * Weight(boms, rank, p, t)
    {
      assert ExplodedAt(boms, rank, p, q, |LinesOf(boms, p)|, start, now, t);
      BelowAll(boms, p, t);
      WholeSum(boms, rank, p, t);
    }
  }

  lemma OneLine(boms: Boms, rank: map<Product, nat>, p: Product, q: real, i: nat, t: Product,
                start: map<Product, real>, before: map<Product, real>, after: map<Product, real>)
    requires Acyclic(boms, rank) && i < |LinesOf(boms, p)|
    requires t in before <==> t in start || BelowVia(boms, p, i, t)
    requires Amount(before, t) == Amount(start, t) + q * LineSum(boms, rank, p, i, t)
    requires var line := LinesOf(boms, p)[i];
      && (t in after <==> t in before || t == line.product || IsBelow(boms, line.product, t))
      && Amount(after, t) == Amount(before, t) + (if t == line.product then q * line.quantity else 0.0)
        + (q * line.quantity) * Weight(boms, rank, line.product, t)
    ensures t in after <==> t in start || BelowVia(boms, p, i + 1, t)
    ensures Amount(after, t) == Amount(start, t) + q * LineSum(boms, rank, p, i + 1, t)
  {
    hide *;
    var line := LinesOf(boms, p)[i];
    var d := if line.product == t then 1.0 else 0.0;
    BelowGrows(boms, p, i, t);
    LineSumGrow(boms, rank, p, i, t);
    NestedTimes(q, line.quantity, d, Weight(boms, rank, line.product, t));
    Distribute(q, LineSum(boms, rank, p, i, t), Times(line.quantity, d + Weight(boms, rank, line.product, t)));
    assert (q * line.quantity) * d == if t == line.product then q * line.quantity else 0.0;
  }
}
