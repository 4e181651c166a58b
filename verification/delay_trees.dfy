// Expressions without repeated jobs, with what was passed to on_done: exactly when the links keep
// the precedence that is meant.
module DelayTrees {
  import opened DelayExpressions

  // An expression, its parts, and what was passed to its on_done.
  datatype Tree = Tree(expr: Expr, parts: seq<Tree>, after: seq<Tree>)

  function Parts(e: Expr): seq<Expr> {
    match e
    case Job(_) => []
    case Chain(_, elements) => elements
    case Group(_, members) => members
  }

  function Count(t: Tree): nat {
    |t.parts| + |t.after|
  }

  function Child(t: Tree, i: nat): (c: Tree)
    requires i < Count(t)
    ensures c < t
  {
    if i < |t.parts| then t.parts[i] else t.after[i - |t.parts|]
  }

  ghost predicate Valid(t: Tree) {
    && |t.parts| == |Parts(t.expr)| && (forall i :: 0 <= i < |t.parts| ==> t.parts[i].expr == Parts(t.expr)[i])
    && (forall i :: 0 <= i < Count(t) ==> Valid(Child(t, i)))
  }

  ghost function Nodes(t: Tree): set<Tree> {
    {t} + set i, d | 0 <= i < Count(t) && d in Nodes(Child(t, i)) :: d
  }

  // All jobs, also those that come after the expression.
  ghost function All(t: Tree): set<Expr> {
    (if t.expr.Job? then {t.expr} else {}) + set i, x | 0 <= i < Count(t) && x in All(Child(t, i)) :: x
  }

  // No job occurs twice.
  ghost predicate Apart(t: Tree) {
    && (forall i :: 0 <= i < Count(t) ==> Apart(Child(t, i)))
    && (forall i, k :: 0 <= i < k < Count(t) ==> All(Child(t, i)) !! All(Child(t, k)))
    && (t.expr.Job? ==> forall i :: 0 <= i < Count(t) ==> t.expr !in All(Child(t, i)))
  }

  ghost predicate Proper(t: Tree) {
    Valid(t) && Apart(t)
  }

  // ---------- Links and precedence in a tree ----------

  ghost predicate ChainLink(e: Expr, i: int, x: Expr, y: Expr) {
    e.Chain? && 0 <= i < |e.elements| - 1 && x in Tail(e.elements[i]) && y in Head(e.elements[i + 1])
  }

  ghost predicate AfterLink(d: Tree, k: int, x: Expr, y: Expr) {
    0 <= k < |d.after| && x in LastTails(d.expr) && y in Head(d.after[k].expr)
  }

  ghost predicate NodeLink(d: Tree, x: Expr, y: Expr) {
    (exists i :: ChainLink(d.expr, i, x, y)) || (exists k :: AfterLink(d, k, x, y))
  }

  ghost predicate IsLink(t: Tree, x: Expr, y: Expr) {
    exists d :: d in Nodes(t) && NodeLink(d, x, y)
  }

  ghost predicate AfterMeant(d: Tree, k: int, x: Expr, y: Expr) {
    0 <= k < |d.after| && x in Jobs(d.expr) && y in Jobs(d.after[k].expr)
  }

  ghost predicate NodeMeant(d: Tree, x: Expr, y: Expr) {
    InChain(d.expr, x, y) || exists k :: AfterMeant(d, k, x, y)
  }

  ghost predicate IsMeant(t: Tree, x: Expr, y: Expr) {
    exists d :: d in Nodes(t) && NodeMeant(d, x, y)
  }

  ghost function Links(t: Tree): Pairs {
    set x, y | x in All(t) && y in All(t) && IsLink(t, x, y) :: (x, y)
  }

  // Everything that is meant is kept by the links.
  ghost predicate Complete(t: Tree) {
    forall x, y :: IsMeant(t, x, y) ==> Before(Links(t), x, y)
  }

  ghost predicate Joined(d: Tree) {
    && (forall i :: JoinsNext(d.expr, i))
    && (forall k :: 0 <= k < |d.after| ==> JoinsAfter(d.expr, d.after[k].expr))
  }

  // ---------- Children ----------

  lemma NodeOf(t: Tree, d: Tree)
    ensures d in Nodes(t) <==> d == t || exists i :: 0 <= i < Count(t) && d in Nodes(Child(t, i))
  {
  }

  lemma JobOf(t: Tree, x: Expr)
    ensures x in All(t) <==> (t.expr.Job? && x == t.expr) || exists i :: 0 <= i < Count(t) && x in All(Child(t, i))
  {
  }

  lemma PartOf(t: Tree, i: nat)
    requires Valid(t) && i < |t.parts|
    ensures Child(t, i) == t.parts[i] && t.parts[i].expr == Parts(t.expr)[i] && Valid(t.parts[i])
    ensures Jobs(t.parts[i].expr) <= Jobs(t.expr)
  {
    assert Valid(Child(t, i));
    assert Parts(t.expr)[i] in Own(t.expr);
    Within(t.expr, Parts(t.expr)[i]);
  }

  lemma InPart(t: Tree, x: Expr) returns (i: nat)
    requires Valid(t) && x in Jobs(t.expr) && !t.expr.Job?
    ensures i < |t.parts| && x in Jobs(t.parts[i].expr)
  {
    i :| 0 <= i < |Parts(t.expr)| && x in Jobs(Parts(t.expr)[i]);
  }

  lemma {:induction false} ExprJobs(t: Tree)
    requires Valid(t)
    ensures Jobs(t.expr) <= All(t)
  {
    forall x | x in Jobs(t.expr) ensures x in All(t) {
      if !t.expr.Job? {
        var i := InPart(t, x);
        PartOf(t, i);
        ExprJobs(t.parts[i]);
      }
    }
  }

  // A job is in one child only.
  lemma OneChild(t: Tree, i: nat, k: nat, x: Expr)
    requires Apart(t) && i < Count(t) && k < Count(t) && x in All(Child(t, i)) && x in All(Child(t, k))
    ensures i == k && !(t.expr.Job? && x == t.expr)
  {
  }

  lemma ChildProper(t: Tree, i: nat)
    requires Proper(t) && i < Count(t)
    ensures Proper(Child(t, i)) && Jobs(Child(t, i).expr) <= All(Child(t, i))
  {
    ExprJobs(Child(t, i));
  }

  // The jobs of the expression are in the parts, if it is not a job.
  lemma PartOrAfter(t: Tree, i: nat, x: Expr)
    requires Proper(t) && i < Count(t) && x in All(Child(t, i)) && x in Jobs(t.expr)
    ensures !t.expr.Job? && i < |t.parts| && x in Jobs(t.parts[i].expr)
  {
    if !t.expr.Job? {
      var k := InPart(t, x);
      PartOf(t, k);
      ChildProper(t, k);
      OneChild(t, i, k, x);
    }
  }

  // ---------- Links of a node ----------

  lemma TailsAreJobs(e: Expr)
    ensures LastTails(e) <= Jobs(e)
  {
    OfJobs(e);
    if e.Chain? && e.elements != [] {
      OfJobs(e.elements[|e.elements| - 1]);
      assert e.elements[|e.elements| - 1] in Own(e);
      Within(e, e.elements[|e.elements| - 1]);
    }
  }

  lemma ChainLinkParts(t: Tree, i: int, x: Expr, y: Expr)
    requires Valid(t) && ChainLink(t.expr, i, x, y)
    ensures 0 <= i && i + 1 < |t.parts| && Parts(t.expr) == t.expr.elements
    ensures x in Jobs(t.parts[i].expr) && y in Jobs(t.parts[i + 1].expr) && x in Jobs(t.expr) && y in Jobs(t.expr)
  {
    OfJobs(t.expr.elements[i]);
    OfJobs(t.expr.elements[i + 1]);
    PartOf(t, i);
    PartOf(t, i + 1);
  }

  lemma AfterLinkParts(t: Tree, k: int, x: Expr, y: Expr)
    requires Proper(t) && AfterLink(t, k, x, y)
    ensures x in Jobs(t.expr) && 0 <= k && |t.parts| + k < Count(t) && Child(t, |t.parts| + k) == t.after[k]
    ensures y in Jobs(t.after[k].expr) && y in All(Child(t, |t.parts| + k)) && y !in Jobs(t.expr)
  {
    TailsAreJobs(t.expr);
    OfJobs(t.after[k].expr);
    assert Child(t, |t.parts| + k) == t.after[k];
    ChildProper(t, |t.parts| + k);
    if y in Jobs(t.expr) { PartOrAfter(t, |t.parts| + k, y); }
  }

  // A link of the node itself leads from a job of its expression to a later child.
  lemma NodeLinkForward(t: Tree, x: Expr, y: Expr) returns (k: nat)
    requires Proper(t) && NodeLink(t, x, y)
    ensures x in Jobs(t.expr) && k < Count(t) && y in All(Child(t, k)) && y in Jobs(Child(t, k).expr)
    ensures forall i: nat :: i < Count(t) && x in All(Child(t, i)) ==> i < k
  {
    if i :| ChainLink(t.expr, i, x, y) {
      ChainLinkParts(t, i, x, y);
      k := i + 1;
      PartOf(t, i);
      PartOf(t, k);
      ChildProper(t, i);
      ChildProper(t, k);
      forall n: nat | n < Count(t) && x in All(Child(t, n)) ensures n < k {
        OneChild(t, n, i, x);
      }
    } else {
      var j :| AfterLink(t, j, x, y);
      AfterLinkParts(t, j, x, y);
      k := |t.parts| + j;
      forall n: nat | n < Count(t) && x in All(Child(t, n)) ensures n < k {
        PartOrAfter(t, n, x);
      }
    }
  }

  lemma {:induction false} LinkInside(t: Tree, x: Expr, y: Expr)
    requires Proper(t) && IsLink(t, x, y)
    ensures x in All(t) && y in All(t) && (x, y) in Links(t)
  {
    var d :| d in Nodes(t) && NodeLink(d, x, y);
    NodeOf(t, d);
    if d == t {
      var k := NodeLinkForward(t, x, y);
      ExprJobs(t);
      JobOf(t, y);
    } else {
      var i :| 0 <= i < Count(t) && d in Nodes(Child(t, i));
      assert IsLink(Child(t, i), x, y);
      LinkInside(Child(t, i), x, y);
      JobOf(t, x);
      JobOf(t, y);
    }
  }

  lemma LinksAre(t: Tree, x: Expr, y: Expr)
    requires Proper(t)
    ensures (x, y) in Links(t) <==> IsLink(t, x, y)
  {
    if IsLink(t, x, y) { LinkInside(t, x, y); }
  }

  // A link is of the node itself or stays in one child.
  lemma LinkFrom(t: Tree, i: nat, x: Expr, y: Expr)
    requires Proper(t) && i < Count(t) && x in All(Child(t, i)) && IsLink(t, x, y)
    ensures NodeLink(t, x, y) || (IsLink(Child(t, i), x, y) && y in All(Child(t, i)))
  {
    hide Nodes, NodeLink, All, Apart, Valid;
    var d :| d in Nodes(t) && NodeLink(d, x, y);
    NodeOf(t, d);
    if d != t {
      var k :| 0 <= k < Count(t) && d in Nodes(Child(t, k));
      assert IsLink(Child(t, k), x, y);
      ChildProper(t, k);
      LinkInside(Child(t, k), x, y);
      OneChild(t, i, k, x);
    }
  }

  lemma LinkTo(t: Tree, i: nat, x: Expr, y: Expr)
    requires Proper(t) && i < Count(t) && y in All(Child(t, i)) && IsLink(t, x, y)
    ensures NodeLink(t, x, y) || (IsLink(Child(t, i), x, y) && x in All(Child(t, i)))
  {
    hide Nodes, NodeLink, All, Apart, Valid;
    var d :| d in Nodes(t) && NodeLink(d, x, y);
    NodeOf(t, d);
    if d != t {
      var k :| 0 <= k < Count(t) && d in Nodes(Child(t, k));
      assert IsLink(Child(t, k), x, y);
      ChildProper(t, k);
      LinkInside(Child(t, k), x, y);
      OneChild(t, i, k, y);
    }
  }

  // ---------- Paths do not come back ----------

  // A path from child i to child k goes forward, and within one child if i is k.
  lemma {:induction false} PathForward(t: Tree, path: seq<Expr>, i: nat, k: nat)
    requires Proper(t) && IsPath(Links(t), path) && i < Count(t) && k < Count(t)
    requires path[0] in All(Child(t, i)) && path[|path| - 1] in All(Child(t, k))
    ensures i <= k && (i == k ==> IsPath(Links(Child(t, i)), path))
    decreases |path|
  {
    hide All, Nodes, Apart, Valid, NodeLink, IsLink, Links;
    if |path| == 1 {
      OneChild(t, i, k, path[0]);
    } else {
      var x, y, rest := path[0], path[1], path[1..];
      assert (path[0], path[1]) in Links(t);
      LinksAre(t, x, y);
      LinkFrom(t, i, x, y);
      RestIsPath(Links(t), path);
      if NodeLink(t, x, y) {
        var n := NodeLinkForward(t, x, y);
        PathForward(t, rest, n, k);
      } else {
        PathForward(t, rest, i, k);
        ChildProper(t, i);
        LinksAre(Child(t, i), x, y);
        if i == k { PathExtended(Links(Child(t, i)), path); }
      }
    }
  }

  lemma RestIsPath(pairs: Pairs, path: seq<Expr>)
    requires IsPath(pairs, path) && |path| > 1
    ensures IsPath(pairs, path[1..])
  {
    forall n | 0 < n < |path[1..]| ensures (path[1..][n - 1], path[1..][n]) in pairs {
      assert (path[n], path[n + 1]) in pairs;
    }
  }

  lemma PathExtended(pairs: Pairs, path: seq<Expr>)
    requires |path| > 1 && IsPath(pairs, path[1..]) && (path[0], path[1]) in pairs
    ensures IsPath(pairs, path)
  {
    forall n | 0 < n < |path| ensures (path[n - 1], path[n]) in pairs {
      if n > 1 { assert (path[1..][n - 2], path[1..][n - 1]) in pairs; }
    }
  }

  lemma OwnMeantJobs(t: Tree, x: Expr, y: Expr)
    requires Valid(t) && NodeMeant(t, x, y)
    ensures x in All(t) && y in All(t)
  {
    ExprJobs(t);
    if InChain(t.expr, x, y) {
      var i, k :| InOrder(t.expr.elements, i, k, x, y);
      Within(t.expr, t.expr.elements[i]);
      Within(t.expr, t.expr.elements[k]);
    } else {
      var k :| AfterMeant(t, k, x, y);
      assert Child(t, |t.parts| + k) == t.after[k];
      ExprJobs(t.after[k]);
      JobOf(t, y);
    }
  }

  lemma {:induction false} MeantJobs(t: Tree, d: Tree, x: Expr, y: Expr)
    requires Valid(t) && d in Nodes(t) && NodeMeant(d, x, y)
    ensures x in All(t) && y in All(t)
  {
    NodeOf(t, d);
    if d == t {
      OwnMeantJobs(t, x, y);
    } else {
      var i :| 0 <= i < Count(t) && d in Nodes(Child(t, i));
      MeantJobs(Child(t, i), d, x, y);
    }
  }

  // What the links of a whole tree keep inside a child, the links of the child keep.
  lemma ChildComplete(t: Tree, i: nat)
    requires Proper(t) && Complete(t) && i < Count(t)
    ensures Complete(Child(t, i))
  {
    var c := Child(t, i);
    forall x, y | IsMeant(c, x, y) ensures Before(Links(c), x, y) {
      var d :| d in Nodes(c) && NodeMeant(d, x, y);
      NodeOf(t, d);
      assert IsMeant(t, x, y);
      var path :| Joins(Links(t), path, x, y);
      MeantJobs(c, d, x, y);
      PathForward(t, path, i, i);
      assert Joins(Links(c), path, x, y);
    }
  }

  // ---------- What comes after a part does not lead back into an expression ----------

  ghost predicate Sunk(t: Tree, x: Expr) {
    x in All(t) && x !in Jobs(t.expr)
  }

  // A job of a child that is not one of its expression is not one of the expression at all.
  lemma SunkInChild(t: Tree, i: nat, x: Expr)
    requires Proper(t) && i < Count(t) && x in All(Child(t, i)) && (i < |t.parts| ==> x !in Jobs(Child(t, i).expr))
    ensures Sunk(t, x)
  {
    JobOf(t, x);
    if x in Jobs(t.expr) { PartOrAfter(t, i, x); }
  }

  lemma {:induction false} SinkStays(t: Tree, x: Expr, y: Expr)
    requires Proper(t) && Sunk(t, x) && IsLink(t, x, y)
    ensures Sunk(t, y)
  {
    hide Nodes, NodeLink, IsLink, Apart, Valid, Jobs;
    JobOf(t, x);
    assert x != t.expr || !t.expr.Job? by { JobIsOwn(t.expr); }
    var i :| 0 <= i < Count(t) && x in All(Child(t, i));
    LinkFrom(t, i, x, y);
    ChildProper(t, i);
    if NodeLink(t, x, y) {
      var k := NodeLinkForward(t, x, y);
    } else if i < |t.parts| {
      PartOf(t, i);
      SinkStays(Child(t, i), x, y);
      SunkInChild(t, i, y);
    } else {
      SunkInChild(t, i, y);
    }
  }

  lemma JobIsOwn(e: Expr)
    ensures e.Job? ==> e in Jobs(e)
  {
  }

  // From the jobs that end an expression links lead only to what comes after its parts.
  lemma {:induction false} EndsLast(t: Tree, x: Expr, y: Expr)
    requires Proper(t) && x in Ends(t.expr) && IsLink(t, x, y)
    ensures Sunk(t, y)
  {
    LinkInside(t, x, y);
    if t.expr.Job? {
      hide Nodes, IsLink;
      JobEnds(t, x, y);
    } else {
      var i := EndPart(t, x);
      PartOf(t, i);
      ChildProper(t, i);
      OfJobs(t.parts[i].expr);
      LinkFrom(t, i, x, y);
      hide Nodes, IsLink, Apart, Valid, Jobs, All;
      if NodeLink(t, x, y) {
        NodeEnds(t, i, x, y);
      } else {
        EndsLast(Child(t, i), x, y);
        SunkInChild(t, i, y);
      }
    }
  }

  lemma JobEnds(t: Tree, x: Expr, y: Expr)
    requires Proper(t) && t.expr.Job? && x == t.expr && IsLink(t, x, y)
    ensures Sunk(t, y)
  {
    var d :| d in Nodes(t) && NodeLink(d, x, y);
    NodeOf(t, d);
    if d == t {
      var k :| AfterLink(t, k, x, y);
      AfterLinkParts(t, k, x, y);
      JobOf(t, y);
    } else {
      var i :| 0 <= i < Count(t) && d in Nodes(Child(t, i));
      assert IsLink(Child(t, i), x, y);
      LinkInside(Child(t, i), x, y);
      assert false;
    }
  }

  // The part in which a job that ends the expression is.
  lemma EndPart(t: Tree, x: Expr) returns (i: nat)
    requires Valid(t) && x in Ends(t.expr) && !t.expr.Job?
    ensures i < |t.parts| && x in Ends(t.parts[i].expr) && (t.expr.Chain? ==> Last(t.expr.elements, i))
  {
    if t.expr.Chain? {
      i :| 0 <= i < |t.expr.elements| && Last(t.expr.elements, i) && x in Ends(t.expr.elements[i]);
    } else {
      i :| 0 <= i < |t.expr.members| && x in Ends(t.expr.members[i]);
    }
  }

  lemma NodeEnds(t: Tree, i: nat, x: Expr, y: Expr)
    requires Proper(t) && NodeLink(t, x, y) && i < |t.parts| && x in All(Child(t, i))
    requires t.expr.Chain? ==> Last(t.expr.elements, i)
    ensures Sunk(t, y)
  {
    if k :| AfterLink(t, k, x, y) {
      AfterLinkParts(t, k, x, y);
      JobOf(t, y);
    } else {
      var k :| ChainLink(t.expr, k, x, y);
      ChainEnd(t, i, k, x, y);
    }
  }

  lemma ChainEnd(t: Tree, i: nat, k: int, x: Expr, y: Expr)
    requires Proper(t) && i < |t.parts| && x in All(Child(t, i)) && ChainLink(t.expr, k, x, y)
    ensures !Last(t.expr.elements, i)
  {
    hide Apart, Valid, All, Jobs;
    ChainLinkParts(t, k, x, y);
    PartOf(t, k);
    PartOf(t, k + 1);
    SomeJob(t.parts[k + 1].expr, y);
    ChildProper(t, k);
    OneChild(t, i, k, x);
  }

  lemma StartPart(t: Tree, s: Expr) returns (i: nat)
    requires Valid(t) && s in Starts(t.expr) && !t.expr.Job?
    ensures i < |t.parts| && s in Starts(t.parts[i].expr) && (t.expr.Chain? ==> First(t.expr.elements, i))
  {
    if t.expr.Chain? {
      i :| 0 <= i < |t.expr.elements| && First(t.expr.elements, i) && s in Starts(t.expr.elements[i]);
    } else {
      i :| 0 <= i < |t.expr.members| && s in Starts(t.expr.members[i]);
    }
  }

  // No link leads to the jobs that start an expression.
  lemma {:induction false} StartsFirst(t: Tree, x: Expr, s: Expr)
    requires Proper(t) && s in Starts(t.expr)
    ensures !IsLink(t, x, s)
  {
    if IsLink(t, x, s) {
      if t.expr.Job? {
        JobStarts(t, x, s);
      } else {
        var i := StartPart(t, s);
        PartOf(t, i);
        ChildProper(t, i);
        OfJobs(t.parts[i].expr);
        LinkTo(t, i, x, s);
        hide Nodes, IsLink, Apart, Valid, Jobs, All;
        if NodeLink(t, x, s) {
          NodeStarts(t, i, x, s);
        } else {
          StartsFirst(Child(t, i), x, s);
        }
      }
    }
  }

  lemma JobStarts(t: Tree, x: Expr, s: Expr)
    requires Proper(t) && t.expr.Job? && s == t.expr
    ensures !IsLink(t, x, s)
  {
    if d :| d in Nodes(t) && NodeLink(d, x, s) {
      NodeOf(t, d);
      if d == t {
        var k := NodeLinkForward(t, x, s);
        assert false;
      } else {
        var i :| 0 <= i < Count(t) && d in Nodes(Child(t, i));
        assert IsLink(Child(t, i), x, s);
        LinkInside(Child(t, i), x, s);
        assert false;
      }
    }
  }

  lemma NodeStarts(t: Tree, i: nat, x: Expr, s: Expr)
    requires Proper(t) && i < |t.parts| && s in All(Child(t, i)) && s in Jobs(Child(t, i).expr)
    requires t.expr.Chain? ==> First(t.expr.elements, i)
    ensures !NodeLink(t, x, s)
  {
    PartOf(t, i);
    hide Apart, Valid, ChainLink, AfterLink, Jobs, All;
    if k :| AfterLink(t, k, x, s) {
      AfterLinkParts(t, k, x, s);
      assert false;
    }
    if k :| ChainLink(t.expr, k, x, s) {
      ChainStart(t, i, k, x, s);
      assert false;
    }
  }

  lemma ChainStart(t: Tree, i: nat, k: int, x: Expr, s: Expr)
    requires Proper(t) && i < |t.parts| && s in All(Child(t, i)) && ChainLink(t.expr, k, x, s)
    ensures !First(t.expr.elements, i)
  {
    hide Apart, Valid, All, Jobs, ChainLink;
    ChainLinkParts(t, k, x, s);
    PartOf(t, k);
    PartOf(t, k + 1);
    SomeJob(t.parts[k].expr, x);
    ChildProper(t, k + 1);
    OneChild(t, i, k + 1, s);
  }

  lemma {:induction false} SunkPath(t: Tree, i: nat, path: seq<Expr>)
    requires Proper(t) && i < Count(t) && IsPath(Links(t), path) && Sunk(Child(t, i), path[0])
    ensures path[|path| - 1] in All(Child(t, i))
    decreases |path|
  {
    if |path| > 1 {
      hide Nodes, NodeLink, IsLink, Apart, Valid, Jobs, All, Links;
      var x, y := path[0], path[1];
      assert (path[0], path[1]) in Links(t);
      LinksAre(t, x, y);
      SunkParts(Child(t, i), x);
      LinkFrom(t, i, x, y);
      ChildProper(t, i);
      if NodeLink(t, x, y) { NotSunk(t, i, x, y); }
      SinkStays(Child(t, i), x, y);
      RestIsPath(Links(t), path);
      SunkPath(t, i, path[1..]);
    }
  }

  lemma SunkParts(t: Tree, x: Expr)
    requires Sunk(t, x)
    ensures x in All(t) && x !in Jobs(t.expr)
  {
  }

  lemma NotSunk(t: Tree, i: nat, x: Expr, y: Expr)
    requires Proper(t) && i < Count(t) && NodeLink(t, x, y) && x in All(Child(t, i))
    ensures !Sunk(Child(t, i), x)
  {
    var k := NodeLinkForward(t, x, y);
    PartOrAfter(t, i, x);
    PartOf(t, i);
  }

  // ---------- The condition is necessary ----------

  // A path from a job that ends a part to another child begins with a link of the node itself.
  lemma FirstLink(t: Tree, i: nat, k: nat, path: seq<Expr>)
    requires Proper(t) && i < Count(t) && k < Count(t) && i != k && IsPath(Links(t), path)
    requires path[0] in Ends(Child(t, i).expr) && path[|path| - 1] in All(Child(t, k))
    ensures |path| > 1 && NodeLink(t, path[0], path[1])
  {
    hide Nodes, NodeLink, IsLink, Apart, Valid, Jobs, All, Links, Ends;
    ChildProper(t, i);
    OfJobs(Child(t, i).expr);
    if path[0] in All(Child(t, k)) { OneChild(t, i, k, path[0]); }
    assert (path[0], path[1]) in Links(t);
    LinksAre(t, path[0], path[1]);
    LinkFrom(t, i, path[0], path[1]);
    if !NodeLink(t, path[0], path[1]) {
      EndsLast(Child(t, i), path[0], path[1]);
      RestIsPath(Links(t), path);
      SunkPath(t, i, path[1..]);
      OneChild(t, i, k, path[|path| - 1]);
    }
  }

  // A path to a job that starts a child, from elsewhere, ends with a link of the node itself.
  lemma LastLink(t: Tree, k: nat, path: seq<Expr>)
    requires Proper(t) && k < Count(t) && IsPath(Links(t), path) && |path| > 1
    requires path[|path| - 1] in Starts(Child(t, k).expr)
    ensures NodeLink(t, path[|path| - 2], path[|path| - 1])
  {
    hide Nodes, NodeLink, IsLink, Apart, Valid, Jobs, All, Links, Starts;
    var x, s := path[|path| - 2], path[|path| - 1];
    ChildProper(t, k);
    OfJobs(Child(t, k).expr);
    assert (x, s) in Links(t);
    LinksAre(t, x, s);
    LinkTo(t, k, x, s);
    StartsFirst(Child(t, k), x, s);
  }

  lemma MeantPath(t: Tree, x: Expr, y: Expr) returns (path: seq<Expr>)
    requires Complete(t) && NodeMeant(t, x, y)
    ensures Joins(Links(t), path, x, y)
  {
    NodeOf(t, t);
    assert IsMeant(t, x, y);
    path :| Joins(Links(t), path, x, y);
  }

  // From a job of an element a link of the node leads to the next element, or out of the chain.
  lemma ElementLink(t: Tree, i: nat, k: nat, path: seq<Expr>)
    requires Proper(t) && t.expr.Chain? && i < |t.parts| && k < |t.parts| && IsPath(Links(t), path) && |path| > 1
    requires NodeLink(t, path[0], path[1]) && path[0] in All(Child(t, i)) && path[|path| - 1] in All(Child(t, k))
    ensures ChainLink(t.expr, i, path[0], path[1])
  {
    hide Nodes, IsLink, Apart, Valid, Jobs, All, Links, ChainLink, AfterLink;
    if n :| ChainLink(t.expr, n, path[0], path[1]) {
      ChainLinkParts(t, n, path[0], path[1]);
      PartOf(t, n);
      ChildProper(t, n);
      OneChild(t, i, n, path[0]);
    } else {
      var n :| AfterLink(t, n, path[0], path[1]);
      AfterLinkParts(t, n, path[0], path[1]);
      RestIsPath(Links(t), path);
      PathForward(t, path[1..], |t.parts| + n, k);
    }
  }

  lemma EndsNeeded(t: Tree, i: nat, k: nat, x: Expr)
    requires Proper(t) && Complete(t) && t.expr.Chain? && Follows(t.expr.elements, i, k) && x in Ends(t.expr.elements[i])
    ensures x in Tail(t.expr.elements[i]) && HasJobs(t.expr.elements[i + 1])
  {
    var e := t.expr;
    var y :| y in Jobs(e.elements[k]);
    OfJobs(e.elements[i]);
    assert InOrder(e.elements, i, k, x, y);
    assert InChain(e, x, y);
    var path := MeantPath(t, x, y);
    PartOf(t, i);
    PartOf(t, k);
    ChildProper(t, i);
    ChildProper(t, k);
    hide Nodes, IsLink, Apart, Valid, All, Links, Complete, Ends, NodeLink;
    FirstLink(t, i, k, path);
    ElementLink(t, i, k, path);
    OfJobs(e.elements[i + 1]);
  }

  lemma StartsNeeded(t: Tree, i: nat, s: Expr)
    requires Proper(t) && Complete(t) && t.expr.Chain? && Follows(t.expr.elements, i, i + 1)
    requires s in Starts(t.expr.elements[i + 1])
    ensures s in Head(t.expr.elements[i + 1])
  {
    var e := t.expr;
    var x :| x in Jobs(e.elements[i]);
    OfJobs(e.elements[i + 1]);
    assert InOrder(e.elements, i, i + 1, x, s);
    assert InChain(e, x, s);
    var path := MeantPath(t, x, s);
    PartOf(t, i + 1);
    ChildProper(t, i + 1);
    hide Nodes, IsLink, Apart, Valid, All, Links, Complete, Starts, Jobs, NodeLink;
    LastLink(t, i + 1, path);
    IntoElement(t, i + 1, path[|path| - 2], s);
  }

  // A link of the node to a job of an element comes from the element before.
  lemma IntoElement(t: Tree, k: nat, x: Expr, y: Expr)
    requires Proper(t) && k < |t.parts| && NodeLink(t, x, y) && y in All(Child(t, k)) && y in Jobs(t.parts[k].expr)
    ensures ChainLink(t.expr, k - 1, x, y)
  {
    PartOf(t, k);
    hide Apart, Valid, All, Jobs, ChainLink, AfterLink;
    if n :| AfterLink(t, n, x, y) {
      AfterLinkParts(t, n, x, y);
    } else {
      var n :| ChainLink(t.expr, n, x, y);
      IntoElementAt(t, k, n, x, y);
    }
  }

  lemma IntoElementAt(t: Tree, k: nat, n: int, x: Expr, y: Expr)
    requires Proper(t) && k < |t.parts| && ChainLink(t.expr, n, x, y) && y in All(Child(t, k))
    ensures n == k - 1
  {
    hide Apart, Valid, All, Jobs, ChainLink;
    ChainLinkParts(t, n, x, y);
    PartOf(t, n + 1);
    ChildProper(t, n + 1);
    OneChild(t, k, n + 1, y);
  }

  lemma IntoAfter(t: Tree, k: nat, x: Expr, y: Expr)
    requires Proper(t) && k < |t.after| && NodeLink(t, x, y) && y in All(Child(t, |t.parts| + k))
    ensures AfterLink(t, k, x, y)
  {
    hide Apart, Valid, All, Jobs, ChainLink, AfterLink;
    if n :| ChainLink(t.expr, n, x, y) {
      ChainLinkParts(t, n, x, y);
      PartOrAfter(t, |t.parts| + k, y);
    } else {
      var n :| AfterLink(t, n, x, y);
      AfterLinkParts(t, n, x, y);
      OneChild(t, |t.parts| + k, |t.parts| + n, y);
    }
  }

  lemma NextNeeded(t: Tree, i: int)
    requires Proper(t) && Complete(t)
    ensures JoinsNext(t.expr, i)
  {
    hide Proper, Complete, Head, Tail, Starts, Ends, HasJobs;
    if t.expr.Chain? {
      var elements := t.expr.elements;
      if k :| Follows(elements, i, k) {
        var x := EndIsJob(elements[i]);
        EndsNeeded(t, i, k, x);
        forall x | x in Ends(elements[i]) ensures x in Tail(elements[i]) { EndsNeeded(t, i, k, x); }
        var next := elements[i + 1];
        forall s | s in Starts(next) ensures s in Head(next) { StartsNeeded(t, i, s); }
      }
    }
  }

  lemma LastTailsNeeded(t: Tree, k: nat, x: Expr)
    requires Proper(t) && Complete(t) && k < |t.after| && HasJobs(t.after[k].expr) && x in Ends(t.expr)
    ensures x in LastTails(t.expr)
  {
    if t.expr.Job? {
      assert LastTails(t.expr) == {t.expr};
    } else {
      hide *;
      var path := PathToAfter(t, k, x);
      EndLinksAfter(t, k, x, path);
    }
  }

  lemma PathToAfter(t: Tree, k: nat, x: Expr) returns (path: seq<Expr>)
    requires Proper(t) && Complete(t) && k < |t.after| && HasJobs(t.after[k].expr) && x in Ends(t.expr)
    ensures |path| > 0 && Joins(Links(t), path, x, path[|path| - 1]) && path[|path| - 1] in Jobs(t.after[k].expr)
  {
    var y :| y in Jobs(t.after[k].expr);
    OfJobs(t.expr);
    assert AfterMeant(t, k, x, y);
    hide Links, Jobs, Ends, Complete, Nodes, Proper;
    path := MeantPath(t, x, y);
  }

  lemma AfterChild(t: Tree, k: nat)
    requires Proper(t) && k < |t.after|
    ensures |t.parts| + k < Count(t) && Child(t, |t.parts| + k) == t.after[k]
    ensures Jobs(t.after[k].expr) <= All(Child(t, |t.parts| + k))
  {
    assert Child(t, |t.parts| + k) == t.after[k];
    ChildProper(t, |t.parts| + k);
  }

  // A path from a job that ends the expression to what comes after it begins at a last tail.
  lemma EndLinksAfter(t: Tree, k: nat, x: Expr, path: seq<Expr>)
    requires Proper(t) && !t.expr.Job? && k < |t.after| && x in Ends(t.expr)
    requires |path| > 0 && Joins(Links(t), path, x, path[|path| - 1]) && path[|path| - 1] in Jobs(t.after[k].expr)
    ensures x in LastTails(t.expr)
  {
    var i := EndPart(t, x);
    PartOf(t, i);
    AfterChild(t, k);
    hide Nodes, IsLink, Apart, Valid, All, Links, Ends, Jobs;
    FirstLink(t, i, |t.parts| + k, path);
    EndLinks(t, i, x, path[1]);
  }

  lemma EndLinks(t: Tree, i: nat, x: Expr, y: Expr)
    requires Proper(t) && i < |t.parts| && x in Ends(t.parts[i].expr) && NodeLink(t, x, y)
    requires t.expr.Chain? ==> Last(t.expr.elements, i)
    ensures x in LastTails(t.expr)
  {
    PartOf(t, i);
    ChildProper(t, i);
    OfJobs(t.parts[i].expr);
    hide Apart, Valid, All, Jobs, Ends, ChainLink;
    if n :| ChainLink(t.expr, n, x, y) {
      ChainLinkParts(t, n, x, y);
      NodeEnds(t, i, x, y);
    }
  }

  lemma AfterStartsNeeded(t: Tree, k: nat, s: Expr)
    requires Proper(t) && Complete(t) && k < |t.after| && HasJobs(t.expr) && s in Starts(t.after[k].expr)
    ensures s in Head(t.after[k].expr)
  {
    var x :| x in Jobs(t.expr);
    OfJobs(t.after[k].expr);
    assert AfterMeant(t, k, x, s);
    var path := MeantPath(t, x, s);
    assert Child(t, |t.parts| + k) == t.after[k];
    ChildProper(t, |t.parts| + k);
    hide Nodes, IsLink, Apart, Valid, All, Links, Complete, Starts, Jobs, NodeLink;
    LastLink(t, |t.parts| + k, path);
    IntoAfter(t, k, path[|path| - 2], s);
  }

  lemma AfterNeeded(t: Tree, k: nat)
    requires Proper(t) && Complete(t) && k < |t.after|
    ensures JoinsAfter(t.expr, t.after[k].expr)
  {
    hide Proper, Complete, Head, LastTails, Starts, Ends, HasJobs;
    var e, d := t.expr, t.after[k].expr;
    if HasJobs(e) && HasJobs(d) {
      forall x | x in Ends(e) ensures x in LastTails(e) { LastTailsNeeded(t, k, x); }
      forall s | s in Starts(d) ensures s in Head(d) { AfterStartsNeeded(t, k, s); }
    }
  }

  lemma {:induction false} CompleteIsJoined(t: Tree, d: Tree)
    requires Proper(t) && Complete(t) && d in Nodes(t)
    ensures Joined(d)
  {
    hide Proper, Complete, JoinsNext, JoinsAfter, Nodes;
    NodeOf(t, d);
    if d == t {
      forall i ensures JoinsNext(t.expr, i) { NextNeeded(t, i); }
      forall k | 0 <= k < |t.after| ensures JoinsAfter(t.expr, t.after[k].expr) { AfterNeeded(t, k); }
    } else {
      var i :| 0 <= i < Count(t) && d in Nodes(Child(t, i));
      ChildProper(t, i);
      ChildComplete(t, i);
      CompleteIsJoined(Child(t, i), d);
    }
  }

  // ---------- The expressions of a tree ----------

  ghost predicate IsAfter(d: Tree, e: Expr) {
    exists k :: 0 <= k < |d.after| && d.after[k].expr == e
  }

  // The system as it is unfolded by the tree: what was passed to on_done of the expressions.
  ghost predicate Unfolds(sys: System, t: Tree) {
    Valid(t) && forall d :: d in Nodes(t) ==> d.expr in sys && forall e :: e in sys[d.expr] <==> IsAfter(d, e)
  }

  ghost function Exprs(t: Tree): set<Expr> {
    set d | d in Nodes(t) :: d.expr
  }

  lemma {:induction false} NodeValid(t: Tree, d: Tree)
    requires Valid(t) && d in Nodes(t)
    ensures Valid(d) && forall i: nat :: i < Count(d) ==> Child(d, i) in Nodes(t)
  {
    NodeOf(t, d);
    if d == t {
      forall i: nat | i < Count(d) ensures Child(d, i) in Nodes(t) {
        NodeOf(Child(d, i), Child(d, i));
        NodeOf(t, Child(d, i));
      }
    } else {
      var i :| 0 <= i < Count(t) && d in Nodes(Child(t, i));
      NodeValid(Child(t, i), d);
      forall k: nat | k < Count(d) ensures Child(d, k) in Nodes(t) { NodeOf(t, Child(d, k)); }
    }
  }

  // The expressions reached from that of the tree are those of its nodes.
  lemma TreeIsReached(sys: System, t: Tree)
    requires Unfolds(sys, t)
    ensures t.expr in Exprs(t) && Explored(sys, Exprs(t))
    ensures forall seen: set<Expr> :: t.expr in seen && Explored(sys, seen) ==> Exprs(t) <= seen
  {
    NodeOf(t, t);
    forall d | d in Nodes(t) ensures Own(d.expr) <= Exprs(t) && sys[d.expr] <= Exprs(t) {
      NodeValid(t, d);
      OwnAreChildren(t, d);
      forall e | e in sys[d.expr] ensures e in Exprs(t) {
        var k :| 0 <= k < |d.after| && d.after[k].expr == e;
        assert Child(d, |d.parts| + k) == d.after[k];
      }
    }
    forall seen: set<Expr> | t.expr in seen && Explored(sys, seen) ensures Exprs(t) <= seen {
      ReachedIsSeen(sys, t, seen);
    }
  }

  lemma OwnAreChildren(t: Tree, d: Tree)
    requires Valid(d) && d in Nodes(t) && forall i: nat :: i < Count(d) ==> Child(d, i) in Nodes(t)
    ensures Own(d.expr) <= Exprs(t)
  {
    if !d.expr.Job? {
      forall v | v in Own(d.expr) ensures v in Exprs(t) {
        var i :| 0 <= i < |Parts(d.expr)| && Parts(d.expr)[i] == v;
        PartOf(d, i);
      }
    }
  }

  lemma {:induction false} ReachedIsSeen(sys: System, t: Tree, seen: set<Expr>)
    requires Unfolds(sys, t) && t.expr in seen && Explored(sys, seen)
    ensures Exprs(t) <= seen
  {
    NodeOf(t, t);
    forall d | d in Nodes(t) && d != t ensures d.expr in seen {
      NodeOf(t, d);
      var i :| 0 <= i < Count(t) && d in Nodes(Child(t, i));
      ChildUnfolds(sys, t, i);
      ChildSeen(sys, t, seen, i);
      hide Unfolds, Nodes, Explored;
      ReachedIsSeen(sys, Child(t, i), seen);
    }
  }

  lemma ChildSeen(sys: System, t: Tree, seen: set<Expr>, i: nat)
    requires Unfolds(sys, t) && t.expr in seen && Explored(sys, seen) && i < Count(t)
    ensures Child(t, i).expr in seen
  {
    NodeOf(t, t);
    if i < |t.parts| {
      PartOf(t, i);
      assert Child(t, i).expr in Own(t.expr);
    } else {
      assert IsAfter(t, Child(t, i).expr);
    }
  }

  lemma ChildUnfolds(sys: System, t: Tree, i: nat)
    requires Unfolds(sys, t) && i < Count(t)
    ensures Unfolds(sys, Child(t, i))
  {
    forall d | d in Nodes(Child(t, i)) ensures d in Nodes(t) { NodeOf(t, d); }
  }

  // The links and the precedence of the tree are those of the system.
  lemma NodeLinkIs(sys: System, t: Tree, d: Tree, x: Expr, y: Expr)
    requires Unfolds(sys, t) && d in Nodes(t)
    ensures NodeLink(d, x, y) <==> exists v, n :: LinkOf(sys, d.expr, v, n, x, y)
  {
    var e := d.expr;
    if i :| ChainLink(e, i, x, y) {
      assert Consecutive(e.elements, i, e.elements[i], e.elements[i + 1]);
      assert LinkOf(sys, e, e.elements[i], e.elements[i + 1], x, y);
    }
    if k :| AfterLink(d, k, x, y) {
      assert IsAfter(d, d.after[k].expr);
      var v := DelayExpressions.AfterLink(sys, e, d.after[k].expr, x, y);
    }
    if v, n :| LinkOf(sys, e, v, n, x, y) {
      if e.Chain? && exists i :: Consecutive(e.elements, i, v, n) {
        var i :| Consecutive(e.elements, i, v, n);
        assert ChainLink(e, i, x, y);
      } else {
        var k :| 0 <= k < |d.after| && d.after[k].expr == n;
        assert x in LastTails(e);
        assert AfterLink(d, k, x, y);
      }
    }
  }

  lemma NodeMeantIs(sys: System, t: Tree, d: Tree, x: Expr, y: Expr)
    requires Unfolds(sys, t) && d in Nodes(t)
    ensures NodeMeant(d, x, y) <==> MeantBy(sys, d.expr, x, y)
  {
    if k :| AfterMeant(d, k, x, y) {
      assert IsAfter(d, d.after[k].expr);
    }
    if x in Jobs(d.expr) && AfterAll(sys[d.expr], y) {
      var n :| n in sys[d.expr] && y in Jobs(n);
      var k :| 0 <= k < |d.after| && d.after[k].expr == n;
      assert AfterMeant(d, k, x, y);
    }
  }

  lemma TreeIsSystem(sys: System, t: Tree, x: Expr, y: Expr)
    requires Unfolds(sys, t)
    ensures IsLink(t, x, y) <==> Linked(sys, Exprs(t), x, y)
    ensures IsMeant(t, x, y) <==> Meant(sys, Exprs(t), x, y)
  {
    hide NodeLink, NodeMeant, MeantBy, LinkOf, Unfolds;
    forall d | d in Nodes(t)
      ensures NodeLink(d, x, y) <==> exists v, n :: LinkOf(sys, d.expr, v, n, x, y)
      ensures NodeMeant(d, x, y) <==> MeantBy(sys, d.expr, x, y)
    {
      NodeLinkIs(sys, t, d, x, y);
      NodeMeantIs(sys, t, d, x, y);
    }
    if Linked(sys, Exprs(t), x, y) {
      var e, v, n :| e in Exprs(t) && LinkOf(sys, e, v, n, x, y);
      var d :| d in Nodes(t) && d.expr == e;
      assert NodeLink(d, x, y);
    }
    if d :| d in Nodes(t) && NodeLink(d, x, y) {
      var v, n :| LinkOf(sys, d.expr, v, n, x, y);
      assert d.expr in Exprs(t);
    }
  }

  lemma JoinedIsConnected(sys: System, t: Tree)
    requires Unfolds(sys, t) && forall d :: d in Nodes(t) ==> Joined(d)
    ensures WellConnected(sys, Exprs(t))
  {
    forall e, d | e in Exprs(t) && e in sys && d in sys[e] ensures JoinsAfter(e, d) {
      var node :| node in Nodes(t) && node.expr == e;
      assert IsAfter(node, d);
    }
  }

  lemma TreeComplete(sys: System, t: Tree)
    requires Unfolds(sys, t) && Apart(t)
    ensures Complete(t) <==> WellConnected(sys, Exprs(t))
  {
    hide Nodes, All, Apart, Valid, Before, Joined, Exprs, WellConnected, Linked, Meant;
    TreeIsReached(sys, t);
    if WellConnected(sys, Exprs(t)) {
      forall x, y | Linked(sys, Exprs(t), x, y) ensures (x, y) in Links(t) {
        TreeIsSystem(sys, t, x, y);
        LinksAre(t, x, y);
      }
      forall x, y | IsMeant(t, x, y) ensures Before(Links(t), x, y) {
        TreeIsSystem(sys, t, x, y);
        MeantIsKept(sys, Exprs(t), Links(t), x, y);
      }
    }
    if Complete(t) {
      forall d | d in Nodes(t) ensures Joined(d) { CompleteIsJoined(t, d); }
      JoinedIsConnected(sys, t);
    }
  }

  // For expressions without repeated jobs, with any use of on_done and with empty groups, the
  // links keep all that is meant exactly if expressions are well connected.
  lemma TreeExact(sys: System, t: Tree, links: Pairs)
    requires Unfolds(sys, t) && Apart(t)
    requires forall x, y :: (x, y) in links <==> Linked(sys, Exprs(t), x, y)
    ensures WellConnected(sys, Exprs(t)) <==> forall x, y :: Meant(sys, Exprs(t), x, y) ==> Before(links, x, y)
  {
    hide Nodes, All, Apart, Valid, Before, Exprs, WellConnected, Linked, Meant;
    forall p: (Expr, Expr) ensures p in links <==> p in Links(t) {
      TreeIsSystem(sys, t, p.0, p.1);
      LinksAre(t, p.0, p.1);
    }
    assert links == Links(t);
    forall x, y ensures IsMeant(t, x, y) <==> Meant(sys, Exprs(t), x, y) {
      TreeIsSystem(sys, t, x, y);
    }
    TreeComplete(sys, t);
  }
}
