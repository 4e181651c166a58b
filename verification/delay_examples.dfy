// Expressions whose links lose some of the precedence that is meant, and one whose links do not.
module DelayExamples {
  import opened DelayExpressions
  import opened DelayTrees

  function JobTree(id: nat): Tree {
    Tree(Job(id), [], [])
  }

  // A chain of two.
  function Two(id: nat, a: Tree, b: Tree): Tree {
    Tree(Chain(id, [a.expr, b.expr]), [a, b], [])
  }

  // Only the last job of an inner chain waits for what comes before, if it is not by itself.
  const BEGINS_WITH_CHAIN := Two(2, JobTree(0), Two(1, Two(0, JobTree(1), JobTree(2)), JobTree(3)))

  // What comes after an inner chain waits only for its first job.
  const ENDS_WITH_CHAIN := Two(2, Two(1, JobTree(0), Two(0, JobTree(1), JobTree(2))), JobTree(3))

  // The same for what is passed to on_done of a group with such a chain.
  const ON_DONE := Tree(Group(2, [ENDS_WITH_CHAIN.parts[0].expr]), [ENDS_WITH_CHAIN.parts[0]], [JobTree(3)])

  const EMPTY := Tree(Group(3, []), [], [])

  // An empty group between two jobs, and one at the end of a chain.
  const WITH_EMPTY_GROUP := Tree(Chain(1, [Job(0), EMPTY.expr, Job(1)]), [JobTree(0), EMPTY, JobTree(1)], [])
  const ENDS_WITH_EMPTY_GROUP := Two(1, Two(0, JobTree(0), JobTree(1)), EMPTY)

  // Nothing is passed to on_done of the expressions of the tree.
  ghost predicate NoAfter(t: Tree) {
    forall d :: d in Nodes(t) ==> d.after == []
  }

  ghost function NoAfters(t: Tree): System {
    map e | e in Exprs(t) :: {}
  }

  lemma NoneUnfolds(t: Tree)
    requires Valid(t) && NoAfter(t)
    ensures Unfolds(NoAfters(t), t)
  {
  }

  lemma SingleJob(id: nat)
    ensures Proper(JobTree(id)) && NoAfter(JobTree(id)) && All(JobTree(id)) == {Job(id)}
  {
    forall d | d in Nodes(JobTree(id)) ensures d == JobTree(id) { NodeOf(JobTree(id), d); }
  }

  lemma NoJobs()
    ensures Proper(EMPTY) && NoAfter(EMPTY) && All(EMPTY) == {}
  {
    forall d | d in Nodes(EMPTY) ensures d == EMPTY { NodeOf(EMPTY, d); }
  }

  lemma ChainOfTwo(id: nat, a: Tree, b: Tree)
    requires Proper(a) && Proper(b) && NoAfter(a) && NoAfter(b) && All(a) !! All(b)
    ensures Proper(Two(id, a, b)) && NoAfter(Two(id, a, b)) && All(Two(id, a, b)) == All(a) + All(b)
  {
    var t := Two(id, a, b);
    assert Child(t, 0) == a && Child(t, 1) == b && Count(t) == 2;
    hide Nodes, All, NoAfter, Proper;
    ProperFrom(t);
    forall x ensures x in All(t) <==> x in All(a) || x in All(b) { JobOf(t, x); }
    NoAfterOfTwo(id, a, b);
  }

  lemma NoAfterOfTwo(id: nat, a: Tree, b: Tree)
    requires NoAfter(a) && NoAfter(b)
    ensures NoAfter(Two(id, a, b))
  {
    var t := Two(id, a, b);
    assert Child(t, 0) == a && Child(t, 1) == b && Count(t) == 2;
    hide Nodes;
    forall d | d in Nodes(t) ensures d.after == [] { NodeOf(t, d); }
  }

  lemma ProperFrom(t: Tree)
    requires !t.expr.Job? && |t.parts| == |Parts(t.expr)|
    requires forall i :: 0 <= i < |t.parts| ==> t.parts[i].expr == Parts(t.expr)[i]
    requires forall i :: 0 <= i < Count(t) ==> Proper(Child(t, i))
    requires forall i, k :: 0 <= i < k < Count(t) ==> All(Child(t, i)) !! All(Child(t, k))
    ensures Proper(t)
  {
  }

  lemma SplitByEmpty()
    ensures Proper(WITH_EMPTY_GROUP)
  {
    SingleJob(0);
    SingleJob(1);
    NoJobs();
    var t := WITH_EMPTY_GROUP;
    assert Child(t, 0) == JobTree(0) && Child(t, 1) == EMPTY && Child(t, 2) == JobTree(1) && Count(t) == 3;
    hide Proper, All, NoAfter;
    ProperFrom(t);
  }

  lemma ChainsAreProper()
    ensures Proper(BEGINS_WITH_CHAIN) && Proper(ENDS_WITH_CHAIN)
    ensures Proper(ENDS_WITH_EMPTY_GROUP) && NoAfter(ENDS_WITH_EMPTY_GROUP)
    ensures Proper(ENDS_WITH_CHAIN.parts[0]) && All(ENDS_WITH_CHAIN.parts[0]) == {Job(0), Job(1), Job(2)}
  {
    hide Proper, NoAfter, All;
    SingleJob(0);
    SingleJob(1);
    SingleJob(2);
    SingleJob(3);
    NoJobs();
    ChainOfTwo(0, JobTree(1), JobTree(2));
    ChainOfTwo(1, Two(0, JobTree(1), JobTree(2)), JobTree(3));
    ChainOfTwo(2, JobTree(0), BEGINS_WITH_CHAIN.parts[1]);
    ChainOfTwo(1, JobTree(0), Two(0, JobTree(1), JobTree(2)));
    ChainOfTwo(2, ENDS_WITH_CHAIN.parts[0], JobTree(3));
    ChainOfTwo(0, JobTree(0), JobTree(1));
    ChainOfTwo(1, ENDS_WITH_EMPTY_GROUP.parts[0], EMPTY);
  }

  lemma OnDoneIsProper()
    ensures Proper(ON_DONE)
  {
    hide Proper, All, NoAfter;
    ChainsAreProper();
    SingleJob(3);
    assert Child(ON_DONE, 0) == ENDS_WITH_CHAIN.parts[0] && Child(ON_DONE, 1) == JobTree(3);
    ProperOfTwo(ON_DONE);
  }

  lemma ProperOfTwo(t: Tree)
    requires Count(t) == 2 && |t.parts| == 1 && t.expr.Group? && t.expr.members == [t.parts[0].expr]
    requires Proper(Child(t, 0)) && Proper(Child(t, 1)) && All(Child(t, 0)) !! All(Child(t, 1))
    ensures Proper(t)
  {
    hide Proper, All;
    ProperFrom(t);
  }

  // An inner chain of jobs 1 and 2.
  const INNER := Chain(0, [Job(1), Job(2)])

  lemma InnerJobs()
    ensures Jobs(INNER) == {Job(1), Job(2)} && Job(1) in Starts(INNER) && Job(2) in Ends(INNER)
    ensures Head(INNER) == {Job(1)} && Tail(INNER) == {Job(2)}
  {
    assert INNER.elements[0] == Job(1) && INNER.elements[1] == Job(2);
    assert Job(1) in Starts(Job(1)) && Job(2) in Ends(Job(2));
    ChainStarts(INNER, 0, Job(1));
    ChainEnds(INNER, 1, Job(2));
  }

  lemma BeginsNotJoined()
    ensures !JoinsNext(BEGINS_WITH_CHAIN.expr, 0)
  {
    var e, begins := BEGINS_WITH_CHAIN.expr, Chain(1, [INNER, Job(3)]);
    InnerJobs();
    assert e.elements[1] == begins && begins.elements[0] == INNER;
    assert First(begins.elements, 0) && Job(1) in Starts(begins) && Job(1) !in Head(begins);
    assert Job(1) in Jobs(begins) && Follows(e.elements, 0, 1);
  }

  lemma InnerLast()
    ensures var e := Chain(1, [Job(0), INNER]); Job(2) in Ends(e) && Job(2) !in Tail(e) && Job(2) in Jobs(e)
  {
    var e := Chain(1, [Job(0), INNER]);
    InnerJobs();
    assert e.elements[1] == INNER && Last(e.elements, 1);
  }

  lemma EndsNotJoined()
    ensures !JoinsNext(ENDS_WITH_CHAIN.expr, 0) && !JoinsAfter(ON_DONE.expr, Job(3))
  {
    var e, g, ends := ENDS_WITH_CHAIN.expr, ON_DONE.expr, Chain(1, [Job(0), INNER]);
    InnerLast();
    hide Ends, Tail;
    assert e.elements[0] == ends && Follows(e.elements, 0, 1);
    GroupOfOne(g, ends);
  }

  lemma GroupOfOne(g: Expr, e: Expr)
    requires g.Group? && g.members == [e]
    ensures Ends(g) == Ends(e) && LastTails(g) == Tail(e) && Jobs(g) == Jobs(e)
  {
    assert g.members[0] == e;
  }

  lemma EmptyNotJoined()
    ensures !JoinsNext(WITH_EMPTY_GROUP.expr, 0)
  {
    var e := WITH_EMPTY_GROUP.expr;
    assert e.elements[0] == Job(0) && e.elements[1] == EMPTY.expr && e.elements[2] == Job(1);
    assert Follows(e.elements, 0, 2) && !HasJobs(EMPTY.expr);
  }

  lemma NotComplete(t: Tree)
    requires Proper(t) && !Joined(t)
    ensures !Complete(t)
  {
    NodeOf(t, t);
    if Complete(t) { CompleteIsJoined(t, t); }
  }

  // Without the condition precedence is lost: where a chain begins or ends with a chain, also
  // before what is passed to on_done, and across an empty group.
  lemma PrecedenceCanBeLost()
    ensures Proper(BEGINS_WITH_CHAIN) && !Complete(BEGINS_WITH_CHAIN)
    ensures Proper(ENDS_WITH_CHAIN) && !Complete(ENDS_WITH_CHAIN)
    ensures Proper(ON_DONE) && !Complete(ON_DONE)
    ensures Proper(WITH_EMPTY_GROUP) && !Complete(WITH_EMPTY_GROUP)
  {
    hide Proper, Complete, JoinsNext, JoinsAfter, Nodes;
    ChainsAreProper();
    OnDoneIsProper();
    SplitByEmpty();
    BeginsNotJoined();
    EndsNotJoined();
    EmptyNotJoined();
    NotComplete(BEGINS_WITH_CHAIN);
    NotComplete(ENDS_WITH_CHAIN);
    assert ON_DONE.after[0].expr == Job(3);
    NotComplete(ON_DONE);
    NotComplete(WITH_EMPTY_GROUP);
  }

  lemma JoinedLeaf(t: Tree, d: Tree)
    requires t.parts == [] && t.after == [] && (t.expr.Chain? ==> t.expr.elements == []) && d in Nodes(t)
    ensures Joined(d)
  {
    NodeOf(t, d);
  }

  lemma JoinedOfTwo(id: nat, a: Tree, b: Tree, d: Tree)
    requires Joined(Two(id, a, b)) && (forall c :: c in Nodes(a) || c in Nodes(b) ==> Joined(c)) && d in Nodes(Two(id, a, b))
    ensures Joined(d)
  {
    hide Joined, Nodes;
    var t := Two(id, a, b);
    NodeOf(t, d);
    assert Child(t, 0) == a && Child(t, 1) == b;
  }

  lemma EmptyEndJoins()
    ensures Joined(ENDS_WITH_EMPTY_GROUP) && Joined(Two(0, JobTree(0), JobTree(1)))
  {
    assert !HasJobs(EMPTY.expr);
    assert Chain(0, [Job(0), Job(1)]).elements == [Job(0), Job(1)];
  }

  // An empty group at the end of a chain does no harm.
  lemma EmptyEndIsComplete()
    ensures Proper(ENDS_WITH_EMPTY_GROUP) && Complete(ENDS_WITH_EMPTY_GROUP)
  {
    hide Proper, Complete, Joined, Nodes, NoAfter, Exprs, WellConnected, Unfolds;
    var t, pair := ENDS_WITH_EMPTY_GROUP, Two(0, JobTree(0), JobTree(1));
    ChainsAreProper();
    EmptyEndJoins();
    forall d | d in Nodes(JobTree(0)) ensures Joined(d) { JoinedLeaf(JobTree(0), d); }
    forall d | d in Nodes(JobTree(1)) ensures Joined(d) { JoinedLeaf(JobTree(1), d); }
    forall d | d in Nodes(EMPTY) ensures Joined(d) { JoinedLeaf(EMPTY, d); }
    forall d | d in Nodes(pair) ensures Joined(d) { JoinedOfTwo(0, JobTree(0), JobTree(1), d); }
    forall d | d in Nodes(t) ensures Joined(d) { JoinedOfTwo(1, pair, EMPTY, d); }
    JoinedIsComplete(t);
  }

  lemma JoinedIsComplete(t: Tree)
    requires Proper(t) && NoAfter(t) && forall d :: d in Nodes(t) ==> Joined(d)
    ensures Complete(t)
  {
    NoneUnfolds(t);
    JoinedIsConnected(NoAfters(t), t);
    TreeComplete(NoAfters(t), t);
  }

  // ---------- Repeated jobs ----------

  // The first chain above beside a chain that repeats two of its jobs: all that is meant is kept,
  // although the expressions are not well connected.
  const REPEATED := Tree(
    Group(4, [BEGINS_WITH_CHAIN.expr, Chain(3, [Job(0), Job(1)])]),
    [BEGINS_WITH_CHAIN, Two(3, JobTree(0), JobTree(1))], [])

  lemma RepeatedNodes(d: Tree)
    requires d in Nodes(REPEATED)
    ensures d.after == []
    ensures d.expr.Chain? ==> d.expr in {BEGINS_WITH_CHAIN.expr, Chain(1, [INNER, Job(3)]), INNER, Chain(3, [Job(0), Job(1)])}
  {
    hide Nodes;
    var t := REPEATED;
    NodeOf(t, d);
    assert Child(t, 0) == BEGINS_WITH_CHAIN && Child(t, 1) == Two(3, JobTree(0), JobTree(1)) && Count(t) == 2;
    NodesOfTwo(2, JobTree(0), BEGINS_WITH_CHAIN.parts[1], d);
    NodesOfTwo(1, Two(0, JobTree(1), JobTree(2)), JobTree(3), d);
    NodesOfTwo(0, JobTree(1), JobTree(2), d);
    NodesOfTwo(3, JobTree(0), JobTree(1), d);
    NodeOf(JobTree(0), d);
    NodeOf(JobTree(1), d);
    NodeOf(JobTree(2), d);
    NodeOf(JobTree(3), d);
  }

  lemma NodesOfTwo(id: nat, a: Tree, b: Tree, d: Tree)
    ensures d in Nodes(Two(id, a, b)) <==> d == Two(id, a, b) || d in Nodes(a) || d in Nodes(b)
  {
    hide Nodes;
    var t := Two(id, a, b);
    assert Child(t, 0) == a && Child(t, 1) == b && Count(t) == 2;
    NodeOf(t, d);
  }

  lemma PairChain(id: nat, a: Expr, b: Expr, x: Expr, y: Expr)
    ensures InChain(Chain(id, [a, b]), x, y) <==> x in Jobs(a) && y in Jobs(b)
    ensures x in Jobs(Chain(id, [a, b])) <==> x in Jobs(a) || x in Jobs(b)
    ensures x in Tail(a) && y in Head(b) ==> ChainLink(Chain(id, [a, b]), 0, x, y)
    ensures Head(Chain(id, [a, b])) == Tail(a)
  {
    var e := Chain(id, [a, b]);
    assert e.elements[0] == a && e.elements[1] == b;
    if x in Jobs(a) && y in Jobs(b) { assert InOrder(e.elements, 0, 1, x, y); }
  }

  lemma RepeatedIsValid()
    ensures Valid(REPEATED) && !Apart(REPEATED)
    ensures forall i: nat :: i <= 3 ==> Job(i) in All(REPEATED)
  {
    hide Valid, Apart, All, NoAfter;
    ChainsAreProper();
    SingleJob(0);
    SingleJob(1);
    ChainOfTwo(3, JobTree(0), JobTree(1));
    var t, inner := REPEATED, Chain(1, [INNER, Job(3)]);
    assert Child(t, 0) == BEGINS_WITH_CHAIN && Child(t, 1) == Two(3, JobTree(0), JobTree(1)) && Count(t) == 2;
    ExprJobs(BEGINS_WITH_CHAIN);
    InnerJobs();
    PairChain(2, Job(0), inner, Job(0), Job(0));
    assert Job(0) in All(Child(t, 0)) * All(Child(t, 1)) by { JobIsOwn(Job(0)); }
    GroupOfTwo(t);
    forall i: nat | i <= 3 ensures Job(i) in All(t) {
      PairChain(2, Job(0), inner, Job(i), Job(i));
      PairChain(1, INNER, Job(3), Job(i), Job(i));
      JobOf(t, Job(i));
    }
  }

  lemma GroupOfTwo(t: Tree)
    requires Count(t) == 2 && |t.parts| == 2 && t.expr.Group? && t.expr.members == [t.parts[0].expr, t.parts[1].expr]
    requires Valid(Child(t, 0)) && Valid(Child(t, 1))
    ensures Valid(t) && (All(Child(t, 0)) * All(Child(t, 1)) != {} ==> !Apart(t))
  {
  }

  lemma LinkOfNode(t: Tree, d: Tree, x: Expr, y: Expr)
    requires d in Nodes(t) && ChainLink(d.expr, 0, x, y) && x in All(t) && y in All(t)
    ensures Before(Links(t), x, y)
  {
    assert NodeLink(d, x, y) && IsLink(t, x, y);
    DelayExpressions.OneStep(Links(t), x, y);
  }

  lemma RepeatedInNodes(d: Tree)
    requires d in {BEGINS_WITH_CHAIN, BEGINS_WITH_CHAIN.parts[1], Two(0, JobTree(1), JobTree(2)), Two(3, JobTree(0), JobTree(1))}
    ensures d in Nodes(REPEATED)
  {
    hide Nodes;
    var t := REPEATED;
    assert Child(t, 0) == BEGINS_WITH_CHAIN && Child(t, 1) == Two(3, JobTree(0), JobTree(1)) && Count(t) == 2;
    NodesOfTwo(2, JobTree(0), BEGINS_WITH_CHAIN.parts[1], d);
    NodesOfTwo(1, Two(0, JobTree(1), JobTree(2)), JobTree(3), d);
    NodesOfTwo(0, JobTree(1), JobTree(2), d);
    NodesOfTwo(3, JobTree(0), JobTree(1), d);
    NodeOf(t, d);
  }

  lemma RepeatedLinks()
    ensures Before(Links(REPEATED), Job(0), Job(1)) && Before(Links(REPEATED), Job(0), Job(2))
    ensures Before(Links(REPEATED), Job(1), Job(2)) && Before(Links(REPEATED), Job(2), Job(3))
    ensures Before(Links(REPEATED), Job(0), Job(3)) && Before(Links(REPEATED), Job(1), Job(3))
  {
    var t, c1 := REPEATED, Chain(1, [INNER, Job(3)]);
    RepeatedIsValid();
    InnerJobs();
    PairChain(3, Job(0), Job(1), Job(0), Job(1));
    PairChain(2, Job(0), c1, Job(0), Job(2));
    PairChain(1, INNER, Job(3), Job(2), Job(3));
    PairChain(0, Job(1), Job(2), Job(1), Job(2));
    hide Nodes, All, Valid, Apart, Links, Before, ChainLink;
    RepeatedInNodes(Two(3, JobTree(0), JobTree(1)));
    RepeatedInNodes(BEGINS_WITH_CHAIN);
    RepeatedInNodes(BEGINS_WITH_CHAIN.parts[1]);
    RepeatedInNodes(Two(0, JobTree(1), JobTree(2)));
    LinkOfNode(t, Two(3, JobTree(0), JobTree(1)), Job(0), Job(1));
    LinkOfNode(t, BEGINS_WITH_CHAIN, Job(0), Job(2));
    LinkOfNode(t, BEGINS_WITH_CHAIN.parts[1], Job(2), Job(3));
    LinkOfNode(t, Two(0, JobTree(1), JobTree(2)), Job(1), Job(2));
    BeforeTransitive(Links(t), Job(0), Job(2), Job(3));
    BeforeTransitive(Links(t), Job(1), Job(2), Job(3));
  }

  // With repeated jobs the condition is not necessary: what the links of one part lose, those of
  // another part can keep.
  lemma RepeatedIsComplete()
    ensures Valid(REPEATED) && !Apart(REPEATED) && Complete(REPEATED)
    ensures BEGINS_WITH_CHAIN in Nodes(REPEATED) && !Joined(BEGINS_WITH_CHAIN)
  {
    hide Nodes, All, Valid, Apart, Links, Before, Jobs;
    RepeatedIsValid();
    RepeatedLinks();
    RepeatedInNodes(BEGINS_WITH_CHAIN);
    BeginsNotJoined();
    InnerJobs();
    forall x, y | IsMeant(REPEATED, x, y) ensures Before(Links(REPEATED), x, y) {
      var d :| d in Nodes(REPEATED) && NodeMeant(d, x, y);
      RepeatedNodes(d);
      RepeatedMeant(d.expr, x, y);
    }
  }

  lemma RepeatedMeant(e: Expr, x: Expr, y: Expr)
    requires InChain(e, x, y)
    requires e in {BEGINS_WITH_CHAIN.expr, Chain(1, [INNER, Job(3)]), INNER, Chain(3, [Job(0), Job(1)])}
    ensures (x, y) in {(Job(0), Job(1)), (Job(0), Job(2)), (Job(0), Job(3)), (Job(1), Job(2)), (Job(1), Job(3)), (Job(2), Job(3))}
  {
    var c1 := Chain(1, [INNER, Job(3)]);
    InnerJobs();
    PairChain(3, Job(0), Job(1), x, y);
    PairChain(2, Job(0), c1, x, y);
    PairChain(1, INNER, Job(3), x, y);
    PairChain(1, INNER, Job(3), y, y);
    PairChain(0, Job(1), Job(2), x, y);
    hide InChain;
  }
}
