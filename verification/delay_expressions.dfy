// Expressions of delayed jobs, the precedence they stand for, and the links between jobs that
// are made from them.
module DelayExpressions {

  // A job, a chain or a group. The id tells apart objects that look the same.
  datatype Expr =
    | Job(id: nat)
    | Chain(id: nat, elements: seq<Expr>)
    | Group(id: nat, members: seq<Expr>)

  // The vertices that the graph of an expression has from the start.
  function Own(e: Expr): set<Expr> {
    match e
    case Job(_) => {e}
    case Chain(_, elements) => set x | x in elements
    case Group(_, members) => set x | x in members
  }

  // The jobs to connect with what comes before the expression, and with what comes after it. A
  // chain asks its first element for the tail, and its last one for the head.
  function Head(e: Expr): set<Expr>
    decreases e
  {
    match e
    case Job(_) => {e}
    case Chain(_, elements) => if elements == [] then {} else Tail(elements[0])
    case Group(_, members) => set i, j | 0 <= i < |members| && j in Head(members[i]) :: j
  }

  function Tail(e: Expr): set<Expr>
    decreases e
  {
    match e
    case Job(_) => {e}
    case Chain(_, elements) => if elements == [] then {} else Head(elements[|elements| - 1])
    case Group(_, members) => set i, j | 0 <= i < |members| && j in Tail(members[i]) :: j
  }

  ghost function Jobs(e: Expr): set<Expr> {
    match e
    case Job(_) => {e}
    case Chain(_, elements) => set i, j | 0 <= i < |elements| && j in Jobs(elements[i]) :: j
    case Group(_, members) => set i, j | 0 <= i < |members| && j in Jobs(members[i]) :: j
  }

  // Chains and groups can be without jobs, if they are built of empty groups.
  ghost predicate HasJobs(e: Expr) {
    Jobs(e) != {}
  }

  ghost predicate First(elements: seq<Expr>, i: int) {
    0 <= i < |elements| && HasJobs(elements[i]) && forall k :: 0 <= k < i ==> !HasJobs(elements[k])
  }

  ghost predicate Last(elements: seq<Expr>, i: int) {
    0 <= i < |elements| && HasJobs(elements[i]) && forall k :: i < k < |elements| ==> !HasJobs(elements[k])
  }

  // The jobs that can start first, and those that can end last.
  ghost function Starts(e: Expr): set<Expr> {
    match e
    case Job(_) => {e}
    case Chain(_, elements) => set i, j | 0 <= i < |elements| && First(elements, i) && j in Starts(elements[i]) :: j
    case Group(_, members) => set i, j | 0 <= i < |members| && j in Starts(members[i]) :: j
  }

  ghost function Ends(e: Expr): set<Expr> {
    match e
    case Job(_) => {e}
    case Chain(_, elements) => set i, j | 0 <= i < |elements| && Last(elements, i) && j in Ends(elements[i]) :: j
    case Group(_, members) => set i, j | 0 <= i < |members| && j in Ends(members[i]) :: j
  }

  lemma {:induction false} OfJobs(e: Expr)
    ensures Head(e) <= Jobs(e) && Tail(e) <= Jobs(e) && Starts(e) <= Jobs(e) && Ends(e) <= Jobs(e)
    ensures forall j :: j in Jobs(e) ==> j.Job?
  {
    match e
    case Job(_) =>
    case Chain(_, elements) =>
      forall i | 0 <= i < |elements|
        ensures Head(elements[i]) <= Jobs(elements[i]) && Tail(elements[i]) <= Jobs(elements[i])
        ensures Starts(elements[i]) <= Jobs(elements[i]) && Ends(elements[i]) <= Jobs(elements[i])
        ensures forall j :: j in Jobs(elements[i]) ==> j.Job?
      {
        OfJobs(elements[i]);
      }
    case Group(_, members) =>
      forall i | 0 <= i < |members|
        ensures Head(members[i]) <= Jobs(members[i]) && Tail(members[i]) <= Jobs(members[i])
        ensures Starts(members[i]) <= Jobs(members[i]) && Ends(members[i]) <= Jobs(members[i])
        ensures forall j :: j in Jobs(members[i]) ==> j.Job?
      {
        OfJobs(members[i]);
      }
  }

  // ---------- Expressions with what is to be done after them ----------

  // The expressions passed to on_done, for each expression.
  type System = map<Expr, set<Expr>>

  predicate Consecutive(elements: seq<Expr>, i: int, v: Expr, n: Expr) {
    0 <= i < |elements| - 1 && v == elements[i] && n == elements[i + 1]
  }

  // The edges of the graph of one expression.
  ghost predicate LocalEdge(e: Expr, after: set<Expr>, v: Expr, n: Expr) {
    match e
    case Job(_) => v == e && n in after
    case Chain(_, elements) =>
      (exists i :: Consecutive(elements, i, v, n)) || (elements != [] && v == elements[|elements| - 1] && n in after)
    case Group(_, members) => v in members && n in after
  }

  // All expressions exist with their parts and with what comes after them; no chain is empty.
  ghost predicate Universe(sys: System) {
    forall e :: e in sys ==> Own(e) <= sys.Keys && sys[e] <= sys.Keys && (e.Chain? ==> e.elements != [])
  }

  ghost predicate Explored(sys: System, seen: set<Expr>) {
    seen <= sys.Keys && forall e :: e in seen ==> Own(e) <= seen && sys[e] <= seen
  }

  // The links between jobs: from the tails to the heads of connected expressions.
  ghost predicate LinkOf(sys: System, e: Expr, v: Expr, n: Expr, x: Expr, y: Expr) {
    e in sys && LocalEdge(e, sys[e], v, n) && x in Tail(v) && y in Head(n)
  }

  ghost predicate Linked(sys: System, seen: set<Expr>, x: Expr, y: Expr) {
    exists e, v, n :: e in seen && LinkOf(sys, e, v, n, x, y)
  }

  // ---------- The precedence that is meant ----------

  ghost predicate InOrder(elements: seq<Expr>, i: int, k: int, x: Expr, y: Expr) {
    0 <= i < k < |elements| && x in Jobs(elements[i]) && y in Jobs(elements[k])
  }

  // The elements of a chain come one after the other.
  ghost predicate InChain(e: Expr, x: Expr, y: Expr) {
    e.Chain? && exists i, k :: InOrder(e.elements, i, k, x, y)
  }

  ghost predicate AfterAll(after: set<Expr>, y: Expr) {
    exists d :: d in after && y in Jobs(d)
  }

  // What is passed to on_done comes after all jobs of the expression.
  ghost predicate MeantBy(sys: System, e: Expr, x: Expr, y: Expr) {
    e in sys && (InChain(e, x, y) || (x in Jobs(e) && AfterAll(sys[e], y)))
  }

  ghost predicate Meant(sys: System, seen: set<Expr>, x: Expr, y: Expr) {
    exists e :: e in seen && MeantBy(sys, e, x, y)
  }

  // ---------- Nothing is linked that is not meant ----------

  lemma Within(e: Expr, v: Expr)
    requires v in Own(e)
    ensures Jobs(v) <= Jobs(e)
  {
    if e.Chain? {
      var i :| 0 <= i < |e.elements| && e.elements[i] == v;
    } else if e.Group? {
      var i :| 0 <= i < |e.members| && e.members[i] == v;
    }
  }

  // Every link is between jobs of which the first is meant to come before the second.
  lemma LinkIsMeant(sys: System, seen: set<Expr>, x: Expr, y: Expr)
    requires Linked(sys, seen, x, y)
    ensures Meant(sys, seen, x, y)
  {
    var e, v, n :| e in seen && LinkOf(sys, e, v, n, x, y);
    OfJobs(v);
    OfJobs(n);
    if e.Chain? && exists i :: Consecutive(e.elements, i, v, n) {
      var i :| Consecutive(e.elements, i, v, n);
      assert InOrder(e.elements, i, i + 1, x, y);
    } else {
      Within(e, v);
      assert AfterAll(sys[e], y);
    }
    assert MeantBy(sys, e, x, y);
  }

  // ---------- Precedence through several links ----------

  type Pairs = set<(Expr, Expr)>

  ghost predicate IsPath(pairs: Pairs, path: seq<Expr>) {
    |path| > 0 && forall i :: 0 < i < |path| ==> (path[i - 1], path[i]) in pairs
  }

  ghost predicate Joins(pairs: Pairs, path: seq<Expr>, x: Expr, y: Expr) {
    IsPath(pairs, path) && |path| > 1 && path[0] == x && path[|path| - 1] == y
  }

  // The transitive closure of the pairs.
  ghost predicate Before(pairs: Pairs, x: Expr, y: Expr) {
    exists path :: Joins(pairs, path, x, y)
  }

  ghost predicate AtOrBefore(pairs: Pairs, x: Expr, y: Expr) {
    x == y || Before(pairs, x, y)
  }

  lemma OneStep(pairs: Pairs, x: Expr, y: Expr)
    requires (x, y) in pairs
    ensures Before(pairs, x, y)
  {
    assert Joins(pairs, [x, y], x, y);
  }

  lemma BeforeTransitive(pairs: Pairs, x: Expr, y: Expr, z: Expr)
    requires Before(pairs, x, y) && Before(pairs, y, z)
    ensures Before(pairs, x, z)
  {
    var p :| Joins(pairs, p, x, y);
    var q :| Joins(pairs, q, y, z);
    var path := p + q[1..];
    forall i | 0 < i < |path| ensures (path[i - 1], path[i]) in pairs {
      if i >= |p| { assert path[i] == q[i - |p| + 1] && path[i - 1] == q[i - |p|]; }
    }
    assert Joins(pairs, path, x, z);
  }

  // From t to s by one link, with what comes before t and after s.
  lemma Across(pairs: Pairs, x: Expr, t: Expr, s: Expr, y: Expr)
    requires AtOrBefore(pairs, x, t) && (t, s) in pairs && AtOrBefore(pairs, s, y)
    ensures Before(pairs, x, y)
  {
    OneStep(pairs, t, s);
    if x != t { BeforeTransitive(pairs, x, t, s); }
    if s != y { BeforeTransitive(pairs, x, s, y); }
  }

  lemma Through(pairs: Pairs, x: Expr, t: Expr, s: Expr, y: Expr)
    requires AtOrBefore(pairs, x, t) && (t, s) in pairs && AtOrBefore(pairs, s, y)
    ensures AtOrBefore(pairs, x, y)
  {
    Across(pairs, x, t, s, y);
  }

  // If each of the first pairs can be replaced by a path of the second, so can each path.
  lemma {:induction false} PathReplaced(first: Pairs, second: Pairs, path: seq<Expr>)
    requires forall x, y :: (x, y) in first ==> Before(second, x, y)
    requires IsPath(first, path) && |path| > 1
    ensures Before(second, path[0], path[|path| - 1])
    decreases |path|
  {
    var n := |path|;
    assert (path[n - 2], path[n - 1]) in first;
    if n > 2 {
      PathReplaced(first, second, path[..n - 1]);
      BeforeTransitive(second, path[0], path[n - 2], path[n - 1]);
    }
  }

  // ---------- Everything meant is linked, if expressions are well connected ----------

  // The jobs from which links lead to what is passed to on_done.
  function LastTails(e: Expr): set<Expr> {
    if e.Chain? then (if e.elements == [] then {} else Tail(e.elements[|e.elements| - 1])) else Tail(e)
  }

  ghost predicate Follows(elements: seq<Expr>, i: int, k: int) {
    0 <= i < k < |elements| && HasJobs(elements[i]) && HasJobs(elements[k])
  }

  // If an element of a chain has jobs and a later one has, so has the next one, and the jobs that
  // end the one and start the other are those that the graph asks for.
  ghost predicate JoinsNext(e: Expr, i: int) {
    e.Chain? && (exists k :: Follows(e.elements, i, k)) ==>
      && HasJobs(e.elements[i + 1])
      && Ends(e.elements[i]) <= Tail(e.elements[i]) && Starts(e.elements[i + 1]) <= Head(e.elements[i + 1])
  }

  // The same for an expression and what was passed to its on_done.
  ghost predicate JoinsAfter(e: Expr, d: Expr) {
    HasJobs(e) && HasJobs(d) ==> Ends(e) <= LastTails(e) && Starts(d) <= Head(d)
  }

  ghost predicate WellConnected(sys: System, seen: set<Expr>) {
    && (forall e, i :: e in seen ==> JoinsNext(e, i))
    && (forall e, d :: e in seen && e in sys && d in sys[e] ==> JoinsAfter(e, d))
  }

  ghost predicate Contains(sys: System, seen: set<Expr>, pairs: Pairs) {
    forall x, y :: Linked(sys, seen, x, y) ==> (x, y) in pairs
  }

  ghost predicate Ready(sys: System, seen: set<Expr>, pairs: Pairs) {
    Explored(sys, seen) && WellConnected(sys, seen) && Contains(sys, seen, pairs)
  }

  lemma {:induction false} FirstOf(elements: seq<Expr>, i: nat) returns (f: nat)
    requires i < |elements| && HasJobs(elements[i])
    ensures First(elements, f) && f <= i
  {
    if First(elements, i) {
      f := i;
    } else {
      var k :| 0 <= k < i && HasJobs(elements[k]);
      f := FirstOf(elements, k);
    }
  }

  lemma {:induction false} LastOf(elements: seq<Expr>, i: nat) returns (l: nat)
    requires i < |elements| && HasJobs(elements[i])
    ensures Last(elements, l) && i <= l
    decreases |elements| - i
  {
    if Last(elements, i) {
      l := i;
    } else {
      var k :| i < k < |elements| && HasJobs(elements[k]);
      l := LastOf(elements, k);
    }
  }

  lemma {:induction false} SomeStart(e: Expr) returns (s: Expr)
    requires HasJobs(e)
    ensures s in Starts(e)
    decreases e
  {
    match e
    case Job(_) => s := e;
    case Chain(_, elements) =>
      var j :| j in Jobs(e);
      var i :| 0 <= i < |elements| && j in Jobs(elements[i]);
      var f := FirstOf(elements, i);
      s := SomeStart(elements[f]);
    case Group(_, members) =>
      var j :| j in Jobs(e);
      var i :| 0 <= i < |members| && j in Jobs(members[i]);
      s := SomeStart(members[i]);
  }

  lemma ChainStarts(e: Expr, i: nat, s: Expr)
    requires e.Chain? && First(e.elements, i) && s in Starts(e.elements[i])
    ensures s in Starts(e)
  {
  }

  lemma ChainEnds(e: Expr, i: nat, t: Expr)
    requires e.Chain? && Last(e.elements, i) && t in Ends(e.elements[i])
    ensures t in Ends(e)
  {
  }

  lemma SomeJob(e: Expr, x: Expr)
    requires x in Jobs(e)
    ensures HasJobs(e)
  {
  }

  lemma StartIsJob(e: Expr) returns (s: Expr)
    requires HasJobs(e)
    ensures s in Starts(e) && s in Jobs(e)
  {
    s := SomeStart(e);
    OfJobs(e);
  }

  lemma ReadyAt(sys: System, seen: set<Expr>, pairs: Pairs, e: Expr, i: nat)
    requires Ready(sys, seen, pairs) && e in seen
    ensures JoinsNext(e, i)
    ensures e.Chain? && i < |e.elements| ==> e.elements[i] in seen
    ensures e.Group? && i < |e.members| ==> e.members[i] in seen
  {
    assert e.Chain? && i < |e.elements| ==> e.elements[i] in Own(e);
    assert e.Group? && i < |e.members| ==> e.members[i] in Own(e);
  }

  // A link where two elements of a chain meet.
  lemma LinkAt(sys: System, seen: set<Expr>, pairs: Pairs, e: Expr, i: nat, t: Expr, s: Expr)
    requires Ready(sys, seen, pairs) && e in seen && e.Chain? && (exists k :: Follows(e.elements, i, k))
    requires t in Ends(e.elements[i]) && s in Starts(e.elements[i + 1])
    ensures (t, s) in pairs
  {
    assert JoinsNext(e, i);
    var v, n := e.elements[i], e.elements[i + 1];
    assert Consecutive(e.elements, i, v, n);
    assert LinkOf(sys, e, v, n, t, s);
    assert Linked(sys, seen, t, s);
  }

  lemma NextHasJobs(e: Expr, i: nat, k: nat)
    requires JoinsNext(e, i) && e.Chain? && Follows(e.elements, i, k)
    ensures i + 1 < |e.elements| && HasJobs(e.elements[i + 1]) && Follows(e.elements, i, i + 1)
  {
  }

  lemma NotLast(elements: seq<Expr>, i: nat) returns (k: nat)
    requires i < |elements| && HasJobs(elements[i]) && !Last(elements, i)
    ensures Follows(elements, i, k)
  {
    k :| i < k < |elements| && HasJobs(elements[k]);
  }

  lemma NotFirst(elements: seq<Expr>, i: nat) returns (k: nat)
    requires i < |elements| && HasJobs(elements[i]) && !First(elements, i)
    ensures Follows(elements, k, i)
  {
    k :| 0 <= k < i && HasJobs(elements[k]);
  }

  // Every job of an expression leads to one that ends it.
  lemma {:induction false} LeadsToEnd(sys: System, seen: set<Expr>, pairs: Pairs, e: Expr, x: Expr) returns (t: Expr)
    requires Ready(sys, seen, pairs) && e in seen && x in Jobs(e)
    ensures t in Ends(e) && AtOrBefore(pairs, x, t)
    decreases e, if e.Chain? then |e.elements| + 1 else 0
  {
    match e
    case Job(_) => t := x;
    case Chain(_, elements) =>
      var i :| 0 <= i < |elements| && x in Jobs(elements[i]);
      t := LeadsToEndFrom(sys, seen, pairs, e, i, x);
    case Group(_, members) =>
      var i :| 0 <= i < |members| && x in Jobs(members[i]);
      ReadyAt(sys, seen, pairs, e, i);
      t := LeadsToEnd(sys, seen, pairs, members[i], x);
  }

  lemma {:induction false} LeadsToEndFrom(sys: System, seen: set<Expr>, pairs: Pairs, e: Expr, i: nat, x: Expr)
    returns (t: Expr)
    requires Ready(sys, seen, pairs) && e in seen && e.Chain? && i < |e.elements| && x in Jobs(e.elements[i])
    ensures t in Ends(e) && AtOrBefore(pairs, x, t)
    decreases e, |e.elements| - i
  {
    hide *;
    ReadyAt(sys, seen, pairs, e, i);
    t := LeadsToEnd(sys, seen, pairs, e.elements[i], x);
    SomeJob(e.elements[i], x);
    if Last(e.elements, i) {
      ChainEnds(e, i, t);
    } else {
      var k := NotLast(e.elements, i);
      NextHasJobs(e, i, k);
      var s := StartIsJob(e.elements[i + 1]);
      LinkAt(sys, seen, pairs, e, i, t, s);
      var t' := LeadsToEndFrom(sys, seen, pairs, e, i + 1, s);
      Through(pairs, x, t, s, t');
      t := t';
    }
  }

  // Elements with jobs follow one another without a gap.
  lemma {:induction false} PreviousHasJobs(sys: System, seen: set<Expr>, pairs: Pairs, e: Expr, k: nat, i: nat)
    requires Ready(sys, seen, pairs) && e in seen && e.Chain? && Follows(e.elements, k, i)
    ensures Follows(e.elements, i - 1, i)
    decreases i - k
  {
    if k + 1 < i {
      ReadyAt(sys, seen, pairs, e, k);
      NextHasJobs(e, k, i);
      PreviousHasJobs(sys, seen, pairs, e, k + 1, i);
    }
  }

  lemma EndIsJob(e: Expr) returns (t: Expr)
    requires HasJobs(e)
    ensures t in Ends(e) && t in Jobs(e)
  {
    t := SomeEnd(e);
    OfJobs(e);
  }

  lemma {:induction false} SomeEnd(e: Expr) returns (t: Expr)
    requires HasJobs(e)
    ensures t in Ends(e)
    decreases e
  {
    match e
    case Job(_) => t := e;
    case Chain(_, elements) =>
      var j :| j in Jobs(e);
      var i :| 0 <= i < |elements| && j in Jobs(elements[i]);
      var l := LastOf(elements, i);
      t := SomeEnd(elements[l]);
    case Group(_, members) =>
      var j :| j in Jobs(e);
      var i :| 0 <= i < |members| && j in Jobs(members[i]);
      t := SomeEnd(members[i]);
  }

  // Every job of an expression comes from one that starts it.
  lemma {:induction false} ComesFromStart(sys: System, seen: set<Expr>, pairs: Pairs, e: Expr, y: Expr) returns (s: Expr)
    requires Ready(sys, seen, pairs) && e in seen && y in Jobs(e)
    ensures s in Starts(e) && AtOrBefore(pairs, s, y)
    decreases e, if e.Chain? then |e.elements| + 1 else 0
  {
    match e
    case Job(_) => s := y;
    case Chain(_, elements) =>
      var i :| 0 <= i < |elements| && y in Jobs(elements[i]);
      s := ComesFromStartAt(sys, seen, pairs, e, i, y);
    case Group(_, members) =>
      var i :| 0 <= i < |members| && y in Jobs(members[i]);
      ReadyAt(sys, seen, pairs, e, i);
      s := ComesFromStart(sys, seen, pairs, members[i], y);
  }

  lemma {:induction false} ComesFromStartAt(sys: System, seen: set<Expr>, pairs: Pairs, e: Expr, i: nat, y: Expr)
    returns (s: Expr)
    requires Ready(sys, seen, pairs) && e in seen && e.Chain? && i < |e.elements| && y in Jobs(e.elements[i])
    ensures s in Starts(e) && AtOrBefore(pairs, s, y)
    decreases e, i + 1
  {
    hide *;
    ReadyAt(sys, seen, pairs, e, i);
    s := ComesFromStart(sys, seen, pairs, e.elements[i], y);
    SomeJob(e.elements[i], y);
    if First(e.elements, i) {
      ChainStarts(e, i, s);
    } else {
      var k := NotFirst(e.elements, i);
      PreviousHasJobs(sys, seen, pairs, e, k, i);
      FollowsParts(e.elements, i - 1, i);
      var t := EndIsJob(e.elements[i - 1]);
      LinkAt(sys, seen, pairs, e, i - 1, t, s);
      var s' := ComesFromStartAt(sys, seen, pairs, e, i - 1, t);
      Through(pairs, s', t, s, y);
      s := s';
    }
  }

  lemma FollowsParts(elements: seq<Expr>, i: int, k: int)
    requires Follows(elements, i, k)
    ensures 0 <= i < k < |elements| && HasJobs(elements[i]) && HasJobs(elements[k])
  {
  }

  // The jobs of an element come before those of the next one.
  lemma NextKept(sys: System, seen: set<Expr>, pairs: Pairs, e: Expr, i: nat, x: Expr, y: Expr)
    requires Ready(sys, seen, pairs) && e in seen && e.Chain? && i + 1 < |e.elements|
    requires x in Jobs(e.elements[i]) && y in Jobs(e.elements[i + 1])
    ensures Before(pairs, x, y)
  {
    hide Ready, Jobs, Ends, Starts, AtOrBefore;
    ReadyAt(sys, seen, pairs, e, i);
    ReadyAt(sys, seen, pairs, e, i + 1);
    SomeJob(e.elements[i], x);
    SomeJob(e.elements[i + 1], y);
    assert Follows(e.elements, i, i + 1);
    var t := LeadsToEnd(sys, seen, pairs, e.elements[i], x);
    var s := ComesFromStart(sys, seen, pairs, e.elements[i + 1], y);
    LinkAt(sys, seen, pairs, e, i, t, s);
    Across(pairs, x, t, s, y);
  }

  // The jobs of an element come before those of every later element.
  lemma {:induction false} ChainKept(sys: System, seen: set<Expr>, pairs: Pairs, e: Expr, i: nat, k: nat, x: Expr, y: Expr)
    requires Ready(sys, seen, pairs) && e in seen && e.Chain? && InOrder(e.elements, i, k, x, y)
    ensures Before(pairs, x, y)
    decreases k - i
  {
    hide Ready, Jobs, Ends, Starts, Before, HasJobs;
    if k == i + 1 {
      NextKept(sys, seen, pairs, e, i, x, y);
    } else {
      SomeJob(e.elements[i], x);
      SomeJob(e.elements[k], y);
      ReadyAt(sys, seen, pairs, e, i);
      NextHasJobs(e, i, k);
      var s := StartIsJob(e.elements[i + 1]);
      NextKept(sys, seen, pairs, e, i, x, s);
      ChainKept(sys, seen, pairs, e, i + 1, k, s, y);
      BeforeTransitive(pairs, x, s, y);
    }
  }

  // The links from an expression to what was passed to its on_done.
  lemma AfterLink(sys: System, e: Expr, d: Expr, t: Expr, s: Expr) returns (v: Expr)
    requires e in sys && d in sys[e] && t in LastTails(e) && s in Head(d)
    ensures LinkOf(sys, e, v, d, t, s)
  {
    match e
    case Job(_) => v := e;
    case Chain(_, elements) => v := elements[|elements| - 1];
    case Group(_, members) =>
      var i :| 0 <= i < |members| && t in Tail(members[i]);
      v := members[i];
  }

  lemma AfterKept(sys: System, seen: set<Expr>, pairs: Pairs, e: Expr, x: Expr, d: Expr, y: Expr)
    requires Ready(sys, seen, pairs) && e in seen && x in Jobs(e) && d in sys[e] && y in Jobs(d)
    ensures Before(pairs, x, y)
  {
    var t := LeadsToEnd(sys, seen, pairs, e, x);
    var s := ComesFromStart(sys, seen, pairs, d, y);
    assert JoinsAfter(e, d);
    var v := AfterLink(sys, e, d, t, s);
    assert Linked(sys, seen, t, s);
    Across(pairs, x, t, s, y);
  }

  // What is meant to come before comes before, through one or several links.
  lemma MeantIsKept(sys: System, seen: set<Expr>, pairs: Pairs, x: Expr, y: Expr)
    requires Ready(sys, seen, pairs) && Meant(sys, seen, x, y)
    ensures Before(pairs, x, y)
  {
    var e :| e in seen && MeantBy(sys, e, x, y);
    if InChain(e, x, y) {
      var i, k :| InOrder(e.elements, i, k, x, y);
      ChainKept(sys, seen, pairs, e, i, k, x, y);
    } else {
      var d :| d in sys[e] && y in Jobs(d);
      AfterKept(sys, seen, pairs, e, x, d, y);
    }
  }

  // The links keep exactly the precedence that is meant.
  lemma PrecedenceIsKept(sys: System, seen: set<Expr>, links: Pairs, meant: Pairs, x: Expr, y: Expr)
    requires Explored(sys, seen) && WellConnected(sys, seen)
    requires forall u, v :: (u, v) in links <==> Linked(sys, seen, u, v)
    requires forall u, v :: (u, v) in meant <==> Meant(sys, seen, u, v)
    ensures Before(links, x, y) <==> Before(meant, x, y)
  {
    forall u, v | (u, v) in links ensures Before(meant, u, v) {
      LinkIsMeant(sys, seen, u, v);
      OneStep(meant, u, v);
    }
    forall u, v | (u, v) in meant ensures Before(links, u, v) {
      MeantIsKept(sys, seen, links, u, v);
    }
    if Before(links, x, y) {
      var path :| Joins(links, path, x, y);
      PathReplaced(links, meant, path);
    }
    if Before(meant, x, y) {
      var path :| Joins(meant, path, x, y);
      PathReplaced(meant, links, path);
    }
  }

  // ---------- Chains that begin and end with jobs or groups of jobs ----------

  // A job, or a group of such.
  ghost predicate Parallel(e: Expr) {
    match e
    case Job(_) => true
    case Chain(_, _) => false
    case Group(_, members) => members != [] && forall i :: 0 <= i < |members| ==> Parallel(members[i])
  }

  lemma {:induction false} ParallelJobs(e: Expr)
    requires Parallel(e)
    ensures Head(e) == Jobs(e) && Tail(e) == Jobs(e) && Starts(e) == Jobs(e) && Ends(e) == Jobs(e)
  {
    if e.Group? {
      forall i | 0 <= i < |e.members|
        ensures Head(e.members[i]) == Jobs(e.members[i]) && Tail(e.members[i]) == Jobs(e.members[i])
        ensures Starts(e.members[i]) == Jobs(e.members[i]) && Ends(e.members[i]) == Jobs(e.members[i])
      {
        ParallelJobs(e.members[i]);
      }
    }
  }

  // Chains begin and end in parallel, and groups are not empty.
  ghost predicate PlainAt(e: Expr) {
    && (e.Chain? ==> e.elements != [] && Parallel(e.elements[0]) && Parallel(e.elements[|e.elements| - 1]))
    && (e.Group? ==> e.members != [])
  }

  lemma {:induction false} PlainMeets(sys: System, seen: set<Expr>, e: Expr)
    requires Explored(sys, seen) && (forall d :: d in seen ==> PlainAt(d)) && e in seen
    ensures Starts(e) <= Head(e) && Ends(e) <= Tail(e) && HasJobs(e)
    decreases e
  {
    match e
    case Job(_) =>
    case Chain(_, elements) =>
      var n := |elements| - 1;
      ParallelJobs(elements[0]);
      ParallelJobs(elements[n]);
      assert elements[0] in Own(e) && elements[n] in Own(e);
      PlainMeets(sys, seen, elements[0]);
      PlainMeets(sys, seen, elements[n]);
      assert First(elements, 0) && Last(elements, n);
      var j :| j in Jobs(elements[0]);
      assert j in Jobs(e);
    case Group(_, members) =>
      forall i | 0 <= i < |members|
        ensures Starts(members[i]) <= Head(members[i]) && Ends(members[i]) <= Tail(members[i]) && HasJobs(members[i])
      {
        assert members[i] in Own(e);
        PlainMeets(sys, seen, members[i]);
      }
      var j :| j in Jobs(members[0]);
      assert j in Jobs(e);
  }

  lemma PlainEnds(sys: System, seen: set<Expr>, e: Expr)
    requires Explored(sys, seen) && (forall d :: d in seen ==> PlainAt(d)) && e in seen
    ensures Ends(e) <= LastTails(e)
  {
    PlainMeets(sys, seen, e);
    if e.Chain? {
      var n := |e.elements| - 1;
      assert e.elements[n] in Own(e);
      PlainMeets(sys, seen, e.elements[n]);
      assert Last(e.elements, n);
    }
  }

  // Such expressions are well connected, however on_done is used on them.
  lemma PlainIsWellConnected(sys: System, seen: set<Expr>)
    requires Explored(sys, seen) && forall d :: d in seen ==> PlainAt(d)
    ensures WellConnected(sys, seen)
  {
    forall e, i | e in seen ensures JoinsNext(e, i) {
      if e.Chain? && exists k :: Follows(e.elements, i, k) {
        assert e.elements[i] in Own(e) && e.elements[i + 1] in Own(e);
        PlainMeets(sys, seen, e.elements[i]);
        PlainMeets(sys, seen, e.elements[i + 1]);
      }
    }
    forall e, d | e in seen && e in sys && d in sys[e] ensures JoinsAfter(e, d) {
      PlainEnds(sys, seen, e);
      PlainMeets(sys, seen, d);
    }
  }

  // So their links keep exactly the precedence that is meant.
  lemma PlainPrecedenceIsKept(sys: System, seen: set<Expr>, links: Pairs, meant: Pairs, x: Expr, y: Expr)
    requires Explored(sys, seen) && forall d :: d in seen ==> PlainAt(d)
    requires forall u, v :: (u, v) in links <==> Linked(sys, seen, u, v)
    requires forall u, v :: (u, v) in meant <==> Meant(sys, seen, u, v)
    ensures Before(links, x, y) <==> Before(meant, x, y)
  {
    PlainIsWellConnected(sys, seen);
    PrecedenceIsKept(sys, seen, links, meant, x, y);
  }

  lemma EdgeInside(sys: System, seen: set<Expr>, e: Expr, v: Expr, n: Expr)
    requires Explored(sys, seen) && e in seen && LocalEdge(e, sys[e], v, n)
    ensures v in seen && n in seen && v in Own(e) && n in Own(e) + sys[e]
  {
    if e.Chain? && exists i :: Consecutive(e.elements, i, v, n) {
      var i :| Consecutive(e.elements, i, v, n);
      assert v in Own(e) && n in Own(e);
    } else {
      assert v in Own(e);
    }
  }
}
