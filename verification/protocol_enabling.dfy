// Whether a job that waits for its parents is enabled when they are done.
module ProtocolEnabling {
  import opened ChannelJobs
  import opened JobStates
  import opened JobRows
  import opened SchedulerEffects
  import opened RunnerProtocol
  import opened ProtocolOrder

  // The job waits although all its parents are done.
  ghost predicate WaitsForNothing(s: State, c: Uuid) {
    c in s.rows && s.rows[c].state.WaitDependencies? && AllDone(s.rows, s.rows[c].dependsOn)
  }

  ghost predicate EnablesParent(s: State, w: nat, c: Uuid) {
    w in s.workers && s.workers[w].Enabling? && c in s.rows && s.workers[w].uuid in s.rows[c].dependsOn
  }

  // Some worker that has finished a parent has still to enable the children.
  ghost predicate Outstanding(s: State, c: Uuid) {
    exists w :: EnablesParent(s, w, c)
  }

  ghost predicate NothingLost(s: State) {
    forall c :: WaitsForNothing(s, c) ==> Outstanding(s, c)
  }

  // Every worker found all parents of its job done when it started it.
  ghost predicate SawParentsDone(s: State) {
    forall w :: w in s.workers && s.workers[w].Performing? ==> s.workers[w].parentsDone
  }

  // The worker has tried often enough to enable the children.
  ghost predicate GivesUp(s: State, e: Step) {
    e.Conflict? && e.worker in s.workers && s.workers[e.worker].Enabling? && s.workers[e.worker].tries >= MAX_TRIES
  }

  // A job is started while one of its parents is not done.
  ghost predicate StaleClaim(s: State, e: Step) {
    e.Claim? && e.uuid in s.rows && !AllDone(s.rows, s.rows[e.uuid].dependsOn)
  }

  // ---------- One step ----------

  lemma SawStep(s: State, e: Step, s': State)
    requires Next(s, e, s') && SawParentsDone(s) && !StaleClaim(s, e)
    ensures SawParentsDone(s')
  {
  }

  lemma OutstandingStep(s: State, e: Step, s': State, w: nat, c: Uuid)
    requires Next(s, e, s') && !GivesUp(s, e) && EnablesParent(s, w, c) && c in s'.rows && SameLinks(s.rows[c], s'.rows[c])
    ensures EnablesParent(s', w, c) || (e.Enable? && e.worker == w)
  {
  }

  // An enabling transaction leaves no child of its job waiting for nothing.
  lemma EnableWorks(rows: Rows, u: Uuid, c: Uuid)
    requires Linked(rows) && u in rows && c in rows && u in rows[c].dependsOn
    ensures c in EnqueueWaiting(rows, u) && EnqueueWaiting(rows, u)[c].dependsOn == rows[c].dependsOn
    ensures EnqueueWaiting(rows, u)[c].state.WaitDependencies? ==> !AllDone(EnqueueWaiting(rows, u), rows[c].dependsOn)
  {
    EnqueueWaitingMeans(rows, u, c);
    forall p | p in rows[c].dependsOn && p in rows ensures EnqueueWaiting(rows, u)[p].state.Done? <==> rows[p].state.Done? {
      EnqueueWaitingMeans(rows, u, p);
    }
  }

  lemma EnableDone(s: State, e: Step, s': State, c: Uuid)
    requires Next(s, e, s') && TableOk(s) && c in s.rows
    ensures e.Enable? && EnablesParent(s, e.worker, c) ==> !WaitsForNothing(s', c)
    ensures e.UserDone? && e.uuid in s.rows[c].dependsOn ==> !WaitsForNothing(s', c)
  {
    if e.Enable? && EnablesParent(s, e.worker, c) {
      assert WorkerOk(s.rows, s.workers[e.worker]);
      EnableWorks(s.rows, s.workers[e.worker].uuid, c);
    }
    if e.UserDone? && e.uuid in s.rows[c].dependsOn {
      DoneLinked(s.rows, e.uuid);
      EnableWorks(s.rows[e.uuid := s.rows[e.uuid].(state := Done)], e.uuid, c);
    }
  }

  // A new job that waits does so for another new job, which is not done.
  lemma NewJobWaits(s: State, e: Step, s': State, c: Uuid)
    requires Next(s, e, s') && e.Create? && c in e.batch
    ensures !WaitsForNothing(s', c)
  {
    assert LinkedAt(e.batch, c);
    if e.batch[c].dependsOn != {} {
      var p :| p in e.batch[c].dependsOn;
      assert p in s'.rows && !s'.rows[p].state.Done?;
    }
  }

  // A job that is requeued waits only if a parent is not done.
  lemma RequeuedWaits(s: State, e: Step, s': State, c: Uuid)
    requires Next(s, e, s') && e == UserRequeue(c) && !s.rows[c].state.WaitDependencies?
    ensures !WaitsForNothing(s', c)
  {
    if !AllDone(s.rows, s.rows[c].dependsOn) {
      var p :| p in s.rows[c].dependsOn && p in s.rows && !s.rows[p].state.Done?;
      assert p in s'.rows && !s'.rows[p].state.Done?;
    }
  }

  // A job starts waiting only if it is new, or a parent is not done, or a worker saw one that was not.
  lemma WaitingStep(s: State, e: Step, s': State, c: Uuid)
    requires Next(s, e, s') && TableOk(s) && WaitsForNothing(s', c) && SawParentsDone(s)
    ensures c in s.rows && s.rows[c].state.WaitDependencies?
  {
    if e.Create? && c in e.batch { NewJobWaits(s, e, s', c); }
    if e == UserRequeue(c) && !s.rows[c].state.WaitDependencies? { RequeuedWaits(s, e, s', c); }
    hide Linked, NewBatch;
  }

  lemma NewlyDone(s: State, e: Step, s': State, p: Uuid)
    requires Next(s, e, s') && DoneIn(s', p) && !DoneIn(s, p)
    ensures (e.UserDone? && e.uuid == p) ||
      (e.Perform? && e.worker in s'.workers && s'.workers[e.worker] == Enabling(p, 0)) || e.Create?
  {
  }

  lemma BatchNotDone(s: State, e: Step, s': State, p: Uuid)
    requires Next(s, e, s') && e.Create?
    ensures DoneIn(s', p) ==> DoneIn(s, p)
  {
  }

  lemma NothingLostStep(s: State, e: Step, s': State)
    requires Next(s, e, s') && TableOk(s) && NothingLost(s) && SawParentsDone(s) && !GivesUp(s, e)
    ensures NothingLost(s')
  {
    forall c | WaitsForNothing(s', c) ensures Outstanding(s', c) {
      WaitingStep(s, e, s', c);
      RowsStep(s, e, s', c);
      EnableDone(s, e, s', c);
      StillOutstanding(s, e, s', c);
    }
  }

  lemma StillOutstanding(s: State, e: Step, s': State, c: Uuid)
    requires Next(s, e, s') && TableOk(s) && NothingLost(s) && !GivesUp(s, e)
    requires c in s.rows && s.rows[c].state.WaitDependencies? && c in s'.rows && SameLinks(s.rows[c], s'.rows[c])
    requires WaitsForNothing(s', c)
    requires e.Enable? ==> !EnablesParent(s, e.worker, c)
    requires e.UserDone? ==> e.uuid !in s.rows[c].dependsOn
    ensures Outstanding(s', c)
  {
    hide Next, GivesUp;
    assert LinkedAt(s.rows, c);
    if AllDone(s.rows, s.rows[c].dependsOn) {
      assert WaitsForNothing(s, c);
      var w :| EnablesParent(s, w, c);
      OutstandingStep(s, e, s', w, c);
      assert EnablesParent(s', w, c);
    } else {
      var p :| p in s.rows[c].dependsOn && p in s.rows && !s.rows[p].state.Done?;
      RowsStep(s, e, s', p);
      assert DoneIn(s', p) && !DoneIn(s, p);
      NewlyDone(s, e, s', p);
      if e.Create? { BatchNotDone(s, e, s', p); }
      assert EnablesParent(s', e.worker, c);
    }
  }

  lemma WithoutWorker(s: State, e: Step, s': State)
    requires Next(s, e, s') && GivesUp(s, e)
    ensures forall c :: WaitsForNothing(s', c) <==> WaitsForNothing(s, c)
    ensures forall w, c :: EnablesParent(s', w, c) <==> w != e.worker && EnablesParent(s, w, c)
  {
  }

  // A worker that gives up loses an enabling exactly if a child of its job waits for nothing and
  // no other worker has to enable that child.
  lemma GivingUp(s: State, e: Step, s': State)
    requires Next(s, e, s') && TableOk(s) && NothingLost(s) && GivesUp(s, e)
    ensures s.workers[e.worker].uuid in s.rows
    ensures NothingLost(s') <==>
      forall c :: c in s.rows[s.workers[e.worker].uuid].reverseDependsOn && WaitsForNothing(s, c) ==>
        exists w :: w != e.worker && EnablesParent(s, w, c)
  {
    var u := s.workers[e.worker].uuid;
    WithoutWorker(s, e, s');
    assert WorkerOk(s.rows, s.workers[e.worker]);
    hide Next, GivesUp, WaitsForNothing;
    if NothingLost(s') {
      forall c | WaitsForNothing(s, c) ensures exists w :: w != e.worker && EnablesParent(s, w, c) {
        var w :| EnablesParent(s', w, c);
        assert w != e.worker && EnablesParent(s, w, c);
      }
    } else {
      var c :| WaitsForNothing(s', c) && !Outstanding(s', c);
      var w :| EnablesParent(s, w, c);
      assert w == e.worker;
      assert LinkedAt(s.rows, c) && c in s.rows[u].reverseDependsOn;
    }
  }

  // ---------- Runs ----------

  // In a run in which no job is started while a parent is not done and no worker gives up, a job
  // that waits for nothing is about to be enabled, in whatever order its parents have finished.
  lemma {:induction false} NoLostEnabling(ss: seq<State>, es: seq<Step>, i: nat)
    requires IsRun(ss, es) && TableOk(ss[0]) && NothingLost(ss[0]) && SawParentsDone(ss[0]) && i < |ss|
    requires forall k :: 0 <= k < |es| ==> !StaleClaim(ss[k], es[k]) && !GivesUp(ss[k], es[k])
    ensures TableOk(ss[i]) && NothingLost(ss[i]) && SawParentsDone(ss[i])
  {
    if i > 0 {
      NoLostEnabling(ss, es, i - 1);
      TableStep(ss[i - 1], es[i - 1], ss[i]);
      NothingLostStep(ss[i - 1], es[i - 1], ss[i]);
      SawStep(ss[i - 1], es[i - 1], ss[i]);
    }
  }

  // No step takes a done job back.
  ghost predicate StaysDone(s: State, s': State) {
    forall u :: DoneIn(s, u) ==> DoneIn(s', u)
  }

  lemma {:induction false} HistoryStaysDone(ss: seq<State>, es: seq<Step>, i: nat, u: Uuid)
    requires IsRun(ss, es) && Initial(ss[0]) && i < |ss| && u in ss[i].everDone
    requires forall k :: 0 <= k < |es| ==> StaysDone(ss[k], ss[k + 1])
    ensures DoneIn(ss[i], u)
  {
    if i > 0 {
      EverDoneStep(ss[i - 1], es[i - 1], ss[i], u);
      if u in ss[i - 1].everDone { HistoryStaysDone(ss, es, i - 1, u); }
    }
  }

  // If done jobs stay done, every job is started with all its parents done.
  lemma NoStaleClaim(ss: seq<State>, es: seq<Step>, i: nat)
    requires IsRun(ss, es) && Initial(ss[0]) && i < |es|
    requires forall k :: 0 <= k < |es| ==> StaysDone(ss[k], ss[k + 1])
    ensures !StaleClaim(ss[i], es[i])
  {
    OrderedAlong(ss, es, i);
    if es[i].Claim? && es[i].uuid in ss[i].rows {
      var s, u := ss[i], es[i].uuid;
      assert Next(s, es[i], ss[i + 1]);
      assert RowOrdered(s, u);
      forall p | p in s.rows[u].dependsOn ensures DoneIn(s, p) {
        HistoryStaysDone(ss, es, i, p);
      }
    }
  }

  // As long as done jobs stay done and no worker gives up, no enabling is lost.
  lemma NoLostEnablingWhileDone(ss: seq<State>, es: seq<Step>, i: nat)
    requires IsRun(ss, es) && Initial(ss[0]) && i < |ss|
    requires forall k :: 0 <= k < |es| ==> StaysDone(ss[k], ss[k + 1]) && !GivesUp(ss[k], es[k])
    ensures NothingLost(ss[i])
  {
    forall k | 0 <= k < |es| ensures !StaleClaim(ss[k], es[k]) {
      NoStaleClaim(ss, es, k);
    }
    NoLostEnabling(ss, es, i);
  }

  // ---------- When nothing more happens ----------

  ghost predicate Quiescent(s: State) {
    && (forall u :: u in s.rows ==> !s.rows[u].state.Pending? && !Active(s.rows[u].state))
    && s.workers == map[]
  }

  ghost predicate Stopped(s: State, u: Uuid) {
    u in s.rows && (s.rows[u].state.Failed? || s.rows[u].state.Cancelled?)
  }

  ghost predicate AncestorBy(rows: Rows, path: seq<Uuid>, a: Uuid, c: Uuid) {
    IsPath(rows, path) && |path| >= 2 && path[0] == a && path[|path| - 1] == c
  }

  ghost predicate Acyclic(rows: Rows, rank: map<Uuid, nat>) {
    forall c :: c in rows ==> c in rank && forall p :: p in rows[c].dependsOn ==> p in rank && rank[p] < rank[c]
  }

  // When nothing is pending, enqueued, started or outstanding, each job that still waits in an
  // acyclic graph has an ancestor that has failed or was cancelled.
  lemma {:induction false} StoppedAncestor(s: State, rank: map<Uuid, nat>, c: Uuid)
    returns (a: Uuid, path: seq<Uuid>)
    requires TableOk(s) && NothingLost(s) && Quiescent(s) && Acyclic(s.rows, rank)
    requires c in s.rows && s.rows[c].state.WaitDependencies?
    ensures Stopped(s, a) && AncestorBy(s.rows, path, a, c)
    decreases rank[c]
  {
    assert LinkedAt(s.rows, c);
    assert !Outstanding(s, c) && !WaitsForNothing(s, c);
    var p :| p in s.rows[c].dependsOn && p in s.rows && !s.rows[p].state.Done?;
    if s.rows[p].state.WaitDependencies? {
      a, path := StoppedAncestor(s, rank, p);
      path := path + [c];
    } else {
      a, path := p, [p, c];
    }
  }

  // No job depends on itself, directly or through others.
  ghost predicate HasRank(rows: Rows) {
    exists rank :: Acyclic(rows, rank)
  }

  lemma RankOfBoth(rows: Rows, batch: Rows)
    requires Linked(rows) && Linked(batch) && batch.Keys !! rows.Keys && HasRank(rows) && HasRank(batch)
    ensures HasRank(rows + batch)
  {
    var first :| Acyclic(rows, first);
    var second :| Acyclic(batch, second);
    var both := map u | u in rows.Keys + batch.Keys :: if u in batch then second[u] else first[u];
    forall c, p | c in rows + batch && p in (rows + batch)[c].dependsOn ensures p in both && both[p] < both[c] {
      if c in batch { assert LinkedAt(batch, c); } else { assert LinkedAt(rows, c); }
    }
    assert Acyclic(rows + batch, both);
  }

  lemma RankStays(rows: Rows, rows': Rows)
    requires HasRank(rows) && rows'.Keys == rows.Keys && forall c :: c in rows ==> SameLinks(rows[c], rows'[c])
    ensures HasRank(rows')
  {
    var rank :| Acyclic(rows, rank);
    assert Acyclic(rows', rank);
  }

  lemma RankGrows(s: State, e: Step, s': State)
    requires Next(s, e, s') && TableOk(s) && HasRank(s.rows) && (e.Create? ==> HasRank(e.batch))
    ensures HasRank(s'.rows)
  {
    if e.Create? {
      RankOfBoth(s.rows, e.batch);
    } else {
      RowsKeys(s, e, s');
      forall c | c in s.rows ensures SameLinks(s.rows[c], s'.rows[c]) { RowsStep(s, e, s', c); }
      hide Next, HasRank;
      RankStays(s.rows, s'.rows);
    }
  }

  lemma {:induction false} RankAlong(ss: seq<State>, es: seq<Step>, i: nat)
    requires IsRun(ss, es) && Initial(ss[0]) && i < |ss|
    requires forall k :: 0 <= k < i && es[k].Create? ==> HasRank(es[k].batch)
    ensures TableOk(ss[i]) && HasRank(ss[i].rows)
  {
    if i == 0 {
      assert Acyclic(ss[0].rows, map[]);
    } else {
      RankAlong(ss, es, i - 1);
      TableStep(ss[i - 1], es[i - 1], ss[i]);
      RankGrows(ss[i - 1], es[i - 1], ss[i]);
    }
  }

  // If the graphs that were stored have no cycles, all jobs were started with their parents done
  // and no worker gave up: when nothing is pending, enqueued, started or outstanding any more,
  // each job that still waits has an ancestor that has failed or was cancelled.
  lemma WaitingIsExplained(ss: seq<State>, es: seq<Step>, i: nat, c: Uuid)
    returns (a: Uuid, path: seq<Uuid>)
    requires IsRun(ss, es) && Initial(ss[0]) && i < |ss|
    requires forall k :: 0 <= k < |es| ==> !StaleClaim(ss[k], es[k]) && !GivesUp(ss[k], es[k])
    requires forall k :: 0 <= k < i && es[k].Create? ==> HasRank(es[k].batch)
    requires Quiescent(ss[i]) && c in ss[i].rows && ss[i].rows[c].state.WaitDependencies?
    ensures Stopped(ss[i], a) && AncestorBy(ss[i].rows, path, a, c)
  {
    RankAlong(ss, es, i);
    NoLostEnabling(ss, es, i);
    var rank :| Acyclic(ss[i].rows, rank);
    a, path := StoppedAncestor(ss[i], rank, c);
  }

  // ---------- The condition is exact ----------

  // The steps that may follow: nobody gives up and no job is started with a parent not done.
  ghost predicate Orderly(s: State, es: seq<Step>)
    requires CanAll(s, es)
    decreases |es|
  {
    es == [] || (!GivesUp(s, es[0]) && !StaleClaim(s, es[0]) && Orderly(Do(s, es[0]), es[1..]))
  }

  lemma {:induction false} OrderlyKeeps(s: State, es: seq<Step>)
    requires TableOk(s) && NothingLost(s) && SawParentsDone(s) && CanAll(s, es) && Orderly(s, es)
    ensures NothingLost(DoAll(s, es))
    decreases |es|
  {
    if es != [] {
      var s' := Do(s, es[0]);
      TableStep(s, es[0], s');
      NothingLostStep(s, es[0], s');
      SawStep(s, es[0], s');
      OrderlyKeeps(s', es[1..]);
    }
  }

  // Users set the parents to done, one after the other.
  lemma {:induction false} MarkParents(s: State, todo: set<Uuid>) returns (es: seq<Step>)
    requires TableOk(s) && todo <= s.rows.Keys
    ensures CanAll(s, es) && Orderly(s, es) && TableOk(DoAll(s, es)) && DoAll(s, es).workers == s.workers
    ensures SameTable(s, DoAll(s, es))
    ensures forall p :: p in todo || DoneIn(s, p) ==> DoneIn(DoAll(s, es), p)
    decreases |todo|
  {
    hide *;
    NoSteps(s);
    if todo == {} {
      es := [];
    } else {
      var p :| p in todo;
      MarkOne(s, p);
      var s' := Do(s, UserDone(p));
      SameTableMeans(s, s');
      assert |todo - {p}| < |todo|;
      var rest := MarkParents(s', todo - {p});
      es := [UserDone(p)] + rest;
      Prepend(s, UserDone(p), rest);
      SameTableMeans(s', DoAll(s', rest));
      KeptOnce(s, s', DoAll(s', rest));
    }
  }

  lemma MarkOne(s: State, p: Uuid)
    requires TableOk(s) && p in s.rows
    ensures Can(s, UserDone(p)) && !GivesUp(s, UserDone(p)) && !StaleClaim(s, UserDone(p)) && TableOk(Do(s, UserDone(p)))
    ensures SameTable(s, Do(s, UserDone(p))) && Do(s, UserDone(p)).workers == s.workers
    ensures DoneIn(Do(s, UserDone(p)), p) && forall q :: DoneIn(s, q) ==> DoneIn(Do(s, UserDone(p)), q)
  {
    TableStep(s, UserDone(p), Do(s, UserDone(p)));
    OtherStaysDone(s, UserDone(p), Do(s, UserDone(p)));
  }

  lemma SameTableMeans(s: State, s': State)
    requires SameTable(s, s')
    ensures s'.rows.Keys == s.rows.Keys
  {
  }

  lemma KeptOnce(s: State, s1: State, s2: State)
    requires SameTable(s, s1) && SameTable(s1, s2)
    ensures SameTable(s, s2)
  {
  }

  ghost predicate SameTable(s: State, s': State) {
    s'.rows.Keys == s.rows.Keys && forall u :: u in s.rows ==> SameLinks(s.rows[u], s'.rows[u])
  }

  lemma OtherStaysDone(s: State, e: Step, s': State)
    requires Next(s, e, s') && TableOk(s) && (e.UserDone? || e.Enable?)
    ensures SameTable(s, s') && StaysDone(s, s') && (e.UserDone? ==> DoneIn(s', e.uuid) && s'.workers == s.workers)
    ensures e.Enable? ==> s'.workers == s.workers - {e.worker}
  {
    RowsKeys(s, e, s');
    DoneOrEnabled(s, e, s');
    hide Next, TableOk;
    forall u | u in s.rows ensures SameLinks(s.rows[u], s'.rows[u]) {
      RowsStep(s, e, s', u);
    }
  }

  lemma DoneOrEnabled(s: State, e: Step, s': State)
    requires Next(s, e, s') && (e.UserDone? || e.Enable?)
    ensures StaysDone(s, s') && (e.UserDone? ==> DoneIn(s', e.uuid) && s'.workers == s.workers)
    ensures e.Enable? ==> s'.workers == s.workers - {e.worker}
  {
  }

  lemma Prepend(s: State, e: Step, rest: seq<Step>)
    requires Can(s, e) && !GivesUp(s, e) && !StaleClaim(s, e) && CanAll(Do(s, e), rest) && Orderly(Do(s, e), rest)
    ensures CanAll(s, [e] + rest) && Orderly(s, [e] + rest) && DoAll(s, [e] + rest) == DoAll(Do(s, e), rest)
  {
    assert ([e] + rest)[1..] == rest;
  }

  lemma EnableOne(s: State, w: nat)
    requires TableOk(s) && w in s.workers && s.workers[w].Enabling?
    ensures Can(s, Enable(w)) && !GivesUp(s, Enable(w)) && !StaleClaim(s, Enable(w)) && TableOk(Do(s, Enable(w)))
    ensures SameTable(s, Do(s, Enable(w))) && StaysDone(s, Do(s, Enable(w)))
    ensures Do(s, Enable(w)).workers == s.workers - {w}
  {
    TableStep(s, Enable(w), Do(s, Enable(w)));
    OtherStaysDone(s, Enable(w), Do(s, Enable(w)));
  }

  // Workers that have to enable children do so.
  lemma {:induction false} FinishEnabling(s: State, todo: set<nat>) returns (es: seq<Step>)
    requires TableOk(s) && forall w :: w in todo ==> w in s.workers && s.workers[w].Enabling?
    ensures CanAll(s, es) && Orderly(s, es) && TableOk(DoAll(s, es)) && DoAll(s, es).workers == s.workers - todo
    ensures SameTable(s, DoAll(s, es)) && StaysDone(s, DoAll(s, es))
    decreases |todo|
  {
    hide *;
    NoSteps(s);
    if todo == {} {
      es := [];
      assert s.workers - todo == s.workers;
    } else {
      var w :| w in todo;
      EnableOne(s, w);
      var s' := Do(s, Enable(w));
      assert |todo - {w}| < |todo|;
      var rest := FinishEnabling(s', todo - {w});
      es := [Enable(w)] + rest;
      Prepend(s, Enable(w), rest);
      KeptTwice(s, s', DoAll(s', rest));
      assert s'.workers - (todo - {w}) == s.workers - todo;
    }
  }

  lemma NoSteps(s: State)
    ensures CanAll(s, []) && Orderly(s, []) && DoAll(s, []) == s && SameTable(s, s) && StaysDone(s, s)
  {
  }

  lemma KeptTwice(s: State, s1: State, s2: State)
    requires SameTable(s, s1) && StaysDone(s, s1) && SameTable(s1, s2) && StaysDone(s1, s2)
    ensures SameTable(s, s2) && StaysDone(s, s2)
  {
  }

  lemma {:induction false} Concat(s: State, es: seq<Step>, fs: seq<Step>)
    requires CanAll(s, es) && Orderly(s, es) && CanAll(DoAll(s, es), fs) && Orderly(DoAll(s, es), fs)
    ensures CanAll(s, es + fs) && Orderly(s, es + fs) && DoAll(s, es + fs) == DoAll(DoAll(s, es), fs)
    decreases |es|
  {
    if es == [] {
      assert es + fs == fs;
    } else {
      Concat(Do(s, es[0]), es[1..], fs);
      assert (es + fs)[1..] == es[1..] + fs;
    }
  }

  // A worker that has seen a parent not done can postpone its job when all parents are done and
  // their children enabled: the job then waits for nothing.
  lemma StaleWorkerLoses(s: State, w: nat) returns (es: seq<Step>)
    requires TableOk(s) && w in s.workers && s.workers[w].Performing? && !s.workers[w].parentsDone
    requires s.workers[w].uuid in s.rows && s.workers[w].uuid !in s.rows[s.workers[w].uuid].dependsOn
    ensures CanAll(s, es) && Orderly(s, es) && !NothingLost(DoAll(s, es))
  {
    var u := s.workers[w].uuid;
    var ps := s.rows[u].dependsOn;
    assert LinkedAt(s.rows, u);
    var marking := MarkParents(s, ps);
    var s1 := DoAll(s, marking);
    var todo := set v | v in s1.workers && s1.workers[v].Enabling? && s1.workers[v].uuid in ps;
    var enabling := FinishEnabling(s1, todo);
    var s2 := DoAll(s1, enabling);
    Concat(s, marking, enabling);
    var postponing := [Perform(w, Retryable(true))];
    assert s2.workers[w] == s.workers[w];
    PostponedWaits(s2, w);
    Concat(s, marking + enabling, postponing);
    es := marking + enabling + postponing;
  }

  lemma PostponedWaits(s: State, w: nat)
    requires w in s.workers && s.workers[w].Performing? && !s.workers[w].parentsDone
    requires s.workers[w].uuid in s.rows && s.workers[w].uuid !in s.rows[s.workers[w].uuid].dependsOn
    requires forall p :: p in s.rows[s.workers[w].uuid].dependsOn ==> DoneIn(s, p)
    requires forall v :: !EnablesParent(s, v, s.workers[w].uuid)
    ensures var es := [Perform(w, Retryable(true))];
      CanAll(s, es) && Orderly(s, es) && !NothingLost(DoAll(s, es))
  {
    var e := Perform(w, Retryable(true));
    var u, s' := s.workers[w].uuid, Do(s, e);
    assert [e][1..] == [];
    assert DoAll(s, [e]) == s';
    assert WaitsForNothing(s', u);
    forall v ensures !EnablesParent(s', v, u) {
      assert !EnablesParent(s, v, u);
    }
  }

  ghost predicate NoSelfParent(rows: Rows) {
    forall u :: u in rows ==> u !in rows[u].dependsOn
  }

  // Whatever follows, no enabling is lost, exactly if no worker performs a job of which it saw
  // a parent that was not done when it started.
  lemma LostExactlyAfterStaleClaim(s: State)
    requires TableOk(s) && NothingLost(s) && NoSelfParent(s.rows)
    ensures SawParentsDone(s) <==>
      forall es :: CanAll(s, es) && Orderly(s, es) ==> NothingLost(DoAll(s, es))
  {
    if SawParentsDone(s) {
      forall es | CanAll(s, es) && Orderly(s, es) ensures NothingLost(DoAll(s, es)) {
        OrderlyKeeps(s, es);
      }
    } else {
      var w :| w in s.workers && s.workers[w].Performing? && !s.workers[w].parentsDone;
      assert WorkerOk(s.rows, s.workers[w]);
      var es := StaleWorkerLoses(s, w);
    }
  }
}
