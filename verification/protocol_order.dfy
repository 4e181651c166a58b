// The order in which dependent jobs are performed, over all interleavings: never before each
// parent has been done at least once.
module ProtocolOrder {
  import opened ChannelJobs
  import opened ChannelTurn
  import opened JobStates
  import opened JobRows
  import opened Scheduler
  import opened SchedulerEffects
  import opened RunnerProtocol
  import opened ProtocolSafety
  import opened ProtocolExclusive

  // Each parent has been done.
  ghost predicate Cleared(s: State, u: Uuid) {
    u in s.rows && s.rows[u].dependsOn <= s.everDone
  }

  ghost predicate RowOrdered(s: State, u: Uuid)
    requires u in s.rows
  {
    (Holding(s.rows[u].state) ==> Cleared(s, u)) && (s.rows[u].state.Done? ==> u in s.everDone)
  }

  ghost predicate RowsOrdered(s: State) {
    forall u :: u in s.rows ==> RowOrdered(s, u)
  }

  // Also what the scheduler, the runner and the workers remember of a job is about cleared jobs,
  // however much the row has changed since.
  ghost predicate MemoryOrdered(s: State) {
    && (forall u :: Holds(s.sched, u) ==> Cleared(s, u))
    && (forall u :: u in s.outbox ==> Cleared(s, u))
    && (s.fetched.Data? && Holding(s.fetched.state) ==> Cleared(s, s.fetched.uuid))
    && (forall w, u :: PerformedBy(s, w, u) ==> Cleared(s, u))
  }

  ghost predicate Ordered(s: State) {
    RowsOrdered(s) && MemoryOrdered(s)
  }

  // ---------- One step ----------

  lemma ClearedStays(s: State, e: Step, s': State, u: Uuid)
    requires Next(s, e, s') && Cleared(s, u)
    ensures Cleared(s', u)
  {
    RowsStep(s, e, s', u);
    EverDoneStep(s, e, s', u);
  }

  lemma EverDoneStep(s: State, e: Step, s': State, u: Uuid)
    requires Next(s, e, s')
    ensures s.everDone <= s'.everDone
    ensures u in s'.everDone && u !in s.everDone ==> u in s'.rows && s'.rows[u].state.Done?
  {
  }

  lemma AllDoneCleared(s: State, u: Uuid)
    requires Linked(s.rows) && RowsOrdered(s) && u in s.rows && AllDone(s.rows, s.rows[u].dependsOn)
    ensures Cleared(s, u)
  {
    assert LinkedAt(s.rows, u);
    forall p | p in s.rows[u].dependsOn ensures p in s.everDone {
      assert RowOrdered(s, p);
    }
  }

  // A row holds a job for the scheduler only if it did so before, or the step has found all
  // parents done, or the step is by someone who remembers a cleared job.
  lemma HoldingStep(s: State, e: Step, s': State, u: Uuid)
    requires Next(s, e, s') && u in s.rows && u in s'.rows && Holding(s'.rows[u].state)
    ensures Holding(s.rows[u].state) || (e.Dispatch? && u == s.outbox[0])
      || (e.Perform? && PerformedBy(s, e.worker, u))
      || (e.UserRequeue? && AllDone(s.rows, s.rows[u].dependsOn))
      || (e.Enable? && EnabledBy(s.rows, s.workers[e.worker].uuid, u))
      || (e.UserDone? && EnabledBy(s.rows[e.uuid := s.rows[e.uuid].(state := Done)], e.uuid, u))
  {
  }

  ghost predicate EnabledBy(rows: Rows, p: Uuid, u: Uuid) {
    p in rows && u in rows && Enables(rows, p, u)
  }

  // Whoever enables u found all its parents done.
  lemma EnabledCleared(s: State, s': State, rows: Rows, p: Uuid, u: Uuid)
    requires Linked(rows) && EnabledBy(rows, p, u)
    requires forall q :: q in rows && rows[q].state.Done? ==> q in s'.everDone
    requires u in s'.rows && s'.rows[u].dependsOn == rows[u].dependsOn
    ensures Cleared(s', u)
  {
    EnqueueWaitingMeans(rows, p, u);
    assert LinkedAt(rows, u) && LinkedAt(rows, p);
    forall q | q in rows[u].dependsOn ensures q in s'.everDone {
      assert IsParent(rows, q, u) && SameGraph(rows[u], rows[q]);
    }
  }

  lemma DoneLinked(rows: Rows, u: Uuid)
    requires Linked(rows) && u in rows
    ensures Linked(rows[u := rows[u].(state := Done)])
  {
    RelabelLinked(rows, rows[u := rows[u].(state := Done)]);
  }

  lemma DoneInHistory(s: State, e: Step, s': State, u: Uuid)
    requires Next(s, e, s') && u in s.rows && RowOrdered(s, u) && u in s'.rows
    ensures s'.rows[u].state.Done? ==> u in s'.everDone
  {
  }

  lemma HoldingCleared(s: State, e: Step, s': State, u: Uuid)
    requires Next(s, e, s') && TableOk(s) && Ordered(s) && u in s.rows && u in s'.rows && Holding(s'.rows[u].state)
    ensures Cleared(s', u)
  {
    hide Next, Enables, Linked, Holding, AllDone, MemoryOrdered;
    MemoryParts(s);
    HoldingStep(s, e, s', u);
    RowsStep(s, e, s', u);
    EverDoneStep(s, e, s', u);
    UserDoneHistory(s, e, s');
    assert RowOrdered(s, u);
    assert forall q :: q in s.rows && s.rows[q].state.Done? ==> RowOrdered(s, q);
    if e.UserRequeue? && AllDone(s.rows, s.rows[u].dependsOn) {
      AllDoneCleared(s, u);
    }
    if e.Enable? && EnabledBy(s.rows, s.workers[e.worker].uuid, u) {
      EnabledCleared(s, s, s.rows, s.workers[e.worker].uuid, u);
    }
    if Cleared(s, u) {
      ClearedStays(s, e, s', u);
    } else if e.UserDone? {
      DoneLinked(s.rows, e.uuid);
      EnabledCleared(s, s', s.rows[e.uuid := s.rows[e.uuid].(state := Done)], e.uuid, u);
    }
  }

  lemma MemoryParts(s: State)
    requires MemoryOrdered(s)
    ensures forall u :: u in s.outbox ==> Cleared(s, u)
    ensures forall w, u :: PerformedBy(s, w, u) ==> Cleared(s, u)
  {
  }

  lemma UserDoneHistory(s: State, e: Step, s': State)
    requires Next(s, e, s')
    ensures e.UserDone? ==> e.uuid in s.rows && e.uuid in s'.everDone
    ensures e.Dispatch? ==> s.outbox != []
    ensures e.Enable? ==> e.worker in s.workers
  {
  }

  lemma NewRows(s: State, e: Step, s': State, u: Uuid)
    requires Next(s, e, s') && u in s'.rows && u !in s.rows
    ensures RowOrdered(s', u)
  {
  }

  lemma RowsOrderedStep(s: State, e: Step, s': State)
    requires Next(s, e, s') && TableOk(s) && Ordered(s)
    ensures RowsOrdered(s')
  {
    hide Next, TableOk, Cleared, MemoryOrdered;
    forall u | u in s'.rows ensures RowOrdered(s', u) {
      if u in s.rows {
        assert RowOrdered(s, u);
        DoneInHistory(s, e, s', u);
        if Holding(s'.rows[u].state) { HoldingCleared(s, e, s', u); }
      } else {
        NewRows(s, e, s', u);
      }
    }
  }

  lemma HoldsStep(s: State, e: Step, s': State, u: Uuid)
    requires Next(s, e, s') && SchedOk(s.sched) && Root in s.sched.tree && Holds(s'.sched, u)
    ensures Holds(s.sched, u) || (e.Apply? && s.fetched.Data? && u == s.fetched.uuid && Holding(s.fetched.state))
  {
    hide Holds, SchedOk, Turn, Notify, Dropped;
    match e
    case Apply(job, eta) => NotifyHolds(s.sched, job, eta, s.fetched.state, u);
    case Collect(byUuid) => DropRunning(s.sched, s'.sched);
    case AddChannel(n, capacity) => AddChannelRunning(s.sched, n, capacity);
    case RunJobs(now, t', jobs) => TurnHoldsUuids(s.sched, now, t', jobs, u);
    case _ =>
  }

  // The jobs that a call yields were held by the scheduler.
  lemma OutboxHeld(s: State, e: Step, s': State, u: Uuid)
    requires Next(s, e, s') && SchedOk(s.sched) && Root in s.sched.tree && u in s'.outbox
    ensures u in s.outbox || Holds(s.sched, u)
  {
    if e.RunJobs? {
      TurnRunning(s.sched, e.now, e.tree, e.jobs);
      RunningHeld(s'.sched, u);
      TurnHoldsUuids(s.sched, e.now, e.tree, e.jobs, u);
    }
  }

  lemma FetchedFrom(s: State, e: Step, s': State)
    requires Next(s, e, s') && s'.fetched.Data?
    ensures s'.fetched == s.fetched || (s'.fetched.uuid in s.rows && s'.fetched.state == s.rows[s'.fetched.uuid].state)
  {
  }

  lemma MemoryOrderedStep(s: State, e: Step, s': State)
    requires Next(s, e, s') && Safe(s) && Ordered(s)
    ensures MemoryOrdered(s')
  {
    SafeParts(s);
    hide Next, Safe, SchedOk, Cleared, Holds, PerformedBy, Running;
    forall u | Holds(s'.sched, u) ensures Cleared(s', u) {
      HoldsStep(s, e, s', u);
      ClearedStays(s, e, s', u);
    }
    forall u | u in s'.outbox ensures Cleared(s', u) {
      OutboxHeld(s, e, s', u);
      ClearedStays(s, e, s', u);
    }
    if s'.fetched.Data? && Holding(s'.fetched.state) {
      FetchedFrom(s, e, s');
      assert s'.fetched.uuid in s.rows ==> RowOrdered(s, s'.fetched.uuid);
      ClearedStays(s, e, s', s'.fetched.uuid);
    }
    forall w, u | PerformedBy(s', w, u) ensures Cleared(s', u) {
      PerformedStep(s, e, s', w, u);
      assert u in s.rows ==> RowOrdered(s, u);
      ClearedStays(s, e, s', u);
    }
  }

  lemma {:induction false} OrderedAlong(ss: seq<State>, es: seq<Step>, i: nat)
    requires IsRun(ss, es) && Initial(ss[0]) && i < |ss|
    ensures Safe(ss[i]) && Ordered(ss[i])
  {
    hide Safe, Ordered, Next, Initial;
    InitialOrdered(ss[0]);
    SafeAlong(ss, es, i);
    if i > 0 {
      OrderedAlong(ss, es, i - 1);
      OrderedStep(ss[i - 1], es[i - 1], ss[i]);
    }
  }

  lemma InitialOrdered(s: State)
    requires Initial(s)
    ensures Safe(s) && Ordered(s)
  {
    InitialSafe(s);
    hide Safe;
  }

  lemma OrderedStep(s: State, e: Step, s': State)
    requires Next(s, e, s') && Safe(s) && Ordered(s)
    ensures Ordered(s')
  {
    RowsOrderedStep(s, e, s');
    MemoryOrderedStep(s, e, s');
    hide Next, Safe, RowsOrdered, MemoryOrdered;
  }

  // ---------- Runs ----------

  ghost predicate DoneIn(s: State, u: Uuid) {
    u in s.rows && s.rows[u].state.Done?
  }

  // The history records what was done in the table at some moment.
  lemma {:induction false} HistoryIsTrue(ss: seq<State>, es: seq<Step>, i: nat, u: Uuid)
    requires IsRun(ss, es) && Initial(ss[0]) && i < |ss| && u in ss[i].everDone
    ensures exists k :: 0 <= k <= i && DoneIn(ss[k], u)
  {
    if i > 0 {
      EverDoneStep(ss[i - 1], es[i - 1], ss[i], u);
      if u in ss[i - 1].everDone {
        HistoryIsTrue(ss, es, i - 1, u);
      } else {
        assert DoneIn(ss[i], u);
      }
    }
  }

  // A job is performed only when each of its parents has been done at some moment before, also
  // after jobs were requeued, cancelled or set to done by hand and when the scheduler knows of
  // a job what is no longer so.
  lemma CausalOrder(ss: seq<State>, es: seq<Step>, i: nat, w: nat, u: Uuid, p: Uuid)
    requires IsRun(ss, es) && Initial(ss[0]) && i < |ss|
    requires PerformedBy(ss[i], w, u) && u in ss[i].rows && p in ss[i].rows[u].dependsOn
    ensures exists k :: 0 <= k <= i && DoneIn(ss[k], p)
  {
    OrderedAlong(ss, es, i);
    assert Cleared(ss[i], u);
    HistoryIsTrue(ss, es, i, p);
  }

  // ---------- Ancestors ----------

  // Each job of the path depends on the one before.
  ghost predicate IsPath(rows: Rows, path: seq<Uuid>) {
    |path| > 0 && forall k :: 0 < k < |path| ==> path[k] in rows && path[k - 1] in rows[path[k]].dependsOn
  }

  // The jobs between the ends of a path.
  function Between(path: seq<Uuid>): seq<Uuid> {
    if |path| < 2 then [] else path[1..|path| - 1]
  }

  // Users set none of the jobs to done.
  ghost predicate NotSetDone(e: Step, us: seq<Uuid>) {
    e.UserDone? ==> e.uuid !in us
  }

  // Those of the jobs that were done were so only after their parents.
  ghost predicate DoneCleared(s: State, us: seq<Uuid>) {
    forall u :: u in s.everDone && u in us ==> Cleared(s, u)
  }

  lemma DoneByWorker(s: State, e: Step, s': State, u: Uuid)
    requires Next(s, e, s') && u in s'.everDone
    ensures u in s.everDone || (e.Perform? && PerformedBy(s, e.worker, u)) || e == UserDone(u)
  {
  }

  lemma {:induction false} DoneClearedAlong(ss: seq<State>, es: seq<Step>, i: nat, us: seq<Uuid>)
    requires IsRun(ss, es) && Initial(ss[0]) && i < |ss|
    requires forall k :: 0 <= k < i ==> NotSetDone(es[k], us)
    ensures DoneCleared(ss[i], us)
  {
    hide *;
    RunParts(ss, es, i);
    if i == 0 {
      NothingDone(ss[0], us);
    } else {
      DoneClearedAlong(ss, es, i - 1, us);
      OrderedAlong(ss, es, i - 1);
      OrderedParts(ss[i - 1]);
      DoneClearedStep(ss[i - 1], es[i - 1], ss[i], us);
    }
  }

  lemma RunParts(ss: seq<State>, es: seq<Step>, i: nat)
    requires IsRun(ss, es) && i < |ss|
    ensures |ss| == |es| + 1 && (i > 0 ==> Next(ss[i - 1], es[i - 1], ss[i]))
  {
  }

  lemma NothingDone(s: State, us: seq<Uuid>)
    requires Initial(s)
    ensures DoneCleared(s, us)
  {
  }

  lemma OrderedParts(s: State)
    requires Ordered(s)
    ensures RowsOrdered(s) && MemoryOrdered(s)
  {
  }

  lemma DoneClearedStep(s: State, e: Step, s': State, us: seq<Uuid>)
    requires Next(s, e, s') && MemoryOrdered(s) && DoneCleared(s, us) && NotSetDone(e, us)
    ensures DoneCleared(s', us)
  {
    MemoryParts(s);
    hide Next, MemoryOrdered, PerformedBy, Cleared;
    forall u | u in s'.everDone && u in us ensures Cleared(s', u) {
      DoneByWorker(s, e, s', u);
      ClearedStays(s, e, s', u);
    }
  }

  lemma {:induction false} PathDone(s: State, path: seq<Uuid>, k: nat)
    requires DoneCleared(s, Between(path)) && IsPath(s.rows, path) && Cleared(s, path[|path| - 1]) && k < |path| - 1
    ensures path[k] in s.everDone
    decreases |path| - k
  {
    if k < |path| - 2 {
      PathDone(s, path, k + 1);
      assert path[k + 1] == Between(path)[k];
      assert Cleared(s, path[k + 1]);
    }
  }

  // A job is performed only when all its ancestors have been done, as long as users do not set
  // the jobs on the way from them to done: no descendant of a job that was never done is performed.
  lemma AncestorsDone(ss: seq<State>, es: seq<Step>, i: nat, w: nat, path: seq<Uuid>, k: nat)
    requires IsRun(ss, es) && Initial(ss[0]) && i < |ss|
    requires forall n :: 0 <= n < i ==> NotSetDone(es[n], Between(path))
    requires IsPath(ss[i].rows, path) && PerformedBy(ss[i], w, path[|path| - 1]) && k < |path| - 1
    ensures exists n :: 0 <= n <= i && DoneIn(ss[n], path[k])
  {
    OrderedAlong(ss, es, i);
    DoneClearedAlong(ss, es, i, Between(path));
    PathDone(ss[i], path, k);
    HistoryIsTrue(ss, es, i, path[k]);
  }
}
