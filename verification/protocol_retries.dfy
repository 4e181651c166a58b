// How often a job with a limited number of retries is performed.
module ProtocolRetries {
  import opened ChannelJobs
  import opened JobStates
  import opened JobRows
  import opened Scheduler
  import opened SchedulerEffects
  import opened RunnerProtocol
  import opened ProtocolSafety
  import opened ProtocolExclusive

  ghost predicate Performs(s: State, e: Step, u: Uuid) {
    e.Perform? && PerformedBy(s, e.worker, u)
  }

  // The job asks to ignore the retry, so that it is not counted.
  ghost predicate Ignored(s: State, e: Step, u: Uuid) {
    Performs(s, e, u) && e.outcome.Retryable? && e.outcome.ignoreRetry
  }

  // The job is postponed whatever its number of retries.
  ghost predicate Excused(s: State, e: Step, u: Uuid) {
    Ignored(s, e, u) || (Performs(s, e, u) && e.outcome.ConcurrencyError?)
  }

  ghost function IgnoredCount(ss: seq<State>, es: seq<Step>, n: nat, u: Uuid): nat
    requires n <= |es| <= |ss|
  {
    if n == 0 then 0 else IgnoredCount(ss, es, n - 1, u) + One(Ignored(ss[n - 1], es[n - 1], u))
  }

  ghost function ExcusedCount(ss: seq<State>, es: seq<Step>, n: nat, u: Uuid): nat
    requires n <= |es| <= |ss|
  {
    if n == 0 then 0 else ExcusedCount(ss, es, n - 1, u) + One(Excused(ss[n - 1], es[n - 1], u))
  }

  // A job in one of these states can still be performed.
  predicate Ahead(state: JobState) {
    ToStart(state) || state.Started?
  }

  // The job was performed less often than its retries and excuses allow.
  ghost predicate Left(row: Row, excused: nat, ignored: nat) {
    row.retry + ignored < row.maxRetries + excused
  }

  ghost predicate CanComeAgain(s: State, u: Uuid) {
    (u in s.rows && Ahead(s.rows[u].state)) || Recalled(s, u) || InProgress(s, u)
  }

  // Whoever may still lead to the job being performed does so while it has performances left.
  ghost predicate RetriesOk(s: State, u: Uuid, excused: nat, ignored: nat) {
    && ignored <= excused
    && (CanComeAgain(s, u) ==> u in s.rows && Left(s.rows[u], excused, ignored))
    && (u in s.rows ==> s.rows[u].retry + ignored <= s.rows[u].maxRetries + excused)
    && (u !in s.rows ==> excused == 0)
    && (forall w :: PerformedBy(s, w, u) ==> u in s.rows && s.workers[w].retry == s.rows[u].retry)
  }

  // ---------- One step ----------

  // The retry counter changes only when the job is performed, or requeued.
  lemma RetryStep(s: State, e: Step, s': State, u: Uuid)
    requires Next(s, e, s') && e != UserRequeue(u) && u in s.rows
    ensures u in s'.rows && s'.rows[u].maxRetries == s.rows[u].maxRetries
    ensures s'.rows[u].retry ==
      if Performs(s, e, u) then s.workers[e.worker].retry + 1 - One(Ignored(s, e, u)) else s.rows[u].retry
  {
  }

  lemma AheadStep(s: State, e: Step, s': State, u: Uuid)
    requires Next(s, e, s') && e != UserRequeue(u) && u in s.rows && u in s'.rows && Ahead(s'.rows[u].state)
    ensures Ahead(s.rows[u].state) || (e.Dispatch? && s.outbox != [] && u == s.outbox[0]) || Performs(s, e, u)
    ensures Performs(s, e, u) && !Excused(s, e, u) ==>
      s.workers[e.worker].retry + 1 < s.rows[u].maxRetries || s.rows[u].maxRetries == 0
  {
  }

  lemma NewJob(s: State, e: Step, s': State, u: Uuid)
    requires Next(s, e, s') && u !in s.rows
    ensures e.Fetch? ==> e.uuid != u
    ensures u in s'.rows ==> e.Create? && s'.rows[u].retry == 0
  {
  }

  lemma PerformingRetry(s: State, e: Step, s': State, w: nat, u: Uuid)
    requires Next(s, e, s') && PerformedBy(s', w, u)
    ensures if PerformedBy(s, w, u) then s'.workers[w] == s.workers[w]
      else e == Claim(u, w) && u in s.rows && s.rows[u].state.Enqueued? && s'.workers[w].retry == s.rows[u].retry
  {
  }

  // After the job was performed only a new claim leads to it, since nobody else performs it.
  lemma PerformedOnce(s: State, e: Step, s': State, u: Uuid)
    requires Next(s, e, s') && Safe(s) && Alone(s, u) && Performs(s, e, u)
    ensures !InProgress(s', u) && !Recalled(s', u) && u in s.rows
  {
    SafeParts(s);
    PerformEnds(s, e, s');
    assert Quiet(s, u);
    hide Next, Safe, SchedOk, PerformedBy;
    if Recalled(s', u) { RecalledStep(s, e, s', u); }
    forall w ensures !PerformedBy(s', w, u) {
      if PerformedBy(s', w, u) { PerformedStep(s, e, s', w, u); }
    }
  }

  // What can lead to the job being performed did so before, unless it is new.
  lemma ComesAgain(s: State, e: Step, s': State, u: Uuid)
    requires Next(s, e, s') && Safe(s) && !Performs(s, e, u) && e != UserRequeue(u) && CanComeAgain(s', u)
    ensures CanComeAgain(s, u) || (u !in s.rows && u in s'.rows)
  {
    SafeParts(s);
    hide Next, Safe, SchedOk, Performs, Excused;
    if u in s.rows && u in s'.rows && Ahead(s'.rows[u].state) {
      AheadStep(s, e, s', u);
    } else if Recalled(s', u) {
      RecalledStep(s, e, s', u);
    } else if w :| PerformedBy(s', w, u) {
      PerformedStep(s, e, s', w, u);
    }
  }

  lemma WorkersRetry(s: State, e: Step, s': State, u: Uuid, excused: nat, ignored: nat)
    requires Next(s, e, s') && Safe(s) && Alone(s, u) && e != UserRequeue(u) && RetriesOk(s, u, excused, ignored)
    ensures forall w :: PerformedBy(s', w, u) ==> u in s'.rows && s'.workers[w].retry == s'.rows[u].retry
  {
    if Performs(s, e, u) { PerformedOnce(s, e, s', u); }
    hide Next, Safe, Alone, Performs, PerformedBy;
    forall w | PerformedBy(s', w, u) ensures u in s'.rows && s'.workers[w].retry == s'.rows[u].retry {
      PerformingRetry(s, e, s', w, u);
      RetryStep(s, e, s', u);
    }
  }

  lemma RetriesOkStep(s: State, e: Step, s': State, u: Uuid, excused: nat, ignored: nat)
    requires Next(s, e, s') && Safe(s) && Alone(s, u) && e != UserRequeue(u) && RetriesOk(s, u, excused, ignored)
    requires u in s'.rows ==> s'.rows[u].maxRetries > 0
    ensures RetriesOk(s', u, excused + One(Excused(s, e, u)), ignored + One(Ignored(s, e, u)))
  {
    WorkersRetry(s, e, s', u, excused, ignored);
    if Performs(s, e, u) {
      PerformedOnce(s, e, s', u);
    } else if CanComeAgain(s', u) {
      ComesAgain(s, e, s', u);
    }
    hide Next, Safe, Alone, Recalled, ToStart, PerformedBy, Performs, Excused, Ignored;
    if u in s.rows {
      RetryStep(s, e, s', u);
      RetryCounts(s, e, u);
      if Ahead(s'.rows[u].state) { AheadStep(s, e, s', u); }
    } else {
      RetryCounts(s, e, u);
      NewJob(s, e, s', u);
    }
  }

  lemma RetryCounts(s: State, e: Step, u: Uuid)
    ensures Ignored(s, e, u) ==> Excused(s, e, u)
    ensures Excused(s, e, u) ==> Performs(s, e, u)
    ensures Performs(s, e, u) ==> InProgress(s, u) && PerformedBy(s, e.worker, u)
  {
  }

  // Nothing is stored yet, or the job has just been requeued while nobody performs it.
  ghost predicate Begins(s: State, u: Uuid) {
    Initial(s) || (Safe(s) && u in s.rows && s.rows[u].retry == 0 && !s.rows[u].state.Failed? && !InProgress(s, u))
  }

  lemma BeginsWithRetries(s: State, u: Uuid)
    requires Begins(s, u) && (u in s.rows ==> s.rows[u].maxRetries > 0)
    ensures Safe(s) && Alone(s, u) && RetriesOk(s, u, 0, 0)
  {
    if Initial(s) {
      InitialSafe(s);
      if Queues(s.sched, u) { QueuedIsHeld(s.sched, u); }
    } else {
      assert forall w :: !PerformedBy(s, w, u);
    }
  }

  // ---------- Runs ----------

  lemma {:induction false} LimitBefore(ss: seq<State>, es: seq<Step>, i: nat, u: Uuid, k: nat)
    requires IsRun(ss, es) && k <= i < |ss| && u in ss[k].rows
    ensures u in ss[i].rows && ss[i].rows[u].maxRetries == ss[k].rows[u].maxRetries
  {
    if k < i {
      LimitBefore(ss, es, i - 1, u, k);
      RowsStep(ss[i - 1], es[i - 1], ss[i], u);
    }
  }

  lemma {:induction false} RetriesAlong(ss: seq<State>, es: seq<Step>, i: nat, u: Uuid)
    requires IsRun(ss, es) && Begins(ss[0], u) && i < |ss|
    requires u in ss[i].rows ==> ss[i].rows[u].maxRetries > 0
    requires forall k :: 0 <= k < i ==> es[k] != UserRequeue(u)
    ensures Safe(ss[i]) && Alone(ss[i], u)
    ensures RetriesOk(ss[i], u, ExcusedCount(ss, es, i, u), IgnoredCount(ss, es, i, u))
  {
    hide Safe, Alone, Begins, RetriesOk, Next, Excused, Ignored;
    if u in ss[0].rows { LimitBefore(ss, es, i, u, 0); }
    BeginsWithRetries(ss[0], u);
    if i > 0 {
      if u in ss[i - 1].rows { LimitBefore(ss, es, i, u, i - 1); }
      RetriesAlong(ss, es, i - 1, u);
      RetriesOkStep(ss[i - 1], es[i - 1], ss[i], u, ExcusedCount(ss, es, i - 1, u), IgnoredCount(ss, es, i - 1, u));
      AloneAlong(ss, es, i, u);
    }
  }

  ghost function Starts(s: State, u: Uuid, ignored: nat): nat {
    if u in s.rows then s.rows[u].retry + ignored + One(InProgress(s, u)) else 0
  }

  lemma StartsStep(s: State, e: Step, s': State, u: Uuid, excused: nat, ignored: nat)
    requires Next(s, e, s') && Safe(s) && Alone(s, u) && e != UserRequeue(u) && RetriesOk(s, u, excused, ignored)
    ensures Starts(s', u, ignored + One(Ignored(s, e, u))) == Starts(s, u, ignored) + One(e.Claim? && e.uuid == u)
  {
    if e.Claim? && e.uuid == u {
      ClaimedIsQuiet(s, e, s', u);
      assert PerformedBy(s', e.worker, u);
    } else if Performs(s, e, u) {
      PerformedOnce(s, e, s', u);
      RetryStep(s, e, s', u);
    } else {
      StillPerformed(s, e, s', u);
      if u in s.rows { RetryStep(s, e, s', u); } else { NewJob(s, e, s', u); }
    }
  }

  lemma StillPerformed(s: State, e: Step, s': State, u: Uuid)
    requires Next(s, e, s') && !(e.Claim? && e.uuid == u) && !Performs(s, e, u)
    ensures InProgress(s', u) <==> InProgress(s, u)
  {
    forall w ensures PerformedBy(s', w, u) <==> PerformedBy(s, w, u) {
    }
  }

  // The retry counter of a job counts how often it was started, but for ignored retries and a
  // performance in progress.
  lemma {:induction false} StartsAreRetries(ss: seq<State>, es: seq<Step>, i: nat, u: Uuid)
    requires IsRun(ss, es) && Begins(ss[0], u) && i < |ss|
    requires u in ss[i].rows ==> ss[i].rows[u].maxRetries > 0
    requires forall k :: 0 <= k < i ==> es[k] != UserRequeue(u)
    ensures StartCount(es, i, u) ==
      if u in ss[i].rows then ss[i].rows[u].retry + IgnoredCount(ss, es, i, u) + One(InProgress(ss[i], u)) else 0
  {
    hide Safe, Alone, Begins, RetriesOk, Next, Ignored, InProgress;
    if i > 0 {
      if u in ss[i - 1].rows { LimitBefore(ss, es, i, u, i - 1); }
      StartsAreRetries(ss, es, i - 1, u);
      RetriesAlong(ss, es, i - 1, u);
      StartsStep(ss[i - 1], es[i - 1], ss[i], u, ExcusedCount(ss, es, i - 1, u), IgnoredCount(ss, es, i - 1, u));
    } else {
      NotYetStarted(ss[0], u);
    }
  }

  lemma NotYetStarted(s: State, u: Uuid)
    requires Begins(s, u)
    ensures u in s.rows ==> s.rows[u].retry == 0 && !InProgress(s, u)
  {
  }

  // From when it is new or requeued, until it is requeued again, a job with a limited number of
  // retries is started at most so often, not counting the times it met a concurrency error or asked
  // to ignore the retry. After the last time it is not started again: it is done, failed or was
  // cancelled.
  lemma BoundedRetries(ss: seq<State>, es: seq<Step>, i: nat, u: Uuid)
    requires IsRun(ss, es) && Begins(ss[0], u) && i < |ss| && u in ss[i].rows && ss[i].rows[u].maxRetries > 0
    requires forall k :: 0 <= k < i ==> es[k] != UserRequeue(u)
    ensures var bound := ss[i].rows[u].maxRetries + ExcusedCount(ss, es, i, u);
      && StartCount(es, i, u) <= bound
      && (StartCount(es, i, u) == bound && !InProgress(ss[i], u) ==>
          ss[i].rows[u].state.Done? || ss[i].rows[u].state.Failed? || ss[i].rows[u].state.Cancelled?)
  {
    StartsAreRetries(ss, es, i, u);
    RetriesAlong(ss, es, i, u);
  }

  // ---------- What becomes of a job that was performed ----------

  // A retryable error that counts.
  predicate CountedRetry(outcome: Outcome) {
    outcome == Retryable(false)
  }

  // A success or nothing to do makes the job done, an error makes it failed. After a retryable
  // error that counts it has failed exactly if it has a limit of retries and has reached it.
  // Otherwise it is pending again, or waits if the worker found a parent not done. The retry
  // counter is one higher unless the job asked to ignore the retry; nothing else changes.
  lemma PerformDoes(s: State, w: nat, outcome: Outcome)
    requires Can(s, Perform(w, outcome))
    ensures var worker, rows' := s.workers[w], Do(s, Perform(w, outcome)).rows;
      var u, row := worker.uuid, s.rows[worker.uuid];
      && rows'.Keys == s.rows.Keys && (forall v :: v in s.rows && v != u ==> rows'[v] == s.rows[v])
      && SameLinks(row, rows'[u]) && rows'[u].maxRetries == row.maxRetries
      && rows'[u].retry == (if outcome == Retryable(true) then worker.retry else worker.retry + 1)
      && (rows'[u].state.Done? <==> outcome.Success? || outcome.NothingToDo?)
      && (rows'[u].state.Failed? <==>
          outcome.Error? || (CountedRetry(outcome) && 0 < row.maxRetries <= worker.retry + 1))
      && (rows'[u].state.Done? || rows'[u].state.Failed? ||
          rows'[u].state == if worker.parentsDone then JobState.Pending else WaitDependencies)
    ensures var s' := Do(s, Perform(w, outcome));
      if outcome.Success? || outcome.NothingToDo? then s'.workers == s.workers[w := Enabling(s.workers[w].uuid, 0)]
      else s'.workers == s.workers - {w}
  {
  }

  // The performances of the job between two moments that its retry counter counts.
  ghost function CountedFrom(ss: seq<State>, es: seq<Step>, k: nat, n: nat, u: Uuid): nat
    requires k <= n <= |es| <= |ss|
  {
    if n == k then 0
    else CountedFrom(ss, es, k, n - 1, u) + One(Performs(ss[n - 1], es[n - 1], u) && !Ignored(ss[n - 1], es[n - 1], u))
  }

  // So many performances have been counted at most, and a failed job has used up all its retries.
  ghost predicate CountedOk(s: State, u: Uuid, counted: nat) {
    && (u in s.rows ==> s.rows[u].retry <= counted)
    && (u in s.rows && s.rows[u].state.Failed? ==> 0 < s.rows[u].maxRetries <= counted)
    && (forall w :: PerformedBy(s, w, u) ==> s.workers[w].retry <= counted)
  }

  lemma RetryFrom(s: State, e: Step, s': State, u: Uuid)
    requires Next(s, e, s') && u in s'.rows
    ensures u in s.rows ==> s'.rows[u].maxRetries == s.rows[u].maxRetries
    ensures if Performs(s, e, u) then u in s.rows && s'.rows[u].retry == s.workers[e.worker].retry + One(!Ignored(s, e, u))
      else s'.rows[u].retry == 0 || (u in s.rows && s'.rows[u].retry == s.rows[u].retry)
  {
  }

  // Only an error or a counted retry that is the last one makes a job fail.
  lemma FailedFrom(s: State, e: Step, s': State, u: Uuid)
    requires Next(s, e, s') && u in s'.rows && s'.rows[u].state.Failed?
    ensures u in s.rows
    ensures s.rows[u].state.Failed? || Performs(s, e, u)
    ensures Performs(s, e, u) ==>
      e.outcome.Error? || (CountedRetry(e.outcome) && 0 < s.rows[u].maxRetries <= s.workers[e.worker].retry + 1)
  {
  }

  lemma CountedOkStep(s: State, e: Step, s': State, u: Uuid, counted: nat)
    requires Next(s, e, s') && CountedOk(s, u, counted) && (Performs(s, e, u) ==> !e.outcome.Error?)
    ensures CountedOk(s', u, counted + One(Performs(s, e, u) && !Ignored(s, e, u)))
  {
    if u in s'.rows {
      RetryFrom(s, e, s', u);
      if s'.rows[u].state.Failed? { FailedFrom(s, e, s', u); }
    }
    hide Next;
    forall w | PerformedBy(s', w, u) ensures s'.workers[w].retry <= counted {
      PerformingRetry(s, e, s', w, u);
    }
  }

  lemma {:induction false} CountedAlong(ss: seq<State>, es: seq<Step>, k: nat, i: nat, u: Uuid)
    requires IsRun(ss, es) && k <= i < |ss| && Begins(ss[k], u)
    requires forall n :: k <= n < i && Performs(ss[n], es[n], u) ==> !es[n].outcome.Error?
    ensures CountedOk(ss[i], u, CountedFrom(ss, es, k, i, u))
    decreases i
  {
    hide Next, Performs, Ignored, CountedOk;
    if k == i {
      BeginsUncounted(ss[k], u);
    } else {
      CountedAlong(ss, es, k, i - 1, u);
      CountedOkStep(ss[i - 1], es[i - 1], ss[i], u, CountedFrom(ss, es, k, i - 1, u));
    }
  }

  lemma BeginsUncounted(s: State, u: Uuid)
    requires Begins(s, u)
    ensures CountedOk(s, u, 0)
  {
  }

  // A job that meets no error but those that ask for a retry does not fail before it was performed
  // as often as it may be, not counting ignored retries; without a limit it never fails.
  lemma FailsOnlyAfterRetries(ss: seq<State>, es: seq<Step>, k: nat, i: nat, u: Uuid)
    requires IsRun(ss, es) && k <= i < |ss| && Begins(ss[k], u)
    requires forall n :: k <= n < i && Performs(ss[n], es[n], u) ==> !es[n].outcome.Error?
    requires u in ss[i].rows && ss[i].rows[u].state.Failed?
    ensures 0 < ss[i].rows[u].maxRetries <= CountedFrom(ss, es, k, i, u)
  {
    hide Next, Performs, CountedFrom;
    CountedAlong(ss, es, k, i, u);
  }

  // ---------- Requeueing and timeouts ----------

  // Requeueing sets the retry counter of a job that does not wait to 0, and makes it pending, or
  // lets it wait if a parent is not done. A waiting job stays as it is, and so does all else.
  lemma RequeueDoes(s: State, u: Uuid)
    requires u in s.rows
    ensures var s' := Do(s, UserRequeue(u));
      && s' == s.(rows := s'.rows) && s'.rows.Keys == s.rows.Keys
      && (forall v :: v in s.rows && v != u ==> s'.rows[v] == s.rows[v])
      && (s.rows[u].state.WaitDependencies? ==> s' == s)
      && (!s.rows[u].state.WaitDependencies? ==>
          && s'.rows[u].retry == 0
          && (s'.rows[u].state.Pending? <==> forall p :: p in s.rows[u].dependsOn && p in s.rows ==> s.rows[p].state.Done?)
          && (s'.rows[u].state.Pending? || s'.rows[u].state.WaitDependencies?))
      && s'.rows[u] == s.rows[u].(state := s'.rows[u].state, retry := s'.rows[u].retry)
  {
  }

  // So the counting of performances begins anew, if nobody performs the job.
  lemma RequeuedBegins(s: State, u: Uuid)
    requires Safe(s) && u in s.rows && !s.rows[u].state.WaitDependencies? && !InProgress(s, u)
    ensures Begins(Do(s, UserRequeue(u)), u)
  {
    var s' := Do(s, UserRequeue(u));
    SafeStep(s, UserRequeue(u), s');
    RequeueDoes(s, u);
    SameWorkers(s, s', u);
    hide Safe, Do, PerformedBy;
  }

  lemma SameWorkers(s: State, s': State, u: Uuid)
    requires s'.workers == s.workers
    ensures forall w :: PerformedBy(s', w, u) <==> PerformedBy(s, w, u)
  {
  }
}
