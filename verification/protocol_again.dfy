// A job that was requeued, or whose request has timed out, is started again, as often as its retries
// allow.
module ProtocolAgain {
  import opened ChannelJobs
  import opened ChannelTree
  import opened ChannelTurn
  import opened JobStates
  import opened JobRows
  import opened Scheduler
  import opened SchedulerEffects
  import opened RunnerProtocol
  import opened ProtocolSafety
  import opened ProtocolExclusive
  import opened ProtocolRetries
  import opened ProtocolRestart
  import opened ProtocolExamples

  // A state of a run in which job u can be started, with job objects for all stored jobs.
  ghost predicate Ready(s: State, u: Uuid, objects: map<Uuid, ChannelJob>) {
    Regular(s) && Able(s, u) && forall v :: v in s.rows ==> MadeFor(s, v, objects)
  }

  lemma ReadyParts(s: State, u: Uuid, objects: map<Uuid, ChannelJob>)
    requires Ready(s, u, objects)
    ensures Regular(s) && Able(s, u) && Describe(s, u, objects) && u in s.rows && Safe(s)
  {
    hide Safe;
  }

  lemma TreeKeys(s: State, e: Step, s': State)
    requires Next(s, e, s') && SchedOk(s.sched) && !e.AddChannel?
    ensures s'.sched.tree.Keys == s.sched.tree.Keys
  {
    if e.Apply? { NotifyOk(s.sched, e.job, e.eta, s.fetched.state); }
  }

  lemma ReadyStep(s: State, e: Step, u: Uuid, objects: map<Uuid, ChannelJob>)
    requires Ready(s, u, objects) && Can(s, e) && !e.AddChannel? && !e.Create?
    ensures Ready(Do(s, e), u, objects)
  {
    var s' := Do(s, e);
    RegularStep(s, e, s');
    SafeParts(s);
    CapableStep(s, e);
    RowsStep(s, e, s', u);
    RowsKeys(s, e, s');
    TreeKeys(s, e, s');
    hide Regular, Do, Can, SchedOk;
  }

  lemma {:induction false} ReadyThrough(s: State, es: seq<Step>, u: Uuid, objects: map<Uuid, ChannelJob>)
    requires Ready(s, u, objects) && CanAll(s, es) && Plain(es, u)
    ensures Ready(DoAll(s, es), u, objects) && u in s.rows && u in DoAll(s, es).rows
    ensures DoAll(s, es).rows[u].retry == s.rows[u].retry && DoAll(s, es).rows[u].maxRetries == s.rows[u].maxRetries
    decreases |es|
  {
    hide *;
    ReadyParts(s, u, objects);
    StepsFrom(s, es);
    if es != [] {
      var s' := Do(s, es[0]);
      PlainRest(es, u);
      PlainRetry(s, es[0], s', u, es);
      ReadyStep(s, es[0], u, objects);
      ReadyThrough(s', es[1..], u, objects);
    }
  }

  lemma PlainRetry(s: State, e: Step, s': State, u: Uuid, es: seq<Step>)
    requires Can(s, e) && s' == Do(s, e) && Plain(es, u) && es != [] && es[0] == e && u in s.rows
    ensures u in s'.rows && s'.rows[u].retry == s.rows[u].retry && s'.rows[u].maxRetries == s.rows[u].maxRetries
  {
    assert PlainStep(es[0], u);
    RetryStep(s, e, s', u);
  }

  // The job is started once.
  lemma StartOnce(s: State, u: Uuid, objects: map<Uuid, ChannelJob>) returns (es: seq<Step>, w: nat)
    requires Ready(s, u, objects) && !Quiet(s, u)
    ensures CanAll(s, es) && NoRequeue(es, u) && StartCount(es, |es|, u) == 1
    ensures var s' := DoAll(s, es);
      && Ready(s', u, objects) && PerformedBy(s', w, u) && u in s.rows && u in s'.rows
      && s'.workers[w].retry == s.rows[u].retry && s'.rows[u].maxRetries == s.rows[u].maxRetries
  {
    hide *;
    ReadyParts(s, u, objects);
    var plain;
    plain, w := StartWhatIsNotQuiet(s, u, objects);
    StartedParts(s, plain, w, u);
    ReadyThrough(s, plain, u, objects);
    var s1 := DoAll(s, plain);
    es := plain + [Claim(u, w)];
    StartedIsRun(s, plain, w, u);
    ClaimReady(s1, u, w, objects);
    PlainIsNoRequeue(plain, u);
    StartedNoRequeue(s, plain, w, u);
    PlainStartsNothing(plain, |plain|, u);
    OneMoreStart(plain, Claim(u, w), u);
    OneClaim();
  }

  lemma OneClaim()
    ensures One(true) == 1
  {
  }

  lemma StartedParts(s: State, es: seq<Step>, w: nat, u: Uuid)
    requires StartedBy(s, es, w, u)
    ensures Plain(es, u) && CanAll(s, es) && Can(DoAll(s, es), Claim(u, w))
  {
    hide Plain, CanAll, Can;
  }

  lemma ClaimReady(s: State, u: Uuid, w: nat, objects: map<Uuid, ChannelJob>)
    requires Ready(s, u, objects) && Can(s, Claim(u, w)) && u in s.rows
    ensures var s' := Do(s, Claim(u, w));
      && Ready(s', u, objects) && PerformedBy(s', w, u) && u in s'.rows
      && s'.workers[w].retry == s.rows[u].retry && s'.rows[u].maxRetries == s.rows[u].maxRetries
  {
    hide *;
    ClaimDoes(s, u, w);
    NotNewSteps(u, w);
    ReadyStep(s, Claim(u, w), u, objects);
  }

  lemma ClaimDoes(s: State, u: Uuid, w: nat)
    requires Can(s, Claim(u, w))
    ensures var s' := Do(s, Claim(u, w));
      && PerformedBy(s', w, u) && u in s.rows && u in s'.rows
      && s'.workers[w].retry == s.rows[u].retry && s'.rows[u].maxRetries == s.rows[u].maxRetries
  {
  }

  lemma NotNewSteps(u: Uuid, w: nat)
    ensures !Claim(u, w).AddChannel? && !Claim(u, w).Create?
  {
  }

  lemma ToStartNotQuiet(s: State, u: Uuid)
    requires u in s.rows && (s.rows[u].state.Pending? || s.rows[u].state.WaitDependencies?)
    ensures !Quiet(s, u)
  {
    hide Recalled;
  }

  lemma CanPerform(s: State, u: Uuid, w: nat)
    requires PerformedBy(s, w, u) && u in s.rows
    ensures Can(s, Perform(w, Retryable(false))) && s.workers[w].uuid == u
  {
  }

  // The job asks for a retry, and has one left.
  lemma RetriedReady(s: State, u: Uuid, w: nat, objects: map<Uuid, ChannelJob>)
    requires Ready(s, u, objects) && PerformedBy(s, w, u) && u in s.rows
    requires s.rows[u].maxRetries == 0 || s.workers[w].retry + 1 < s.rows[u].maxRetries
    ensures Can(s, Perform(w, Retryable(false)))
    ensures var s' := Do(s, Perform(w, Retryable(false)));
      && Ready(s', u, objects) && !Quiet(s', u) && u in s'.rows
      && s'.rows[u].retry == s.workers[w].retry + 1 && s'.rows[u].maxRetries == s.rows[u].maxRetries
  {
    hide *;
    CanPerform(s, u, w);
    ReadyStep(s, Perform(w, Retryable(false)), u, objects);
    PerformDoes(s, w, Retryable(false));
    var s' := Do(s, Perform(w, Retryable(false)));
    RetriedRow(s.rows[u], s'.rows[u], s.workers[w]);
    ToStartNotQuiet(s', u);
  }

  lemma RetriedRow(row: Row, row': Row, worker: Worker)
    requires worker.Performing? && (row.maxRetries == 0 || worker.retry + 1 < row.maxRetries)
    requires row'.state.Done? || row'.state.Failed? || row'.state == if worker.parentsDone then JobState.Pending else WaitDependencies
    requires !row'.state.Done?
    requires row'.state.Failed? <==> CountedRetry(Retryable(false)) && 0 < row.maxRetries <= worker.retry + 1
    ensures row'.state.Pending? || row'.state.WaitDependencies?
  {
  }

  lemma OneRetry(s: State, es: seq<Step>, u: Uuid, w: nat)
    requires CanAll(s, es) && NoRequeue(es, u) && Can(DoAll(s, es), Perform(w, Retryable(false)))
    ensures var fs := es + [Perform(w, Retryable(false))];
      && CanAll(s, fs) && DoAll(s, fs) == Do(DoAll(s, es), Perform(w, Retryable(false)))
      && NoRequeue(fs, u) && StartCount(fs, |fs|, u) == StartCount(es, |es|, u)
  {
    OneStep(DoAll(s, es), Perform(w, Retryable(false)));
    StepsAppend(s, es, [Perform(w, Retryable(false))]);
    OneMoreStart(es, Perform(w, Retryable(false)), u);
  }

  lemma Joined(s: State, es: seq<Step>, fs: seq<Step>, u: Uuid)
    requires CanAll(s, es) && CanAll(DoAll(s, es), fs) && NoRequeue(es, u) && NoRequeue(fs, u)
    ensures CanAll(s, es + fs) && NoRequeue(es + fs, u)
    ensures StartCount(es + fs, |es + fs|, u) == StartCount(es, |es|, u) + StartCount(fs, |fs|, u)
  {
    StepsAppend(s, es, fs);
    StartCountSum(es, fs, |fs|, u);
  }

  // A job that still leads to a start can be started as often as it has retries left, and without
  // limit if its retries are not limited.
  lemma {:induction false} StartsAgain(s: State, u: Uuid, objects: map<Uuid, ChannelJob>, n: nat) returns (es: seq<Step>)
    requires Ready(s, u, objects) && !Quiet(s, u) && u in s.rows
    requires s.rows[u].maxRetries == 0 || s.rows[u].retry + n <= s.rows[u].maxRetries
    ensures CanAll(s, es) && NoRequeue(es, u) && StartCount(es, |es|, u) == n
    decreases n
  {
    hide *;
    if n == 0 {
      es := [];
      NoSteps(s, u);
    } else {
      var w;
      es, w := StartOnce(s, u, objects);
      if n > 1 {
        var s1 := DoAll(s, es);
        RetriedReady(s1, u, w, objects);
        OneRetry(s, es, u, w);
        es := es + [Perform(w, Retryable(false))];
        var rest := StartsAgain(DoAll(s, es), u, objects, n - 1);
        Joined(s, es, rest, u);
        es := es + rest;
      }
    }
  }

  lemma NoSteps(s: State, u: Uuid)
    ensures CanAll(s, []) && NoRequeue([], u) && StartCount([], 0, u) == 0
  {
  }

  // A requeued job can be started as often as a new one.
  lemma RequeuedStartsAgain(s: State, u: Uuid, objects: map<Uuid, ChannelJob>, n: nat) returns (es: seq<Step>)
    requires Ready(s, u, objects) && u in s.rows && !s.rows[u].state.WaitDependencies?
    requires s.rows[u].maxRetries == 0 || n <= s.rows[u].maxRetries
    ensures Can(s, UserRequeue(u)) && CanAll(Do(s, UserRequeue(u)), es)
    ensures NoRequeue(es, u) && StartCount(es, |es|, u) == n
  {
    hide *;
    RequeueDoes(s, u);
    CanRequeue(s, u);
    ReadyStep(s, UserRequeue(u), u, objects);
    ToStartNotQuiet(Do(s, UserRequeue(u)), u);
    es := StartsAgain(Do(s, UserRequeue(u)), u, objects, n);
  }

  lemma CanRequeue(s: State, u: Uuid)
    requires u in s.rows
    ensures Can(s, UserRequeue(u)) && Can(s, Reset(u))
  {
  }

  lemma ResetDoes(s: State, u: Uuid)
    requires u in s.rows && s.rows[u].state.Enqueued?
    ensures Can(s, Reset(u)) && Do(s, Reset(u)) == s.(rows := s.rows[u := s.rows[u].(state := JobState.Pending)])
  {
  }

  // When a request has timed out, a job that is still enqueued becomes pending, and nothing else
  // changes, so that it can be started again.
  lemma TimedOutStartsAgain(s: State, u: Uuid, objects: map<Uuid, ChannelJob>) returns (es: seq<Step>, w: nat)
    requires Ready(s, u, objects) && u in s.rows && s.rows[u].state.Enqueued?
    ensures Can(s, Reset(u)) && Do(s, Reset(u)) == s.(rows := s.rows[u := s.rows[u].(state := JobState.Pending)])
    ensures StartedBy(Do(s, Reset(u)), es, w, u)
  {
    hide *;
    ResetDoes(s, u);
    var s' := Do(s, Reset(u));
    ReadyStep(s, Reset(u), u, objects);
    ToStartNotQuiet(s', u);
    ReadyParts(s', u, objects);
    es, w := StartWhatIsNotQuiet(s', u, objects);
  }

  // What has been started or finished meanwhile stays as it is.
  lemma TimedOutLate(s: State, u: Uuid)
    requires u in s.rows ==> !s.rows[u].state.Enqueued?
    ensures Can(s, Reset(u)) && Do(s, Reset(u)) == s
  {
  }
}
