// Runs, from an empty table, in which a job is performed by two workers, is performed although it
// was cancelled, or is started more often than its retries allow.
module ProtocolExamples {
  import opened ChannelJobs
  import opened ChannelTree
  import opened ChannelTurn
  import opened ChannelOnlyJob
  import opened JobStates
  import opened JobRows
  import opened Scheduler
  import opened SchedulerEffects
  import opened RunnerProtocol
  import opened ProtocolSafety
  import opened ProtocolExclusive
  import opened ProtocolRestart

  // A job without parents and without graph, that is tried once.
  const SINGLE: Rows := map[0 := Row(JobState.Pending, 0, 1, {}, {}, 0)]

  ghost predicate Start(s: State, job: ChannelJob) {
    Initial(s) && Capable(s.sched.tree) && job.uuid == 0 && job.channel == Root
  }

  // Steps from the start, with which the job was stored.
  ghost predicate Course(s: State, es: seq<Step>) {
    && CanAll(s, es) && Capable(DoAll(s, es).sched.tree)
    && Root in DoAll(s, es).sched.tree
    && DoAll(s, es).rows.Keys == {0} && DoAll(s, es).rows[0].dependsOn == {} && DoAll(s, es).rows[0].maxRetries == 1
  }

  lemma CourseIsRegular(s: State, es: seq<Step>)
    requires Initial(s) && CanAll(s, es)
    ensures Regular(DoAll(s, es))
  {
    StatesAreRun(s, es);
    RegularAlong(States(s, es), es, |es|);
  }

  lemma StartParts(s: State, job: ChannelJob)
    requires Start(s, job)
    ensures Initial(s) && Capable(s.sched.tree) && job.uuid == 0 && job.channel == Root
  {
  }

  lemma CourseParts(s: State, es: seq<Step>)
    requires Course(s, es)
    ensures CanAll(s, es) && 0 in DoAll(s, es).rows && DoAll(s, es).rows[0].maxRetries == 1 && Able(DoAll(s, es), 0)
  {
  }

  // The one job object is enough for every state of the course.
  lemma CourseDescribes(s: State, es: seq<Step>, job: ChannelJob)
    requires Initial(s) && Course(s, es) && job.uuid == 0 && job.channel == Root
    ensures Describe(DoAll(s, es), 0, map[0 := job])
  {
    CourseIsRegular(s, es);
    hide Safe;
  }

  lemma RegisterCapacity(s: Sched, job: ChannelJob, m: ChannelPath)
    requires m in s.tree
    ensures m in Register(s, job).tree && Register(s, job).tree[m].capacity == s.tree[m].capacity
  {
  }

  lemma SchedulerCapable(s: Sched, job: ChannelJob, eta: Time, state: JobState)
    requires SchedOk(s) && Capable(s.tree) && Closed(s.tree) && job.channel in s.tree
    ensures Capable(Notify(s, job, eta, state).tree)
  {
    var s1 := Register(s, job);
    RegisterOk(s, job);
    ForgetClosed(s, job);
    NotifyIs(s, job, eta, state);
    RootIn(s1);
    assert Sound(s1.tree);
    TransitionKeys(s1.tree, job, eta, state);
    hide SchedOk, Register, Transition, Notify, Sound, Closed;
    forall m | m in s1.tree ensures Transition(s1.tree, job, eta, state)[m].capacity >= 0 {
      RegisterCapacity(s, job, m);
      TransitionCapacity(s1.tree, job, eta, state, m);
    }
  }

  lemma CapableStep(s: State, e: Step)
    requires Can(s, e) && SchedOk(s.sched) && Capable(s.sched.tree) && !e.AddChannel?
    ensures Capable(Do(s, e).sched.tree)
  {
    if e.Apply? { SchedulerCapable(s.sched, e.job, e.eta, s.fetched.state); }
    if e.RunJobs? {
      forall m | m in e.tree ensures e.tree[m].capacity >= 0 {
        WithinRoot(m);
        assert AdvanceAt(s.sched.tree, m, e.now, e.tree);
      }
    }
  }

  lemma CourseOn(s: State, es: seq<Step>, e: Step)
    requires Initial(s) && Course(s, es) && Can(DoAll(s, es), e) && !e.AddChannel? && !e.Create?
    ensures Course(s, es + [e]) && DoAll(s, es + [e]) == Do(DoAll(s, es), e)
  {
    var s1 := DoAll(s, es);
    CourseIsRegular(s, es);
    SafeParts(s1);
    CapableStep(s1, e);
    RowsStep(s1, e, Do(s1, e), 0);
    RowsKeys(s1, e, Do(s1, e));
    SchedulerStep(s1, e, Do(s1, e));
    OneStep(s1, e);
    StepsAppend(s, es, [e]);
  }

  lemma {:induction false} CourseThrough(s: State, es: seq<Step>, fs: seq<Step>)
    requires Initial(s) && Course(s, es) && CanAll(DoAll(s, es), fs) && Plain(fs, 0)
    ensures Course(s, es + fs) && DoAll(s, es + fs) == DoAll(DoAll(s, es), fs)
    decreases |fs|
  {
    hide *;
    CourseParts(s, es);
    StepsFrom(DoAll(s, es), fs);
    if fs == [] {
      assert es + fs == es;
    } else {
      PlainRest(fs, 0);
      CourseOn(s, es, fs[0]);
      CourseThrough(s, es + [fs[0]], fs[1..]);
      assert es + [fs[0]] + fs[1..] == es + fs;
    }
  }

  lemma StepsFrom(s: State, fs: seq<Step>)
    requires CanAll(s, fs)
    ensures fs == [] ==> DoAll(s, fs) == s
    ensures fs != [] ==> Can(s, fs[0]) && CanAll(Do(s, fs[0]), fs[1..]) && DoAll(s, fs) == DoAll(Do(s, fs[0]), fs[1..])
  {
  }

  lemma PlainRest(es: seq<Step>, u: Uuid)
    requires Plain(es, u) && es != []
    ensures Plain(es[1..], u) && !es[0].AddChannel? && !es[0].Create?
  {
    assert PlainStep(es[0], u);
    forall i | 0 <= i < |es[1..]| ensures PlainStep(es[1..][i], u) {
      assert PlainStep(es[i + 1], u);
    }
  }

  // ---------- One more start ----------

  lemma {:induction false} StartCountSum(es: seq<Step>, fs: seq<Step>, n: nat, u: Uuid)
    requires n <= |fs|
    ensures StartCount(es + fs, |es| + n, u) == StartCount(es, |es|, u) + StartCount(fs, n, u)
  {
    if n == 0 {
      StartCountPrefix(es, fs, |es|, u);
    } else {
      StartCountSum(es, fs, n - 1, u);
      assert (es + fs)[|es| + n - 1] == fs[n - 1];
    }
  }

  lemma {:induction false} StartCountPrefix(es: seq<Step>, fs: seq<Step>, n: nat, u: Uuid)
    requires n <= |es|
    ensures StartCount(es + fs, n, u) == StartCount(es, n, u)
  {
    if n > 0 {
      StartCountPrefix(es, fs, n - 1, u);
      assert (es + fs)[n - 1] == es[n - 1];
    }
  }

  lemma {:induction false} PlainStartsNothing(es: seq<Step>, n: nat, u: Uuid)
    requires Plain(es, u) && n <= |es|
    ensures StartCount(es, n, u) == 0
  {
    if n > 0 {
      PlainStartsNothing(es, n - 1, u);
      assert PlainStep(es[n - 1], u);
    }
  }

  lemma OneMoreStart(es: seq<Step>, e: Step, u: Uuid)
    ensures StartCount(es + [e], |es| + 1, u) == StartCount(es, |es|, u) + One(e.Claim? && e.uuid == u)
  {
    StartCountPrefix(es, [e], |es|, u);
    assert (es + [e])[|es|] == e;
  }

  // The job is started once more, whatever the tree of channels is.
  lemma Again(s: State, es: seq<Step>, job: ChannelJob) returns (fs: seq<Step>, w: nat)
    requires Start(s, job) && Course(s, es) && !Quiet(DoAll(s, es), 0)
    ensures Course(s, es + fs) && PerformedBy(DoAll(s, es + fs), w, 0) && w !in DoAll(s, es).workers
    ensures DoAll(s, es + fs).workers.Keys == DoAll(s, es).workers.Keys + {w}
    ensures forall v :: v in DoAll(s, es).workers ==> DoAll(s, es + fs).workers[v] == DoAll(s, es).workers[v]
    ensures StartCount(es + fs, |es + fs|, 0) == StartCount(es, |es|, 0) + 1 && NoRequeue(fs, 0)
  {
    hide *;
    StartParts(s, job);
    CourseParts(s, es);
    var s1 := DoAll(s, es);
    CourseIsRegular(s, es);
    var plain;
    CourseDescribes(s, es, job);
    plain, w := StartWhatIsNotQuiet(s1, 0, map[0 := job]);
    fs := plain + [Claim(0, w)];
    Claimed(s, es, plain, w);
    StartedPlain(s1, plain, w);
    AgainCount(es, plain, w);
  }

  lemma StartedPlain(s: State, plain: seq<Step>, w: nat)
    requires StartedBy(s, plain, w, 0)
    ensures Plain(plain, 0)
  {
  }

  lemma Claimed(s: State, es: seq<Step>, plain: seq<Step>, w: nat)
    requires Initial(s) && Course(s, es) && StartedBy(DoAll(s, es), plain, w, 0)
    ensures var es', workers := es + (plain + [Claim(0, w)]), DoAll(s, es).workers;
      && Course(s, es') && PerformedBy(DoAll(s, es'), w, 0) && w !in workers
      && DoAll(s, es').workers.Keys == workers.Keys + {w}
      && (forall v :: v in workers ==> DoAll(s, es').workers[v] == workers[v])
  {
    hide Initial, Course, CanAll, DoAll;
    CourseParts(s, es);
    CourseThrough(s, es, plain);
    PlainKeepsWorkers(DoAll(s, es), plain, 0);
    CourseOn(s, es + plain, Claim(0, w));
    assert es + (plain + [Claim(0, w)]) == es + plain + [Claim(0, w)];
  }

  lemma AgainCount(es: seq<Step>, plain: seq<Step>, w: nat)
    requires Plain(plain, 0)
    ensures var fs := plain + [Claim(0, w)];
      StartCount(es + fs, |es + fs|, 0) == StartCount(es, |es|, 0) + 1 && NoRequeue(fs, 0)
  {
    var claim := Claim(0, w);
    assert es + (plain + [claim]) == es + plain + [claim];
    hide StartCount;
    StartCountSum(es, plain, |plain|, 0);
    PlainStartsNothing(plain, |plain|, 0);
    OneMoreStart(es + plain, claim, 0);
    PlainIsNoRequeue(plain, 0);
  }

  lemma Stored(s: State)
    requires Initial(s) && Capable(s.sched.tree)
    ensures Course(s, [Create(SINGLE)]) && DoAll(s, [Create(SINGLE)]).rows == SINGLE
    ensures !Quiet(DoAll(s, [Create(SINGLE)]), 0) && DoAll(s, [Create(SINGLE)]).workers == map[]
    ensures DoAll(s, [Create(SINGLE)]).fetched.Idle? && DoAll(s, [Create(SINGLE)]).outbox == []
    ensures StartCount([Create(SINGLE)], 1, 0) == 0
  {
    assert LinkedAt(SINGLE, 0);
    assert map[] + SINGLE == SINGLE;
    OneStep(s, Create(SINGLE));
  }

  // ---------- The runs ----------

  // A user requeues the job while it is performed: a second worker performs it, too.
  lemma TwoWorkers(s: State, job: ChannelJob) returns (es: seq<Step>, v: nat, w: nat)
    requires Start(s, job)
    ensures CanAll(s, es) && v != w && PerformedBy(DoAll(s, es), v, 0) && PerformedBy(DoAll(s, es), w, 0)
  {
    hide Start, Course, Quiet, Initial, NoRequeue;
    StartParts(s, job);
    Stored(s);
    var fs, gs;
    fs, v := Again(s, [Create(SINGLE)], job);
    var before := [Create(SINGLE)] + fs;
    RequeuedAgain(s, before, v);
    gs, w := Again(s, before + [UserRequeue(0)], job);
    es := before + [UserRequeue(0)] + gs;
    CourseParts(s, es);
  }

  lemma RequeuedAgain(s: State, es: seq<Step>, v: nat)
    requires Initial(s) && Course(s, es) && PerformedBy(DoAll(s, es), v, 0)
    ensures Course(s, es + [UserRequeue(0)]) && !Quiet(DoAll(s, es + [UserRequeue(0)]), 0)
    ensures DoAll(s, es + [UserRequeue(0)]).workers == DoAll(s, es).workers
  {
    CourseOn(s, es, UserRequeue(0));
  }

  // A user cancels the job after the runner has read its row: it is performed nevertheless.
  lemma CancelledIsPerformed(s: State, job: ChannelJob) returns (before: seq<Step>, after: seq<Step>)
    requires Start(s, job)
    ensures CanAll(s, before) && 0 in DoAll(s, before).rows && DoAll(s, before).rows[0].state.Cancelled?
    ensures CanAll(s, before + after) && NoRequeue(after, 0) && InProgress(DoAll(s, before + after), 0)
  {
    hide Start, Course, Quiet, Initial, NoRequeue;
    StartParts(s, job);
    Stored(s);
    before := CancelledAfterRead(s);
    var w;
    after, w := Again(s, before, job);
    CourseParts(s, before + after);
  }

  lemma CancelledAfterRead(s: State) returns (es: seq<Step>)
    requires Initial(s) && Course(s, [Create(SINGLE)]) && DoAll(s, [Create(SINGLE)]).rows == SINGLE
    requires DoAll(s, [Create(SINGLE)]).fetched.Idle? && DoAll(s, [Create(SINGLE)]).outbox == []
    ensures Course(s, es) && DoAll(s, es).rows[0].state.Cancelled? && !Quiet(DoAll(s, es), 0)
  {
    var stored := [Create(SINGLE)];
    CourseOn(s, stored, Fetch(0));
    CourseOn(s, stored + [Fetch(0)], UserCancel(0));
    es := stored + [Fetch(0)] + [UserCancel(0)];
  }

  // The job meets a concurrency error when it is tried for the first and only time, and is started
  // once more.
  lemma TriedOnceMore(s: State, job: ChannelJob) returns (es: seq<Step>)
    requires Start(s, job)
    ensures CanAll(s, es) && 0 in DoAll(s, es).rows && DoAll(s, es).rows[0].maxRetries == 1
    ensures StartCount(es, |es|, 0) == 2 && NoRequeue(es, 0)
  {
    hide Start, Course, Quiet, Initial;
    StartParts(s, job);
    Stored(s);
    var fs, v := Again(s, [Create(SINGLE)], job);
    var before := [Create(SINGLE)] + fs;
    var perform := Perform(v, ConcurrencyError);
    PostponedAgain(s, before, v);
    OneMoreStart(before, perform, 0);
    var gs, w := Again(s, before + [perform], job);
    es := before + [perform] + gs;
    CourseParts(s, es);
  }

  lemma PostponedAgain(s: State, es: seq<Step>, v: nat)
    requires Initial(s) && Course(s, es) && PerformedBy(DoAll(s, es), v, 0)
    ensures Course(s, es + [Perform(v, ConcurrencyError)]) && !Quiet(DoAll(s, es + [Perform(v, ConcurrencyError)]), 0)
  {
    CourseOn(s, es, Perform(v, ConcurrencyError));
  }

  // ---------- There is a start ----------

  lemma EmptyStart(s: State, job: ChannelJob)
    requires s == State(map[], Sched(map[Root := EmptyChan(1)], map[]), Idle, [], map[], {})
    requires job.uuid == 0 && job.channel == Root
    ensures Start(s, job)
  {
    OneChannelOk(s.sched);
    forall u ensures !Holds(s.sched, u) {
      assert HoldsNone(s.sched.tree[Root], u);
    }
  }

  // With the default tree of channels and one new job object.
  method FirstStart() returns (job: ChannelJob, ghost s: State)
    ensures fresh(job) && Start(s, job)
  {
    job := new ChannelJob("db", Root, 0, 1, 0, 10, 0.0);
    s := State(map[], Sched(map[Root := EmptyChan(1)], map[]), Idle, [], map[], {});
    EmptyStart(s, job);
  }
}
