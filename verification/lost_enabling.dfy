// Runs in which a job is left waiting although its parent is done. In the first one the job is
// dispatched, its parent is requeued before the job is started, and is done again before the job
// is postponed. In the second one the worker of the parent gives up.
module LostEnabling {
  import opened ChannelJobs
  import opened ChannelTree
  import opened ChannelTurn
  import opened JobStates
  import opened JobRows
  import opened Scheduler
  import opened SchedulerEffects
  import opened RunnerProtocol
  import opened ProtocolEnabling

  // Job 1 depends on job 0.
  const PAIR: Rows := map[
    0 := Row(JobState.Pending, 0, 5, {}, {1}, 1),
    1 := Row(WaitDependencies, 0, 5, {0}, {}, 1)]

  ghost function OneChannel(waiting: set<ChannelJob>, running: set<ChannelJob>): Tree {
    map[Root := EmptyChan(1).(ready := waiting, running := running)]
  }

  lemma PairIsNew()
    ensures NewBatch(PAIR)
  {
    assert SameGraph(PAIR[0], PAIR[1]);
    assert LinkedAt(PAIR, 0) && LinkedAt(PAIR, 1);
  }

  // Once job 0 is done, job 1 becomes pending.
  lemma FirstDone()
    ensures MarkDone(PAIR, 0) == map[0 := PAIR[0].(state := Done), 1 := PAIR[1].(state := JobState.Pending)]
  {
    var rows := PAIR[0 := PAIR[0].(state := Done)];
    assert SameGraph(rows[0], rows[1]) && IsParent(rows, 0, 1);
    assert Enables(rows, 0, 1) && !Enables(rows, 0, 0);
  }

  lemma JobArrives(job: ChannelJob)
    requires job.channel == Root
    ensures Closed(OneChannel({}, {}))
    ensures Notify(Sched(OneChannel({}, {}), map[]), job, 0.0, JobState.Pending)
      == Sched(OneChannel({job}, {}), map[job.uuid := job])
  {
    assert ParentIn(OneChannel({}, {}), Root);
    var t := OneChannel({}, {});
    var ch := t[Root];
    assert ch.waiting - {job} == map[] && ch.ready - {job} == {} && ch.running - {job} == {} && ch.failed - {job} == {};
    assert Pend(ch, job, 0.0) == ch.(ready := {job});
    assert ChannelTree.Remove(t, Root, job)[Root := Pend(ch, job, 0.0)] == OneChannel({job}, {});
  }

  lemma OneChannelTurn(job: ChannelJob)
    ensures AdvanceAt(OneChannel({job}, {}), Root, 0.0, OneChannel({}, {job}))
    ensures Yielded(OneChannel({job}, {})[Root], OneChannel({}, {job})[Root], [job])
    ensures SettledAt(OneChannel({}, {job}), Root, 0.0)
  {
    assert Elements([job]) == {job};
    assert OneChannel({}, {job})[Root].running == OneChannel({job}, {})[Root].running + {job};
    assert job in OneChannel({}, {job})[Root].running;
  }

  lemma OneChannelSound(job: ChannelJob)
    requires job.channel == Root
    ensures SoundFrom(OneChannel({}, {job}), Root)
  {
    var t := OneChannel({}, {job});
    assert ParentIn(t, Root) && SoundAt(t, Root);
  }

  lemma OneChannelAwake(job: ChannelJob)
    ensures !Silent(OneChannel({job}, {}), Root, 0.0)
  {
    var t := OneChannel({job}, {});
    if Closed(t) {
      assert OpenTo(t, Root, Root, 0.0) && !Stuck(t[Root], 0.0);
    }
  }

  // The scheduler yields the job.
  lemma JobStarts(job: ChannelJob)
    requires job.channel == Root
    ensures Turn(OneChannel({job}, {}), Root, 0.0, OneChannel({}, {job}), [job])
  {
    OneChannelSound(job);
    OneChannelAwake(job);
    OneChannelTurn(job);
    hide SoundFrom, Silent, AdvanceAt, SettledAt, Yielded;
  }

  // The steps up to the start of job 1.
  ghost function Prelude(job: ChannelJob): seq<Step> {
    [Create(PAIR), UserDone(0), Fetch(1), Apply(job, 0.0), RunJobs(0.0, OneChannel({}, {job}), [job]),
     Dispatch, UserRequeue(0), Claim(1, 0)]
  }

  ghost function PairIn(state0: JobState, state1: JobState): Rows {
    map[0 := PAIR[0].(state := state0), 1 := PAIR[1].(state := state1)]
  }

  // The states between the steps.
  ghost function At(job: ChannelJob, i: nat): State {
    var empty := Sched(OneChannel({}, {}), map[]);
    var running := Sched(OneChannel({}, {job}), map[1 := job]);
    if i == 0 then State(map[], empty, Idle, [], map[], {})
    else if i == 1 then State(PAIR, empty, Idle, [], map[], {})
    else if i == 2 then State(PairIn(Done, JobState.Pending), empty, Idle, [], map[], {0})
    else if i == 3 then State(PairIn(Done, JobState.Pending), empty, Data(1, JobState.Pending), [], map[], {0})
    else if i == 4 then
      State(PairIn(Done, JobState.Pending), Sched(OneChannel({job}, {}), map[1 := job]), Idle, [], map[], {0})
    else if i == 5 then State(PairIn(Done, JobState.Pending), running, Idle, [1], map[], {0})
    else if i == 6 then State(PairIn(Done, JobState.Enqueued), running, Idle, [], map[], {0})
    else if i == 7 then State(PairIn(JobState.Pending, JobState.Enqueued), running, Idle, [], map[], {0})
    else State(PairIn(JobState.Pending, Started), running, Idle, [], map[0 := Performing(1, 0, false)], {0})
  }

  lemma StoredAndFetched(job: ChannelJob)
    requires job.channel == Root && job.uuid == 1
    ensures forall i :: 0 <= i < 3 ==> Next(At(job, i), Prelude(job)[i], At(job, i + 1))
  {
    PairIsNew();
    FirstDone();
    assert map[] + PAIR == PAIR;
  }

  lemma NotifiedAndYielded(job: ChannelJob)
    requires job.channel == Root && job.uuid == 1
    ensures forall i :: 3 <= i < 5 ==> Next(At(job, i), Prelude(job)[i], At(job, i + 1))
  {
    JobArrives(job);
    JobStarts(job);
    hide Turn, Notify, Closed;
    assert Uuids([job]) == [1];
  }

  lemma DispatchedAndStarted(job: ChannelJob)
    requires job.channel == Root && job.uuid == 1
    ensures forall i :: 5 <= i < 8 ==> Next(At(job, i), Prelude(job)[i], At(job, i + 1))
  {
    DispatchedRows();
    StartedRows();
    hide SetEnqueued, Requeue, AllDone, PairIn;
  }

  lemma DispatchedRows()
    ensures SetEnqueued(PairIn(Done, JobState.Pending), 1) == PairIn(Done, JobState.Enqueued)
    ensures var rows := PairIn(Done, JobState.Enqueued);
      0 in rows && Requeue(rows, 0) == PairIn(JobState.Pending, JobState.Enqueued)
  {
    var rows := PairIn(Done, JobState.Enqueued);
    assert AllDone(rows, rows[0].dependsOn);
  }

  lemma StartedRows()
    ensures var rows := PairIn(JobState.Pending, JobState.Enqueued);
      && 1 in rows && rows[1].state.Enqueued? && rows[1].retry == 0 && !AllDone(rows, rows[1].dependsOn)
      && rows[1 := rows[1].(state := Started)] == PairIn(JobState.Pending, Started)
  {
    var rows := PairIn(JobState.Pending, JobState.Enqueued);
    assert 0 in rows[1].dependsOn;
  }

  lemma {:induction false} RunTo(job: ChannelJob, i: nat)
    requires job.channel == Root && job.uuid == 1 && i <= 8
    ensures CanAll(At(job, i), Prelude(job)[i..]) && DoAll(At(job, i), Prelude(job)[i..]) == At(job, 8)
    decreases 8 - i
  {
    if i < 8 {
      StoredAndFetched(job);
      NotifiedAndYielded(job);
      DispatchedAndStarted(job);
      hide Can, Do, At, Prelude;
      RunTo(job, i + 1);
      assert Prelude(job)[i..][0] == Prelude(job)[i] && Prelude(job)[i..][1..] == Prelude(job)[i + 1..];
    }
  }

  // From an empty table and an empty scheduler a job can be left waiting for nothing, though no
  // worker gives up.
  lemma EnablingCanBeLost(job: ChannelJob) returns (before: seq<Step>, after: seq<Step>)
    requires job.channel == Root && job.uuid == 1
    ensures Initial(At(job, 0)) && CanAll(At(job, 0), before)
    ensures forall i :: 0 <= i < |before| ==> !before[i].Conflict?
    ensures CanAll(DoAll(At(job, 0), before), after) && Orderly(DoAll(At(job, 0), before), after)
    ensures !NothingLost(DoAll(DoAll(At(job, 0), before), after))
  {
    hide *;
    before := Prelude(job);
    NoConflicts(job);
    RunTo(job, 0);
    EmptyIsInitial(job);
    StaleState(job);
    assert before[0..] == before;
    after := StaleWorkerLoses(At(job, 8), 0);
  }

  lemma NoConflicts(job: ChannelJob)
    ensures forall i :: 0 <= i < |Prelude(job)| ==> !Prelude(job)[i].Conflict?
  {
  }

  // Worker 0 performs job 1 and has seen that job 0 was not done.
  lemma StaleState(job: ChannelJob)
    ensures TableOk(At(job, 8)) && 0 in At(job, 8).workers && At(job, 8).workers[0] == Performing(1, 0, false)
    ensures 1 in At(job, 8).rows && 1 !in At(job, 8).rows[1].dependsOn
  {
    var s := At(job, 8);
    assert SameGraph(s.rows[0], s.rows[1]);
    assert LinkedAt(s.rows, 0) && LinkedAt(s.rows, 1);
  }

  lemma EmptyIsInitial(job: ChannelJob)
    ensures Initial(At(job, 0))
  {
    var s := At(job, 0).sched;
    assert s.tree == map[Root := EmptyChan(1)];
    OneChannelOk(s);
    forall u ensures !Holds(s, u) {
      assert HoldsNone(s.tree[Root], u);
    }
  }

  // ---------- A worker gives up ----------

  ghost function AfterParent(job: ChannelJob): seq<Step> {
    [Create(PAIR), Fetch(0), Apply(job, 0.0), RunJobs(0.0, OneChannel({}, {job}), [job]), Dispatch, Claim(0, 0),
     Perform(0, Success), Conflict(0), Conflict(0), Conflict(0), Conflict(0), Conflict(0), Conflict(0)]
  }

  ghost function GaveUpAt(job: ChannelJob, i: nat): State {
    var empty := Sched(OneChannel({}, {}), map[]);
    var running := Sched(OneChannel({}, {job}), map[0 := job]);
    var done := PAIR[0 := PAIR[0].(state := Done, retry := 1)];
    if i == 0 then State(map[], empty, Idle, [], map[], {})
    else if i == 1 then State(PAIR, empty, Idle, [], map[], {})
    else if i == 2 then State(PAIR, empty, Data(0, JobState.Pending), [], map[], {})
    else if i == 3 then State(PAIR, Sched(OneChannel({job}, {}), map[0 := job]), Idle, [], map[], {})
    else if i == 4 then State(PAIR, running, Idle, [0], map[], {})
    else if i == 5 then State(PairIn(JobState.Enqueued, WaitDependencies), running, Idle, [], map[], {})
    else if i == 6 then State(PairIn(Started, WaitDependencies), running, Idle, [], map[0 := Performing(0, 0, true)], {})
    else if i <= 12 then State(done, running, Idle, [], map[0 := Enabling(0, i - 7)], {0})
    else State(done, running, Idle, [], map[], {0})
  }

  lemma ParentStored(job: ChannelJob)
    requires job.channel == Root && job.uuid == 0
    ensures forall i :: 0 <= i < 2 ==> Next(GaveUpAt(job, i), AfterParent(job)[i], GaveUpAt(job, i + 1))
  {
    PairIsNew();
    assert map[] + PAIR == PAIR;
  }

  lemma ParentYielded(job: ChannelJob)
    requires job.channel == Root && job.uuid == 0
    ensures forall i :: 2 <= i < 4 ==> Next(GaveUpAt(job, i), AfterParent(job)[i], GaveUpAt(job, i + 1))
  {
    JobArrives(job);
    JobStarts(job);
    hide Turn, Notify, Closed;
    assert Uuids([job]) == [0];
  }

  lemma ParentStarted(job: ChannelJob)
    requires job.channel == Root && job.uuid == 0
    ensures forall i :: 4 <= i < 6 ==> Next(GaveUpAt(job, i), AfterParent(job)[i], GaveUpAt(job, i + 1))
  {
    var rows := PairIn(JobState.Enqueued, WaitDependencies);
    assert SetEnqueued(PAIR, 0) == rows;
    assert rows[0 := rows[0].(state := Started)] == PairIn(Started, WaitDependencies);
    assert AllDone(rows, rows[0].dependsOn);
  }

  lemma ParentDone(job: ChannelJob)
    requires job.channel == Root && job.uuid == 0
    ensures Next(GaveUpAt(job, 6), AfterParent(job)[6], GaveUpAt(job, 7))
  {
    var rows := PairIn(Started, WaitDependencies);
    assert rows[0 := JobRows.Finish(rows[0], 0, true, Success)] == GaveUpAt(job, 7).rows;
    assert map[0 := Performing(0, 0, true)][0 := Enabling(0, 0)] == map[0 := Enabling(0, 0)];
  }

  lemma ConflictsGiveUp(job: ChannelJob, i: nat)
    requires job.channel == Root && job.uuid == 0 && 7 <= i < 13
    ensures Next(GaveUpAt(job, i), AfterParent(job)[i], GaveUpAt(job, i + 1))
  {
    assert AfterParent(job)[i] == Conflict(0);
    assert map[0 := Enabling(0, i - 7)][0 := Enabling(0, i - 6)] == map[0 := Enabling(0, i - 6)];
    assert map[0 := Enabling(0, 5)] - {0} == map[];
  }

  lemma GiveUpStep(job: ChannelJob, i: nat)
    requires job.channel == Root && job.uuid == 0 && i < 13
    ensures |AfterParent(job)| == 13 && Next(GaveUpAt(job, i), AfterParent(job)[i], GaveUpAt(job, i + 1))
  {
    if i < 2 { ParentStored(job); }
    else if i < 4 { ParentYielded(job); }
    else if i < 6 { ParentStarted(job); }
    else if i == 6 { ParentDone(job); }
    else { ConflictsGiveUp(job, i); }
  }

  lemma NoneIsStale(job: ChannelJob, i: nat)
    requires i < 13
    ensures |AfterParent(job)| == 13 && !StaleClaim(GaveUpAt(job, i), AfterParent(job)[i])
  {
    assert AfterParent(job)[i].Claim? ==> i == 5;
  }

  // From an empty table and an empty scheduler, a worker whose attempts to enable the children of
  // its job all conflict with other transactions leaves a job waiting for nothing, although every
  // job is started with its parents done.
  lemma EnablingIsGivenUp(job: ChannelJob) returns (ss: seq<State>, es: seq<Step>)
    requires job.channel == Root && job.uuid == 0
    ensures IsRun(ss, es) && Initial(ss[0]) && !NothingLost(ss[|es|])
    ensures forall i :: 0 <= i < |es| ==> !StaleClaim(ss[i], es[i])
  {
    es := AfterParent(job);
    ss := seq(14, i requires 0 <= i < 14 => GaveUpAt(job, i));
    EmptyIsInitial(job);
    var s := GaveUpAt(job, 13);
    assert WaitsForNothing(s, 1) && !Outstanding(s, 1);
    assert GaveUpAt(job, 0) == At(job, 0);
    hide Next, GaveUpAt, AfterParent, StaleClaim;
    GiveUpStep(job, 0);
    forall i | 0 <= i < |es| ensures Next(ss[i], es[i], ss[i + 1]) && !StaleClaim(ss[i], es[i]) {
      GiveUpStep(job, i);
      NoneIsStale(job, i);
    }
  }
}
