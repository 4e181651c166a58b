// What holds over whole runs of the scheduler, whatever notifications come in between the
// calls of get_jobs_to_run.
module SchedulerRuns {
  import opened ChannelJobs
  import opened ChannelTree
  import opened ChannelTurn
  import opened ChannelProgress

  // ---------- No lost wakeup, work conservation ----------

  // A channel without throttle is never paused; only a throttle sets a pause.
  ghost predicate PausesOfThrottles(t: Tree) {
    forall m :: m in t && t[m].throttle == 0 ==> t[m].pauseUntil == 0.0
  }

  ghost predicate AllSane(t: Tree, now: Time) {
    forall m :: m in t ==> Sane(t[m], now)
  }

  ghost predicate AllSettled(t: Tree, now: Time) {
    forall m :: m in t ==> Settled(t[m], now)
  }

  lemma TurnSettles(t: Tree, now: Time, t': Tree, jobs: seq<ChannelJob>)
    requires Sound(t) && AllSane(t, now) && PausesOfThrottles(t) && Turn(t, Root, now, t', jobs)
    ensures AllSettled(t', now) && AllSane(t', now) && PausesOfThrottles(t')
  {
    forall m | m in t'
      ensures Settled(t'[m], now) && Sane(t'[m], now) && (t'[m].throttle == 0 ==> t'[m].pauseUntil == 0.0)
    {
      WithinRoot(m);
      assert AdvanceAt(t, m, now, t') && SettledAt(t', m, now);
    }
  }

  lemma {:induction false} OpenIsClear(t: Tree, m: ChannelPath, now: Time, wakeup: Time, later: Time)
    requires Closed(t) && AllSettled(t, now) && PausesOfThrottles(t) && m in t
    requires 0.0 !in Wakeups(t, Root)
    requires Earliest(0.0, Wakeups(t, Root), wakeup) && (wakeup == 0.0 || later < wakeup)
    requires OpenTo(t, Root, m, later)
    ensures ClearTo(t, Root, m)
    decreases m
  {
    assert ParentIn(t, m);
    if m.Sub? {
      OpenIsClear(t, m.parent, now, wakeup, later);
      WithinRoot(m.parent);
      var pause := t[m.parent].pauseUntil;
      assert pause in OwnWakeups(t[m.parent]) ==> pause in Wakeups(t, Root);
    }
  }

  lemma OwnInWakeups(t: Tree, m: ChannelPath, w: Time)
    requires Closed(t) && m in t && ClearTo(t, Root, m) && w in OwnWakeups(t[m])
    ensures w in Wakeups(t, Root)
  {
    WithinRoot(m);
  }

  // A settled channel stays stuck until the first of its own wakeup times.
  lemma StuckUntil(ch: Chan, now: Time, later: Time)
    requires Settled(ch, now) && (ch.throttle == 0 ==> ch.pauseUntil == 0.0)
    requires forall w :: w in OwnWakeups(ch) ==> later < w
    ensures Stuck(ch, later)
  {
    if HasCapacity(ch) {
      if ch.pauseUntil != 0.0 {
        assert ch.pauseUntil in OwnWakeups(ch);
      } else {
        forall j | j in ch.waiting ensures later < ch.waiting[j] {
          assert ch.waiting[j] in OwnWakeups(ch);
        }
      }
    }
  }

  lemma StaysStuckUntilWakeup(t: Tree, m: ChannelPath, now: Time, wakeup: Time, later: Time)
    requires Closed(t) && AllSettled(t, now) && PausesOfThrottles(t) && m in t && ClearTo(t, Root, m)
    requires 0.0 !in Wakeups(t, Root)
    requires Earliest(0.0, Wakeups(t, Root), wakeup) && (wakeup == 0.0 || later < wakeup)
    ensures Stuck(t[m], later)
  {
    hide Stuck, Settled, OwnWakeups, Wakeups, ClearTo, Closed;
    forall w | w in OwnWakeups(t[m]) ensures later < w {
      OwnInWakeups(t, m, w);
    }
    StuckUntil(t[m], now, later);
  }

  // Once all channels are settled, the wakeup time is in the future, and until then no call
  // yields a job.
  lemma NoLostWakeup(t: Tree, now: Time, wakeup: Time, later: Time)
    requires Sound(t) && AllSettled(t, now) && PausesOfThrottles(t)
    requires Earliest(0.0, Wakeups(t, Root), wakeup)
    requires now <= later && (wakeup == 0.0 || later < wakeup)
    ensures wakeup == 0.0 || now < wakeup
    ensures Silent(t, Root, later)
  {
    forall w | w in Wakeups(t, Root) ensures w != 0.0 && now < w {
      WakeupsAreLater(t, now, w);
    }
    forall m | m in t && Within(Root, m) && OpenTo(t, Root, m, later) ensures Stuck(t[m], later) {
      OpenIsClear(t, m, now, wakeup, later);
      StaysStuckUntilWakeup(t, m, now, wakeup, later);
    }
  }

  lemma WakeupsAreLater(t: Tree, now: Time, w: Time)
    requires Sound(t) && AllSettled(t, now) && PausesOfThrottles(t)
    requires w in Wakeups(t, Root)
    ensures w != 0.0 && now < w
  {
    var m :| m in t && ClearTo(t, Root, m) && w in OwnWakeups(t[m]);
    assert SoundAt(t, m);
    OwnWakeup(t[m], w);
  }

  // The whole story for the runner: call, ask for the wakeup time, call again before it.
  lemma SleepingLosesNothing(t: Tree, now: Time, t1: Tree, jobs1: seq<ChannelJob>,
                             wakeup: Time, later: Time, t2: Tree, jobs2: seq<ChannelJob>)
    requires Sound(t) && AllSane(t, now) && PausesOfThrottles(t)
    requires Turn(t, Root, now, t1, jobs1)
    requires Earliest(0.0, Wakeups(t1, Root), wakeup)
    requires now <= later && Turn(t1, Root, later, t2, jobs2)
    ensures wakeup == 0.0 || now < wakeup
    ensures wakeup == 0.0 || later < wakeup ==> jobs2 == []
  {
    TurnSettles(t, now, t1, jobs1);
    if wakeup in Wakeups(t1, Root) { WakeupsAreLater(t1, now, wakeup); }
    if wakeup == 0.0 || later < wakeup {
      NoLostWakeup(t1, now, wakeup, later);
    }
  }

  // After a call every job still queued has its eta in the future, or the channel may start no job
  // at all, or it is sequential and another job that waits comes before.
  lemma WorkConserved(t: Tree, now: Time, t': Tree, jobs: seq<ChannelJob>, m: ChannelPath, job: ChannelJob)
    requires Sound(t) && AllSane(t, now) && Turn(t, Root, now, t', jobs)
    requires m in t' && job in Queued(t'[m])
    ensures Within(m, job.channel)
    ensures (job in t'[m].waiting && now < t'[m].waiting[job]) || Shut(t'[m], now) || HeldBack(t'[m], now, job)
  {
    WithinRoot(m);
    assert AdvanceAt(t, m, now, t') && SettledAt(t', m, now) && SoundAt(t', m);
    if Due(t'[m], now, job) { SettledLeavesNothing(t'[m], now, job); }
  }

  // ---------- Runs ----------

  datatype Event =
    | Pending(job: ChannelJob, eta: Time)
    | Running(job: ChannelJob)
    | Failed(job: ChannelJob)
    | Removed(job: ChannelJob)
    | Called(now: Time, jobs: seq<ChannelJob>)

  ghost predicate Next(t: Tree, e: Event, t': Tree) {
    Sound(t) &&
    match e
    case Pending(job, eta) => job.channel in t && t' == SetPending(t, job.channel, job, eta)
    case Running(job) => job.channel in t && t' == SetRunning(t, job.channel, job)
    case Failed(job) => job.channel in t && t' == SetFailed(t, job.channel, job)
    case Removed(job) => job.channel in t && t' == Remove(t, job.channel, job)
    case Called(now, jobs) => Turn(t, Root, now, t', jobs)
  }

  // A run whose clock does not go back.
  ghost predicate IsRun(ts: seq<Tree>, es: seq<Event>) {
    && |ts| == |es| + 1
    && (forall i :: 0 <= i < |es| ==> Next(ts[i], es[i], ts[i + 1]))
    && (forall i, k :: 0 <= i < k < |es| && es[i].Called? && es[k].Called? ==> es[i].now <= es[k].now)
  }

  lemma NextSound(t: Tree, e: Event, t': Tree)
    requires Next(t, e, t')
    ensures Sound(t') && t'.Keys == t.Keys
  {
    match e
    case Pending(job, eta) => SetPendingSound(t, job, eta);
    case Running(job) => SetRunningSound(t, job);
    case Failed(job) => SetFailedSound(t, job);
    case Removed(job) => RemoveSound(t, job);
    case Called(now, jobs) =>
  }

  lemma {:induction false} SoundAlong(ts: seq<Tree>, es: seq<Event>, i: nat)
    requires IsRun(ts, es) && Sound(ts[0]) && i < |ts|
    ensures Sound(ts[i]) && ts[i].Keys == ts[0].Keys
  {
    if i > 0 {
      SoundAlong(ts, es, i - 1);
      NextSound(ts[i - 1], es[i - 1], ts[i]);
    }
  }

  lemma {:induction false} SetRunningKeepsPause(t: Tree, n: ChannelPath, job: ChannelJob, m: ChannelPath)
    requires Closed(t) && n in t && m in t
    ensures var ch' := SetRunning(t, n, job)[m]; SameSettings(t[m], ch') && ch'.pauseUntil == t[m].pauseUntil
    decreases n
  {
    var t1 := t[n := Run(t[n], job)];
    SameKeysClosed(t, t1);
    assert ParentIn(t, n);
    if n.Sub? { SetRunningKeepsPause(t1, n.parent, job, m); }
  }

  // Only calls change the pause of a channel.
  lemma NextPause(t: Tree, e: Event, t': Tree, m: ChannelPath)
    requires Next(t, e, t') && m in t
    ensures m in t' && SameSettings(t[m], t'[m])
    ensures !e.Called? ==> t'[m].pauseUntil == t[m].pauseUntil
    ensures e.Called? ==> Throttled(t[m], e.now, t'[m])
  {
    match e
    case Pending(job, eta) =>
    case Running(job) => SetRunningKeepsPause(t, job.channel, job, m);
    case Failed(job) =>
    case Removed(job) =>
    case Called(now, jobs) =>
      WithinRoot(m);
      assert AdvanceAt(t, m, now, t');
  }

  // Channel m marks a job running in the call at position i.
  ghost predicate Starts(ts: seq<Tree>, es: seq<Event>, i: nat, m: ChannelPath)
    requires i < |es| && |ts| == |es| + 1 && m in ts[i] && m in ts[i + 1]
  {
    es[i].Called? && ts[i + 1][m].running != ts[i][m].running
  }

  // After a start the channel is paused until the end of the throttle period, and no longer, or the
  // clock has passed that point.
  lemma {:induction false} PauseAfterStart(ts: seq<Tree>, es: seq<Event>, m: ChannelPath, i: nat, k: nat)
    requires IsRun(ts, es) && Sound(ts[0]) && i < k <= |es| && m in ts[0]
    requires m in ts[i] && m in ts[i + 1] && m in ts[k] && Starts(ts, es, i, m)
    requires ts[i][m].throttle > 0
    ensures ts[k][m].throttle == ts[i][m].throttle
    ensures var end := es[i].now + ts[i][m].throttle as real;
      ts[k][m].pauseUntil >= end || exists c :: i < c < k && es[c].Called? && es[c].now >= end
    ensures var end := es[i].now + ts[i][m].throttle as real;
      end != 0.0 ==> ts[k][m].pauseUntil == end || exists c :: i < c < k && es[c].Called? && es[c].now >= end
    decreases k
  {
    hide Next, Sound, SoundFrom;
    SoundAlong(ts, es, i);
    if k == i + 1 {
      NextPause(ts[i], es[i], ts[i + 1], m);
    } else {
      SoundAlong(ts, es, k - 1);
      PauseAfterStart(ts, es, m, i, k - 1);
      NextPause(ts[k - 1], es[k - 1], ts[k], m);
    }
  }

  // Any two jobs that a throttled channel marks running in different calls are at least the
  // throttle apart, and one call marks at most one, whatever happens in between.
  lemma ThrottleHolds(ts: seq<Tree>, es: seq<Event>, m: ChannelPath, i: nat, k: nat)
    requires IsRun(ts, es) && Sound(ts[0]) && i < k < |es| && m in ts[0]
    requires m in ts[i] && m in ts[i + 1] && m in ts[k] && m in ts[k + 1]
    requires Starts(ts, es, i, m) && Starts(ts, es, k, m)
    requires ts[0][m].throttle > 0 && 0.0 <= es[i].now
    ensures es[k].now - es[i].now >= ts[0][m].throttle as real
    ensures exists j :: j in ts[k + 1][m].running && ts[k + 1][m].running == ts[k][m].running + {j}
  {
    SettingsAlong(ts, es, m, i);
    PauseAfterStart(ts, es, m, i, k);
    NextPause(ts[k], es[k], ts[k + 1], m);
  }

  lemma {:induction false} SettingsAlong(ts: seq<Tree>, es: seq<Event>, m: ChannelPath, i: nat)
    requires IsRun(ts, es) && Sound(ts[0]) && m in ts[0] && i < |ts|
    ensures m in ts[i] && SameSettings(ts[0][m], ts[i][m])
  {
    if i > 0 {
      SettingsAlong(ts, es, m, i - 1);
      NextPause(ts[i - 1], es[i - 1], ts[i], m);
    }
  }

  // ---------- Jobs wait for their etas ----------

  // The job is set running, fails, or is removed.
  ghost predicate Takes(e: Event, job: ChannelJob) {
    e == Running(job) || e == Event.Failed(job) || e == Removed(job)
  }

  ghost predicate WaitsUntil(t: Tree, job: ChannelJob, eta: Time) {
    job.channel in t && job in t[job.channel].waiting && t[job.channel].waiting[job] == eta
  }

  lemma NextWaits(t: Tree, e: Event, t': Tree, job: ChannelJob, eta: Time)
    requires Next(t, e, t') && WaitsUntil(t, job, eta) && !Takes(e, job) && (e.Called? ==> e.now < eta)
    ensures WaitsUntil(t', job, eta)
  {
    match e
    case Running(other) => SetRunningKeepsWaiting(t, other.channel, other, job.channel, job);
    case Called(now, jobs) =>
      WithinRoot(job.channel);
      assert AdvanceAt(t, job.channel, now, t');
    case _ =>
  }

  lemma {:induction false} SetRunningKeepsWaiting(t: Tree, n: ChannelPath, other: ChannelJob, m: ChannelPath, job: ChannelJob)
    requires Closed(t) && n in t && m in t && job != other && job in t[m].waiting
    ensures var ch' := SetRunning(t, n, other)[m]; job in ch'.waiting && ch'.waiting[job] == t[m].waiting[job]
    decreases n
  {
    var t1 := t[n := Run(t[n], other)];
    SameKeysClosed(t, t1);
    assert ParentIn(t, n);
    if n.Sub? { SetRunningKeepsWaiting(t1, n.parent, other, m, job); }
  }

  // A job with an eta that becomes pending waits in its channel until a call at or after its eta,
  // unless its state changes; no call before that yields it.
  lemma {:induction false} WaitsForEta(ts: seq<Tree>, es: seq<Event>, i: nat, k: nat, job: ChannelJob, eta: Time)
    requires IsRun(ts, es) && Sound(ts[0]) && i < k <= |es|
    requires es[i] == Pending(job, eta) && eta != 0.0 && job.channel in ts[i] && job !in Queued(ts[i][job.channel])
    requires forall c :: i < c < k ==> !Takes(es[c], job) && (es[c].Called? ==> es[c].now < eta)
    ensures WaitsUntil(ts[k], job, eta)
    ensures forall c :: i < c < k && es[c].Called? ==> job !in es[c].jobs
    decreases k
  {
    hide Sound, SoundFrom, Turn;
    SoundAlong(ts, es, k - 1);
    if k > i + 1 {
      WaitsForEta(ts, es, i, k - 1, job, eta);
      NextWaits(ts[k - 1], es[k - 1], ts[k], job, eta);
      if es[k - 1].Called? { WaitingNotYielded(ts[k - 1], es[k - 1].now, ts[k], es[k - 1].jobs, job, eta); }
    }
  }

  lemma WaitingNotYielded(t: Tree, now: Time, t': Tree, jobs: seq<ChannelJob>, job: ChannelJob, eta: Time)
    requires Sound(t) && Turn(t, Root, now, t', jobs) && WaitsUntil(t, job, eta) && now < eta
    ensures job !in jobs
  {
    assert SoundAt(t, job.channel);
    if job in jobs { YieldedWasDue(t, now, t', jobs, job); }
  }
}
