// One call of get_jobs_to_run, and the wakeup time computed after it, on the value of the tree.
module ChannelTurn {
  import opened ChannelJobs
  import opened ChannelTree

  ghost predicate HasCapacity(ch: Chan) {
    !(ch.sequential && ch.failed != {}) && (ch.capacity == 0 || |ch.running| < ch.capacity)
  }

  ghost predicate Paused(ch: Chan, now: Time) {
    ch.throttle != 0 && ch.pauseUntil != 0.0 && now < ch.pauseUntil
  }

  // ---------- Taking one job from the queues of a channel ----------

  // Jobs whose eta has come compete with the jobs that have none.
  ghost function Promote(ch: Chan, now: Time): Chan {
    ch.(waiting := map j | j in ch.waiting && now < ch.waiting[j] :: ch.waiting[j],
        ready := ch.ready + set j | j in ch.waiting && ch.waiting[j] <= now)
  }

  ghost predicate FirstReady(ch: Chan, job: ChannelJob) {
    job in ch.ready && forall j :: j in ch.ready ==> KeyLeq(job, j)
  }

  ghost predicate FirstWaiting(ch: Chan, job: ChannelJob) {
    job in ch.waiting && forall j :: j in ch.waiting ==>
      ch.waiting[job] < ch.waiting[j] || (ch.waiting[job] == ch.waiting[j] && KeyLeq(job, j))
  }

  // A sequential channel waits for the job with the earliest eta if that job comes before the
  // first ready job when the eta is ignored.
  ghost predicate Blocked(ch: Chan) {
    ch.sequential &&
    exists e, r :: e in ch.waiting && r in ch.ready && FirstWaiting(ch, e) && FirstReady(ch, r) && KeyLess(e, r)
  }

  ghost predicate Popped(ch: Chan, now: Time, ch': Chan, job: ChannelJob?) {
    var p := Promote(ch, now);
    if job == null then ch' == p && (Blocked(p) || p.ready == {})
    else !Blocked(p) && FirstReady(p, job) && ch' == p.(ready := p.ready - {job})
  }

  lemma PromoteStep(ch: Chan, now: Time, job: ChannelJob)
    requires job in ch.waiting && ch.waiting[job] <= now
    ensures Promote(ch.(waiting := ch.waiting - {job}, ready := ch.ready + {job}), now) == Promote(ch, now)
  {
    var ch1 := ch.(waiting := ch.waiting - {job}, ready := ch.ready + {job});
    assert Promote(ch1, now).waiting == Promote(ch, now).waiting;
    assert Promote(ch1, now).ready == Promote(ch, now).ready;
  }

  lemma PromoteNothing(ch: Chan, now: Time)
    requires forall j :: j in ch.waiting ==> now < ch.waiting[j]
    ensures Promote(ch, now) == ch
  {
    assert Promote(ch, now).waiting == ch.waiting;
    assert Promote(ch, now).ready == ch.ready;
  }

  // Whether a sequential channel is blocked does not depend on which of several equal jobs is
  // taken as the first.
  lemma BlockedByFirsts(ch: Chan, e: ChannelJob, r: ChannelJob)
    requires FirstWaiting(ch, e) && FirstReady(ch, r)
    ensures Blocked(ch) <==> ch.sequential && KeyLess(e, r)
  {
    if ch.sequential && Blocked(ch) {
      var e', r' :| e' in ch.waiting && r' in ch.ready && FirstWaiting(ch, e') && FirstReady(ch, r') && KeyLess(e', r');
      assert KeyLeq(e, e') && KeyLeq(r', r);
    }
  }

  // ---------- What a call does ----------

  ghost function Elements(jobs: seq<ChannelJob>): set<ChannelJob> {
    set j | j in jobs
  }

  ghost predicate Distinct(jobs: seq<ChannelJob>) {
    forall i, k :: 0 <= i < k < |jobs| ==> jobs[i] != jobs[k]
  }

  ghost predicate SameSettings(ch: Chan, ch': Chan) {
    ch'.capacity == ch.capacity && ch'.sequential == ch.sequential && ch'.throttle == ch.throttle
  }

  // A channel starts at most one job per throttle period; an over pause is forgotten.
  ghost predicate Throttled(ch: Chan, now: Time, ch': Chan) {
    if ch.throttle == 0 then ch'.pauseUntil == ch.pauseUntil
    else if ch'.running == ch.running then
      ch'.pauseUntil == ch.pauseUntil || (ch'.pauseUntil == 0.0 && ch.pauseUntil <= now)
    else
      && (ch.pauseUntil == 0.0 || ch.pauseUntil <= now)
      && ch'.pauseUntil == now + ch.throttle as real
      && exists j :: j in ch'.running && ch'.running == ch.running + {j}
  }

  // New jobs are started only within the capacity.
  ghost predicate Bounded(ch: Chan, ch': Chan) {
    ch'.running != ch.running ==>
      !(ch.sequential && ch.failed != {}) && (ch.capacity == 0 || |ch'.running| <= ch.capacity)
  }

  // Jobs keep their etas and wait until these have come.
  ghost predicate StillWaiting(ch: Chan, now: Time, ch': Chan) {
    && (forall j :: j in ch'.waiting ==> j in ch.waiting && ch'.waiting[j] == ch.waiting[j])
    && (forall j :: j in ch.waiting && now < ch.waiting[j] ==> j in ch'.waiting)
  }

  // What a call may do to channel m: jobs advance from the queues to running, jobs of other
  // channels arrive, and nothing is lost.
  ghost predicate Advance(m: ChannelPath, ch: Chan, now: Time, ch': Chan) {
    && SameSettings(ch, ch') && ch'.failed == ch.failed
    && ch.running <= ch'.running && Bounded(ch, ch') && Throttled(ch, now, ch')
    && StillWaiting(ch, now, ch')
    && Held(ch) <= Held(ch')
    && (forall j :: j in Held(ch') && j.channel == m ==> j in Held(ch))
  }

  // Nothing more can be taken from the channel at this moment.
  ghost predicate Stuck(ch: Chan, now: Time) {
    || !HasCapacity(ch)
    || Paused(ch, now)
    || ((forall j :: j in ch.waiting ==> now < ch.waiting[j]) && (Blocked(ch) || ch.ready == {}))
  }

  // After a call a channel is stuck, and a pause that is set has not ended.
  ghost predicate Settled(ch: Chan, now: Time) {
    Stuck(ch, now) && (ch.throttle != 0 && ch.pauseUntil != 0.0 ==> now < ch.pauseUntil)
  }

  // Time is not negative and neither is a throttle.
  ghost predicate Sane(ch: Chan, now: Time) {
    0.0 <= now && 0 <= ch.throttle
  }

  // Jobs come out by priority, creation date and sequence, and none of those left behind that
  // is due comes before one of them.
  ghost predicate InKeyOrder(jobs: seq<ChannelJob>, left: Chan, now: Time) {
    && (forall i, k :: 0 <= i < k < |jobs| ==> KeyLeq(jobs[i], jobs[k]))
    && (forall i, j :: 0 <= i < |jobs| && j in left.ready ==> KeyLeq(jobs[i], j))
    && (forall j :: |jobs| > 0 && j in left.waiting ==> now < left.waiting[j])
  }

  // The part of a call that concerns the channel itself, after its children were asked.
  ghost predicate OwnTurn(n: ChannelPath, ch: Chan, now: Time, ch': Chan, jobs: seq<ChannelJob>) {
    && Advance(n, ch, now, ch') && LocallySound(n, ch')
    && Held(ch') == Held(ch)
    && Yielded(ch, ch', jobs) && InKeyOrder(jobs, ch', now)
    && (Stuck(ch, now) ==> jobs == [])
    && (Sane(ch, now) ==> Settled(ch', now))
  }

  ghost predicate AdvanceAt(t: Tree, m: ChannelPath, now: Time, t': Tree)
    requires m in t && m in t'
  {
    Advance(m, t[m], now, t'[m])
  }

  ghost predicate SettledAt(t: Tree, m: ChannelPath, now: Time)
    requires m in t
  {
    Sane(t[m], now) ==> Settled(t[m], now)
  }

  // Only the channels at n and above it change.
  ghost predicate ChangedAbove(t: Tree, n: ChannelPath, t': Tree)
    ensures ChangedAbove(t, n, t') ==> t'.Keys == t.Keys
  {
    t'.Keys == t.Keys && forall m :: m in t && !Within(n, m) ==> t'[m] == t[m]
  }

  // The jobs yielded are the jobs that have started, each once.
  ghost predicate Yielded(ch: Chan, ch': Chan, jobs: seq<ChannelJob>) {
    Distinct(jobs) && Elements(jobs) !! ch.running && ch'.running == ch.running + Elements(jobs)
  }

  // A whole call on channel n: the channels at n and above it advance until they are settled.
  ghost predicate Turn(t: Tree, n: ChannelPath, now: Time, t': Tree, jobs: seq<ChannelJob>)
    requires n in t
  {
    && SoundFrom(t', n) && ChangedAbove(t, n, t') && Yielded(t[n], t'[n], jobs)
    && (forall m {:trigger AdvanceAt(t, m, now, t')} :: m in t && Within(n, m) ==> AdvanceAt(t, m, now, t'))
    && (forall m {:trigger SettledAt(t', m, now)} :: m in t && Within(n, m) ==> SettledAt(t', m, now))
    && InKeyOrder(jobs, t'[n], now)
    && (Silent(t, n, now) ==> jobs == [])
  }

  // Every channel between m and n, m excluded, has capacity and is not paused.
  ghost predicate OpenTo(t: Tree, n: ChannelPath, m: ChannelPath, now: Time)
    requires Closed(t) && m in t
    decreases m
  {
    assert ParentIn(t, m);
    m == n || (m.Sub? && HasCapacity(t[m.parent]) && !Paused(t[m.parent], now) && OpenTo(t, n, m.parent, now))
  }

  // No channel from which a job could reach n has a job to give.
  ghost predicate Silent(t: Tree, n: ChannelPath, now: Time) {
    Closed(t) && forall m {:trigger OpenTo(t, n, m, now)} :: m in t && Within(n, m) && OpenTo(t, n, m, now) ==> Stuck(t[m], now)
  }

  // ---------- Taking jobs while there is capacity ----------

  // The state of a channel in the loop that takes jobs from its queue: `jobs` have started.
  ghost predicate Drawing(n: ChannelPath, ch0: Chan, now: Time, ch: Chan, jobs: seq<ChannelJob>) {
    && LocallySound(n, ch) && SameSettings(ch0, ch)
    && ch.failed == ch0.failed && ch.pauseUntil == ch0.pauseUntil && Held(ch) == Held(ch0)
    && StillWaiting(ch0, now, ch)
    && Yielded(ch0, ch, jobs) && Bounded(ch0, ch) && InKeyOrder(jobs, ch, now)
    && (jobs == [] ==> ch == ch0)
  }

  ghost function Start(ch: Chan, job: ChannelJob): Chan {
    ch.(running := ch.running + {job})
  }

  lemma PromoteIsSound(n: ChannelPath, ch: Chan, now: Time)
    requires LocallySound(n, ch)
    ensures LocallySound(n, Promote(ch, now)) && Held(Promote(ch, now)) == Held(ch)
  {
  }

  lemma PromoteKeeps(ch: Chan, now: Time)
    ensures var p := Promote(ch, now);
      && SameSettings(ch, p) && p.running == ch.running && p.failed == ch.failed && p.pauseUntil == ch.pauseUntil
      && StillWaiting(ch, now, p) && (forall j :: j in p.waiting ==> now < p.waiting[j])
  {
  }

  lemma OwnTurnParts(n: ChannelPath, ch: Chan, now: Time, ch': Chan, jobs: seq<ChannelJob>)
    requires Advance(n, ch, now, ch') && LocallySound(n, ch') && Held(ch') == Held(ch)
    requires Yielded(ch, ch', jobs) && InKeyOrder(jobs, ch', now)
    requires (Stuck(ch, now) ==> jobs == []) && (Sane(ch, now) ==> Settled(ch', now))
    ensures OwnTurn(n, ch, now, ch', jobs)
  {
  }

  lemma DrawOrder(ch: Chan, now: Time, jobs: seq<ChannelJob>, ch1: Chan, job: ChannelJob)
    requires InKeyOrder(jobs, ch, now) && Popped(ch, now, ch1, job)
    ensures InKeyOrder(jobs + [job], Start(ch1, job), now)
  {
    var p, jobs' := Promote(ch, now), jobs + [job];
    if jobs != [] {
      assert p.ready == ch.ready;
    }
    forall i, j | 0 <= i < |jobs'| && j in ch1.ready ensures KeyLeq(jobs'[i], j) {
      assert j in p.ready;
    }
  }

  lemma NoneOrder(ch: Chan, now: Time, jobs: seq<ChannelJob>)
    requires InKeyOrder(jobs, ch, now)
    ensures InKeyOrder(jobs, Promote(ch, now), now)
  {
    if jobs != [] {
      assert Promote(ch, now).ready == ch.ready;
    }
  }

  lemma StartIsSound(n: ChannelPath, p: Chan, job: ChannelJob)
    requires LocallySound(n, p) && job in p.ready
    ensures LocallySound(n, Start(p.(ready := p.ready - {job}), job))
    ensures Held(Start(p.(ready := p.ready - {job}), job)) == Held(p) && job !in p.running
  {
  }

  lemma YieldOne(ch0: Chan, ch: Chan, jobs: seq<ChannelJob>, ch': Chan, job: ChannelJob)
    requires Yielded(ch0, ch, jobs) && job !in ch.running && ch'.running == ch.running + {job}
    ensures Yielded(ch0, ch', jobs + [job])
  {
    assert Elements(jobs + [job]) == Elements(jobs) + {job};
  }

  lemma BoundOne(ch0: Chan, ch: Chan, ch': Chan, job: ChannelJob)
    requires SameSettings(ch0, ch) && ch.failed == ch0.failed && HasCapacity(ch)
    requires job !in ch.running && ch'.running == ch.running + {job}
    ensures Bounded(ch0, ch')
  {
  }

  lemma DrawOne(n: ChannelPath, ch0: Chan, now: Time, ch: Chan, jobs: seq<ChannelJob>, ch1: Chan, job: ChannelJob)
    requires Drawing(n, ch0, now, ch, jobs) && HasCapacity(ch) && Popped(ch, now, ch1, job)
    ensures Drawing(n, ch0, now, Start(ch1, job), jobs + [job])
  {
    var p, ch2 := Promote(ch, now), Start(ch1, job);
    hide LocallySound, InKeyOrder, Yielded, Bounded, Held, HasCapacity, Promote, Blocked;
    assert ch1 == p.(ready := p.ready - {job}) && job in p.ready;
    DrawOrder(ch, now, jobs, ch1, job);
    PromoteIsSound(n, ch, now);
    PromoteKeeps(ch, now);
    StartIsSound(n, p, job);
    YieldOne(ch0, ch, jobs, ch2, job);
    BoundOne(ch0, ch, ch2, job);
  }

  // A channel in the loop, its pause set to an admissible value, has advanced.
  lemma DrawnAdvance(n: ChannelPath, ch0: Chan, now: Time, ch': Chan)
    requires SameSettings(ch0, ch') && ch'.failed == ch0.failed && Held(ch') == Held(ch0)
    requires ch0.running <= ch'.running && Bounded(ch0, ch') && Throttled(ch0, now, ch')
    requires StillWaiting(ch0, now, ch')
    ensures Advance(n, ch0, now, ch')
  {
  }

  lemma NotThrottled(ch0: Chan, now: Time, ch': Chan, jobs: seq<ChannelJob>)
    requires Yielded(ch0, ch', jobs) && ch'.pauseUntil == ch0.pauseUntil
    requires ch0.throttle == 0 || jobs == []
    ensures Throttled(ch0, now, ch') && ch0.running <= ch'.running
  {
  }

  lemma NoPauseSettles(ch: Chan, now: Time)
    requires Stuck(ch, now) && (ch.throttle == 0 || ch.pauseUntil == 0.0)
    ensures Settled(ch, now)
  {
  }

  // The loop ends when the pop yields nothing.
  lemma DrawNone(n: ChannelPath, ch0: Chan, now: Time, ch: Chan, jobs: seq<ChannelJob>, ch1: Chan)
    requires Drawing(n, ch0, now, ch, jobs) && HasCapacity(ch) && Popped(ch, now, ch1, null)
    requires ch0.throttle == 0 || (ch0.pauseUntil == 0.0 && jobs == [])
    requires Stuck(ch0, now) ==> jobs == []
    ensures OwnTurn(n, ch0, now, ch1, jobs)
  {
    NoneStuck(ch, now, ch1);
    hide LocallySound, InKeyOrder, Yielded, Bounded, Held, Promote, Blocked, Stuck, Settled, Advance, OwnTurn, Throttled;
    PromoteIsSound(n, ch, now);
    PromoteKeeps(ch, now);
    NoneOrder(ch, now, jobs);
    YieldedSame(ch0, ch, ch1, jobs);
    NotThrottled(ch0, now, ch1, jobs);
    NoPauseSettles(ch1, now);
    DrawnAdvance(n, ch0, now, ch1);
    OwnTurnParts(n, ch0, now, ch1, jobs);
  }

  lemma NoneStuck(ch: Chan, now: Time, ch1: Chan)
    requires Popped(ch, now, ch1, null)
    ensures Stuck(ch1, now)
  {
  }

  lemma YieldedSame(ch0: Chan, ch: Chan, ch1: Chan, jobs: seq<ChannelJob>)
    requires ch1.running == ch.running && ch1.failed == ch.failed
    ensures Yielded(ch0, ch, jobs) ==> Yielded(ch0, ch1, jobs)
    ensures SameSettings(ch, ch1) && Bounded(ch0, ch) ==> Bounded(ch0, ch1)
  {
  }

  // The loop ends when there is no capacity.
  lemma DrawFull(n: ChannelPath, ch0: Chan, now: Time, ch: Chan, jobs: seq<ChannelJob>)
    requires Drawing(n, ch0, now, ch, jobs) && !HasCapacity(ch)
    requires ch0.throttle == 0 || (ch0.pauseUntil == 0.0 && jobs == [])
    requires Stuck(ch0, now) ==> jobs == []
    ensures OwnTurn(n, ch0, now, ch, jobs)
  {
    assert Stuck(ch, now);
    hide LocallySound, InKeyOrder, Yielded, Bounded, Held, Stuck, Settled, Advance, OwnTurn, Throttled;
    NotThrottled(ch0, now, ch, jobs);
    NoPauseSettles(ch, now);
    DrawnAdvance(n, ch0, now, ch);
    OwnTurnParts(n, ch0, now, ch, jobs);
  }

  lemma PauseKeeps(n: ChannelPath, ch0: Chan, ch: Chan, now: Time, jobs: seq<ChannelJob>, until: Time)
    ensures var ch' := ch.(pauseUntil := until);
      && (LocallySound(n, ch) ==> LocallySound(n, ch')) && Held(ch') == Held(ch)
      && (Yielded(ch0, ch, jobs) ==> Yielded(ch0, ch', jobs)) && (Bounded(ch0, ch) ==> Bounded(ch0, ch'))
      && (InKeyOrder(jobs, ch, now) ==> InKeyOrder(jobs, ch', now))
  {
  }

  lemma OneThrottled(ch0: Chan, now: Time, ch': Chan, job: ChannelJob)
    requires Yielded(ch0, ch', [job]) && ch0.throttle != 0 && ch0.pauseUntil == 0.0
    requires ch'.pauseUntil == now + ch0.throttle as real && ch'.throttle == ch0.throttle
    ensures Throttled(ch0, now, ch') && ch0.running <= ch'.running
    ensures Sane(ch0, now) ==> Settled(ch', now)
  {
    assert Elements([job]) == {job};
    assert job in ch'.running && ch'.running == ch0.running + {job};
  }

  // A throttled channel leaves the loop after one job.
  lemma DrawThrottled(n: ChannelPath, ch0: Chan, now: Time, ch: Chan, job: ChannelJob)
    requires Drawing(n, ch0, now, ch, [job]) && ch0.throttle != 0 && ch0.pauseUntil == 0.0
    requires !Stuck(ch0, now)
    ensures OwnTurn(n, ch0, now, ch.(pauseUntil := now + ch0.throttle as real), [job])
  {
    hide LocallySound, InKeyOrder, Yielded, Bounded, Held, Stuck, Settled, Advance, OwnTurn, Throttled;
    var ch' := ch.(pauseUntil := now + ch0.throttle as real);
    PauseKeeps(n, ch0, ch, now, [job], ch'.pauseUntil);
    OneThrottled(ch0, now, ch', job);
    DrawnAdvance(n, ch0, now, ch');
    OwnTurnParts(n, ch0, now, ch', [job]);
  }

  // A popped job shows that the channel was not stuck.
  lemma PoppedNotStuck(ch: Chan, now: Time, ch1: Chan, job: ChannelJob)
    requires HasCapacity(ch) && (ch.throttle == 0 || ch.pauseUntil == 0.0) && Popped(ch, now, ch1, job)
    ensures !Stuck(ch, now)
  {
    if Stuck(ch, now) { PromoteNothing(ch, now); }
  }

  lemma PoppedShrinks(ch: Chan, now: Time, ch1: Chan, job: ChannelJob)
    requires Popped(ch, now, ch1, job)
    ensures job !in Queued(ch1) ==> Queued(Start(ch1, job)) < Queued(ch)
    ensures job in Queued(ch) && ch1.running == ch.running && SameSettings(ch, ch1) && ch1.pauseUntil == ch.pauseUntil
  {
    PromoteKeeps(ch, now);
    var p := Promote(ch, now);
    assert Queued(p) == Queued(ch);
    assert job in p.ready;
  }

  lemma DrawingNotStuck(n: ChannelPath, ch0: Chan, now: Time, ch: Chan, jobs: seq<ChannelJob>, ch1: Chan, job: ChannelJob)
    requires Drawing(n, ch0, now, ch, jobs) && HasCapacity(ch) && Popped(ch, now, ch1, job)
    requires ch0.throttle == 0 || (ch0.pauseUntil == 0.0 && jobs == [])
    requires Stuck(ch0, now) ==> jobs == []
    ensures !Stuck(ch0, now)
    ensures Queued(Start(ch1, job)) < Queued(ch)
  {
    if jobs == [] { PoppedNotStuck(ch, now, ch1, job); }
    PromoteIsSound(n, ch, now);
    PoppedShrinks(ch, now, ch1, job);
    assert job !in Queued(ch1);
  }

  lemma PausedTurn(n: ChannelPath, ch: Chan, now: Time)
    requires LocallySound(n, ch) && Paused(ch, now)
    ensures OwnTurn(n, ch, now, ch, [])
  {
  }

  lemma UnpausedAdvance(n: ChannelPath, ch: Chan, now: Time, ch': Chan)
    requires ch.throttle != 0 && !Paused(ch, now) && Advance(n, ch.(pauseUntil := 0.0), now, ch')
    ensures Advance(n, ch, now, ch')
  {
    assert Held(ch) == Held(ch.(pauseUntil := 0.0));
  }

  lemma UnpausedStuck(ch: Chan, now: Time)
    requires ch.throttle != 0 && !Paused(ch, now) && Stuck(ch, now)
    ensures Stuck(ch.(pauseUntil := 0.0), now)
  {
    if Blocked(ch) {
      var e, r :| e in ch.waiting && r in ch.ready && FirstWaiting(ch, e) && FirstReady(ch, r) && KeyLess(e, r);
      BlockedByFirsts(ch.(pauseUntil := 0.0), e, r);
    }
  }

  // Forgetting a pause that is over changes nothing else.
  lemma UnpausedTurn(n: ChannelPath, ch: Chan, now: Time, ch': Chan, jobs: seq<ChannelJob>)
    requires ch.throttle != 0 && !Paused(ch, now)
    requires OwnTurn(n, ch.(pauseUntil := 0.0), now, ch', jobs)
    ensures OwnTurn(n, ch, now, ch', jobs)
  {
    var ch0 := ch.(pauseUntil := 0.0);
    assert Held(ch0) == Held(ch) && (Yielded(ch0, ch', jobs) ==> Yielded(ch, ch', jobs));
    assert OwnTurn(n, ch0, now, ch', jobs);
    hide LocallySound, InKeyOrder, Yielded, Held, Stuck, Settled, Advance;
    UnpausedAdvance(n, ch, now, ch');
    if Stuck(ch, now) { UnpausedStuck(ch, now); }
    OwnTurnParts(n, ch, now, ch', jobs);
  }

  lemma DrawingStart(n: ChannelPath, ch: Chan, ch0: Chan, now: Time)
    requires LocallySound(n, ch) && ch0 == ch.(pauseUntil := ch0.pauseUntil)
    ensures Drawing(n, ch0, now, ch0, [])
  {
    assert Elements([]) == {};
  }

  lemma TurnFromUnpaused(n: ChannelPath, ch: Chan, ch0: Chan, now: Time, ch': Chan, jobs: seq<ChannelJob>)
    requires ch0 == ch || (ch.throttle != 0 && !Paused(ch, now) && ch0 == ch.(pauseUntil := 0.0))
    requires OwnTurn(n, ch0, now, ch', jobs)
    ensures OwnTurn(n, ch, now, ch', jobs)
  {
    hide OwnTurn;
    if ch0 != ch { UnpausedTurn(n, ch, now, ch', jobs); }
  }

  // What a pop does to a queue it does to the channel of the queue.
  lemma PoppedInChannel(q: Chan, now: Time, q': Chan, job: ChannelJob?, ch: Chan, ch': Chan)
    requires Popped(q, now, q', job)
    requires ch.sequential == q.sequential && ch.waiting == q.waiting && ch.ready == q.ready
    requires ch' == ch.(waiting := q'.waiting, ready := q'.ready)
    ensures Popped(ch, now, ch', job)
  {
    var p, pq := Promote(ch, now), Promote(q, now);
    if Blocked(p) {
      var e, r :| e in p.waiting && r in p.ready && FirstWaiting(p, e) && FirstReady(p, r) && KeyLess(e, r);
      BlockedByFirsts(pq, e, r);
    }
    if Blocked(pq) {
      var e, r :| e in pq.waiting && r in pq.ready && FirstWaiting(pq, e) && FirstReady(pq, r) && KeyLess(e, r);
      BlockedByFirsts(p, e, r);
    }
  }

  // ---------- Composing a call from its parts ----------

  lemma AdvanceRefl(m: ChannelPath, ch: Chan, now: Time)
    ensures Advance(m, ch, now, ch)
  {
  }

  // Channel n after the jobs yielded by a child were added to its queue.
  ghost function Arrive(ch: Chan, jobs: set<ChannelJob>): Chan {
    ch.(ready := ch.ready + jobs)
  }

  ghost predicate IsChild(n: ChannelPath, c: ChannelPath) {
    c.Sub? && c.parent == n
  }

  lemma ChildrenApart(n: ChannelPath, c: ChannelPath, d: ChannelPath, x: ChannelPath)
    requires IsChild(n, c) && IsChild(n, d) && Within(c, x) && Within(d, x)
    ensures c == d
  {
    WithinLinear(c, d, x);
    if Within(c, d) { WithinDepth(c, d); } else { WithinDepth(d, c); }
  }

  lemma ChildNotAbove(n: ChannelPath, c: ChannelPath)
    requires IsChild(n, c)
    ensures !Within(c, n) && Within(n, c)
  {
    if Within(c, n) { WithinDepth(c, n); }
  }

  // The state of a call on n when some of the children have been asked.
  ghost predicate Asked(t: Tree, n: ChannelPath, now: Time, t1: Tree)
    requires n in t
  {
    && SoundFrom(t1, n) && ChangedAbove(t, n, t1)
    && (forall m {:trigger AdvanceAt(t, m, now, t1)} :: m in t && Within(n, m) && m != n ==> AdvanceAt(t, m, now, t1))
    && t1[n] == Arrive(t[n], t1[n].ready)
    && t[n].ready <= t1[n].ready
    && (forall j :: j in t1[n].ready && j !in t[n].ready ==> j.channel != n)
  }

  lemma SoundFromChild(t: Tree, n: ChannelPath, c: ChannelPath)
    requires SoundFrom(t, n) && IsChild(n, c)
    ensures SoundFrom(t, c)
  {
    forall m | m in t && m.Sub? && m.parent in t && Within(c, m.parent) ensures JoinedAt(t, m) {
      WithinTransitive(n, c, m.parent);
    }
  }

  // The jobs a child has just yielded can be added to the queue of n.
  lemma ArriveIsSound(n: ChannelPath, c: ChannelPath, child: Chan, child': Chan, ch: Chan, jobs: set<ChannelJob>)
    requires IsChild(n, c) && LocallySound(n, ch) && LocallySound(c, child') && Feeds(c, child, ch)
    requires jobs !! child.running && child'.running == child.running + jobs
    ensures LocallySound(n, Arrive(ch, jobs)) && Feeds(c, child', Arrive(ch, jobs))
    ensures forall j :: j in jobs ==> Within(c, j.channel) && j.channel != n
  {
    ChildNotAbove(n, c);
    forall j | j in jobs ensures Within(c, j.channel) && Within(n, j.channel) && j.channel != n {
      WithinTransitive(n, c, j.channel);
    }
  }

  lemma SiblingKeepsFeeds(n: ChannelPath, c: ChannelPath, d: ChannelPath, sibling: Chan, ch: Chan, jobs: set<ChannelJob>)
    requires IsChild(n, c) && IsChild(n, d) && c != d && Feeds(d, sibling, ch)
    requires forall j :: j in jobs ==> Within(c, j.channel)
    ensures Feeds(d, sibling, Arrive(ch, jobs))
  {
    forall j | j in jobs && Within(d, j.channel) ensures false {
      ChildrenApart(n, c, d, j.channel);
    }
  }

  lemma AskedChannels(t1: Tree, n: ChannelPath, c: ChannelPath, t2: Tree, jobs: seq<ChannelJob>)
    requires n in t1 && c in t1 && IsChild(n, c) && SoundFrom(t1, n) && SoundFrom(t2, c)
    requires ChangedAbove(t1, c, t2) && Yielded(t1[c], t2[c], jobs)
    ensures t2[n] == t1[n] && LocallySound(n, Arrive(t1[n], Elements(jobs)))
    ensures HomesKnown(t1.Keys, Arrive(t1[n], Elements(jobs)))
    ensures forall j :: j in jobs ==> j.channel != n
  {
    ChildNotAbove(n, c);
    assert JoinedAt(t1, c) && SoundAt(t1, n) && SoundAt(t2, c);
    ArriveIsSound(n, c, t1[c], t2[c], t1[n], Elements(jobs));
    forall j | j in Elements(jobs) ensures j.channel in t1 {
      assert j in Held(t2[c]);
    }
  }

  lemma AskedSound(t1: Tree, n: ChannelPath, c: ChannelPath, t2: Tree, jobs: seq<ChannelJob>)
    requires n in t1 && c in t1 && IsChild(n, c) && SoundFrom(t1, n) && SoundFrom(t2, c)
    requires ChangedAbove(t1, c, t2) && Yielded(t1[c], t2[c], jobs)
    ensures SoundFrom(t2[n := Arrive(t1[n], Elements(jobs))], n)
  {
    var t3 := t2[n := Arrive(t1[n], Elements(jobs))];
    AskedChannels(t1, n, c, t2, jobs);
    SameKeysClosed(t1, t3);
    forall m | m in t3 ensures SoundAt(t3, m) {
      assert SoundAt(t2, m);
    }
    forall m | m in t3 && m.Sub? && m.parent in t3 && Within(n, m.parent) ensures JoinedAt(t3, m) {
      AskedEdge(t1, n, c, t2, jobs, m);
    }
  }

  lemma AdvanceAtSame(t: Tree, u: Tree, m: ChannelPath, now: Time, t': Tree, u': Tree)
    requires m in t && m in u && m in t' && m in u' && u[m] == t[m] && u'[m] == t'[m]
    requires AdvanceAt(t, m, now, t')
    ensures AdvanceAt(u, m, now, u')
  {
  }

  // Asking one more child keeps the state of the call.
  lemma AskChild(t: Tree, n: ChannelPath, now: Time, t1: Tree, c: ChannelPath, t2: Tree, jobs: seq<ChannelJob>)
    requires n in t && Asked(t, n, now, t1)
    requires c in t && IsChild(n, c)
    requires forall m :: m in t && Within(c, m) ==> t1[m] == t[m]
    requires SoundFrom(t2, c) && ChangedAbove(t1, c, t2) && Yielded(t1[c], t2[c], jobs)
    requires forall m {:trigger AdvanceAt(t1, m, now, t2)} :: m in t && Within(c, m) ==> AdvanceAt(t1, m, now, t2)
    ensures Asked(t, n, now, t2[n := Arrive(t1[n], Elements(jobs))])
    ensures forall m :: m in t && m != n && !Within(c, m) ==> t2[m] == t1[m]
  {
    AskedSound(t1, n, c, t2, jobs);
    AskedChannels(t1, n, c, t2, jobs);
    AskedFrame(t, n, t1, c, t2, Elements(jobs));
    AskedAdvance(t, n, now, t1, c, t2, Elements(jobs));
    ArriveTwice(t[n], t1[n].ready, Elements(jobs));
  }

  lemma AskedFrame(t: Tree, n: ChannelPath, t1: Tree, c: ChannelPath, t2: Tree, jobs: set<ChannelJob>)
    requires n in t && IsChild(n, c) && ChangedAbove(t, n, t1) && ChangedAbove(t1, c, t2)
    ensures ChangedAbove(t, n, t2[n := Arrive(t1[n], jobs)])
    ensures forall m :: m in t && m != n && !Within(c, m) ==> t2[m] == t1[m]
  {
    ChildNotAbove(n, c);
    forall m | m in t && !Within(n, m) ensures t2[m] == t[m] && m != n {
      if Within(c, m) { WithinTransitive(n, c, m); }
    }
  }

  lemma AskedAdvance(t: Tree, n: ChannelPath, now: Time, t1: Tree, c: ChannelPath, t2: Tree, jobs: set<ChannelJob>)
    requires n in t && IsChild(n, c) && t1.Keys == t.Keys && ChangedAbove(t1, c, t2)
    requires forall m :: m in t && Within(c, m) ==> t1[m] == t[m]
    requires forall m {:trigger AdvanceAt(t, m, now, t1)} :: m in t && Within(n, m) && m != n ==> AdvanceAt(t, m, now, t1)
    requires forall m {:trigger AdvanceAt(t1, m, now, t2)} :: m in t && Within(c, m) ==> AdvanceAt(t1, m, now, t2)
    ensures forall m {:trigger AdvanceAt(t, m, now, t2[n := Arrive(t1[n], jobs)])} ::
      m in t && Within(n, m) && m != n ==> AdvanceAt(t, m, now, t2[n := Arrive(t1[n], jobs)])
  {
    var t3 := t2[n := Arrive(t1[n], jobs)];
    forall m | m in t && Within(n, m) && m != n ensures AdvanceAt(t, m, now, t3) {
      if Within(c, m) {
        AdvanceAtSame(t1, t, m, now, t2, t3);
      } else {
        AdvanceAtSame(t, t, m, now, t1, t3);
      }
    }
  }

  lemma ArriveTwice(ch: Chan, ready: set<ChannelJob>, jobs: set<ChannelJob>)
    requires ch.ready <= ready
    ensures Arrive(Arrive(ch, ready), jobs) == Arrive(ch, ready + jobs)
  {
    assert ch.ready + ready == ready;
  }

  lemma AskedEdge(t1: Tree, n: ChannelPath, c: ChannelPath, t2: Tree, jobs: seq<ChannelJob>, m: ChannelPath)
    requires n in t1 && c in t1 && IsChild(n, c) && SoundFrom(t1, n) && SoundFrom(t2, c)
    requires ChangedAbove(t1, c, t2) && Yielded(t1[c], t2[c], jobs)
    requires m in t1 && m.Sub? && m.parent in t1 && Within(n, m.parent)
    ensures Feeds(m, if m == n then Arrive(t1[n], Elements(jobs)) else t2[m],
                  if m.parent == n then Arrive(t1[n], Elements(jobs)) else t2[m.parent])
  {
    ChildNotAbove(n, c);
    assert JoinedAt(t1, c) && JoinedAt(t1, m) && SoundAt(t1, n) && SoundAt(t2, c);
    if Within(c, m.parent) { assert JoinedAt(t2, m); }
    ArriveIsSound(n, c, t1[c], t2[c], t1[n], Elements(jobs));
    WithinDepth(n, m.parent);
    if m.parent == n {
      if m != c {
        if Within(c, m) { ChildrenApart(n, c, m, m); }
        SiblingKeepsFeeds(n, c, m, t1[m], t1[n], Elements(jobs));
      }
    } else if !Within(c, m.parent) && Within(c, m) {
      assert false;
    }
  }

  lemma ArriveFlat(ch: Chan, a: set<ChannelJob>, b: set<ChannelJob>)
    ensures Arrive(Arrive(ch, a), b) == Arrive(ch, a + b)
  {
    assert ch.ready + a + b == ch.ready + (a + b);
  }

  lemma OpenBelow(t: Tree, n: ChannelPath, c: ChannelPath, m: ChannelPath, now: Time)
    requires Closed(t) && m in t && n in t && IsChild(n, c)
    requires HasCapacity(t[n]) && !Paused(t[n], now) && OpenTo(t, c, m, now)
    ensures OpenTo(t, n, m, now)
    decreases m
  {
    assert ParentIn(t, m);
    if m != c { OpenBelow(t, n, c, m.parent, now); }
  }

  lemma SilentChild(t: Tree, n: ChannelPath, c: ChannelPath, now: Time)
    requires Silent(t, n, now) && n in t && c in t && IsChild(n, c)
    requires HasCapacity(t[n]) && !Paused(t[n], now)
    ensures Silent(t, c, now)
  {
    forall m | m in t && Within(c, m) && OpenTo(t, c, m, now) ensures Stuck(t[m], now) {
      ChildNotAbove(n, c);
      WithinTransitive(n, c, m);
      OpenBelow(t, n, c, m, now);
    }
  }

  // What an answer depends on: two trees that agree above c are silent together there.
  lemma {:induction false} OpenToSame(t: Tree, t1: Tree, c: ChannelPath, m: ChannelPath, now: Time)
    requires Closed(t) && Closed(t1) && t1.Keys == t.Keys && m in t && Within(c, m)
    requires forall k :: k in t && Within(c, k) ==> t1[k] == t[k]
    ensures OpenTo(t1, c, m, now) == OpenTo(t, c, m, now)
    decreases m
  {
    assert ParentIn(t, m);
    if m != c { OpenToSame(t, t1, c, m.parent, now); }
  }

  lemma SilentSame(t: Tree, t1: Tree, c: ChannelPath, now: Time)
    requires Closed(t1) && t1.Keys == t.Keys && Silent(t, c, now)
    requires forall k :: k in t && Within(c, k) ==> t1[k] == t[k]
    ensures Silent(t1, c, now)
  {
    forall m | m in t1 && Within(c, m) && OpenTo(t1, c, m, now) ensures Stuck(t1[m], now) {
      OpenToSame(t, t1, c, m, now);
    }
  }

  // A job that arrived from a child runs in the child; starting it in n keeps the channels joined.
  lemma OwnTurnKeepsFeeds(n: ChannelPath, c: ChannelPath, child: Chan, ch: Chan, ch': Chan)
    requires IsChild(n, c) && Feeds(c, child, ch) && LocallySound(c, child)
    requires LocallySound(n, ch) && LocallySound(n, ch') && Held(ch') == Held(ch)
    ensures Feeds(c, child, ch')
  {
    ChildNotAbove(n, c);
    forall j | j in child.running ensures j in ch'.ready || j in ch'.running {
      assert j in Held(ch') && j.channel != n;
    }
    forall j | (j in ch'.ready || j in ch'.running) && Within(c, j.channel) ensures j in child.running {
      assert j in Held(ch) && j.channel != n;
    }
  }

  // A call is: ask all children, then take jobs from the own queue.
  lemma FinishTurn(t: Tree, n: ChannelPath, now: Time, t1: Tree, ch': Chan, jobs: seq<ChannelJob>)
    requires n in t && Asked(t, n, now, t1)
    requires forall m {:trigger SettledAt(t1, m, now)} :: m in t && Within(n, m) && m != n ==> SettledAt(t1, m, now)
    requires Silent(t, n, now) && HasCapacity(t[n]) && !Paused(t[n], now) ==> t1[n] == t[n]
    requires OwnTurn(n, t1[n], now, ch', jobs)
    ensures Turn(t, n, now, t1[n := ch'], jobs)
  {
    FinishParts(t, n, now, t1, ch', jobs);
    hide *;
    FinishSound(t1, n, ch');
    ArriveThenAdvance(n, t[n], t1[n].ready, now, ch');
    FinishAdvance(t, n, now, t1, ch');
    FinishSettled(t1, n, now, ch');
    FinishSilent(t, n, now, t1, ch', jobs);
    TurnParts(t, n, now, t1[n := ch'], jobs);
  }

  lemma FinishParts(t: Tree, n: ChannelPath, now: Time, t1: Tree, ch': Chan, jobs: seq<ChannelJob>)
    requires n in t && Asked(t, n, now, t1) && OwnTurn(n, t1[n], now, ch', jobs)
    ensures t1.Keys == t.Keys && SoundFrom(t1, n) && ChangedAbove(t, n, t1)
    ensures forall m {:trigger AdvanceAt(t, m, now, t1)} :: m in t && Within(n, m) && m != n ==> AdvanceAt(t, m, now, t1)
    ensures t1[n] == Arrive(t[n], t1[n].ready) && t[n].ready <= t1[n].ready
    ensures forall j :: j in t1[n].ready && j !in t[n].ready ==> j.channel != n
    ensures Advance(n, t1[n], now, ch') && LocallySound(n, ch') && Held(ch') == Held(t1[n]) && SameSettings(t1[n], ch')
    ensures (Sane(t1[n], now) ==> Settled(ch', now)) && InKeyOrder(jobs, ch', now)
    ensures Yielded(t[n], t1[n := ch'][n], jobs)
  {
    hide SoundFrom, AdvanceAt, Settled, InKeyOrder, LocallySound, Held, Within;
  }

  lemma TurnParts(t: Tree, n: ChannelPath, now: Time, t': Tree, jobs: seq<ChannelJob>)
    requires n in t && SoundFrom(t', n) && ChangedAbove(t, n, t') && Yielded(t[n], t'[n], jobs)
    requires forall m {:trigger AdvanceAt(t, m, now, t')} :: m in t && Within(n, m) ==> AdvanceAt(t, m, now, t')
    requires forall m {:trigger SettledAt(t', m, now)} :: m in t && Within(n, m) ==> SettledAt(t', m, now)
    requires InKeyOrder(jobs, t'[n], now) && (Silent(t, n, now) ==> jobs == [])
    ensures Turn(t, n, now, t', jobs)
  {
    hide SoundFrom, AdvanceAt, SettledAt, Yielded, InKeyOrder, Silent, Within;
  }

  lemma FinishSilent(t: Tree, n: ChannelPath, now: Time, t1: Tree, ch': Chan, jobs: seq<ChannelJob>)
    requires n in t && n in t1 && t1[n] == Arrive(t[n], t1[n].ready) && OwnTurn(n, t1[n], now, ch', jobs)
    requires Silent(t, n, now) && HasCapacity(t[n]) && !Paused(t[n], now) ==> t1[n] == t[n]
    ensures Silent(t, n, now) ==> jobs == []
  {
    hide Advance, LocallySound, Yielded, InKeyOrder, Settled, Held, HasCapacity, Paused;
    if Silent(t, n, now) {
      assert OpenTo(t, n, n, now);
      StaysStuck(t[n], t1[n], now);
    }
  }

  lemma FinishAdvance(t: Tree, n: ChannelPath, now: Time, t1: Tree, ch': Chan)
    requires n in t && ChangedAbove(t, n, t1) && Advance(n, t[n], now, ch')
    requires forall m {:trigger AdvanceAt(t, m, now, t1)} :: m in t && Within(n, m) && m != n ==> AdvanceAt(t, m, now, t1)
    ensures ChangedAbove(t, n, t1[n := ch'])
    ensures forall m {:trigger AdvanceAt(t, m, now, t1[n := ch'])} :: m in t && Within(n, m) ==> AdvanceAt(t, m, now, t1[n := ch'])
  {
    hide Advance;
    var t' := t1[n := ch'];
    forall m | m in t && Within(n, m) ensures AdvanceAt(t, m, now, t') {
      if m != n { AdvanceAtSame(t, t, m, now, t1, t'); }
    }
  }

  lemma FinishSettled(t1: Tree, n: ChannelPath, now: Time, ch': Chan)
    requires n in t1 && (Sane(t1[n], now) ==> Settled(ch', now)) && SameSettings(t1[n], ch')
    requires forall m {:trigger SettledAt(t1, m, now)} :: m in t1 && Within(n, m) && m != n ==> SettledAt(t1, m, now)
    ensures forall m {:trigger SettledAt(t1[n := ch'], m, now)} :: m in t1 && Within(n, m) ==> SettledAt(t1[n := ch'], m, now)
  {
    var t' := t1[n := ch'];
    hide Settled;
    forall m | m in t1 && Within(n, m) ensures SettledAt(t', m, now) {
      if m != n { SettledAtSame(t1, t', m, now); }
    }
  }

  lemma StaysStuck(ch: Chan, ch1: Chan, now: Time)
    requires Stuck(ch, now) && ch1 == Arrive(ch, ch1.ready)
    requires HasCapacity(ch) && !Paused(ch, now) ==> ch1 == ch
    ensures Stuck(ch1, now)
  {
  }

  lemma FinishSound(t1: Tree, n: ChannelPath, ch': Chan)
    requires n in t1 && SoundFrom(t1, n) && LocallySound(n, ch') && Held(ch') == Held(t1[n])
    ensures SoundFrom(t1[n := ch'], n)
  {
    var t' := t1[n := ch'];
    assert SoundAt(t1, n);
    SameKeysClosed(t1, t');
    forall m | m in t' ensures SoundAt(t', m) {
      assert SoundAt(t1, m);
    }
    forall m | m in t' && m.Sub? && m.parent in t' && Within(n, m.parent) ensures JoinedAt(t', m) {
      assert JoinedAt(t1, m) && SoundAt(t1, m);
      WithinDepth(n, m.parent);
      if m.parent == n {
        OwnTurnKeepsFeeds(n, m, t1[m], t1[n], ch');
      }
    }
  }

  lemma ArriveThenAdvance(n: ChannelPath, ch: Chan, ready: set<ChannelJob>, now: Time, ch': Chan)
    requires ch.ready <= ready && (forall j :: j in ready && j !in ch.ready ==> j.channel != n)
    requires Advance(n, Arrive(ch, ready), now, ch')
    ensures Advance(n, ch, now, ch')
  {
    var arrived := Arrive(ch, ready);
    assert Held(ch) <= Held(arrived);
    forall j | j in Held(ch') && j.channel == n ensures j in Held(ch) {
      assert j in Held(arrived);
    }
  }

  // ---------- Asking the children one after the other ----------

  ghost predicate Untouched(t: Tree, c: ChannelPath, t1: Tree)
    requires t1.Keys == t.Keys
  {
    forall m :: m in t && Within(c, m) ==> t1[m] == t[m]
  }

  ghost predicate SettledAbove(t: Tree, c: ChannelPath, now: Time) {
    forall m {:trigger SettledAt(t, m, now)} :: m in t && Within(c, m) ==> SettledAt(t, m, now)
  }

  // The state of a call on n when the children in `done` have been asked.
  ghost predicate Progressing(t: Tree, n: ChannelPath, now: Time, t1: Tree, done: set<ChannelPath>)
    requires n in t
  {
    && Asked(t, n, now, t1)
    && (forall c {:trigger Untouched(t, c, t1)} :: IsChild(n, c) && c in t && c !in done ==> Untouched(t, c, t1))
    && (forall c {:trigger SettledAbove(t1, c, now)} :: IsChild(n, c) && c in t && c in done ==> SettledAbove(t1, c, now))
    && (Silent(t, n, now) && HasCapacity(t[n]) && !Paused(t[n], now) ==> t1[n] == t[n])
  }

  lemma ProgressStart(t: Tree, n: ChannelPath, now: Time)
    requires n in t && SoundFrom(t, n)
    ensures Progressing(t, n, now, t, {})
  {
    forall m | m in t && Within(n, m) && m != n ensures AdvanceAt(t, m, now, t) {
      AdvanceRefl(m, t[m], now);
    }
  }

  lemma UntouchedSibling(t: Tree, n: ChannelPath, t1: Tree, c: ChannelPath, t2: Tree, ch: Chan, d: ChannelPath)
    requires n in t && t1.Keys == t.Keys && ChangedAbove(t1, c, t2)
    requires IsChild(n, c) && IsChild(n, d) && c != d
    ensures forall m :: m in t && Within(d, m) ==> t2[n := ch][m] == t1[m]
  {
    ChildNotAbove(n, d);
    forall m | m in t && Within(d, m) ensures m != n && !Within(c, m) {
      if Within(c, m) { ChildrenApart(n, c, d, m); }
    }
  }

  lemma ProgressStep(t: Tree, n: ChannelPath, now: Time, t1: Tree, done: set<ChannelPath>, c: ChannelPath,
                     t2: Tree, jobs: seq<ChannelJob>)
    requires n in t && Progressing(t, n, now, t1, done)
    requires c in t && IsChild(n, c) && c !in done && Turn(t1, c, now, t2, jobs)
    ensures n in t2 && Progressing(t, n, now, t2[n := Arrive(t2[n], Elements(jobs))], done + {c})
  {
    ChildNotAbove(n, c);
    var t3 := t2[n := Arrive(t1[n], Elements(jobs))];
    assert Untouched(t, c, t1);
    hide SoundFrom, AdvanceAt, SettledAt, Silent, HasCapacity, Paused, InKeyOrder;
    AskChild(t, n, now, t1, c, t2, jobs);
    forall d | IsChild(n, d) && d in t && d !in done + {c} ensures Untouched(t, d, t3) {
      assert Untouched(t, d, t1);
      UntouchedSibling(t, n, t1, c, t2, t3[n], d);
    }
    forall d | IsChild(n, d) && d in t && d in done + {c} ensures SettledAbove(t3, d, now) {
      ProgressSettled(t, n, now, t1, c, t2, t3[n], d);
    }
    if Silent(t, n, now) && HasCapacity(t[n]) && !Paused(t[n], now) {
      SilentChild(t, n, c, now);
      AskedClosed(t, n, now, t1);
      SilentSame(t, t1, c, now);
      assert Elements(jobs) == {};
      assert t3[n] == t1[n];
    }
  }

  lemma AskedClosed(t: Tree, n: ChannelPath, now: Time, t1: Tree)
    requires n in t && Asked(t, n, now, t1)
    ensures Closed(t1)
  {
  }

  lemma SettledAtSame(t: Tree, u: Tree, m: ChannelPath, now: Time)
    requires m in t && m in u && u[m] == t[m]
    ensures SettledAt(t, m, now) ==> SettledAt(u, m, now)
  {
  }

  lemma ProgressSettled(t: Tree, n: ChannelPath, now: Time, t1: Tree, c: ChannelPath, t2: Tree, ch: Chan, d: ChannelPath)
    requires n in t && t1.Keys == t.Keys && ChangedAbove(t1, c, t2) && IsChild(n, c) && IsChild(n, d)
    requires c != d ==> SettledAbove(t1, d, now)
    requires c == d ==> SettledAbove(t2, d, now)
    ensures SettledAbove(t2[n := ch], d, now)
  {
    var t3 := t2[n := ch];
    ChildNotAbove(n, d);
    hide SettledAt;
    forall m | m in t3 && Within(d, m) ensures SettledAt(t3, m, now) {
      if c == d {
        SettledAtSame(t2, t3, m, now);
      } else {
        UntouchedSibling(t, n, t1, c, t2, ch, d);
        SettledAtSame(t1, t3, m, now);
      }
    }
  }

  lemma ProgressAt(t: Tree, n: ChannelPath, now: Time, t1: Tree, done: set<ChannelPath>)
    requires n in t && Progressing(t, n, now, t1, done)
    ensures t1.Keys == t.Keys && LocallySound(n, t1[n])
    ensures forall c :: c in t && IsChild(n, c) ==> SoundFrom(t1, c)
  {
    assert SoundAt(t1, n);
    forall c | c in t && IsChild(n, c) ensures SoundFrom(t1, c) {
      SoundFromChild(t1, n, c);
    }
  }

  // The child of n on the way to m.
  lemma {:induction false} ChildToward(t: Tree, n: ChannelPath, m: ChannelPath) returns (c: ChannelPath)
    requires Closed(t) && m in t && Within(n, m) && m != n
    ensures c in t && IsChild(n, c) && Within(c, m)
    decreases m
  {
    assert ParentIn(t, m);
    if m.parent == n {
      c := m;
    } else {
      c := ChildToward(t, n, m.parent);
    }
  }

  lemma ProgressDone(t: Tree, n: ChannelPath, now: Time, t1: Tree, done: set<ChannelPath>)
    requires n in t && Progressing(t, n, now, t1, done)
    requires forall c :: c in t && IsChild(n, c) ==> c in done
    ensures Asked(t, n, now, t1)
    ensures Silent(t, n, now) && HasCapacity(t[n]) && !Paused(t[n], now) ==> t1[n] == t[n]
    ensures forall m {:trigger SettledAt(t1, m, now)} :: m in t && Within(n, m) && m != n ==> SettledAt(t1, m, now)
  {
    hide SettledAt;
    AskedClosed(t, n, now, t1);
    forall m | m in t && Within(n, m) && m != n ensures SettledAt(t1, m, now) {
      var c := ChildToward(t1, n, m);
      assert SettledAbove(t1, c, now);
    }
  }

  // ---------- The wakeup time ----------

  // r is the earliest of some times and, if it is set, of another one; 0 if there is none.
  ghost predicate Earliest(other: Time, times: set<Time>, r: Time) {
    var all := if other == 0.0 then times else times + {other};
    if all == {} then r == 0.0 else r in all && forall w :: w in all ==> r <= w
  }

  lemma EarliestNone(other: Time)
    ensures Earliest(other, {}, other)
  {
    assert {} + {other} == {other};
  }

  lemma EarliestOne(other: Time, w: Time)
    ensures Earliest(other, {w}, if other == 0.0 || w < other then w else other)
  {
  }

  lemma EarliestMerge(other: Time, a: set<Time>, r: Time, b: set<Time>, r': Time)
    requires 0.0 !in a && 0.0 !in b && Earliest(other, a, r) && Earliest(r, b, r')
    ensures Earliest(other, a + b, r')
  {
  }

  // A channel lets the wakeup times above it through if it has capacity and is not paused.
  ghost predicate Clear(ch: Chan) {
    HasCapacity(ch) && ch.pauseUntil == 0.0
  }

  ghost predicate ClearTo(t: Tree, n: ChannelPath, m: ChannelPath)
    requires Closed(t) && m in t
    decreases m
  {
    assert ParentIn(t, m);
    m == n || (m.Sub? && Clear(t[m.parent]) && ClearTo(t, n, m.parent))
  }

  // The times at which a channel itself asks to be woken up.
  ghost function OwnWakeups(ch: Chan): set<Time> {
    if !HasCapacity(ch) then {}
    else if ch.pauseUntil != 0.0 then {ch.pauseUntil}
    else ch.waiting.Values
  }

  ghost function Wakeups(t: Tree, n: ChannelPath): set<Time>
    requires Closed(t)
  {
    set m, w | m in t && Within(n, m) && ClearTo(t, n, m) && w in OwnWakeups(t[m]) :: w
  }

  // The wakeup times of the children that have been asked.
  ghost function WakeupsOf(t: Tree, done: set<ChannelPath>): set<Time>
    requires Closed(t)
  {
    set c, w | c in done && w in Wakeups(t, c) :: w
  }

  lemma ClearBelow(t: Tree, n: ChannelPath, c: ChannelPath, m: ChannelPath)
    requires Closed(t) && m in t && n in t && IsChild(n, c) && Within(c, m)
    ensures ClearTo(t, n, m) <==> Clear(t[n]) && ClearTo(t, c, m)
    decreases m
  {
    assert ParentIn(t, m);
    ChildNotAbove(n, c);
    if m != c {
      ClearBelow(t, n, c, m.parent);
      if m == n { assert false; }
    }
  }

  lemma WakeupsSplit(t: Tree, n: ChannelPath)
    requires Closed(t) && n in t
    ensures !HasCapacity(t[n]) ==> Wakeups(t, n) == {}
    ensures HasCapacity(t[n]) && t[n].pauseUntil != 0.0 ==> Wakeups(t, n) == {t[n].pauseUntil}
    ensures Clear(t[n]) ==> Wakeups(t, n) == t[n].waiting.Values + WakeupsOf(t, set c | c in t && IsChild(n, c))
  {
    var children := set c | c in t && IsChild(n, c);
    forall w | w in Wakeups(t, n) ensures w in OwnWakeups(t[n]) || (Clear(t[n]) && w in WakeupsOf(t, children)) {
      var m :| m in t && Within(n, m) && ClearTo(t, n, m) && w in OwnWakeups(t[m]);
      if m != n {
        var c := ChildToward(t, n, m);
        ClearBelow(t, n, c, m);
        assert w in Wakeups(t, c);
      }
    }
    forall w | w in OwnWakeups(t[n]) ensures w in Wakeups(t, n) {
      assert ClearTo(t, n, n) && Within(n, n);
    }
    forall w | Clear(t[n]) && w in WakeupsOf(t, children) ensures w in Wakeups(t, n) {
      var c :| c in children && w in Wakeups(t, c);
      var m :| m in t && Within(c, m) && ClearTo(t, c, m) && w in OwnWakeups(t[m]);
      ClearBelow(t, n, c, m);
      ChildNotAbove(n, c);
      WithinTransitive(n, c, m);
    }
    hide Clear, ClearTo, HasCapacity;
  }

  lemma OwnWakeup(ch: Chan, w: Time)
    requires w in OwnWakeups(ch)
    ensures HasCapacity(ch)
    ensures if ch.pauseUntil != 0.0 then w == ch.pauseUntil else exists j :: j in ch.waiting && ch.waiting[j] == w
  {
    if ch.pauseUntil == 0.0 {
      assert w in ch.waiting.Values;
    }
  }

  lemma WakeupsNonzero(t: Tree, n: ChannelPath)
    requires SoundFrom(t, n)
    ensures 0.0 !in Wakeups(t, n)
  {
    if 0.0 in Wakeups(t, n) {
      var m :| m in t && ClearTo(t, n, m) && 0.0 in OwnWakeups(t[m]);
      assert SoundAt(t, m);
      OwnWakeup(t[m], 0.0);
    }
  }

  lemma WakeupsOfNone(t: Tree, n: ChannelPath, other: Time, r: Time)
    requires Closed(t) && n in t && Earliest(other, t[n].waiting.Values, r)
    ensures Earliest(other, t[n].waiting.Values + WakeupsOf(t, {}), r)
  {
    assert t[n].waiting.Values + WakeupsOf(t, {}) == t[n].waiting.Values;
  }

  lemma WakeupsOfOne(t: Tree, n: ChannelPath, other: Time, done: set<ChannelPath>, r: Time, c: ChannelPath, r': Time)
    requires SoundFrom(t, n) && n in t && IsChild(n, c)
    requires forall d :: d in done ==> IsChild(n, d)
    requires Earliest(other, t[n].waiting.Values + WakeupsOf(t, done), r) && Earliest(r, Wakeups(t, c), r')
    ensures Earliest(other, t[n].waiting.Values + WakeupsOf(t, done + {c}), r')
  {
    hide *;
    SoundFromChild(t, n, c);
    WakeupsNonzero(t, c);
    EtasNonzero(t, n);
    DoneNonzero(t, n, done);
    WakeupsOfMore(t, done, c);
    var a := t[n].waiting.Values + WakeupsOf(t, done);
    assert t[n].waiting.Values + (WakeupsOf(t, done) + Wakeups(t, c)) == a + Wakeups(t, c);
    EarliestMerge(other, a, r, Wakeups(t, c), r');
  }

  lemma EtasNonzero(t: Tree, n: ChannelPath)
    requires SoundFrom(t, n) && n in t
    ensures Closed(t) && 0.0 !in t[n].waiting.Values
  {
    assert SoundAt(t, n);
  }

  lemma DoneNonzero(t: Tree, n: ChannelPath, done: set<ChannelPath>)
    requires SoundFrom(t, n) && forall d :: d in done ==> IsChild(n, d)
    ensures 0.0 !in WakeupsOf(t, done)
  {
    forall d | d in done ensures 0.0 !in Wakeups(t, d) {
      SoundFromChild(t, n, d);
      WakeupsNonzero(t, d);
    }
  }

  lemma WakeupsOfMore(t: Tree, done: set<ChannelPath>, c: ChannelPath)
    requires Closed(t)
    ensures WakeupsOf(t, done + {c}) == WakeupsOf(t, done) + Wakeups(t, c)
  {
  }
}
