// A tree of channels that holds one job only: a call at a time when no pause and no eta is left
// yields the job, wherever in the tree it waits.
module ChannelOnlyJob {
  import opened ChannelJobs
  import opened ChannelTree
  import opened ChannelTurn

  ghost predicate OnlyJob(t: Tree, job: ChannelJob) {
    forall m :: m in t ==> Held(t[m]) <= {job}
  }

  // No pause and no eta lies after the time.
  ghost predicate Past(ch: Chan, now: Time) {
    ch.pauseUntil <= now && forall j :: j in ch.waiting ==> ch.waiting[j] <= now
  }

  ghost predicate AllPast(t: Tree, now: Time) {
    forall m :: m in t ==> Past(t[m], now)
  }

  // A negative capacity would let a channel start no job at all.
  ghost predicate Capable(t: Tree) {
    forall m :: m in t ==> t[m].capacity >= 0
  }

  // The job advances to running in the channels on its way, and pauses are renewed.
  ghost function Moved(ch: Chan, onWay: bool, job: ChannelJob, now: Time): Chan {
    var moved := if onWay then Run(ch, job) else ch;
    if ch.throttle == 0 then moved
    else moved.(pauseUntil := if moved.running == ch.running then 0.0 else now + ch.throttle as real)
  }

  ghost function AllMoved(t: Tree, job: ChannelJob, now: Time): Tree {
    map m | m in t :: Moved(t[m], Within(m, job.channel), job, now)
  }

  lemma MovedSound(t: Tree, job: ChannelJob, now: Time)
    requires Sound(t) && job.channel in t
    ensures Sound(AllMoved(t, job, now))
  {
    var r, t' := RunFrom(t, job.channel, job), AllMoved(t, job, now);
    RunFromSound(t, job);
    SameKeysClosed(r, t');
    forall m | m in t' ensures SoundAt(t', m) {
      assert SoundAt(r, m);
    }
    forall m | m in t' && m.Sub? && m.parent in t' && Within(Root, m.parent) ensures JoinedAt(t', m) {
      assert JoinedAt(r, m);
    }
  }

  // The job waits in channel q: it runs below q and is not held above it.
  lemma {:induction false} FreeAbove(t: Tree, job: ChannelJob, q: ChannelPath, m: ChannelPath)
    requires Sound(t) && q in t && job in Queued(t[q]) && m in t && Within(m, q)
    ensures job !in t[m].running && job !in t[m].failed
    ensures m != q ==> job !in Held(t[m])
  {
    HeldAtHome(t, q, job);
    assert SoundAt(t, q) && SoundAt(t, m);
    if m != q && job in Held(t[m]) {
      WithinDepth(m, q);
      HeldAtHome(t, m, job);
      WithinTransitive(m, q, job.channel);
      HeldBelow(t, m, q, job);
    }
  }

  // A channel on the way of the job: the job runs there already, or nothing does.
  ghost predicate Free(n: ChannelPath, ch: Chan, job: ChannelJob) {
    && Held(ch) <= {job} && LocallySound(n, ch) && ch.capacity >= 0
    && job !in ch.failed && (n == job.channel ==> job in Held(ch))
  }

  lemma WayIsFree(t: Tree, job: ChannelJob, q: ChannelPath, m: ChannelPath)
    requires Sound(t) && OnlyJob(t, job) && Capable(t) && q in t && job in Queued(t[q])
    requires m in t && Within(m, job.channel)
    ensures Free(m, t[m], job)
  {
    assert SoundAt(t, m);
    HeldAtHome(t, q, job);
    WithinLinear(m, q, job.channel);
    if Within(m, q) {
      FreeAbove(t, job, q, m);
    } else {
      assert SoundAt(t, q);
      if q == job.channel { WithinDepth(q, m); WithinDepth(m, q); }
      HeldBelow(t, q, m, job);
    }
  }

  lemma MovedParts(n: ChannelPath, ch: Chan, job: ChannelJob, now: Time)
    requires Free(n, ch, job)
    ensures var ch' := Moved(ch, true, job, now);
      && ch'.waiting == map[] && ch'.ready == {} && ch'.running == {job} && ch'.failed == {} == ch.failed
      && ch.running <= {job} && Held(ch') == {job} && SameSettings(ch, ch')
  {
    var r := Run(ch, job);
    assert ch.waiting - {job} == map[] && ch.failed == {} && ch.running <= {job};
    assert r.running == {job};
  }

  lemma MovedThrottled(ch: Chan, job: ChannelJob, now: Time)
    requires ch.running <= {job} && Past(ch, now) && Moved(ch, true, job, now).running == {job}
    ensures Throttled(ch, now, Moved(ch, true, job, now))
  {
    assert Moved(ch, true, job, now).running == ch.running + {job};
  }

  lemma AdvanceOnWay(n: ChannelPath, ch: Chan, job: ChannelJob, now: Time)
    requires Free(n, ch, job) && Past(ch, now)
    ensures var ch' := Moved(ch, true, job, now);
      && Advance(n, ch, now, ch') && ch'.waiting == map[] && ch'.ready == {} && ch'.running == {job}
  {
    MovedParts(n, ch, job, now);
    MovedThrottled(ch, job, now);
    hide Moved, Throttled, LocallySound;
  }

  lemma AdvanceElsewhere(n: ChannelPath, ch: Chan, job: ChannelJob, now: Time)
    requires LocallySound(n, ch) && Past(ch, now) && Held(ch) <= {job} && !Within(n, job.channel)
    ensures Advance(n, ch, now, Moved(ch, false, job, now)) && Queued(ch) == {}
  {
  }

  lemma MovedAdvances(t: Tree, job: ChannelJob, q: ChannelPath, now: Time, m: ChannelPath)
    requires Sound(t) && OnlyJob(t, job) && Capable(t) && AllPast(t, now) && q in t && job in Queued(t[q]) && m in t
    ensures AdvanceAt(t, m, now, AllMoved(t, job, now)) && SettledAt(AllMoved(t, job, now), m, now)
  {
    var ch := t[m];
    assert SoundAt(t, m) && Past(ch, now);
    hide Advance, Held, Queued, Sound, LocallySound;
    if Within(m, job.channel) {
      WayIsFree(t, job, q, m);
      AdvanceOnWay(m, ch, job, now);
    } else {
      AdvanceElsewhere(m, ch, job, now);
      QueuedParts(ch);
    }
  }

  lemma QueuedParts(ch: Chan)
    requires Queued(ch) == {}
    ensures ch.waiting == map[] && ch.ready == {}
  {
    assert ch.waiting.Keys <= Queued(ch);
  }

  // ---------- The call is not silent ----------

  lemma {:induction false} OpenAbove(t: Tree, job: ChannelJob, q: ChannelPath, now: Time, m: ChannelPath)
    requires Sound(t) && OnlyJob(t, job) && Capable(t) && AllPast(t, now) && q in t && job in Queued(t[q])
    requires m in t && Within(m, q)
    ensures OpenTo(t, Root, m, now) && HasCapacity(t[m]) && !Paused(t[m], now)
    decreases m
  {
    FreeAbove(t, job, q, m);
    assert ParentIn(t, m) && Past(t[m], now) && t[m].running == {} && t[m].failed == {};
    if m.Sub? {
      WithinTransitive(m.parent, m, q);
      OpenAbove(t, job, q, now, m.parent);
    }
  }

  lemma NotSilent(t: Tree, job: ChannelJob, q: ChannelPath, now: Time)
    requires Sound(t) && OnlyJob(t, job) && Capable(t) && AllPast(t, now) && q in t && job in Queued(t[q])
    ensures !Silent(t, Root, now)
  {
    OpenAbove(t, job, q, now, q);
    WithinRoot(q);
    assert Past(t[q], now);
    var ch := t[q];
    assert !Blocked(ch) by {
      if e, r :| e in ch.waiting && r in ch.ready && KeyLess(e, r) {
        assert SoundAt(t, q) && e in Held(ch) && r in Held(ch);
      }
    }
    assert !Stuck(ch, now);
  }

  // ---------- The call ----------

  lemma RootYields(t: Tree, job: ChannelJob, q: ChannelPath, now: Time)
    requires Sound(t) && OnlyJob(t, job) && Capable(t) && AllPast(t, now) && q in t && job in Queued(t[q])
    ensures Root in t && Root in AllMoved(t, job, now)
    ensures Yielded(t[Root], AllMoved(t, job, now)[Root], [job]) && InKeyOrder([job], AllMoved(t, job, now)[Root], now)
  {
    HeldAtHome(t, q, job);
    WithinRoot(job.channel);
    WithinRoot(q);
    WayIsFree(t, job, q, Root);
    FreeAbove(t, job, q, Root);
    MovedParts(Root, t[Root], job, now);
    hide Sound, Moved;
    assert Elements([job]) == {job};
  }

  lemma TurnParts(t: Tree, now: Time, t': Tree, jobs: seq<ChannelJob>)
    requires Root in t && t'.Keys == t.Keys && Sound(t')
    requires Yielded(t[Root], t'[Root], jobs) && InKeyOrder(jobs, t'[Root], now) && !Silent(t, Root, now)
    requires forall m :: m in t ==> AdvanceAt(t, m, now, t') && SettledAt(t', m, now)
    ensures Turn(t, Root, now, t', jobs)
  {
    forall m | m in t ensures Within(Root, m) { WithinRoot(m); }
    hide Yielded, InKeyOrder, Silent, AdvanceAt, SettledAt, SoundFrom;
  }

  lemma OnlyTurn(t: Tree, job: ChannelJob, q: ChannelPath, now: Time)
    requires Sound(t) && OnlyJob(t, job) && Capable(t) && AllPast(t, now) && q in t && job in Queued(t[q])
    ensures Root in t && Turn(t, Root, now, AllMoved(t, job, now), [job])
  {
    hide *;
    RootYields(t, job, q, now);
    NotSilent(t, job, q, now);
    QueuedAtHome(t, job, q);
    MovedSound(t, job, now);
    MovedKeys(t, job, now);
    AllAdvance(t, job, q, now);
    TurnParts(t, now, AllMoved(t, job, now), [job]);
  }

  lemma QueuedAtHome(t: Tree, job: ChannelJob, q: ChannelPath)
    requires Sound(t) && q in t && job in Queued(t[q])
    ensures job.channel in t
  {
    HeldAtHome(t, q, job);
  }

  lemma MovedKeys(t: Tree, job: ChannelJob, now: Time)
    ensures AllMoved(t, job, now).Keys == t.Keys
  {
  }

  lemma AllAdvance(t: Tree, job: ChannelJob, q: ChannelPath, now: Time)
    requires Sound(t) && OnlyJob(t, job) && Capable(t) && AllPast(t, now) && q in t && job in Queued(t[q])
    ensures AllMoved(t, job, now).Keys == t.Keys
    ensures forall m :: m in t ==> AdvanceAt(t, m, now, AllMoved(t, job, now)) && SettledAt(AllMoved(t, job, now), m, now)
  {
    hide *;
    MovedKeys(t, job, now);
    forall m | m in t ensures AdvanceAt(t, m, now, AllMoved(t, job, now)) && SettledAt(AllMoved(t, job, now), m, now) {
      MovedAdvances(t, job, q, now, m);
    }
  }

  // There is a time after all pauses and etas.
  lemma {:induction false} SomeTime(t: Tree, keys: set<ChannelPath>) returns (now: Time)
    requires keys <= t.Keys
    ensures now >= 0.0 && forall m :: m in keys ==> Past(t[m], now)
  {
    if keys == {} {
      now := 0.0;
    } else {
      var m :| m in keys;
      var before := SomeTime(t, keys - {m});
      var latest := LatestEta(t[m], t[m].waiting.Keys);
      now := if latest > before then latest else before;
      now := if t[m].pauseUntil > now then t[m].pauseUntil else now;
      forall k | k in keys ensures Past(t[k], now) {
        if k != m { assert Past(t[k], before); }
      }
    }
  }

  lemma {:induction false} LatestEta(ch: Chan, jobs: set<ChannelJob>) returns (latest: Time)
    requires jobs <= ch.waiting.Keys
    ensures forall j :: j in jobs ==> ch.waiting[j] <= latest
  {
    latest := 0.0;
    if jobs != {} {
      var j :| j in jobs;
      var before := LatestEta(ch, jobs - {j});
      latest := if ch.waiting[j] > before then ch.waiting[j] else before;
    }
  }
}
