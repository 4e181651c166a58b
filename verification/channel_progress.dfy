// What a call of get_jobs_to_run starts and what it leaves, in terms of the fields of channels and
// jobs alone.
module ChannelProgress {
  import opened ChannelJobs
  import opened ChannelTree
  import opened ChannelTurn

  // Jobs come by priority, then by creation date, then by sequence, the smaller the earlier.
  ghost predicate NotAfter(a: ChannelJob, b: ChannelJob) {
    && a.priority <= b.priority
    && (a.priority == b.priority ==> a.dateCreated <= b.dateCreated)
    && (a.priority == b.priority && a.dateCreated == b.dateCreated ==> a.seqNo <= b.seqNo)
  }

  // The job is queued in the channel, and its eta has come if it has one.
  ghost predicate Due(ch: Chan, now: Time, job: ChannelJob) {
    job in ch.ready || (job in ch.waiting && ch.waiting[job] <= now)
  }

  // The job waits for its eta, and no other one waits for an earlier eta.
  ghost predicate NextByEta(ch: Chan, now: Time, e: ChannelJob) {
    && e in ch.waiting && now < ch.waiting[e]
    && forall j :: j in ch.waiting && now < ch.waiting[j] ==> ch.waiting[e] <= ch.waiting[j]
  }

  // A sequential channel holds the job back for one that waits for its eta and comes before it.
  ghost predicate HeldBack(ch: Chan, now: Time, job: ChannelJob) {
    ch.sequential && exists e :: e in ch.waiting && NextByEta(ch, now, e) && !NotAfter(job, e)
  }

  // The channel may start no job at all.
  ghost predicate Shut(ch: Chan, now: Time) {
    || (ch.sequential && ch.failed != {})
    || (ch.capacity != 0 && |ch.running| >= ch.capacity)
    || (ch.throttle != 0 && ch.pauseUntil != 0.0 && now < ch.pauseUntil)
  }

  lemma ByKey(a: ChannelJob, b: ChannelJob)
    ensures KeyLeq(a, b) <==> NotAfter(a, b)
    ensures KeyLess(a, b) <==> !NotAfter(b, a)
  {
  }

  // ---------- One pop ----------

  // The first of all due jobs is taken, unless a sequential channel holds it back or none is due.
  lemma PoppedIsFirst(ch: Chan, now: Time, ch': Chan, job: ChannelJob?)
    requires Popped(ch, now, ch', job)
    ensures job != null ==> Due(ch, now, job) && !HeldBack(ch, now, job)
    ensures job != null ==> forall j :: Due(ch, now, j) ==> NotAfter(job, j)
    ensures job == null ==> forall j :: Due(ch, now, j) ==> HeldBack(ch, now, j)
    ensures forall j :: Due(ch', now, j) <==> Due(ch, now, j) && j != job
    ensures forall j :: j in ch'.waiting <==> j in ch.waiting && now < ch.waiting[j]
  {
    var p := Promote(ch, now);
    assert forall j :: Due(ch, now, j) <==> j in p.ready;
    if job != null {
      if e :| e in ch.waiting && NextByEta(ch, now, e) && !NotAfter(job, e) && ch.sequential {
        LaterIsBlocked(ch, now, job, e);
      }
      forall j | Due(ch, now, j) ensures NotAfter(job, j) { ByKey(job, j); }
    } else {
      forall j | Due(ch, now, j) ensures HeldBack(ch, now, j) {
        BlockedHoldsBack(ch, now, j);
      }
    }
  }

  lemma BlockedHoldsBack(ch: Chan, now: Time, job: ChannelJob)
    requires Blocked(Promote(ch, now)) && Due(ch, now, job)
    ensures HeldBack(ch, now, job)
  {
    var p := Promote(ch, now);
    var e, r :| e in p.waiting && r in p.ready && FirstWaiting(p, e) && FirstReady(p, r) && KeyLess(e, r);
    assert KeyLeq(r, job);
    ByKey(e, job);
    forall j | j in ch.waiting && now < ch.waiting[j] ensures ch.waiting[e] <= ch.waiting[j] {
      assert j in p.waiting;
    }
  }

  lemma LaterIsBlocked(ch: Chan, now: Time, job: ChannelJob, e: ChannelJob)
    requires FirstReady(Promote(ch, now), job) && ch.sequential && NextByEta(ch, now, e) && !NotAfter(job, e)
    ensures Blocked(Promote(ch, now))
  {
    var p := Promote(ch, now);
    var f := FirstByEta(p.waiting, p.waiting.Keys);
    assert FirstWaiting(p, f);
    ByKey(e, job);
    ByKey(f, job);
  }

  lemma {:induction false} FirstByEta(etas: map<ChannelJob, Time>, jobs: set<ChannelJob>) returns (first: ChannelJob)
    requires jobs != {} && jobs <= etas.Keys
    ensures first in jobs
    ensures forall j :: j in jobs ==> etas[first] < etas[j] || (etas[first] == etas[j] && KeyLeq(first, j))
  {
    first :| first in jobs;
    if jobs != {first} {
      var other := FirstByEta(etas, jobs - {first});
      if etas[other] < etas[first] || (etas[other] == etas[first] && KeyLeq(other, first)) {
        first := other;
      }
    }
  }

  // ---------- A whole call ----------

  // A channel that is settled leaves a due job only if it is shut or holds the job back.
  lemma SettledLeavesNothing(ch: Chan, now: Time, job: ChannelJob)
    requires Settled(ch, now) && Due(ch, now, job)
    ensures Shut(ch, now) || HeldBack(ch, now, job)
  {
    if !Shut(ch, now) {
      PromoteNothing(ch, now);
      BlockedHoldsBack(ch, now, job);
    }
  }

  // A channel that is shut starts nothing, whatever its children have to give.
  lemma ShutStartsNothing(t: Tree, now: Time, t': Tree, jobs: seq<ChannelJob>, m: ChannelPath)
    requires Root in t && Turn(t, Root, now, t', jobs) && m in t && Shut(t[m], now)
    ensures t'[m].running == t[m].running
  {
    WithinRoot(m);
    assert AdvanceAt(t, m, now, t');
    if t'[m].running != t[m].running {
      SubsetSmaller(t[m].running, t'[m].running);
    }
  }

  lemma SubsetSmaller(a: set<ChannelJob>, b: set<ChannelJob>)
    requires a < b
    ensures |a| < |b|
  {
    assert b == a + (b - a) && b - a != {};
  }

  // What is yielded was due in its own channel, if it had not been started there before.
  lemma YieldedWasDue(t: Tree, now: Time, t': Tree, jobs: seq<ChannelJob>, job: ChannelJob)
    requires Sound(t) && Turn(t, Root, now, t', jobs) && job in jobs
    ensures job.channel in t && (job in t[job.channel].running || Due(t[job.channel], now, job))
  {
    assert job in Elements(jobs);
    assert job in t'[Root].running;
    HeldAtHome(t', Root, job);
    WithinRoot(job.channel);
    RunningInChild(t', Root, job.channel, job);
    StartedWasDue(t, now, t', jobs, job);
  }

  lemma StartedWasDue(t: Tree, now: Time, t': Tree, jobs: seq<ChannelJob>, job: ChannelJob)
    requires Root in t && Turn(t, Root, now, t', jobs) && job.channel in t && job in t'[job.channel].running
    ensures job in t[job.channel].running || Due(t[job.channel], now, job)
  {
    WithinRoot(job.channel);
    assert AdvanceAt(t, job.channel, now, t') && SoundAt(t', job.channel);
    assert job in Held(t'[job.channel]);
  }

  // The jobs come by priority, creation date and sequence, and before all due jobs that are left.
  lemma YieldedInOrder(t: Tree, now: Time, t': Tree, jobs: seq<ChannelJob>)
    requires Root in t && Turn(t, Root, now, t', jobs)
    ensures forall i, k :: 0 <= i < k < |jobs| ==> NotAfter(jobs[i], jobs[k])
    ensures forall i, j :: 0 <= i < |jobs| && Due(t'[Root], now, j) ==> NotAfter(jobs[i], j)
  {
    forall i, k | 0 <= i < k < |jobs| ensures NotAfter(jobs[i], jobs[k]) {
      ByKey(jobs[i], jobs[k]);
    }
    forall i, j | 0 <= i < |jobs| && Due(t'[Root], now, j) ensures NotAfter(jobs[i], j) {
      ByKey(jobs[i], j);
    }
  }
}
