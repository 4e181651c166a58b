// Sequential channels: when the jobs that wait for their etas hold back those that are ready.
module ChannelSequential {
  import opened ChannelJobs
  import opened ChannelTree
  import opened ChannelTurn

  // Some job that waits for its eta comes before the job, when etas are ignored.
  ghost predicate Overtakes(ch: Chan, job: ChannelJob) {
    exists k :: k in ch.waiting && KeyLess(k, job)
  }

  // A job is taken although another one that waits comes before it, exactly if that is so for the
  // first ready job but not for the one with the earliest eta, the only one that is looked at.
  lemma TakenOutOfOrder(ch: Chan, now: Time, ch': Chan, job: ChannelJob?, e: ChannelJob, r: ChannelJob)
    requires ch.sequential && Popped(ch, now, ch', job)
    requires FirstWaiting(Promote(ch, now), e) && FirstReady(Promote(ch, now), r)
    ensures job != null && Overtakes(Promote(ch, now), job) <==> Overtakes(Promote(ch, now), r) && KeyLeq(r, e)
  {
    var p := Promote(ch, now);
    BlockedByFirsts(p, e, r);
    if job != null {
      assert KeyLeq(job, r) && KeyLeq(r, job);
    }
  }

  // The job has a key between that of a waiting job and that of the one with the earliest eta.
  ghost predicate ComesBetween(ch: Chan, e: ChannelJob, r: ChannelJob) {
    r !in ch.waiting && Overtakes(ch, r) && KeyLeq(r, e)
  }

  // Whatever is ready, no job is taken out of order, exactly if no job comes between one that
  // waits and the one with the earliest eta. So it is if the latter comes before all that wait.
  lemma InOrderExactly(ch: Chan, now: Time, e: ChannelJob)
    requires ch.sequential && FirstWaiting(ch, e) && forall j :: j in ch.waiting ==> now < ch.waiting[j]
    ensures (forall r: ChannelJob :: !ComesBetween(ch, e, r)) <==>
      forall ready: set<ChannelJob>, ch': Chan, job: ChannelJob ::
        ready !! ch.waiting.Keys && Popped(ch.(ready := ready), now, ch', job) ==> !Overtakes(ch, job)
    ensures (forall j :: j in ch.waiting ==> KeyLeq(e, j)) ==> forall r: ChannelJob :: !ComesBetween(ch, e, r)
  {
    if forall r: ChannelJob :: !ComesBetween(ch, e, r) {
      forall ready: set<ChannelJob>, ch': Chan, job: ChannelJob |
        ready !! ch.waiting.Keys && Popped(ch.(ready := ready), now, ch', job)
        ensures !Overtakes(ch, job)
      {
        var c := ch.(ready := ready);
        PromoteNothing(c, now);
        BlockedByFirsts(c, e, job);
        assert !ComesBetween(ch, e, job);
      }
    } else {
      var r :| ComesBetween(ch, e, r);
      var c := ch.(ready := {r});
      PromoteNothing(c, now);
      BlockedByFirsts(c, e, r);
      assert Popped(c, now, c.(ready := c.ready - {r}), r);
    }
  }

  // Three jobs of a sequential channel: two wait for their etas, the one with the smaller key for
  // the later one, and the third one is ready. It is taken before the one with the smaller key.
  ghost function TwoWait(first: ChannelJob, second: ChannelJob, ready: ChannelJob): Chan {
    Chan(1, true, 0, map[first := 1.0, second := 2.0], {ready}, {}, {}, 0.0)
  }

  lemma OrderIsLost(first: ChannelJob, second: ChannelJob, ready: ChannelJob)
    requires KeyLess(second, ready) && KeyLess(ready, first)
    requires first.channel == second.channel == ready.channel
    ensures LocallySound(ready.channel, TwoWait(first, second, ready)) && HasCapacity(TwoWait(first, second, ready))
    ensures Popped(TwoWait(first, second, ready), 0.0, TwoWait(first, second, ready).(ready := {}), ready)
    ensures Overtakes(TwoWait(first, second, ready), ready)
  {
    var ch := TwoWait(first, second, ready);
    PromoteNothing(ch, 0.0);
    assert ch.waiting == map[first := 1.0, second := 2.0];
    assert FirstWaiting(ch, first) && FirstReady(ch, ready);
    BlockedByFirsts(ch, first, ready);
    assert second in ch.waiting && ch.ready - {ready} == {};
  }
}
