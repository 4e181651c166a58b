// Jobs as the scheduler sees them, and the order in which it compares them.
module ChannelJobs {

  // Seconds since the epoch, the unit of `now`, etas and throttle pauses.
  type Time = real

  type Uuid = nat

  // A dotted channel name: the root channel, or a named subchannel of another one.
  datatype ChannelPath = Root | Sub(parent: ChannelPath, name: string)

  // n is c or one of the channels c flows into.
  predicate Within(n: ChannelPath, c: ChannelPath) {
    n == c || (c.Sub? && Within(n, c.parent))
  }

  // Two jobs are the same job only if they are the same object. All fields but the eta
  // are fixed; an eta of 0 stands for "no eta".
  class ChannelJob {
    const dbName: string
    const channel: ChannelPath
    const uuid: Uuid
    const seqNo: int
    const dateCreated: int
    const priority: int
    var eta: Time

    constructor (dbName: string, channel: ChannelPath, uuid: Uuid, seqNo: int,
                 dateCreated: int, priority: int, eta: Time)
      ensures this.dbName == dbName && this.channel == channel && this.uuid == uuid
      ensures this.seqNo == seqNo && this.dateCreated == dateCreated && this.priority == priority
      ensures this.eta == eta
    {
      this.dbName, this.channel, this.uuid := dbName, channel, uuid;
      this.seqNo, this.dateCreated, this.priority, this.eta := seqNo, dateCreated, priority, eta;
    }
  }

  // The sorting key without the eta: priority, creation date, sequence.
  predicate KeyLess(a: ChannelJob, b: ChannelJob) {
    a.priority < b.priority ||
    (a.priority == b.priority &&
     (a.dateCreated < b.dateCreated || (a.dateCreated == b.dateCreated && a.seqNo < b.seqNo)))
  }

  predicate KeyLeq(a: ChannelJob, b: ChannelJob) {
    !KeyLess(b, a)
  }

  // The full comparison: jobs with an eta come first.
  predicate Less(a: ChannelJob, b: ChannelJob)
    reads a`eta, b`eta
  {
    if a.eta != 0.0 && b.eta == 0.0 then true
    else if a.eta == 0.0 && b.eta != 0.0 then false
    else a.eta < b.eta || (a.eta == b.eta && KeyLess(a, b))
  }

  predicate Leq(a: ChannelJob, b: ChannelJob)
    reads a`eta, b`eta
  {
    !Less(b, a)
  }

  // A total preorder.
  lemma LeqTransitive(a: ChannelJob, b: ChannelJob, c: ChannelJob)
    ensures Leq(a, b) && Leq(b, c) ==> Leq(a, c)
    ensures Leq(a, b) || Leq(b, a)
    ensures Leq(a, b) && Leq(b, a) ==> a.eta == b.eta && KeyLeq(a, b) && KeyLeq(b, a)
  {
  }
}
