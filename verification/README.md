# Scheduling, dependencies and the runner protocol of queue_job

A Dafny model of the `queue_job` addon, the job queue of an Odoo server, and of the explosion of
bills of materials in `bom_consolidated_xlsx_report`. `dafny verify dfyconfig.toml` checks it.

## What is modelled

**The channel scheduler** (`priority_queue.dfy`, `channels.dfy`, `channel_manager.dfy`). Channels form
a tree of objects, each with two heaps with lazy deletion, a running and a failed set, a capacity, a
throttle and a sequential mode. The classes are proved against definitions on the value of the tree:
`channel_tree.dfy` for the transitions and the invariant of the tree, `channel_turn.dfy` for one call
of `get_jobs_to_run` and for the wakeup time, `channel_progress.dfy` for what a call starts and what it
leaves, `scheduler.dfy` for notifications and the registry of jobs, `scheduler_placement.dfy` for where
notifications put jobs, `scheduler_runs.dfy` for what holds over runs, `channel_sequential.dfy` for the
order in sequential channels, `channel_only_job.dfy` for trees with one job. `channel_config.dfy` is the
configuration text and `channel_grammar.dfy` its grammar.

**The jobs** (`jobs.dfy`, `job_rows.dfy`, `controllers.dfy`, `runner.dfy`). Job objects, the table they
are stored in, requests of workers, actions of users, and the loops of the runner. Each is tied to a
function on the rows of the table, and runs of them to runs of the protocol.

**The protocol** (`runner_protocol.dfy`). A state machine of the table, the scheduler, the runner, its
undispatched jobs and the workers. Each transaction is one step, and steps interleave freely:
a runner reads a row and applies it later, a dispatch overwrites a row, a request times out, a worker
starts, performs and postpones, enables children and may fail to, users requeue, cancel and set to
done. `protocol_safety.dfy`, `protocol_exclusive.dfy`, `protocol_order.dfy`, `protocol_enabling.dfy`
and `protocol_retries.dfy` prove what every run keeps; `protocol_restart.dfy` and `protocol_again.dfy`
which jobs can still be started, and how often; `runner_start.dfy` how a runner starts;
`scheduler_effects.dfy` what the steps of the scheduler do to the running and queued jobs.
`lost_enabling.dfy` and `protocol_examples.dfy` are runs that show what can go wrong.

**The dependency graphs** (`graphs.dfy`, `delay_compiler.dfy`, `delays.dfy`). Chains, groups and
`on_done` build small graphs, which are connected to one graph of jobs and stored.
`delay_expressions.dfy` and `delay_trees.dfy` compare the links with the precedence that is meant, with
examples in `delay_examples.dfy`; `delayed_order.dfy` carries it on to the runs of the protocol.

**The explosion of bills of materials** (`bom_explosion.dfy`), in place and by paths.

## Where the code is not what one expects

- A child is not always enabled when its parents are done. A worker loads the parents of its job when
  it starts it and uses their states when it postpones the job. If a parent was requeued before and is
  done again by then, the job waits for nothing (`LostEnabling.EnablingCanBeLost`). No enabling is lost
  exactly if jobs are started with their parents done (`ProtocolEnabling.LostExactlyAfterStaleClaim`),
  and no worker gives up after its attempts (`ProtocolEnabling.GivingUp`, `LostEnabling.EnablingIsGivenUp`).
- `DelayableChain._head` asks the first element for its tail, and `_tail` the last one for its head.
  Precedence is lost for some chains that begin or end with a chain, and through empty groups
  (`DelayExamples.PrecedenceCanBeLost`, and exactly when: `DelayTrees.TreeExact`).
- The documentation of `DelayableGroup` says that its jobs run one after the other; the code does not
  order them, and the model follows the code.
- `set_job_enqueued` writes whatever the state of the row, so that a job that was cancelled or set to
  done is performed if the runner still has it queued, undispatched or just read, and exactly then
  (`ProtocolExamples.CancelledIsPerformed`, `ProtocolRestart.PerformedNevertheless`).
- `requeue` accepts started jobs. A job that is requeued while it is performed can be performed by a
  second worker at the same time, and only then (`ProtocolExamples.TwoWorkers`,
  `ProtocolExclusive.NeverPerformedTwice`, `ProtocolRestart.RequeueLetsSecondStart`).
- Jobs whose states are set by notifications start whatever the capacity; the capacity is kept
  nevertheless, because such jobs are counted already (`ProtocolSafety.SafeStep`).
- After a start with more jobs enqueued or started than the root channel has capacity for, the
  capacity is not kept; otherwise it is (`RunnerStart.StartIsSafe`).
- Concurrency errors postpone a job without regard to its number of retries
  (`ProtocolExamples.TriedOnceMore`); each allows for one more start (`ProtocolRetries.BoundedRetries`).
- In a sequential channel only the job with the earliest eta can hold back the ready jobs. A ready job
  can be taken before a job that waits and has a smaller key (`ChannelSequential.OrderIsLost`, and
  exactly when: `ChannelSequential.TakenOutOfOrder`, `ChannelSequential.InOrderExactly`).

## Model

| member | source | states |
|---|---|---|
| `PriorityQueues.PriorityQueue.Add` | `queue_job/jobrunner/channels.py:75-83` | the live objects gain the job, also when it was removed before and is still in the heap; the heap stays ordered and holds each known object once |
| `PriorityQueues.PriorityQueue.Remove` | `queue_job/jobrunner/channels.py:85-91` | the live objects lose the job; nothing else changes |
| `PriorityQueues.PriorityQueue.Peek` | `queue_job/jobrunner/channels.py:57-70` | a smallest live object, or nothing exactly if there is none; the live objects stay the same while dead ones are dropped |
| `PriorityQueues.PriorityQueue.Pop` | `queue_job/jobrunner/channels.py:93-104` | takes a smallest live object out, or nothing exactly if there is none |
| `PriorityQueues.PriorityQueue.Length` | `queue_job/jobrunner/channels.py:54-55` | the number of known minus removed objects is the number of live objects |
| `PriorityQueues.PriorityQueue.Contains` | `queue_job/jobrunner/channels.py:72-73` | membership in the set of live objects |
| `PriorityQueues.RootIsMinimal` | `queue_job/jobrunner/channels.py:57-70` | in an ordered heap the first object is not larger than any other, by walking up from each position |
| `PriorityQueues.HeapPop` | `queue_job/jobrunner/channels.py:93-97` | the sink-to-leaf and rise steps keep heap order and exactly the other objects |
| `ChannelJobs.LeqTransitive` | `queue_job/jobrunner/channels.py:220-225` | the comparison of jobs, where jobs with an eta come first, is transitive and total, and jobs that are both not larger have the same eta and key |
| `Channels.ChannelQueue.PromoteDue` | `queue_job/jobrunner/channels.py:332-336` | moves exactly the jobs whose eta has come to the queue without eta, one after the other, and keeps all other etas |
| `Channels.ChannelQueue.PopEtaJob` | `queue_job/jobrunner/channels.py:333-335` | the eta is reset only when the job is in no heap, so that no key in a heap changes |
| `Channels.ChannelQueue.MustWait` | `queue_job/jobrunner/channels.py:337-345` | a sequential queue waits exactly if the first job with an eta comes before the first ready job when etas are ignored; only the job with the earliest eta is looked at |
| `Channels.ChannelQueue.Pop` | `queue_job/jobrunner/channels.py:332-346` | promotes due jobs, then takes a first ready job unless the queue has to wait or is empty |
| `Channels.ChannelQueue.GetWakeupTime` | `queue_job/jobrunner/channels.py:348-354` | the smaller of the given time and the earliest eta |
| `ChannelTurn.BlockedByFirsts` | `queue_job/jobrunner/channels.py:337-345` | whether a sequential queue waits does not depend on which of several equal first jobs is looked at |
| `ChannelSequential.OrderIsLost` | `queue_job/jobrunner/channels.py:337-345` | a sound sequential channel with room that gives a ready job, although a job with a smaller key waits for its eta |
| `ChannelSequential.TakenOutOfOrder` | `queue_job/jobrunner/channels.py:337-345` | a job is taken although one that waits comes before it, exactly if one that waits comes before the first ready job but the one with the earliest eta does not |
| `ChannelSequential.InOrderExactly` | `queue_job/jobrunner/channels.py:332-346` | whatever is ready, no job is taken out of order exactly if no job has a key between that of a waiting job and that of the one with the earliest eta; so it is if the latter comes before all that wait |
| `ChannelOnlyJob.OnlyTurn` | `queue_job/jobrunner/channels.py:525-572` | a job that waits in any channel of any tree, with no other job in it, is yielded by a call after all pauses and etas, unless a capacity is negative |
| `Channels.Channel.Remove` | `queue_job/jobrunner/channels.py:463-477` | the tree after it is the value-level removal from this channel down to the root; all objects of the tree stay in order |
| `Channels.Channel.SetPending` | `queue_job/jobrunner/channels.py:479-491` | the tree after it is the value-level transition, for a job queued, running, failed or unknown |
| `Channels.Channel.SetRunning` | `queue_job/jobrunner/channels.py:493-504` | the tree after it is the value-level transition, up to the first channel where the job already runs; capacity is ignored |
| `Channels.Channel.SetFailed` | `queue_job/jobrunner/channels.py:506-514` | the tree after it is the value-level transition |
| `Channels.Channel.HasRoom` | `queue_job/jobrunner/channels.py:516-523` | there is room exactly if the channel is not sequential with a failed job, and the capacity is 0 or larger than the number of running jobs |
| `Channels.Channel.GetJobsToRun` | `queue_job/jobrunner/channels.py:525-572` | one call is a turn of the tree: jobs only advance, within capacity and throttle, nothing is lost, jobs come out in key order, and every channel at or above this one can give nothing more |
| `Channels.Channel.GetWakeupTime` | `queue_job/jobrunner/channels.py:574-592` | the earliest of all times at which a channel that is not hidden behind a full or paused one can give a job |
| `ChannelTree.RemoveSound` | `queue_job/jobrunner/channels.py:463-477` | removal keeps the tree invariant and takes the job out of every channel |
| `ChannelTree.SetPendingSound` | `queue_job/jobrunner/channels.py:479-491` | keeps the tree invariant: a job is in one place of its own channel, and in an ancestor exactly when it runs in the channel below |
| `ChannelTree.SetRunningSound` | `queue_job/jobrunner/channels.py:493-504` | keeps the tree invariant; the job runs in every channel on its path, or nothing changes |
| `ChannelTree.SetFailedSound` | `queue_job/jobrunner/channels.py:506-514` | keeps the tree invariant; the job is failed in its own channel and nowhere else |
| `ChannelTree.HeldAtHome` | `queue_job/jobrunner/channels.py:463-514` | wherever a job is held away from its own channel, it runs in its own channel |
| `ChannelTree.AddChannelSound` | `queue_job/jobrunner/channels.py:1015-1021` | a channel created below an existing one keeps the invariant, because no job can belong below it |
| `SchedulerRuns.TurnSettles` | `queue_job/jobrunner/channels.py:525-572` | after a call every channel is stuck: full, paused, or without a due job it may give |
| `SchedulerRuns.WorkConserved` | `queue_job/jobrunner/channels.py:525-572` | after a call every job still queued in any channel has its eta in the future, or the channel is sequential with a failed job, full, or paused, or it is sequential and the next job by eta comes before |
| `SchedulerRuns.WaitsForEta` | `queue_job/jobrunner/channels.py:332-354` | over runs, a job with an eta that becomes pending waits, and no call before its eta yields it, whatever notifications about other jobs come |
| `ChannelProgress.PoppedIsFirst` | `queue_job/jobrunner/channels.py:332-346` | of the due jobs the first by priority, creation date and sequence is taken, unless a job that waits for the earliest eta comes before it in a sequential queue, and nothing exactly if that holds for all due jobs |
| `ChannelProgress.ShutStartsNothing` | `queue_job/jobrunner/channels.py:516-572` | a channel that is sequential with a failed job, full or paused starts nothing, whatever its children yield |
| `ChannelProgress.YieldedWasDue` | `queue_job/jobrunner/channels.py:525-572` | what a call yields was due in its own channel, or had been started there before |
| `ChannelProgress.YieldedInOrder` | `queue_job/jobrunner/channels.py:220-225` | jobs are yielded by priority, creation date and sequence, and before all due jobs that are left |
| `SchedulerRuns.NoLostWakeup` | `queue_job/jobrunner/channels.py:574-592` | for settled trees the wakeup time is 0 or in the future, and no channel can give a job before it |
| `SchedulerRuns.SleepingLosesNothing` | `queue_job/jobrunner/runner.py:472-487` | a second call at any time before the wakeup time of the first (at any time if that is 0) yields no job |
| `SchedulerRuns.SoundAlong` | `queue_job/jobrunner/channels.py:463-572` | the tree invariant holds along every run of notifications and calls |
| `SchedulerRuns.PauseAfterStart` | `queue_job/jobrunner/channels.py:564-572` | after a start a throttled channel is paused to exactly the end of the period, or the clock has passed it, whatever notifications come |
| `SchedulerRuns.ThrottleHolds` | `queue_job/jobrunner/channels.py:545-572` | with a clock that does not go back, jobs that a throttled channel starts in different calls are a throttle apart, and one call starts one |
| `ChannelManagers.ChannelManager.Notify` | `queue_job/jobrunner/channels.py:1023-1061` | refuses data of another database or creation date; else uses the known job object exactly if sequence, priority, eta and channel are the same, replaces it by a new one if not, and applies the state, where a missing one counts as done |
| `ChannelManagers.ChannelManager.RemoveJob` | `queue_job/jobrunner/channels.py:1063-1067` | the job leaves all channels and the registry |
| `ChannelManagers.ChannelManager.AddChannel` | `queue_job/jobrunner/channels.py:1015-1021` | a missing channel appears empty below its parent; everything else stays |
| `ChannelManagers.ChannelManager.constructor` | `queue_job/jobrunner/channels.py:801-804` | starts with an empty root channel of capacity 1 |
| `ChannelManagers.ChannelManager.GetJobsToRun` | `queue_job/jobrunner/channels.py:1075-1076` | a turn of the whole tree, and the registry stays faithful |
| `ChannelManagers.ChannelManager.GetWakeupTime` | `queue_job/jobrunner/channels.py:1078-1079` | the earliest wakeup time of the whole tree |
| `Scheduler.NotifyOk` | `queue_job/jobrunner/channels.py:1023-1061` | a notification keeps the tree sound and at most one live job object for each uuid, also when it replaces the object |
| `SchedulerPlacement.NotifyPlaces` | `queue_job/jobrunner/channels.py:1023-1061` | a new job object is put where its state says: with its eta in the queue of its channel, running in its channel and all below, failed in its channel, or nowhere |
| `SchedulerPlacement.StaysPlaced` | `queue_job/jobrunner/channels.py:1023-1061` | a notification leaves all other jobs where they are |
| `Scheduler.DroppedOk` | `queue_job/jobrunner/channels.py:801-802` | the weak registry may drop any job that no channel holds |
| `SchedulerEffects.NotifyRunning` | `queue_job/jobrunner/channels.py:1023-1061` | what a notification does to the jobs that run in the root channel: nothing for other jobs, and exactly by state for its own |
| `SchedulerEffects.TurnRunning` | `queue_job/jobrunner/channels.py:525-572` | a call adds exactly the jobs it yields to those that run in the root channel, each once and none twice |
| `SchedulerEffects.RunningNotQueued` | `queue_job/jobrunner/channels.py:493-514` | a job that runs in the root channel waits in no queue of any channel |
| `JobRows.EnqueueWaitingMeans` | `queue_job/job.py:537-567` | in a linked table the statement makes a child pending exactly if it waits, depends on the job and all its parents are done |
| `Jobs.Job.AddDepends` | `queue_job/job.py:499-508` | a job cannot depend on itself; else parents and children know each other and the job waits unless all parents are done |
| `Jobs.Job.Perform` | `queue_job/job.py:510-535` | the job is finished exactly after a success or nothing to do, and broken exactly after an error or a retry that counts and reaches the limit; the counter grows unless the retry is ignored |
| `Jobs.Job.DependsOn` | `queue_job/job.py:726-730` | the parents are loaded at the first use and kept from then on |
| `Jobs.Job.SetPending` | `queue_job/job.py:792-805` | pending or waiting by the states the parents had when they were first loaded |
| `Jobs.Job.Store` | `queue_job/job.py:569-584` | the row is overwritten whatever it has become since; dependencies are those of the loaded jobs |
| `Jobs.JobTable.LoadMany` | `queue_job/job.py:228-234` | one new job object for each stored uuid, with the state of its row; unknown uuids are ignored |
| `Jobs.GetRetrySeconds` | `queue_job/job.py:841-856` | the seconds given, unless they are the number 0, or those of the pattern entry with the largest count not above the retries, or 600 |
| `Jobs.OneApplies` | `queue_job/job.py:841-856` | exactly one entry of the pattern applies, unless all ask for more retries |
| `Jobs.Job.Postpone` | `queue_job/job.py:858-870` | the eta is a permitted number of seconds after now |
| `Controllers.RunJob` | `queue_job/controllers/main.py:73-153` | a whole request: nothing if the job is not enqueued, else started, performed and stored by outcome, and children enabled after it is done |
| `Controllers.EnqueueDependentJobs` | `queue_job/controllers/main.py:43-70` | enables the children unless more than five attempts in a row conflict |
| `Controllers.RequestIsProtocol` | `queue_job/controllers/main.py:29-153` | a request that nobody disturbs is a run of protocol steps with the same result |
| `Controllers.ClaimStep` | `queue_job/controllers/main.py:85-100` | on any table, the first transaction of a request is the protocol step that starts the job, and its job object holds what the worker of the protocol knows |
| `Controllers.StillCarries` | `queue_job/controllers/main.py:73-153` | whatever step others take, the job object still holds it |
| `Controllers.PerformStep` | `queue_job/controllers/main.py:73-149` | on whatever has become of the table, performing and storing the job is the protocol step of the worker; a postponed job has an eta as its number of retries asks for |
| `Controllers.ChangeJobs` | `queue_job/models/queue_job.py:312-347` | done, cancelled or requeued one after the other; jobs that wait are not requeued |
| `Controllers.ActAllIsProtocol` | `queue_job/models/queue_job.py:312-347` | the actions of users are runs of the protocol with the same result |
| `Runners.RunJobs` | `queue_job/jobrunner/runner.py:425-440` | a turn of the scheduler, then the yielded jobs are marked enqueued in order, whatever their rows are, until a stop |
| `Runners.RunJobsIsProtocol` | `queue_job/jobrunner/runner.py:425-440` | a call of run_jobs that nobody disturbs is a run of protocol steps with the same result |
| `Runners.ProcessNotification` | `queue_job/jobrunner/runner.py:452-460` | the scheduler is notified of the row as it is, or forgets a job without row |
| `Runners.InitializeDatabase` | `queue_job/jobrunner/runner.py:415-423` | the runner notifies the scheduler once of each job that is not done, with its state; then the scheduler counts exactly the enqueued and started jobs as running, has each pending job in the queue of its channel with its eta, each failed one among the failed ones, knows those that wait for others, and no others |
| `RunnerProtocol.TableStep` | `queue_job/job.py:499-584` | every step keeps dependencies and reverse dependencies converse and within one graph, and only jobs with parents wait |
| `ProtocolSafety.SafeStep` | `queue_job/jobrunner/runner.py:425-460` | every step of runner, worker, timeout or user keeps: what is enqueued or started is counted as running, also across a read row and undispatched jobs, within the capacity |
| `ProtocolSafety.CapacityHolds` | `queue_job/jobrunner/runner.py:425-460` | in every state of every run the enqueued and started jobs are among the running jobs of the root channel, and not more than its capacity |
| `ProtocolSafety.QueuedNotActive` | `queue_job/jobrunner/runner.py:425-460` | in every state of every run a job in the queue of any channel is neither enqueued nor started in the table |
| `ProtocolExclusive.NeverPerformedTwice` | `queue_job/controllers/main.py:85-100` | no two workers perform a job at the same time, with late requests and resets racing and users setting jobs to done or cancelling them, unless a user requeues that job while it is performed |
| `ProtocolRestart.StartWhatIsNotQuiet` | `queue_job/jobrunner/runner.py:425-460` | in every state of a run whose table or runner still leads to a start of a job, the runner alone, and users who set other jobs to done, can bring it to be started |
| `ProtocolRestart.SecondWorkerExactly` | `queue_job/models/queue_job.py:344-347` | while a worker performs a job, no continuation without requeueing it meanwhile leads to a second worker exactly if neither the table nor the runner leads to a start |
| `ProtocolRestart.RequeueLetsSecondStart` | `queue_job/models/queue_job.py:344-347` | requeueing a job while it is performed always makes a second worker at the same time possible, in every state of a run |
| `ProtocolRestart.PerformedNevertheless` | `queue_job/jobrunner/runner.py:334-342` | a job that was cancelled, done or has failed and is not performed will be performed, in some continuation without requeueing it, exactly if the runner still has it queued, undispatched or just read |
| `ProtocolRestart.QuietAlong` | `queue_job/jobrunner/runner.py:334-342` | else it is never started again, over all interleavings, as long as it is not requeued |
| `ProtocolExamples.FirstStart` | `queue_job/jobrunner/channels.py:801-804` | such runs can begin: from an empty table, with the initial tree of channels and one new job object |
| `ProtocolExamples.TwoWorkers` | `queue_job/models/queue_job.py:344-347` | a run from an empty table, on any tree of channels, in which two workers perform a job that was requeued while it was performed |
| `ProtocolExamples.CancelledIsPerformed` | `queue_job/jobrunner/runner.py:334-342` | a run in which a job is performed though it was cancelled before it was dispatched |
| `ProtocolExclusive.StartsNeedDispatches` | `queue_job/controllers/main.py:85-100` | each start of a job uses up an enqueued state that a dispatch has made |
| `RunnerStart.Initialised` | `queue_job/jobrunner/runner.py:415-423` | notified once of each job in any order, a scheduler that knew none counts exactly those that are enqueued or started as running |
| `RunnerStart.NotifiedPlaces` | `queue_job/jobrunner/runner.py:415-423` | each job is where its state puts it, whatever notifications about others came before and after |
| `RunnerStart.StartIsSafe` | `queue_job/jobrunner/runner.py:415-423` | after the start the invariant of the protocol holds exactly if no more jobs are enqueued or started than the root channel has capacity for, whatever workers are doing |
| `RunnerStart.CapacityAfterStart` | `queue_job/jobrunner/runner.py:415-460` | so the capacity is kept in every state of every run after such a start |
| `ProtocolOrder.CausalOrder` | `queue_job/job.py:499-508` | a job is performed only when each of its parents has been done at some moment before, whatever was requeued, cancelled or set to done since |
| `ProtocolOrder.AncestorsDone` | `queue_job/job.py:792-805` | as long as users set no job between them to done, all ancestors of a performed job have been done, and so no descendant of a job that was never done is performed |
| `ProtocolOrder.HistoryIsTrue` | `queue_job/job.py:818-824` | the history used in these statements records exactly moments at which the row was done |
| `ProtocolEnabling.NoLostEnabling` | `queue_job/controllers/main.py:149-151` | if every job is started with all parents done and no worker gives up, in every state a job that waits with all parents done has a worker about to enable it |
| `ProtocolEnabling.NoLostEnablingWhileDone` | `queue_job/job.py:537-567` | the same for runs in which done jobs stay done |
| `ProtocolEnabling.LostExactlyAfterStaleClaim` | `queue_job/job.py:726-730` | from a state on, no continuation loses an enabling exactly if no worker performs a job of which it saw a parent not done when it started it |
| `ProtocolEnabling.GivingUp` | `queue_job/controllers/main.py:53-59` | a worker that gives up loses an enabling exactly if a child of its job waits with all parents done and no other worker has to enable that child |
| `ProtocolEnabling.WaitingIsExplained` | `queue_job/job.py:792-797` | in runs that stored graphs without cycles, started jobs with their parents done and in which no worker gave up: when nothing is pending, enqueued, started or outstanding, every job that waits has a failed or cancelled ancestor |
| `LostEnabling.EnablingCanBeLost` | `queue_job/controllers/main.py:77-83` | a run from an empty table in which a job is left waiting though its parent is done: the parent is requeued before the job starts and done again before the job is postponed |
| `LostEnabling.EnablingIsGivenUp` | `queue_job/controllers/main.py:43-70` | a run from an empty table in which a job is left waiting though its parent is done, since all attempts to enable it conflict |
| `ProtocolRetries.BoundedRetries` | `queue_job/job.py:510-535` | from when it is new or requeued, a job with m retries is started at most m times until it is requeued again, not counting concurrency errors and ignored retries, whatever else users do, and after that is done, failed or cancelled |
| `ProtocolRetries.StartsAreRetries` | `queue_job/job.py:510-535` | the number of starts is the retry counter and the number of ignored retries, and one more while the job is performed |
| `ProtocolRetries.PerformDoes` | `queue_job/job.py:510-535` | the state, the counter and the worker after each outcome: a retry that counts makes the job pending or waiting again exactly if there is no limit or it is not reached, and failed otherwise |
| `ProtocolRetries.FailsOnlyAfterRetries` | `queue_job/job.py:510-535` | over runs, a job that meets no error but those that ask for a retry has not failed before it was performed m times, counted from when it was new or requeued; with unlimited retries it never fails |
| `ProtocolRetries.RequeueDoes` | `queue_job/models/queue_job.py:344-347` | requeueing resets the retry counter and makes the job pending exactly if all its parents are done, else it waits; a waiting job and all else stay |
| `ProtocolRetries.RequeuedBegins` | `queue_job/models/queue_job.py:344-347` | after a requeue while nobody performs the job its performances are counted anew, so that the bounds hold from there |
| `ProtocolAgain.StartsAgain` | `queue_job/job.py:510-535` | in every state of a run, a job that still leads to a start can be started as often as it has retries left |
| `ProtocolAgain.RequeuedStartsAgain` | `queue_job/models/queue_job.py:344-347` | a requeued job can be started m times again, and without limit if its retries are not limited |
| `ProtocolAgain.TimedOutStartsAgain` | `queue_job/jobrunner/runner.py:210-225` | after a request has timed out an enqueued job is pending, nothing else has changed, and it can be started again |
| `ProtocolAgain.TimedOutLate` | `queue_job/jobrunner/runner.py:210-225` | a timeout changes nothing once the job is no longer enqueued |
| `ProtocolExamples.TriedOnceMore` | `queue_job/controllers/main.py:105-114` | a run in which a job that may be tried once is started twice, because of a concurrency error |
| `Graphs.Graph.AddEdge` | `queue_job/delay.py:76-82` | child and parent become vertices, and the edge is added to those there |
| `Graphs.Graph.RootVertices` | `queue_job/delay.py:147-155` | exactly the vertices without predecessors |
| `Graphs.Graph.TopologicalSort` | `queue_job/delay.py:125-145` | each vertex comes once and after all its predecessors, and all vertices come exactly if there is no cycle |
| `Graphs.OrderIsTotal` | `queue_job/delay.py:125-145` | an order that cannot be continued contains all vertices exactly if there is no cycle |
| `DelayCompiler.NewChain` | `queue_job/delay.py:320-329` | the graph of a chain has its elements and an edge from each to the next |
| `DelayCompiler.NewGroup` | `queue_job/delay.py:377-381` | the graph of a group has its members and no edge |
| `DelayCompiler.OnDone` | `queue_job/delay.py:341-349` | what is passed to on_done follows the job, the last element, or every member; an empty group forgets it |
| `DelayCompiler.MergeGraph` | `queue_job/delay.py:172-186` | links exactly the tails of each vertex to the heads of its neighbours |
| `DelayCompiler.ConnectGraphs` | `queue_job/delay.py:188-212` | terminates with a graph whose vertices are exactly the jobs reached, whose neighbours are vertices, and whose links are exactly those of the reached expressions |
| `DelayExpressions.LinkIsMeant` | `queue_job/delay.py:172-186` | every link is between jobs that the expressions put in this order |
| `DelayExpressions.MeantIsKept` | `queue_job/delay.py:320-349` | what the expressions put in order is connected by links, if the right jobs are asked for where expressions with jobs are connected, also with empty groups, on_done and shared expressions |
| `DelayExpressions.PrecedenceIsKept` | `queue_job/delay.py:188-212` | then the transitive closures of the links and of the intended precedence are the same |
| `DelayExpressions.PlainPrecedenceIsKept` | `queue_job/delay.py:320-349` | so it is, for any use of on_done and with shared expressions, if chains begin and end with jobs or groups of jobs and groups are not empty |
| `DelayTrees.TreeExact` | `queue_job/delay.py:331-402` | for expressions without repeated jobs, with on_done and empty groups, precedence is kept exactly if elements of chains that have jobs follow without gap, and head and tail give the right jobs wherever expressions with jobs are connected |
| `DelayTrees.TreeIsReached` | `queue_job/delay.py:188-212` | the expressions that connecting the graphs explores are exactly those of the tree |
| `DelayExamples.PrecedenceCanBeLost` | `queue_job/delay.py:331-387` | four expressions for which precedence is lost: a chain that begins and one that ends with a chain, also before on_done, and an empty group in a chain |
| `DelayExamples.EmptyEndIsComplete` | `queue_job/delay.py:383-387` | an empty group at the end of a chain does no harm |
| `DelayExamples.RepeatedIsComplete` | `queue_job/delay.py:172-186` | with repeated jobs the condition is not necessary: an expression that is not well connected and keeps all precedence |
| `Delays.EnsureSameGraphUuid` | `queue_job/delay.py:227-247` | no jobs, a single job with a graph uuid, or several graph uuids are errors; else all of several jobs share one: that of the jobs that have one already, or the new one |
| `Delays.Delay` | `queue_job/delay.py:249-292` | for a graph without loops at a vertex all rows are stored, linked exactly by the edges, with one graph uuid, waiting exactly if they have parents; else nothing is stored |
| `Delays.RowsAreNew` | `queue_job/delay.py:264-292` | dependencies and reverse dependencies of the stored rows are converse: the rows are a start state of the protocol |
| `Delays.RowIsStored` | `queue_job/delay.py:264-292` | each row is new, with its retries and the graph uuid, and knows exactly the jobs that the edges lead to and come from |
| `Delays.RootsArePending` | `queue_job/delay.py:147-155` | exactly the jobs of root vertices are pending |
| `DelayedOrder.MeantOrderHolds` | `queue_job/delay.py:249-292` | from expression to run: a job that is performed comes after every job that the delayed expression puts before it, as long as users set no job between the two to done |
| `DelayedOrder.RankedExactly` | `queue_job/delay.py:249-292` | the dependencies of the stored rows have no cycle exactly if the graph has none |
| `ChannelConfig.ParseSimpleConfig` | `queue_job/jobrunner/channels.py:807-901` | the loops over entries and items compute the specified configurations or the first error |
| `ChannelConfig.TextRead` | `queue_job/jobrunner/channels.py:823-868` | any text of entries that spell the configurations is read as them, with a comma or a line break between any two entries, blank entries, and white space around every part |
| `ChannelGrammar.ReadExactly` | `queue_job/jobrunner/channels.py:807-901` | a text is read as some configurations exactly if it spells them; all others are errors: repeated keys, keys called name or capacity, capacities that are no numbers, missing names |
| `ChannelConfig.RoundTrip` | `queue_job/jobrunner/channels.py:807-901` | reading what was written by the grammar gives the same configurations, for all lists with trimmed parts free of separators and without repeated keys |
| `ChannelConfig.SplitStripStrip` | `queue_job/jobrunner/channels.py:595-601` | stripping a text changes none of its stripped parts |
| `BomExplosion.Report.Explode` | `bom_consolidated_xlsx_report/wizard/bom_consolidated_xlsx.py:155-183` | for an acyclic bill of materials it ends, and adds the quantity times the weight of each product below; exactly the products below get an entry |
| `BomExplosion.Report.Accumulate` | `bom_consolidated_xlsx_report/wizard/bom_consolidated_xlsx.py:185-209` | the amount of every product is the quantity ordered times the sum over the lines of the order; exactly the ordered products from which no way leads down, and the products below the others, get an entry |
| `BomExplosion.WeightIsPathSum` | `bom_consolidated_xlsx_report/wizard/bom_consolidated_xlsx.py:155-183` | the weight of a product is the sum, over all paths down to it, of the product of the quantities on the path |
| `BomExplosion.OrderIsPathSum` | `bom_consolidated_xlsx_report/wizard/bom_consolidated_xlsx.py:185-209` | the same for a line of the order: if some path leads down from its product it counts the sum over the paths and not itself, else itself; the paths are listed completely and once each |
| `BomExplosion.OrderDoesNotMatter` | `bom_consolidated_xlsx_report/wizard/bom_consolidated_xlsx.py:155-209` | neither the order of the lines of the order nor that of any bill of materials changes an amount |

## Left out

- Channels.Channel.GetJobsToRun: a call is modelled as consumed to its end; the runner stops reading the generator early only when it has been told to stop.
- Runners.ProcessNotification: the channel of a job is given; how `get_channel_by_name` falls back to a parent, repeats name components and creates channels is left out, but for the creation of one channel. `remove_db` and `configure` are left out.
- ChannelManagers.ChannelManager.Notify: the channel of the job is given, and it exists.
- Jobs.Job.Postpone: the random draw from an interval of seconds is any number of the interval.
- Jobs.Job.Store: dates, results, exception texts, company, priority and channel of a job are not stored.
- Delays.Delay: new uuids are parameters that are not yet in use; identity keys, which can keep a graph from being stored, a second call of `delay` for jobs that have been stored already, and direct execution in tests are left out.
- DelayTrees.TreeExact: the exact condition is for expressions that unfold to a tree without repeated jobs; for shared expressions the condition is sufficient (DelayExpressions.MeantIsKept) but not necessary (DelayExamples.RepeatedIsComplete).
- ProtocolRestart.SecondWorkerExactly: channels have no negative capacity, with which a channel starts nothing, and the job does not depend on itself.
- ProtocolRestart.PerformedNevertheless: the runner may read the row of a job at any time and apply what it read with any object for the job, with or without a notification. This is more than the program does, so that what every run keeps is kept by the program; but a continuation that exists in the model may need a read for which the database sends no notification. The same holds for ProtocolRestart.SecondWorkerExactly, ProtocolRestart.RequeueLetsSecondStart and ProtocolRestart.StartWhatIsNotQuiet.
- ChannelConfig.ParseSimpleConfig: the capacity is read as an optional sign and ASCII digits with single underscores between them; other digits that Python accepts in numbers are not.
- BomExplosion.Report.Explode: quantities are real numbers; on a cyclic bill of materials, where the code does not end, nothing is stated.
- Times are real numbers and a time of 0 means none, as the code treats it; a capacity of 0 stands for a missing one as well.
- The algorithms of `heapq` belong to the standard library; they are modelled by swaps along a path of the heap.
- Concurrent transactions are atomic steps. A concurrency error is an outcome of performing a job; one while the job is being marked as started is left out.
- Crashes of the runner or a worker, several runners, several databases, and the deletion of jobs are left out, and so is the recovery loop of the runner.
- HTTP, threads, sockets, logging, environment variables, JSON, related actions, access rights, views, and `Graph.paths`, which is only for display.
- All other addons of the repository: reports, wizards, mail, backup, auditing and ledgers, and the writing of the spreadsheet around the explosion.
