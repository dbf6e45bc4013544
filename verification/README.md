# A verified model of the concurrent task engine

A task engine accepts tasks from any number of threads, queues them in a bounded queue, runs them on a fixed set of
workers, and hands each submitter a future. This project models that engine as a transition system with one program
counter per thread and proves what it promises over every interleaving: no wakeup is lost, no reachable state is stuck,
every call returns, every future is set exactly once, draining and aborting do what they say, and the reported numbers
agree with the futures. Around it stand the metrics arithmetic, the splitmix64 workload, the argument parser and the
command-line run, which composes everything end to end.

`dafny verify dfyconfig.toml` checks the whole project.

## How it is organised

- `Core`, `Queues`, `Envelopes`, `Pool`: the values, the queue's lock-protected sections, and the classes
  `BlockingQueue`, `TaskEnvelope` and `ThreadPool`. The methods of `BlockingQueue` are proved equal to the section
  functions `PushSection`, `PopSection`, `CloseSection`, `DrainSection`, and the transition system uses those same
  functions; likewise `RanResult`, `RejectedResult` and `SampleOf` for the envelope.
- `Protocol`: the transition system. A lock-protected section is one step. A notification is a later step, because the
  code notifies after unlocking. A waiting thread is in a sleeper set and may wake spuriously; `notify_one` wakes exactly
  one sleeper if there is one and is lost otherwise (section 33.5.3 of ISO/IEC 14882:2017). Setting a promise, counting a
  rejection and appending a sample are separate steps. The constructor starts workers one by one and may fail part way.
- `Structure`, `Wakeups`, `Records`, `Ledger`: the inductive invariants. `Ledger` states conservation for an arbitrary
  weight on envelopes, so one induction yields exactly-once (weight "has this id"), totals (weight one) and failure counts
  (weight "throws").
- `Progress`, `Runs`, `Reachability`: deadlock freedom, the measure `Work`, and induction over runs.
- `Engine`, `Order`, `Refusals`, `Instants`, `Termination`, `Stopping`, `Accounting`, `Lag`, `Witnesses`: the theorems
  about every reachable state and every run, and the runs that show what can happen.
- `Sums`, `Metrics`, `Words`, `Workload`, `KnownAnswer`, `CommandLine`, `Cli`, `CliTermination`: the rest.

## Assumptions

- Execution of a task ends, by returning or by throwing, and never calls back into its own engine
  (include/taskengine/concurrency/thread_pool.hpp:40-42).
- Allocation succeeds, the clock is globally monotone, fewer than 2^64 - 1 tasks are submitted, and sums of durations
  stay within the clock's representation; ids, counters and durations are therefore unbounded integers here. Where
  wrap-around is the point (`NearestRankIndex`, the workload) it is modelled.
- Atomics and locked sections are sequentially consistent.
- Whether a task throws is fixed when it is submitted and becomes visible only when it executes; the outcome is otherwise
  arbitrary.
- Taking the next id and stamping the submission instant (src/execution/task_engine.cpp:13, src/core/task_envelope.cpp:10-11)
  are one step here, so instants grow with ids; in the code they need not. No theorem uses that order.
- A clock reading is part of the step it belongs to: starting a task, ending it, rejecting a refused one, and, for a
  drained batch, the step after the last notification.
- Spurious wakeups on an open queue can recur for ever. The bounds on runs charge two steps for each of them; once the
  queue is closed they are covered by the bound like any other step. Deadlock freedom never relies on them.

## Where the code and its documentation disagree

- A comment in tests/unit/options_test.cpp:99-104 says that help wins over mistakes. The code shows help only if all
  arguments before the flag are well-formed pairs: `HelpExactlyAfterGoodPairs` gives the exact condition and
  `MistakeHidesHelp` a command line on which the mistake wins.
- include/taskengine/metrics/run_summary.hpp:14-18 promises the nearest rank. The product `percent * n` is computed in
  `std::size_t` and can wrap: `NearestRankExactIffNoWrap` shows the index is the nearest rank exactly when
  `percent * n + 99` fits. `NearestRankCanWrap` gives a size that a vector of samples can still have and for which the
  index for 95 per cent is 0; `WrappedReport` shows what a report over that many values says.
- A summary may be asked for as soon as the workers are joined, while refused submissions and drained batches are still
  being rejected, and it reads the samples and the counter one after the other, in an order C++ leaves open. `SummaryLag`
  states, for either order, by exactly how much its total then falls short of the submitted count, `SummaryCompleteIff`
  when it does not, and `SummaryCanLag` that every shortfall occurs in some run; with no call in
  flight the difference is zero (`SummaryMatchesFutures`).

## Model

| member | source | states |
|---|---|---|
| Queues.BlockingQueue.Make | include/taskengine/concurrency/blocking_queue.hpp:49-56 | construction is refused exactly for capacity zero; otherwise the queue is open and empty |
| Queues.BlockingQueue.Push | include/taskengine/concurrency/blocking_queue.hpp:73-86 | accepted exactly when open and not full, then appended at the back; refused exactly when closed; otherwise nothing changes; equals the section the protocol uses |
| Queues.BlockingQueue.Pop | include/taskengine/concurrency/blocking_queue.hpp:93-110 | removes the oldest item exactly when there is one; finished exactly when closed and empty; otherwise nothing changes |
| Queues.BlockingQueue.Close | include/taskengine/concurrency/blocking_queue.hpp:115-127 | closes, keeps the items, and owes notifications exactly the first time |
| Queues.BlockingQueue.CloseAndDrain | include/taskengine/concurrency/blocking_queue.hpp:140-156 | one section closes, empties the queue and returns exactly its contents in order |
| Envelopes.TaskEnvelope.Run | src/core/task_envelope.cpp:15-42 | an unset promise is set to Succeeded without a message, or to Failed with what() or "unknown exception", under its own id and with the given instants; the sample is that result without the message |
| Envelopes.TaskEnvelope.Reject | src/core/task_envelope.cpp:44-46 | an unset promise is set to Rejected, under its own id, without a message and with zero execution time |
| Pool.CollectSamples | src/concurrency/thread_pool.cpp:77-98 | refused exactly when the workers are not joined; otherwise the concatenation of all buffers |
| Pool.FlattenPosition | src/concurrency/thread_pool.cpp:92-97 | every buffered sample is in the merged list, at the position its buffer and index determine |
| Pool.FlattenOrigin | src/concurrency/thread_pool.cpp:92-97 | every merged sample comes from exactly such a position |
| Pool.ThreadPool.RejectDiscarded | src/concurrency/thread_pool.cpp:67-72 | every drained promise is set to Rejected with the common instant, and the counter grows by their number |
| Pool.ThreadPool.JoinWorkers | src/concurrency/thread_pool.cpp:116-131 | afterwards every worker has been joined exactly once, also over repeated calls |
| Pool.ThreadPool.Record | src/concurrency/thread_pool.cpp:107-113 | a worker appends to its own buffer and touches no other |
| Structure.StructuralAct | src/concurrency/thread_pool.cpp:10-131 | every step keeps ids, FIFO history, the meaning of closed and exited, and the join protocol |
| Wakeups.NoLostWakeupAct | include/taskengine/concurrency/blocking_queue.hpp:73-127 | every step keeps the wakeup accounting: items and free slots covered while open, sleepers owed a notify_all once closed |
| Records.HonestAct | src/core/task_envelope.cpp:10-46 | every step keeps instants ordered and results and samples genuine; which instants they are is stated by the Instants rows |
| Records.VerdictsAct | src/concurrency/thread_pool.cpp:40-52 | every step keeps what submit reports in line with the envelope's fate |
| Ledger.EnvelopeLawsAct | src/concurrency/thread_pool.cpp:40-114 | every step conserves envelopes between submitters, queue, workers, batches and set promises, for every weight |
| Ledger.SampleLawAct | src/concurrency/thread_pool.cpp:104-114 | every step keeps recorded plus pending samples equal to the results workers delivered, for every weight |
| Ledger.RejectedLawAct | src/concurrency/thread_pool.cpp:49-50 | every step keeps the counter plus uncounted rejections equal to the promises set to Rejected |
| Reachability.ReachableSound | src/concurrency/thread_pool.cpp:10-131 | all invariants and conservation laws hold in every reachable state |
| Reachability.SinceAlong | src/concurrency/thread_pool.cpp:54-131 | along every run histories only grow, closing and joining are final, a finished queue stays finished |
| Progress.SomeThreadCanMove | include/taskengine/concurrency/blocking_queue.hpp:73-156 | from the invariants: while any call is unfinished some thread has an enabled step |
| Progress.StepUsesWork | src/concurrency/thread_pool.cpp:54-131 | every step but a new call (and a spurious wakeup while open) strictly decreases one natural-number measure |
| Termination.NoLostWakeupAlways | include/taskengine/concurrency/blocking_queue.hpp:73-127 | in every reachable state: with a consumer asleep, items are at most owed notifications plus woken consumers; likewise free slots and producers; once closed, sleepers are owed a notify_all |
| Termination.NeverStuck | include/taskengine/concurrency/blocking_queue.hpp:73-156 | no reachable state with an unfinished constructor, submit or shutdown is stuck |
| Termination.EveryRunIsBounded | src/concurrency/thread_pool.cpp:40-131 | every run whatsoever is no longer than the work present plus 13 per submit call started, workers + 8 per shutdown call started, and 2 per spurious wakeup on the open queue |
| Termination.EveryCallCanReturn | src/concurrency/thread_pool.cpp:40-75 | every reachable state has a run, without new calls or spurious wakeups, in which all calls return |
| Termination.MaximalRunsReturn | src/concurrency/thread_pool.cpp:40-75 | every run, whatever calls and spurious wakeups it contains, that no thread can continue by itself has returned every call; a spurious wakeup does not count as being able to go on |
| Termination.ShutdownTerminates | src/concurrency/thread_pool.cpp:21-75 | with a shutdown under way, the one of a failed constructor included, every such run is bounded and ends with all workers exited and joined once |
| Termination.FailedConstructorReleases | src/concurrency/thread_pool.cpp:21-29 | in every reachable state in which the constructor has thrown and returned, the queue is closed, every started worker has exited and been joined once, and nothing was ever submitted |
| Termination.FailedConstructionTerminates | src/concurrency/thread_pool.cpp:17-29 | from the failure on, every run is bounded, starts no further worker, and once no thread can move by itself has released every started worker; no shutdown is assumed |
| Witnesses.FailedConstructionOccurs | src/concurrency/thread_pool.cpp:17-29 | for every worker count n and every k below n some run throws from the constructor having started, and released, exactly k workers |
| Stopping.StepUsesStopWork | include/taskengine/concurrency/blocking_queue.hpp:73-127 | on a closed queue every worker and shutdown step decreases one measure that submit calls, new ones included, never increase |
| Stopping.ShutdownUnderLoad | src/concurrency/thread_pool.cpp:54-75 | after closing, however many submit calls keep arriving, workers and shutdown calls take boundedly many steps; one of them can move, without a spurious wakeup, until every shutdown has returned, and then all workers are joined |
| Engine.ExactlyOnePlace | src/execution/task_engine.cpp:12-23 | issued ids are exactly 1..submitted_count, and each is at every moment in exactly one place |
| Engine.NoPromiseSetTwice | include/taskengine/core/task_envelope.hpp:25-27 | no promise is set twice in any run |
| Engine.ResultsAreFinal | include/taskengine/core/task_state.hpp:11-13 | a delivered result never changes |
| Engine.ResultsAreTruthful | src/core/task_envelope.cpp:15-46 | every result of every reachable state carries the id and submission instant of the task issued under that id, the state its fate calls for, and as message exactly what() or "unknown exception" for a failure and nothing otherwise |
| Instants.RanInstants | src/core/task_envelope.cpp:31-32 | in every run, the result of a task that ran carries the clock of the step that issued it, of the step that put it into execution and of the later step in which its worker stopped executing it; the promise is set later still |
| Instants.SampleInstants | src/concurrency/thread_pool.cpp:104-114 | in every run, a sample in the buffer of worker v is that of a task worker v itself executed, with the clock of the steps that issued, started and ended it |
| Instants.RefusedInstants | src/concurrency/thread_pool.cpp:45-50 | in every run, the result of a refused task carries the clock of the step that issued it and, twice, of the step that rejected it, which comes after its push met a closed queue |
| Instants.DiscardedInstants | src/concurrency/thread_pool.cpp:62-72 | in every run, a discarded task was in the queue at some shutdown_now's drain and carries, twice, the clock of one step between that drain and its rejection |
| Instants.DiscardedAtOneInstant | src/concurrency/thread_pool.cpp:67-71 | all tasks drained together are rejected with one and the same instant, read after the drain and before the first of these rejections |
| Witnesses.EveryTimingOccurs | src/core/task_envelope.cpp:15-42 | every outcome and every ordered triple of instants occurs in some run, as a result and as a sample |
| Engine.EveryFutureResolved | include/taskengine/concurrency/thread_pool.hpp:34-38 | with no call in flight after a shutdown, every issued id is resolved exactly once, to a genuine terminal result |
| Engine.SettledConservation | include/taskengine/concurrency/thread_pool.hpp:34-38 | at quiescence the issued and the resolved envelopes agree under every weight |
| Engine.FifoAlways | include/taskengine/concurrency/blocking_queue.hpp:73-110 | accepted pushes are the pops, then the drained items, then the contents, and the capacity is never exceeded |
| Order.NeverOvertaken | include/taskengine/concurrency/blocking_queue.hpp:73-110 | if one call's push was accepted before another call began, then in every later state it precedes the other's among the accepted pushes, and the other is never dequeued ahead of it |
| Refusals.RefusedPushKeepsEnvelope | include/taskengine/concurrency/blocking_queue.hpp:69-79 | in every run after a refusal the envelope is never queued, popped, drained or executed; it stays unchanged with its call until that call has rejected it, once |
| Engine.NulloptIsFinal | include/taskengine/concurrency/blocking_queue.hpp:90-102 | after a worker saw nullopt the queue is closed and empty for ever and everything accepted was popped or drained |
| Engine.NothingPoppedAfterAbort | include/taskengine/concurrency/blocking_queue.hpp:129-156 | once a close_and_drain section has run nothing is dequeued again, and accepted is popped then drained |
| Engine.DrainedNeverRuns | src/concurrency/thread_pool.cpp:62-75 | a drained id is never executed nor reported as run, a popped one never discarded, and none executes twice |
| Engine.AcceptedFate | src/concurrency/thread_pool.cpp:62-75 | at quiescence an accepted id ended as run exactly if popped and as rejected exactly if drained |
| Engine.DrainIsComplete | src/concurrency/thread_pool.cpp:54-60 | without shutdown_now, once any shutdown has returned every accepted id executed once, was resolved by its worker and left one sample |
| Refusals.DeclinedNext | include/taskengine/concurrency/blocking_queue.hpp:73-79 | in every step, a call becomes refused exactly if its own push meets a closed queue, and a refusal is never undone |
| Refusals.RejectedIffPushSawClosed | src/concurrency/thread_pool.cpp:40-52 | without shutdown_now, in every run come to rest, an id is rejected exactly when at some step of the run the push of its own call met a closed queue, and was run by a worker otherwise |
| Refusals.ClosingDecides | include/taskengine/concurrency/blocking_queue.hpp:111-127 | from any closed state, in every run to rest, an id ends refused exactly if it had not been accepted by then, and accepted ids end run, or discarded if there was a shutdown_now |
| Refusals.ReachableIffRun | src/concurrency/thread_pool.cpp:10-131 | the states in which these runs end are exactly the reachable ones |
| Refusals.OneCloseNotifies | include/taskengine/concurrency/blocking_queue.hpp:115-127 | in every run at most one shutdown() call, in one step, closes the queue and notifies; later ones find it closed |
| Engine.JoinSafety | src/concurrency/thread_pool.cpp:116-131 | under any number of shutdown calls each worker is joined at most once, after it exited, and joined_ means all were |
| Engine.BuffersAreOwned | include/taskengine/concurrency/thread_pool.hpp:98-103 | buffer v changes only by worker v appending to it |
| Engine.CollectionsAgree | src/concurrency/thread_pool.cpp:77-98 | after joined_ the buffers never change, so all collections agree |
| Accounting.CountersFollowFutures | src/concurrency/thread_pool.cpp:40-75 | in every reachable state counter and samples equal the futures per state minus the updates still owed |
| Accounting.SummaryMatchesFutures | src/execution/task_engine.cpp:29-38 | at quiescence each summary count equals the futures in that state and the three partition the submitted count |
| Accounting.SummaryLag | src/execution/task_engine.cpp:29-38 | with the two reads in either order and any steps in between, the total plus the rejections in flight, plus those counted in between if the counter is read first, is the submitted count |
| Accounting.SummaryCompleteIff | src/execution/task_engine.cpp:29-38 | a summary covers every submission if and only if, at its later read, no submit call holds its envelope or has a refusal uncounted, no shutdown_now has drained envelopes not yet rejected and counted, and, if the counter is read first, nothing was counted in between |
| Lag.SummaryCanLag | src/execution/task_engine.cpp:29-38 | for every m some reachable joined state has a summary that misses exactly m submissions |
| Witnesses.ConsumerMayWake | include/taskengine/concurrency/blocking_queue.hpp:93-98 | in every reachable state a sleeping consumer may wake for no reason, with nothing else changed |
| Witnesses.ProducerMayWake | include/taskengine/concurrency/blocking_queue.hpp:73-78 | so may a sleeping producer |
| Witnesses.StopMayArrive | src/concurrency/thread_pool.cpp:54-75 | once constructed, the engine may be stopped at any moment, in either way and any number of times |
| Witnesses.TaskMayArrive | src/concurrency/thread_pool.cpp:40-43 | once constructed, the engine may be given a task at any moment, open or closed |
| Accounting.SamplesGenuine | src/core/task_envelope.cpp:31-41 | in every reachable state every recorded sample is Succeeded or Failed with submitted <= dequeued <= finished |
| Accounting.EngineLatencyDominates | src/metrics/run_summary.cpp:94-101 | for every reachable state, latency dominates wait and execution in every order statistic and the totals add up |
| Metrics.NearestRankIndex | src/metrics/run_summary.cpp:47-57 | for a nonempty sample the index is in range whatever wraps |
| Metrics.NearestRankExactIffNoWrap | src/metrics/run_summary.cpp:47-57 | the index is the nearest rank if and only if the 64-bit arithmetic does not wrap |
| Metrics.NearestRankCanWrap | src/metrics/run_summary.cpp:51-54 | a size within what a vector of samples can hold for which the wrapped index for 95 per cent is 0 and wrong |
| Metrics.WrappedReport | src/metrics/run_summary.cpp:16-36 | a report over that many values gives their minimum as p95, which is the 95th percentile exactly if 95 per cent of the values equal it |
| Metrics.NearestRankMonotone | src/metrics/run_summary.cpp:47-57 | without wrap a higher percent gives no lower index |
| Metrics.StatsFrom | src/metrics/run_summary.cpp:16-36 | the loop computes the statistics of the sorted copy |
| Metrics.PercentileMeaning | include/taskengine/metrics/run_summary.hpp:14-18 | the value at the index is the least recorded one with at least the given percentage of the sample at or below it |
| Metrics.StatsArePercentiles | src/metrics/run_summary.cpp:27-28 | p50 and p95 have that meaning |
| Metrics.StatsAreExtremes | src/metrics/run_summary.cpp:25-26 | min and max are recorded and bound every value |
| Metrics.StatsOrdered | src/metrics/run_summary.cpp:25-45 | min <= p50 <= p95 <= max and min <= mean <= max |
| Metrics.MeanTruncates | src/metrics/run_summary.cpp:40-45 | the mean times the count is within one count of the total, rounded toward zero; zero without values |
| Metrics.Summarize | src/metrics/run_summary.cpp:59-103 | the loop computes the summary of the samples, whose parts SummaryReportsInstants and SummaryCounts describe |
| Metrics.SummaryReportsInstants | src/metrics/run_summary.cpp:94-101 | queue wait describes dequeued - submitted, execution time finished - dequeued and total latency finished - submitted: count, total, extremes and both percentiles of each; all zero without samples |
| Metrics.SummaryCounts | src/metrics/run_summary.cpp:59-92 | the total is the samples plus the rejected count, and each outcome is counted as often as it occurs |
| Metrics.SummaryPartition | src/metrics/run_summary.cpp:59-92 | succeeded, failed, rejected and transient samples add up to the total |
| Metrics.SummaryPermutation | src/metrics/run_summary.cpp:59-103 | permuting the samples changes nothing in the summary |
| Metrics.TotalsAddUp | src/metrics/run_summary.cpp:94-101 | wait and execution totals add up to the latency total |
| Metrics.LatencyDominates | src/metrics/run_summary.cpp:94-101 | with ordered instants latency dominates min, p50, p95 and max of both parts |
| Workload.ComputeTask.Accumulate | src/tasks/compute_task.cpp:12-21 | the loop XORs in Mix(seed + i * golden) for i in 1..iterations, modulo 2^64; KnownAnswer.FirstOutputFromZero fixes Mix |
| Workload.ComputeTask.Execute | src/tasks/compute_task.cpp:8-26 | the checksum field is XORed with that fold |
| Words.ShiftIsDivision | src/tasks/compute_task.cpp:18-20 | a right shift by k is division by 2^k, rounded down |
| KnownAnswer.FirstOutputFromZero | src/tasks/compute_task.cpp:15-21 | from seed 0 one iteration yields 0xE220A8397B1DCDAF, the first output of splitmix64 |
| Workload.FoldSplits | src/tasks/compute_task.cpp:15-21 | a + b iterations are a from the seed and b from the advanced state |
| Workload.ComputeTask.ExecuteRepeatedly | src/tasks/compute_task.cpp:8-26 | executing an even number of times restores the checksum, an odd number is worth one execution |
| Workload.MixIsBijective | src/tasks/compute_task.cpp:17-20 | the output function is a bijection on 64-bit words |
| Workload.IterationCountsUnlessZero | src/tasks/compute_task.cpp:15-21 | one more iteration leaves the checksum unchanged exactly when the advanced state is zero |
| Workload.StatesRepeatOnlyAfterFullPeriod | src/tasks/compute_task.cpp:16 | the state repeats exactly after multiples of 2^64 increments |
| CommandLine.ParseU64Accepts | src/cli/options.cpp:50-63 | accepted exactly for nonempty digit strings below 2^64, with their value |
| CommandLine.ParseArgs | src/cli/options.cpp:103-173 | the loop computes the recursive parse, all early returns included |
| CommandLine.RunsExactlyOnGoodPairs | src/cli/options.cpp:103-173 | Run exactly on pairs of a known option and a numeral with nonzero final workers and capacity, each field its last assignment or default |
| CommandLine.HelpExactlyAfterGoodPairs | src/cli/options.cpp:114-123 | help, and version, exactly when the flag stands in option position after good pairs only |
| CommandLine.MistakeHidesHelp | src/cli/options.cpp:114-157 | a command line with a help flag that fails |
| CommandLine.DefaultsAndFlags | src/cli/options.cpp:104-123 | no arguments give the documented defaults; --help and -h show help, --version the version |
| CommandLine.EachOptionSetsItsField | src/cli/options.cpp:133-170 | each option, by its literal name, sets its own field and no other, and zero workers or capacity fail |
| CommandLine.RoundTrip | src/cli/options.cpp:103-173 | valid options spelled out in any order, repetitions included, parse back to themselves |
| Cli.InjectedFailures | src/app/main.cpp:165-173 | of the first n tasks made, n / fail_every throw |
| Cli.FailuresAreInjected | src/app/main.cpp:165-173 | in every run of the program a task that ran failed, with the message "injected failure", exactly if fail_every divides its id, and succeeded otherwise |
| Cli.EngineIsConfigured | src/app/main.cpp:175-180 | the engine has as many workers and as much capacity as the options ask for |
| Cli.UninterruptedOutcome | src/app/main.cpp:175-221 | in every interleaving of an uninterrupted run failed is n / k, the rest succeeded, nothing was rejected, and the exit code is 0 when k = 0 or n < k and 1 otherwise, from the report to the end of the program |
| Cli.InterruptedOutcome | src/app/main.cpp:198-219 | an interrupted run was stopped by shutdown_now after the flag was raised, exits with 1, reports as run exactly the tasks dequeued and as rejected exactly the tasks drained, and its counts cover every task submitted |
| Cli.StopFollowsReport | src/app/main.cpp:198-207 | the first stopping call is shutdown_now if the run is reported as interrupted and shutdown if not; interrupted means the queue was drained and the flag was up |
| Cli.NothingSubmittedAfterFlag | src/app/main.cpp:184-196 | in every run nothing is submitted once the main thread has met the raised flag in its loop, or has left the loop, and at most one task after the flag is raised |
| Cli.CrashReleasesWorkers | src/concurrency/thread_pool.cpp:21-29 | a program whose engine constructor threw ends with the queue closed and every started worker exited and joined |
| CliTermination.ProgramTerminates | src/app/main.cpp:175-221 | every run of the program, the engine's destructor included and with or without a signal, is no longer than its work plus 2 per spurious wakeup on the open queue; if neither the main thread nor an engine thread can move by itself it has ended, or the constructor threw |
| CliTermination.ProgramCanEnd | src/app/main.cpp:175-221 | left alone, without signals or spurious wakeups, the program reaches its end from every reachable state |

## Left out

- Calls that block (submit, shutdown, shutdown_now, the worker loop) are steps of the transition system rather than
  methods: a method has no way to be interleaved with another. The pieces that run in one thread are methods of classes.
- `collect_samples` and `summary` taking `shutdown_mutex_` briefly: a reader that always releases it at once; modelled as
  reading the state. The command-line run takes its summary in one step: it is then the only thread left.
- `std::sort` and `std::from_chars` are functions with the library's documented result, not the library's algorithm.
- Signal handlers, printing, `format_duration`, `main`'s switch and diagnostic texts: I/O; an interrupt is a flag that may
  rise at any moment, and a parse failure keeps no message.
- The benchmark harness, `SleepTask`, `version`: no further behaviour to state.
- Re-entrant submit or shutdown from inside a running task, and destroying the engine while a call is in it: unsupported
  by the original's own contract.
- Memory exhaustion, move mechanics, destruction order and memory-model orderings.
- Metrics.PercentileMeaning: stated for sample sizes whose product with the percentage does not wrap; the exact boundary
  is NearestRankExactIffNoWrap.
