/** What a run reports: counters and samples against the futures, in every state and at quiescence. */
module Accounting {
  import opened Core
  import opened Runs
  import opened Protocol
  import opened Structure
  import opened Records
  import opened Ledger
  import opened Reachability
  import opened Engine
  import opened Metrics
  import opened Pool
  import opened Sums

  function ResultIs(state: TaskState, e: Settlement): nat { if e.result.state == state then 1 else 0 }
  function ResultIn(state: TaskState): Settlement -> nat { (e: Settlement) => ResultIs(state, e) }

  /** How many futures have been resolved to the given state. */
  function Futures(s: State, state: TaskState): nat { Sum(s.log, ResultIn(state)) }

  lemma RejectionsAreRejectedResults(log: seq<Settlement>)
    requires GenuineLog(log)
    ensures Sum(log, IsRejection) == Sum(log, ResultIn(Rejected))
  {
    SumEqual(log, log, IsRejection, ResultIn(Rejected));
  }

  lemma RanSamplesAreResults(log: seq<Settlement>, state: TaskState)
    requires GenuineLog(log) && state != Rejected
    ensures Sum(log, RanSample(InState(state))) == Sum(log, ResultIn(state))
  {
    SumEqual(log, log, RanSample(InState(state)), ResultIn(state));
  }

  /** In every reachable state the counter and the buffers lag the futures by exactly the updates still owed. */
  lemma CountersFollowFutures(s: State, state: TaskState)
    requires Reachable(s)
    ensures s.rejected + Sum(s.submits, RefusalUncounted) + Sum(s.closers, DiscardsUncounted) == Futures(s, Rejected)
    ensures state != Rejected ==>
              Sum(s.samples, BufferSum(InState(state))) + Sum(s.workers, PendingSample(InState(state)))
              == Futures(s, state)
    ensures Futures(s, Queued) == Futures(s, Running) == 0
  {
    ReachableLaws(s, EveryEnvelope, InState(state));
    assert RejectedLaw(s) by {
      ReachableSound(s, EveryEnvelope, InState(state));
    }
    RejectionsAreRejectedResults(s.log);
    if state != Rejected {
      RanSamplesAreResults(s.log, state);
    }
    SumZero(s.log, ResultIn(Queued));
    SumZero(s.log, ResultIn(Running));
  }

  /** What summary() returns once the workers are joined. */
  function EngineSummary(s: State): RunSummary
  {
    Summary(Flatten(s.samples), s.rejected)
  }

  lemma MergedGenuine(samples: seq<seq<Sample>>)
    requires GenuineBuffers(samples)
    ensures GenuineBuffer(Flatten(samples))
  {
    var all := Flatten(samples);
    forall m | 0 <= m < |all|
      ensures GenuineSample(all[m])
    {
      var i, k := FlattenOrigin(samples, m);
      assert GenuineBuffer(samples[i]);
    }
  }

  /** Every sample of every run is of a task that ran, with submitted <= dequeued <= finished: none is ever recorded as
      Queued, Running or Rejected. */
  lemma SamplesGenuine(s: State)
    requires Reachable(s)
    ensures forall sample | sample in Flatten(s.samples) ::
              (sample.state.Succeeded? || sample.state.Failed?) && sample.timings.Ordered()
    ensures GenuineBuffer(Flatten(s.samples))
  {
    ReachableSound(s, EveryEnvelope, EverySample);
    MergedGenuine(s.samples);
  }

  /** Over the merged samples, the count in a state is the number of futures in that state. */
  lemma MergedCount(s: State, state: TaskState)
    requires Reachable(s) && Quiescent(s) && state != Rejected
    ensures CountState(Flatten(s.samples), state) == Futures(s, state)
  {
    CountersFollowFutures(s, state);
    NothingHeldAtRest(s, EveryEnvelope, InState(state));
    FlattenSum(s.samples, InState(state), BufferSum(InState(state)));
  }

  lemma RejectedCount(s: State)
    requires Reachable(s) && Quiescent(s)
    ensures s.rejected == Futures(s, Rejected)
  {
    CountersFollowFutures(s, Rejected);
    SumZero(s.submits, RefusalUncounted);
    SumZero(s.closers, DiscardsUncounted);
  }

  lemma NoRejectedSamples(samples: seq<Sample>)
    requires GenuineBuffer(samples)
    ensures CountState(samples, Rejected) == CountState(samples, Queued) == CountState(samples, Running) == 0
  {
    SumZero(samples, InState(Rejected));
    SumZero(samples, InState(Queued));
    SumZero(samples, InState(Running));
  }

  /** At quiescence the summary agrees with the futures state by state, and its counts partition the submissions. */
  lemma SummaryMatchesFutures(s: State)
    requires Reachable(s) && Quiescent(s)
    ensures var r := EngineSummary(s);
            && r.succeeded == Futures(s, Succeeded)
            && r.failed == Futures(s, Failed)
            && r.rejected == Futures(s, Rejected)
            && r.succeeded + r.failed + r.rejected == r.total == s.nextId - 1
  {
    var all := Flatten(s.samples);
    ReachableSound(s, EveryEnvelope, EverySample);
    SamplesGenuine(s);
    NoRejectedSamples(all);
    MergedCount(s, Succeeded);
    MergedCount(s, Failed);
    RejectedCount(s);
    SummaryPartition(all, s.rejected);
    EveryFutureResolved(s);
    LogPartition(s.log, |s.log|);
  }

  function NotYetReported(pc: SubmitPc): nat { if Holding(pc) || pc.Uncounted? then 1 else 0 }
  function BatchNotReported(c: Closer): nat { |Batch(c.pc)| + DiscardsUncounted(c) }

  /** Tasks submitted that no counter or sample shows yet. */
  function Unreported(s: State): nat
  {
    Sum(s.submits, NotYetReported) + Sum(s.closers, BatchNotReported)
  }

  lemma UnreportedSubmits(submits: seq<SubmitPc>, n: nat)
    requires n <= |submits|
    ensures SumTo(submits, n, NotYetReported)
            == SumTo(submits, n, SubmitHolds(EveryEnvelope)) + SumTo(submits, n, RefusalUncounted)
  {
  }

  lemma {:induction false} UnreportedBatches(closers: seq<Closer>, n: nat)
    requires n <= |closers|
    ensures SumTo(closers, n, BatchNotReported)
            == SumTo(closers, n, CloserHolds(EveryEnvelope)) + SumTo(closers, n, DiscardsUncounted)
  {
    if n == 0 {
    } else {
      UnreportedBatches(closers, n - 1);
      SumOnes(Batch(closers[n - 1].pc), |Batch(closers[n - 1].pc)|, EveryEnvelope, 1);
    }
  }

  lemma {:induction false} RanOrRejected(log: seq<Settlement>, n: nat)
    requires n <= |log|
    ensures SumTo(log, n, RanSample(EverySample)) + SumTo(log, n, IsRejection) == SumTo(log, n, Settled(EveryEnvelope))
  {
    if n == 0 {
    } else {
      RanOrRejected(log, n - 1);
    }
  }

  lemma MergedTotal(s: State)
    requires SampleLaw(s, EverySample) && ExitedBelow(s.workers, |s.workers|)
    ensures |Flatten(s.samples)| == Sum(s.log, RanSample(EverySample))
  {
    SumZero(s.workers, PendingSample(EverySample));
    FlattenSum(s.samples, EverySample, BufferSum(EverySample));
    SumOnes(Flatten(s.samples), |Flatten(s.samples)|, EverySample, 1);
  }

  lemma UnsettledTotal(s: State)
    requires Invariant(s) && EnvelopeLaws(s, EveryEnvelope) && s.joined
    ensures |s.issued| == Sum(s.submits, SubmitHolds(EveryEnvelope)) + Sum(s.closers, CloserHolds(EveryEnvelope))
                          + Sum(s.log, Settled(EveryEnvelope))
  {
    Conservation(s, EveryEnvelope);
    QueueEmptyOnceJoined(s);
    SumOnes(s.issued, |s.issued|, EveryEnvelope, 1);
    SumZero(s.workers, WorkerTook(EveryEnvelope));
    SumZero(s.workers, WorkerRuns(EveryEnvelope));
  }

  lemma LagAt(s: State)
    requires Reachable(s) && s.joined
    ensures EngineSummary(s).total + Unreported(s) == s.nextId - 1
  {
    ReachableSound(s, EveryEnvelope, EverySample);
    MergedTotal(s);
    UnsettledTotal(s);
    UnreportedSubmits(s.submits, |s.submits|);
    UnreportedBatches(s.closers, |s.closers|);
    RanOrRejected(s.log, |s.log|);
  }

  /** What summary() returns when it reads the buffers in one state and the counter in another. */
  function SummaryRead(samplesAt: State, counterAt: State): RunSummary
  {
    Summary(Flatten(samplesAt.samples), counterAt.rejected)
  }

  lemma ReadTotals(s: State, s': State)
    requires s.rejected <= s'.rejected
    ensures SummaryRead(s', s).total + (s'.rejected - s.rejected) == EngineSummary(s').total
    ensures s'.samples == s.samples ==> SummaryRead(s, s') == EngineSummary(s')
  {
  }

  /** summary() makes two reads, in either order, with any steps in between. Against submitted_count at the later one,
      its total falls short by exactly the rejections in flight then, and, if the counter is read first, by those
      counted in between. */
  lemma SummaryLag(s: State, s': State, n: nat)
    requires Reachable(s) && Leads(Next, s, s', n)
    ensures s'.joined ==>
              s.rejected <= s'.rejected &&
              SummaryRead(s', s).total + (s'.rejected - s.rejected) + Unreported(s') == s'.nextId - 1
    ensures s.joined ==> SummaryRead(s, s').total + Unreported(s') == s'.nextId - 1
  {
    ReachableSound(s, EveryEnvelope, EverySample);
    SinceAlong(s, s', n);
    if s'.joined {
      ReachableAlong(s, s', n);
      LagAt(s');
      ReadTotals(s, s');
    }
  }

  /** No submit call holds its envelope or has a refusal to count, and no shutdown_now has drained envelopes it has not
      both rejected and counted. */
  ghost predicate NothingInFlight(s: State)
  {
    && (forall i | 0 <= i < |s.submits| :: !Holding(s.submits[i]) && !s.submits[i].Uncounted?)
    && (forall c | 0 <= c < |s.closers| ::
          Batch(s.closers[c].pc) == [] && (s.closers[c].pc.Rejecting? ==> s.closers[c].pc.settled == 0))
  }

  lemma UnreportedIffInFlight(s: State)
    ensures Unreported(s) == 0 <==> NothingInFlight(s)
  {
    if NothingInFlight(s) {
      SumZero(s.submits, NotYetReported);
      SumZero(s.closers, BatchNotReported);
    } else if i: nat :| i < |s.submits| && (Holding(s.submits[i]) || s.submits[i].Uncounted?) {
      SumMember(s.submits, i, NotYetReported);
    } else {
      var c: nat :| c < |s.closers| && BatchNotReported(s.closers[c]) > 0;
      SumMember(s.closers, c, BatchNotReported);
    }
  }

  /** A summary covers every submission if and only if no rejection is in flight at its later read and, if the counter
      is read first, none was counted in between. */
  lemma SummaryCompleteIff(s: State, s': State, n: nat)
    requires Reachable(s) && Leads(Next, s, s', n)
    ensures s'.joined ==>
              (SummaryRead(s', s).total == s'.nextId - 1 <==> NothingInFlight(s') && s'.rejected == s.rejected)
    ensures s.joined ==> (SummaryRead(s, s').total == s'.nextId - 1 <==> NothingInFlight(s'))
  {
    SummaryLag(s, s', n);
    UnreportedIffInFlight(s');
  }

  lemma CompleteAt(s: State)
    requires Reachable(s) && s.joined && NothingInFlight(s)
    ensures EngineSummary(s).total == s.nextId - 1
  {
    LagAt(s);
    UnreportedIffInFlight(s);
  }

  lemma {:induction false} LogPartition(log: seq<Settlement>, n: nat)
    requires n <= |log| && GenuineLog(log)
    ensures SumTo(log, n, ResultIn(Succeeded)) + SumTo(log, n, ResultIn(Failed))
            + SumTo(log, n, ResultIn(Rejected)) == n
  {
    if n == 0 {
    } else {
      LogPartition(log, n - 1);
    }
  }

  /** In every reachable state the reported latencies dominate waits and execution times, and the totals add up. */
  lemma EngineLatencyDominates(s: State)
    requires Reachable(s)
    ensures var r := EngineSummary(s);
            && StatsBelow(r.queueWait, r.totalLatency)
            && StatsBelow(r.executionTime, r.totalLatency)
            && r.queueWait.total + r.executionTime.total == r.totalLatency.total
  {
    ReachableSound(s, EveryEnvelope, EverySample);
    SamplesGenuine(s);
    LatencyDominates(Flatten(s.samples), s.rejected);
    TotalsAddUp(Flatten(s.samples), s.rejected);
  }
}
