/** The guarantees of the engine, for every reachable state and every run. */
module Engine {
  import opened Core
  import opened Runs
  import opened Protocol
  import opened Structure
  import opened Records
  import opened Ledger
  import opened Progress
  import opened Reachability
  import opened Sums

  // ----- weights -----

  function HasId(id: nat, env: Envelope): nat { if env.id == id then 1 else 0 }
  function WithId(id: nat): Envelope -> nat { (env: Envelope) => HasId(id, env) }
  function SameAs(env: Envelope): Envelope -> nat { (x: Envelope) => if x == env then 1 else 0 }
  function EveryEnvelope(env: Envelope): nat { 1 }
  function SampleHasId(id: nat, sample: Sample): nat { if sample.id == id then 1 else 0 }
  function SampleWithId(id: nat): Sample -> nat { (sample: Sample) => SampleHasId(id, sample) }
  function EverySample(sample: Sample): nat { 1 }

  /** The weight of a set promise's envelope, whatever the cause. */
  function WeighSettled(f: Envelope -> nat, e: Settlement): nat { f(e.env) }
  function Settled(f: Envelope -> nat): Settlement -> nat { (e: Settlement) => WeighSettled(f, e) }

  lemma {:induction false} SettledByCause(log: seq<Settlement>, n: nat, f: Envelope -> nat)
    requires n <= |log|
    ensures SumTo(log, n, Settled(f)) == SumTo(log, n, SettledBy(Ran, f)) + SumTo(log, n, SettledBy(PushRefused, f))
                                         + SumTo(log, n, SettledBy(Discarded, f))
  {
    if n == 0 {
    } else {
      SettledByCause(log, n - 1, f);
    }
  }

  // ----- exactly once -----

  /** The weight of the envelopes in each of the places an envelope can be. */
  function InPlaces(s: State, f: Envelope -> nat): nat
  {
    Sum(s.submits, SubmitHolds(f))                                        // with its submit call
    + Sum(s.queue.items, f)                                               // queued
    + Sum(s.workers, WorkerTook(f)) + Sum(s.workers, WorkerRuns(f))       // with a worker
    + Sum(s.closers, CloserHolds(f))                                      // in a drained batch
    + Sum(s.log, Settled(f))                                              // resolved
  }

  /** Conservation: what was issued is what is in some place, for every weight. */
  lemma Conservation(s: State, f: Envelope -> nat)
    requires Fifo(s) && EnvelopeLaws(s, f)
    ensures Sum(s.issued, f) == InPlaces(s, f)
    ensures Sum(s.accepted, f) == Sum(s.popped, f) + Sum(s.drained, f) + Sum(s.queue.items, f)
  {
    SumConcat(s.popped, s.drained, f);
    SumConcat(s.popped + s.drained, s.queue.items, f);
    SettledByCause(s.log, |s.log|, f);
  }

  lemma {:induction false} IssuedOnce(s: State, id: nat, n: nat)
    requires Ids(s) && n <= |s.issued| && 1 <= id
    ensures SumTo(s.issued, n, WithId(id)) == if id <= n then 1 else 0
  {
    if n == 0 {
    } else {
      IssuedOnce(s, id, n - 1);
    }
  }

  /** Ids are 1..submitted_count, and each issued id is at every moment in exactly one place. */
  lemma ExactlyOnePlace(s: State, id: nat)
    requires Reachable(s)
    ensures InPlaces(s, WithId(id)) == if 1 <= id < s.nextId then 1 else 0
    ensures s.nextId == |s.issued| + 1
  {
    ReachableSound(s, WithId(id), EverySample);
    Conservation(s, WithId(id));
    if id >= 1 {
      IssuedOnce(s, id, |s.issued|);
    } else {
      SumZero(s.issued, WithId(id));
    }
  }

  /** No promise is ever set twice. */
  lemma NoPromiseSetTwice(s: State, i: nat, j: nat)
    requires Reachable(s) && i < j < |s.log|
    ensures s.log[i].env.id != s.log[j].env.id
  {
    var id := s.log[i].env.id;
    ExactlyOnePlace(s, id);
    SumTwoMembers(s.log, |s.log|, i, j, Settled(WithId(id)));
  }

  lemma SettledWeighs(s: State, m: nat, f: Envelope -> nat)
    requires Reachable(s) && m < |s.log|
    ensures f(s.log[m].env) <= Sum(s.issued, f)
  {
    ReachableSound(s, f, EverySample);
    Conservation(s, f);
    SumMember(s.log, m, Settled(f));
  }

  /** Every settled envelope was issued, under its own number. */
  lemma SettledWasIssued(s: State, m: nat)
    requires Reachable(s) && m < |s.log|
    ensures 1 <= s.log[m].env.id <= |s.issued| && s.issued[s.log[m].env.id - 1] == s.log[m].env
  {
    SettledWeighs(s, m, SameAs(s.log[m].env));
    var i := SumWitness(s.issued, |s.issued|, SameAs(s.log[m].env));
    assert Ids(s) by {
      ReachableInvariant(s);
    }
  }

  /** Succeeded without a message, Failed with the exception's own text or "unknown exception", or Rejected without a
      message and with no execution time. */
  ghost predicate SaysWhatHappened(e: Settlement)
  {
    && e.result.id == e.env.id && e.result.timings.submitted == e.env.submitted
    && if e.cause.Ran? then
         match e.env.outcome
         case Returns => e.result.state == Succeeded && e.result.error == ""
         case ThrowsException(what) => e.result.state == Failed && e.result.error == what
         case ThrowsOther => e.result.state == Failed && e.result.error == "unknown exception"
       else
         && e.result.state == Rejected && e.result.error == ""
         && e.result.timings.dequeued == e.result.timings.finished
  }

  lemma GenuineSaysWhatHappened(e: Settlement)
    requires GenuineSettlement(e)
    ensures SaysWhatHappened(e)
  {
  }

  lemma LogIsGenuine(s: State, m: nat)
    requires Reachable(s) && m < |s.log|
    ensures GenuineSettlement(s.log[m])
  {
    ReachableSound(s, EveryEnvelope, EverySample);
  }

  /** Every result carries the id of a task issued under that id, with its submission instant, and says what became of
      it. */
  lemma ResultsAreTruthful(s: State, m: nat)
    requires Reachable(s) && m < |s.log|
    ensures 1 <= s.log[m].env.id <= |s.issued| && s.issued[s.log[m].env.id - 1] == s.log[m].env
    ensures SaysWhatHappened(s.log[m])
  {
    SettledWasIssued(s, m);
    LogIsGenuine(s, m);
    GenuineSaysWhatHappened(s.log[m]);
  }

  /** A set promise stays set to the same result. */
  lemma ResultsAreFinal(s: State, s': State, n: nat)
    requires Reachable(s) && Leads(Next, s, s', n)
    ensures s.log <= s'.log && s.issued <= s'.issued
  {
    ReachableSound(s, EveryEnvelope, EverySample);
    SinceAlong(s, s', n);
  }

  // ----- quiescence -----

  /** No call in flight, after at least one shutdown call has closed the queue. */
  ghost predicate Quiescent(s: State)
  {
    AllReturned(s) && s.queue.closed
  }

  lemma QuiescentMeansStopped(s: State)
    requires Structural(s) && Verdicts(s) && Quiescent(s)
    ensures s.joined && s.joiner.None? && (forall w | 0 <= w < |s.workers| :: s.workers[w].Exited?)
    ensures s.queue.items == []
  {
    var c :| PastClosing(s.closers, c);
    assert s.closers[c].pc.Returned?;
    QueueEmptyOnceJoined(s);
  }

  lemma AcceptedWasSubmitted(s: State)
    requires Verdicts(s) && s.accepted != []
    ensures s.submits != []
  {
    assert IsIssued(s.issued, s.submits, s.accepted[0]);
  }

  lemma QueueEmptyOnceJoined(s: State)
    requires Structural(s) && Verdicts(s) && s.joined
    ensures s.queue.items == []
  {
    if s.phase.Ready? {
      assert s.workers[0].Exited?;
    } else {
      assert |s.accepted| == |s.popped| + |s.drained| + |s.queue.items|;
      if s.accepted != [] {
        AcceptedWasSubmitted(s);
        assert false;
      }
    }
  }

  /** Nothing is with a worker once all have exited. */
  lemma NothingWithWorkers(s: State, f: Envelope -> nat, g: Sample -> nat)
    requires ExitedBelow(s.workers, |s.workers|)
    ensures Sum(s.workers, WorkerTook(f)) == 0 && Sum(s.workers, WorkerRuns(f)) == 0
    ensures Sum(s.workers, PendingSample(g)) == 0
  {
    SumZero(s.workers, WorkerTook(f));
    SumZero(s.workers, WorkerRuns(f));
    SumZero(s.workers, PendingSample(g));
  }

  /** Nothing is held by anyone once every call has returned and every worker has exited. */
  lemma NothingHeld(s: State, f: Envelope -> nat, g: Sample -> nat)
    requires Structural(s) && Verdicts(s) && Quiescent(s)
    ensures Sum(s.submits, SubmitHolds(f)) == 0 && Sum(s.closers, CloserHolds(f)) == 0
    ensures Sum(s.workers, WorkerTook(f)) == 0 && Sum(s.workers, WorkerRuns(f)) == 0
    ensures Sum(s.workers, PendingSample(g)) == 0
  {
    QuiescentMeansStopped(s);
    SumZero(s.submits, SubmitHolds(f));
    SumZero(s.closers, CloserHolds(f));
    NothingWithWorkers(s, f, g);
  }

  lemma NothingHeldAtRest(s: State, f: Envelope -> nat, g: Sample -> nat)
    requires Reachable(s) && Quiescent(s)
    ensures Sum(s.submits, SubmitHolds(f)) == 0 && Sum(s.closers, CloserHolds(f)) == 0
    ensures Sum(s.workers, WorkerTook(f)) == 0 && Sum(s.workers, WorkerRuns(f)) == 0
    ensures Sum(s.workers, PendingSample(g)) == 0 && s.queue.items == []
  {
    ReachableInvariant(s);
    QuiescentMeansStopped(s);
    NothingHeld(s, f, g);
  }

  lemma ResolvedOnce(s: State, id: nat)
    requires Reachable(s) && Quiescent(s)
    ensures Sum(s.log, Settled(WithId(id))) == if 1 <= id < s.nextId then 1 else 0
  {
    ReachableInvariant(s);
    ExactlyOnePlace(s, id);
    QuiescentMeansStopped(s);
    NothingHeld(s, WithId(id), EverySample);
  }

  /** At quiescence everything issued is resolved, for every weight. */
  lemma SettledConservation(s: State, f: Envelope -> nat)
    requires Reachable(s) && Quiescent(s)
    ensures Sum(s.issued, f) == Sum(s.log, Settled(f))
  {
    ReachableSound(s, f, EverySample);
    Conservation(s, f);
    QuiescentMeansStopped(s);
    NothingHeld(s, f, EverySample);
  }

  /** In a quiescent state every issued envelope's promise is set exactly once, to a terminal and truthful result. */
  lemma EveryFutureResolved(s: State)
    requires Reachable(s) && Quiescent(s)
    ensures forall id: nat :: Sum(s.log, Settled(WithId(id))) == if 1 <= id < s.nextId then 1 else 0
    ensures |s.log| == s.nextId - 1
    ensures GenuineLog(s.log)
  {
    forall id: nat
      ensures Sum(s.log, Settled(WithId(id))) == if 1 <= id < s.nextId then 1 else 0
    {
      ResolvedOnce(s, id);
    }
    SettledConservation(s, EveryEnvelope);
    ReachableSound(s, EveryEnvelope, EverySample);
    SumOnes(s.issued, |s.issued|, EveryEnvelope, 1);
    SumOnes(s.log, |s.log|, Settled(EveryEnvelope), 1);
  }

  // ----- the queue -----

  /** FIFO: over every interleaving the accepted pushes are the pops, then the drained items, then the contents. */
  lemma FifoAlways(s: State)
    requires Reachable(s)
    ensures s.accepted == s.popped + s.drained + s.queue.items
    ensures |s.queue.items| <= s.queue.capacity
  {
    ReachableSound(s, EveryEnvelope, EverySample);
  }

  /** After a worker has seen nullopt the queue is closed and empty for good, and all accepted items have left it. */
  lemma NulloptIsFinal(s: State, w: nat, s': State, n: nat)
    requires Reachable(s) && w < |s.workers| && s.workers[w].Exited? && Leads(Next, s, s', n)
    ensures s'.queue.closed && s'.queue.items == []
    ensures s'.accepted == s.popped + s.drained
  {
    ReachableSound(s, EveryEnvelope, EverySample);
    SinceAlong(s, s', n);
  }

  // ----- abort -----

  /** Once a close_and_drain section has run, nothing is dequeued again. */
  lemma NothingPoppedAfterAbort(s: State, s': State, n: nat)
    requires Reachable(s) && s.aborted && Leads(Next, s, s', n)
    ensures s'.popped == s.popped && s'.drained == s.drained && s'.queue.items == []
    ensures s'.accepted == s.popped + s.drained
  {
    ReachableSound(s, EveryEnvelope, EverySample);
    SinceAlong(s, s', n);
  }

  /** A drained task never executes and is never reported as run; a popped task is never discarded. */
  lemma DrainedNeverRuns(s: State, id: nat)
    requires Reachable(s)
    ensures Sum(s.drained, WithId(id)) > 0 ==>
              Sum(s.executed, WithId(id)) == 0 && Sum(s.log, SettledBy(Ran, WithId(id))) == 0
    ensures Sum(s.popped, WithId(id)) > 0 ==> Sum(s.log, SettledBy(Discarded, WithId(id))) == 0
    ensures Sum(s.executed, WithId(id)) <= 1
  {
    ReachableSound(s, WithId(id), EverySample);
    Conservation(s, WithId(id));
    ExactlyOnePlace(s, id);
  }

  /** At quiescence an accepted task was either run, if popped, or rejected, if drained, and exactly once. */
  lemma AcceptedFate(s: State, id: nat)
    requires Reachable(s) && Quiescent(s)
    ensures Sum(s.accepted, WithId(id)) == Sum(s.popped, WithId(id)) + Sum(s.drained, WithId(id))
    ensures Sum(s.log, SettledBy(Ran, WithId(id))) == Sum(s.popped, WithId(id))
    ensures Sum(s.log, SettledBy(Discarded, WithId(id))) == Sum(s.drained, WithId(id))
  {
    NothingHeldAtRest(s, WithId(id), EverySample);
    ReachableLaws(s, WithId(id), EverySample);
    Conservation(s, WithId(id));
  }

  // ----- drain -----

  /** No call of shutdown_now has been made. */
  ghost predicate OnlyDrains(s: State)
  {
    forall c | 0 <= c < |s.closers| :: s.closers[c].mode.Drain?
  }

  /** The samples of results delivered by workers carry the ids of the envelopes that ran. */
  lemma RanSampleIds(log: seq<Settlement>, id: nat)
    requires GenuineLog(log)
    ensures Sum(log, RanSample(SampleWithId(id))) == Sum(log, SettledBy(Ran, WithId(id)))
  {
    SumEqual(log, log, RanSample(SampleWithId(id)), SettledBy(Ran, WithId(id)));
  }

  /** Without shutdown_now, once a shutdown() has returned nothing was drained, queued or is with a worker. */
  lemma DrainHasEnded(s: State, c: nat)
    requires Reachable(s) && OnlyDrains(s) && c < |s.closers| && s.closers[c].pc.Returned?
    ensures s.drained == [] && s.queue.items == [] && ExitedBelow(s.workers, |s.workers|)
  {
    ReachableInvariant(s);
    NothingDrained(s);
    QueueEmptyOnceJoined(s);
  }

  /** Without shutdown_now, when any shutdown() has returned every accepted task has run once and left one sample. */
  lemma DrainIsComplete(s: State, c: nat, id: nat)
    requires Reachable(s) && OnlyDrains(s) && c < |s.closers| && s.closers[c].pc.Returned?
    ensures s.accepted == s.popped
    ensures Sum(s.executed, WithId(id)) == Sum(s.accepted, WithId(id))
    ensures Sum(s.log, SettledBy(Ran, WithId(id))) == Sum(s.accepted, WithId(id))
    ensures Sum(s.samples, BufferSum(SampleWithId(id))) == Sum(s.accepted, WithId(id)) <= 1
  {
    DrainHasEnded(s, c);
    ReachableLaws(s, WithId(id), SampleWithId(id));
    NothingWithWorkers(s, WithId(id), SampleWithId(id));
    RanSampleIds(s.log, id);
    AcceptedOnce(s, id);
  }

  lemma AcceptedOnce(s: State, id: nat)
    requires Ids(s) && IssuedLaw(s, WithId(id))
    ensures Sum(s.accepted, WithId(id)) <= 1
  {
    if id == 0 {
      SumZero(s.issued, WithId(id));
    } else {
      IssuedOnce(s, id, |s.issued|);
    }
  }

  /** How often the promise of this id was set to Rejected. */
  function Rejections(s: State, id: nat): nat
  {
    Sum(s.log, SettledBy(PushRefused, WithId(id))) + Sum(s.log, SettledBy(Discarded, WithId(id)))
  }

  lemma RefusedOnce(s: State, id: nat)
    requires Ids(s) && Verdicts(s) && IssuedLaw(s, WithId(id)) && 1 <= id <= |s.submits|
    ensures Sum(s.log, SettledBy(PushRefused, WithId(id))) == if WasRejected(s.submits[id - 1]) then 1 else 0
  {
    var refused := SettledBy(PushRefused, WithId(id));
    IssuedOnce(s, id, |s.issued|);
    if WasRejected(s.submits[id - 1]) {
      RejectedHoldsNothing(s, id);
    } else {
      forall k | 0 <= k < |s.log|
        ensures refused(s.log[k]) == 0
      {
        assert s.log[k].cause.PushRefused? ==> IsIssued(s.issued, s.submits, s.log[k].env);
      }
      SumZero(s.log, refused);
    }
  }

  lemma RejectionsById(s: State, id: nat)
    requires Reachable(s) && OnlyDrains(s) && 1 <= id < s.nextId
    ensures id <= |s.submits|
    ensures Rejections(s, id) == if WasRejected(s.submits[id - 1]) then 1 else 0
  {
    ReachableSound(s, WithId(id), EverySample);
    NothingDrained(s);
    RefusedOnce(s, id);
  }

  lemma NothingDrained(s: State)
    requires Structural(s) && OnlyDrains(s)
    ensures s.drained == []
  {
  }

  lemma RejectedHoldsNothing(s: State, id: nat)
    requires Ids(s) && Verdicts(s) && 1 <= id <= |s.submits| && WasRejected(s.submits[id - 1])
    ensures Sum(s.submits, SubmitHolds(WithId(id))) == 0 && Sum(s.accepted, WithId(id)) == 0
  {
    SumZero(s.submits, SubmitHolds(WithId(id)));
    forall k | 0 <= k < |s.accepted|
      ensures WithId(id)(s.accepted[k]) == 0
    {
      assert IsIssued(s.issued, s.submits, s.accepted[k]);
    }
    SumZero(s.accepted, WithId(id));
  }

  // ----- joining -----

  /** Each worker is joined at most once and only after it has exited; joined_ means all of them have been. */
  lemma JoinSafety(s: State)
    requires Reachable(s)
    ensures forall i, j | 0 <= i < j < |s.joins| :: s.joins[i] != s.joins[j]
    ensures forall i | 0 <= i < |s.joins| :: s.joins[i] < |s.workers| && s.workers[s.joins[i]].Exited?
    ensures s.joined ==> s.joins == Range(|s.workers|)
    ensures forall c | 0 <= c < |s.closers| && s.closers[c].pc.Returned? :: s.joined
  {
    ReachableSound(s, EveryEnvelope, EverySample);
  }

  lemma WorkerWritesOwnBuffer(s: State, w: nat, a: WorkerAction)
    requires WorkerEnabled(s, w, a)
    ensures |WorkerStep(s, w, a).samples| == |s.samples|
    ensures forall v | 0 <= v < |s.samples| && WorkerStep(s, w, a).samples[v] != s.samples[v] ::
              v == w && a.Record? && s.samples[v] < WorkerStep(s, w, a).samples[v]
  {
  }

  lemma SubmitWritesNoBuffer(s: State, i: nat, a: SubmitAction)
    requires SubmitEnabled(s, i, a)
    ensures SubmitStep(s, i, a).samples == s.samples
  {
  }

  lemma CloserWritesNoBuffer(s: State, c: nat, a: CloserAction)
    requires CloserEnabled(s, c, a)
    ensures CloserStep(s, c, a).samples == s.samples
  {
  }

  /** Only a worker's own step writes its buffer, and only by appending to it. */
  lemma BuffersAreOwned(s: State, a: Action, s': State, v: nat)
    requires Enabled(s, a) && s' == Act(s, a) && v < |s.samples|
    ensures |s'.samples| == |s.samples|
    ensures s'.samples[v] != s.samples[v] ==> a == Worker(v, Record) && s.samples[v] < s'.samples[v]
  {
    match a
    case Worker(w, wa) => WorkerWritesOwnBuffer(s, w, wa);
    case Submitter(i, sa) => SubmitWritesNoBuffer(s, i, sa);
    case Stopper(c, ca) => CloserWritesNoBuffer(s, c, ca);
    case _ =>
  }

  /** After joined_ is set the buffers never change, so any two collections return the same list. */
  lemma CollectionsAgree(s: State, s': State, n: nat)
    requires Reachable(s) && s.joined && Leads(Next, s, s', n)
    ensures s'.joined && s'.samples == s.samples
  {
    ReachableSound(s, EveryEnvelope, EverySample);
    SinceAlong(s, s', n);
  }
}
