/**
  Conservation of envelopes and samples, for an arbitrary weight f on envelopes (or g on samples).

  Taking f as "has this id" gives exactly-once statements, f as the constant one gives totals, and f as "throws" gives
  failure counts; one induction serves them all.
 */
module Ledger {
  import opened Core
  import opened Protocol
  import opened Structure
  import opened Sums

  function HeldBySubmit(f: Envelope -> nat, pc: SubmitPc): nat { if Holding(pc) then f(pc.env) else 0 }
  function TakenByWorker(f: Envelope -> nat, pc: WorkerPc): nat { if pc.Popped? || pc.Dequeued? then f(pc.env) else 0 }
  function RunByWorker(f: Envelope -> nat, pc: WorkerPc): nat { if pc.Executing? || pc.Settling? then f(pc.env) else 0 }
  function HeldByCloser(f: Envelope -> nat, c: Closer): nat { Sum(Batch(c.pc), f) }
  function SettledFor(cause: Cause, f: Envelope -> nat, e: Settlement): nat { if e.cause == cause then f(e.env) else 0 }
  function SampleRan(g: Sample -> nat, e: Settlement): nat { if e.cause.Ran? then g(SampleOf(e.result)) else 0 }
  function SamplePending(g: Sample -> nat, pc: WorkerPc): nat { if pc.Recording? then g(pc.sample) else 0 }

  /** Envelopes a submit call still owns. */
  function SubmitHolds(f: Envelope -> nat): SubmitPc -> nat { (pc: SubmitPc) => HeldBySubmit(f, pc) }

  /** Envelopes a worker has popped but not started. */
  function WorkerTook(f: Envelope -> nat): WorkerPc -> nat { (pc: WorkerPc) => TakenByWorker(f, pc) }

  /** Envelopes a worker has started and not settled. */
  function WorkerRuns(f: Envelope -> nat): WorkerPc -> nat { (pc: WorkerPc) => RunByWorker(f, pc) }

  /** Envelopes a shutdown_now call has drained but not rejected. */
  function CloserHolds(f: Envelope -> nat): Closer -> nat { (c: Closer) => HeldByCloser(f, c) }

  /** Promises set for a given cause. */
  function SettledBy(cause: Cause, f: Envelope -> nat): Settlement -> nat { (e: Settlement) => SettledFor(cause, f, e) }

  function RanSample(g: Sample -> nat): Settlement -> nat { (e: Settlement) => SampleRan(g, e) }
  function PendingSample(g: Sample -> nat): WorkerPc -> nat { (pc: WorkerPc) => SamplePending(g, pc) }
  function BufferSum(g: Sample -> nat): seq<Sample> -> nat { (buffer: seq<Sample>) => Sum(buffer, g) }

  function IsRejection(e: Settlement): nat { if e.cause.Ran? then 0 else 1 }
  function RefusalUncounted(pc: SubmitPc): nat { if pc.Uncounted? then 1 else 0 }
  function DiscardsUncounted(c: Closer): nat { if c.pc.Rejecting? then c.pc.settled else 0 }

  /** An issued envelope is with its submit call, was accepted, or was rejected by its submit call. */
  ghost predicate IssuedLaw(s: State, f: Envelope -> nat)
  {
    Sum(s.issued, f) == Sum(s.submits, SubmitHolds(f)) + Sum(s.accepted, f) + Sum(s.log, SettledBy(PushRefused, f))
  }

  /** A popped envelope has been started or is about to be. */
  ghost predicate PoppedLaw(s: State, f: Envelope -> nat)
  {
    Sum(s.popped, f) == Sum(s.workers, WorkerTook(f)) + Sum(s.executed, f)
  }

  /** A started envelope is running or its promise was set by its worker. */
  ghost predicate ExecutedLaw(s: State, f: Envelope -> nat)
  {
    Sum(s.executed, f) == Sum(s.workers, WorkerRuns(f)) + Sum(s.log, SettledBy(Ran, f))
  }

  /** A drained envelope is in some batch or was rejected from one. */
  ghost predicate DrainedLaw(s: State, f: Envelope -> nat)
  {
    Sum(s.drained, f) == Sum(s.closers, CloserHolds(f)) + Sum(s.log, SettledBy(Discarded, f))
  }

  /** The samples recorded or about to be are those of the results delivered by workers. */
  ghost predicate SampleLaw(s: State, g: Sample -> nat)
  {
    Sum(s.log, RanSample(g)) == Sum(s.workers, PendingSample(g)) + Sum(s.samples, BufferSum(g))
  }

  /** rejected_ plus rejections made but not yet counted is the number of promises set to Rejected. */
  ghost predicate RejectedLaw(s: State)
  {
    Sum(s.log, IsRejection) == s.rejected + Sum(s.submits, RefusalUncounted) + Sum(s.closers, DiscardsUncounted)
  }

  ghost predicate EnvelopeLaws(s: State, f: Envelope -> nat)
  {
    IssuedLaw(s, f) && PoppedLaw(s, f) && ExecutedLaw(s, f) && DrainedLaw(s, f)
  }

  // ----- workers -----

  lemma IssuedLawNotify(s: State, w: nat, target: Option<nat>, f: Envelope -> nat)
    requires IssuedLaw(s, f) && WorkerEnabled(s, w, WakeProducer(target))
    ensures IssuedLaw(WorkerStep(s, w, WakeProducer(target)), f)
  {
    if target.Some? {
      var i := target.value;
      SumUpdate(s.submits, i, Trying(s.submits[i].env, true), SubmitHolds(f));
    }
  }

  /** The log entry a worker adds. */
  function Delivery(pc: WorkerPc): Settlement
    requires pc.Settling?
  {
    Settlement(pc.env, RanResult(pc.env, pc.timings), Ran)
  }

  lemma IssuedLawSettle(s: State, w: nat, f: Envelope -> nat)
    requires IssuedLaw(s, f) && WorkerEnabled(s, w, Settle)
    ensures IssuedLaw(WorkerStep(s, w, Settle), f)
  {
    SumAppend(s.log, Delivery(s.workers[w]), SettledBy(PushRefused, f));
  }

  lemma IssuedLawWorker(s: State, w: nat, a: WorkerAction, f: Envelope -> nat)
    requires IssuedLaw(s, f) && WorkerEnabled(s, w, a)
    ensures IssuedLaw(WorkerStep(s, w, a), f)
  {
    match a
    case WakeProducer(target) => IssuedLawNotify(s, w, target, f);
    case Settle => IssuedLawSettle(s, w, f);
    case _ =>
      var s' := WorkerStep(s, w, a);
      assert s'.issued == s.issued && s'.submits == s.submits && s'.accepted == s.accepted && s'.log == s.log;
  }

  lemma PoppedLawPop(s: State, w: nat, f: Envelope -> nat)
    requires PoppedLaw(s, f) && WorkerEnabled(s, w, CheckPop)
    ensures PoppedLaw(WorkerStep(s, w, CheckPop), f)
  {
    SumUpdate(s.workers, w, WorkerStep(s, w, CheckPop).workers[w], WorkerTook(f));
    if s.queue.items != [] {
      SumAppend(s.popped, s.queue.items[0], f);
    }
  }

  lemma PoppedLawBegin(s: State, w: nat, f: Envelope -> nat)
    requires PoppedLaw(s, f) && WorkerEnabled(s, w, Begin)
    ensures PoppedLaw(WorkerStep(s, w, Begin), f)
  {
    SumUpdate(s.workers, w, Executing(s.workers[w].env, s.now), WorkerTook(f));
    SumAppend(s.executed, s.workers[w].env, f);
  }

  lemma PoppedLawWorker(s: State, w: nat, a: WorkerAction, f: Envelope -> nat)
    requires PoppedLaw(s, f) && WorkerEnabled(s, w, a)
    ensures PoppedLaw(WorkerStep(s, w, a), f)
  {
    match a
    case CheckPop => PoppedLawPop(s, w, f);
    case Begin => PoppedLawBegin(s, w, f);
    case _ =>
      var s' := WorkerStep(s, w, a);
      assert s'.popped == s.popped && s'.executed == s.executed && s'.workers == s.workers[w := s'.workers[w]];
      SumUpdate(s.workers, w, s'.workers[w], WorkerTook(f));
  }

  lemma ExecutedLawBegin(s: State, w: nat, f: Envelope -> nat)
    requires ExecutedLaw(s, f) && WorkerEnabled(s, w, Begin)
    ensures ExecutedLaw(WorkerStep(s, w, Begin), f)
  {
    SumUpdate(s.workers, w, Executing(s.workers[w].env, s.now), WorkerRuns(f));
    SumAppend(s.executed, s.workers[w].env, f);
  }

  lemma ExecutedLawSettle(s: State, w: nat, f: Envelope -> nat)
    requires ExecutedLaw(s, f) && WorkerEnabled(s, w, Settle)
    ensures ExecutedLaw(WorkerStep(s, w, Settle), f)
  {
    SumUpdate(s.workers, w, Recording(SampleOf(Delivery(s.workers[w]).result)), WorkerRuns(f));
    SumAppend(s.log, Delivery(s.workers[w]), SettledBy(Ran, f));
  }

  lemma ExecutedLawWorker(s: State, w: nat, a: WorkerAction, f: Envelope -> nat)
    requires ExecutedLaw(s, f) && WorkerEnabled(s, w, a)
    ensures ExecutedLaw(WorkerStep(s, w, a), f)
  {
    match a
    case Begin => ExecutedLawBegin(s, w, f);
    case Settle => ExecutedLawSettle(s, w, f);
    case _ =>
      var s' := WorkerStep(s, w, a);
      assert s'.executed == s.executed && s'.log == s.log && s'.workers == s.workers[w := s'.workers[w]];
      SumUpdate(s.workers, w, s'.workers[w], WorkerRuns(f));
  }

  lemma DrainedLawWorker(s: State, w: nat, a: WorkerAction, f: Envelope -> nat)
    requires DrainedLaw(s, f) && WorkerEnabled(s, w, a)
    ensures DrainedLaw(WorkerStep(s, w, a), f)
  {
    if a.Settle? {
      SumAppend(s.log, Delivery(s.workers[w]), SettledBy(Discarded, f));
    } else {
      var s' := WorkerStep(s, w, a);
      assert s'.drained == s.drained && s'.closers == s.closers && s'.log == s.log;
    }
  }

  lemma SampleLawSettle(s: State, w: nat, g: Sample -> nat)
    requires SampleLaw(s, g) && WorkerEnabled(s, w, Settle)
    ensures SampleLaw(WorkerStep(s, w, Settle), g)
  {
    SumUpdate(s.workers, w, Recording(SampleOf(Delivery(s.workers[w]).result)), PendingSample(g));
    SumAppend(s.log, Delivery(s.workers[w]), RanSample(g));
  }

  lemma SampleLawRecord(s: State, w: nat, g: Sample -> nat)
    requires SampleLaw(s, g) && WorkerEnabled(s, w, Record)
    ensures SampleLaw(WorkerStep(s, w, Record), g)
  {
    var sample := s.workers[w].sample;
    SumUpdate(s.workers, w, Checking(false), PendingSample(g));
    SumAppend(s.samples[w], sample, g);
    SumUpdate(s.samples, w, s.samples[w] + [sample], BufferSum(g));
  }

  lemma SampleLawWorker(s: State, w: nat, a: WorkerAction, g: Sample -> nat)
    requires SampleLaw(s, g) && WorkerEnabled(s, w, a)
    ensures SampleLaw(WorkerStep(s, w, a), g)
  {
    match a
    case Settle => SampleLawSettle(s, w, g);
    case Record => SampleLawRecord(s, w, g);
    case _ =>
      var s' := WorkerStep(s, w, a);
      assert s'.log == s.log && s'.samples == s.samples && s'.workers == s.workers[w := s'.workers[w]];
      SumUpdate(s.workers, w, s'.workers[w], PendingSample(g));
  }

  lemma RejectedLawNotify(s: State, w: nat, target: Option<nat>)
    requires RejectedLaw(s) && WorkerEnabled(s, w, WakeProducer(target))
    ensures RejectedLaw(WorkerStep(s, w, WakeProducer(target)))
  {
    if target.Some? {
      var i := target.value;
      SumUpdate(s.submits, i, Trying(s.submits[i].env, true), RefusalUncounted);
    }
  }

  lemma RejectedLawWorker(s: State, w: nat, a: WorkerAction)
    requires RejectedLaw(s) && WorkerEnabled(s, w, a)
    ensures RejectedLaw(WorkerStep(s, w, a))
  {
    match a
    case Settle => SumAppend(s.log, Delivery(s.workers[w]), IsRejection);
    case WakeProducer(target) => RejectedLawNotify(s, w, target);
    case _ =>
  }

  // ----- submit calls -----

  /** The log entry a refused submit call adds. */
  function Refusal(s: State, i: nat): Settlement
    requires i < |s.submits| && s.submits[i].Refusing?
  {
    Settlement(s.submits[i].env, RejectedResult(s.submits[i].env, s.now), PushRefused)
  }

  /** A push moves the envelope into the accepted history or leaves it with its call. */
  lemma IssuedLawPush(s: State, i: nat, f: Envelope -> nat)
    requires IssuedLaw(s, f) && SubmitEnabled(s, i, CheckPush)
    ensures IssuedLaw(SubmitStep(s, i, CheckPush), f)
  {
    SumUpdate(s.submits, i, SubmitStep(s, i, CheckPush).submits[i], SubmitHolds(f));
    SumAppend(s.accepted, s.submits[i].env, f);
  }

  /** A refusal moves the envelope from its call into the log. */
  lemma IssuedLawRefuse(s: State, i: nat, f: Envelope -> nat)
    requires IssuedLaw(s, f) && SubmitEnabled(s, i, Refuse)
    ensures IssuedLaw(SubmitStep(s, i, Refuse), f)
  {
    SumUpdate(s.submits, i, Uncounted, SubmitHolds(f));
    SumAppend(s.log, Refusal(s, i), SettledBy(PushRefused, f));
  }

  /** The other steps of a submit call change none of the sums. */
  lemma IssuedLawElsewhere(s: State, i: nat, a: SubmitAction, f: Envelope -> nat)
    requires IssuedLaw(s, f) && SubmitEnabled(s, i, a) && !a.CheckPush? && !a.Refuse?
    ensures IssuedLaw(SubmitStep(s, i, a), f)
  {
    var s' := SubmitStep(s, i, a);
    assert s'.issued == s.issued && s'.accepted == s.accepted && s'.log == s.log;
    assert s'.submits == s.submits[i := s'.submits[i]];
    SumUpdate(s.submits, i, s'.submits[i], SubmitHolds(f));
  }

  lemma IssuedLawSubmit(s: State, i: nat, a: SubmitAction, f: Envelope -> nat)
    requires IssuedLaw(s, f) && SubmitEnabled(s, i, a)
    ensures IssuedLaw(SubmitStep(s, i, a), f)
  {
    match a
    case CheckPush => IssuedLawPush(s, i, f);
    case Refuse => IssuedLawRefuse(s, i, f);
    case _ => IssuedLawElsewhere(s, i, a, f);
  }

  lemma WorkLawsNotify(s: State, i: nat, target: Option<nat>, f: Envelope -> nat)
    requires PoppedLaw(s, f) && ExecutedLaw(s, f) && SubmitEnabled(s, i, WakeConsumer(target))
    ensures var s' := SubmitStep(s, i, WakeConsumer(target)); PoppedLaw(s', f) && ExecutedLaw(s', f)
  {
    if target.Some? {
      SumUpdate(s.workers, target.value, Checking(true), WorkerTook(f));
      SumUpdate(s.workers, target.value, Checking(true), WorkerRuns(f));
    }
  }

  lemma WorkLawsRefuse(s: State, i: nat, f: Envelope -> nat)
    requires PoppedLaw(s, f) && ExecutedLaw(s, f) && SubmitEnabled(s, i, Refuse)
    ensures var s' := SubmitStep(s, i, Refuse); PoppedLaw(s', f) && ExecutedLaw(s', f)
  {
    SumAppend(s.log, Refusal(s, i), SettledBy(Ran, f));
  }

  lemma WorkLawsSubmit(s: State, i: nat, a: SubmitAction, f: Envelope -> nat)
    requires PoppedLaw(s, f) && ExecutedLaw(s, f) && SubmitEnabled(s, i, a)
    ensures PoppedLaw(SubmitStep(s, i, a), f) && ExecutedLaw(SubmitStep(s, i, a), f)
  {
    match a
    case WakeConsumer(target) => WorkLawsNotify(s, i, target, f);
    case Refuse => WorkLawsRefuse(s, i, f);
    case _ =>
  }

  lemma DrainedLawSubmit(s: State, i: nat, a: SubmitAction, f: Envelope -> nat)
    requires DrainedLaw(s, f) && SubmitEnabled(s, i, a)
    ensures DrainedLaw(SubmitStep(s, i, a), f)
  {
    if a.Refuse? {
      SumAppend(s.log, Refusal(s, i), SettledBy(Discarded, f));
    } else {
      var s' := SubmitStep(s, i, a);
      assert s'.drained == s.drained && s'.closers == s.closers && s'.log == s.log;
    }
  }

  lemma SampleLawSubmit(s: State, i: nat, a: SubmitAction, g: Sample -> nat)
    requires SampleLaw(s, g) && SubmitEnabled(s, i, a)
    ensures SampleLaw(SubmitStep(s, i, a), g)
  {
    if a.WakeConsumer? && a.target.Some? {
      SumUpdate(s.workers, a.target.value, Checking(true), PendingSample(g));
    } else if a.Refuse? {
      SumAppend(s.log, Refusal(s, i), RanSample(g));
    }
  }

  lemma RejectedLawRefuse(s: State, i: nat)
    requires RejectedLaw(s) && SubmitEnabled(s, i, Refuse)
    ensures RejectedLaw(SubmitStep(s, i, Refuse))
  {
    SumUpdate(s.submits, i, Uncounted, RefusalUncounted);
    SumAppend(s.log, Refusal(s, i), IsRejection);
  }

  lemma RejectedLawCount(s: State, i: nat)
    requires RejectedLaw(s) && SubmitEnabled(s, i, CountRefusal)
    ensures RejectedLaw(SubmitStep(s, i, CountRefusal))
  {
    SumUpdate(s.submits, i, Done(false), RefusalUncounted);
  }

  lemma RejectedLawSubmit(s: State, i: nat, a: SubmitAction)
    requires RejectedLaw(s) && SubmitEnabled(s, i, a)
    ensures RejectedLaw(SubmitStep(s, i, a))
  {
    match a
    case Refuse => RejectedLawRefuse(s, i);
    case CountRefusal => RejectedLawCount(s, i);
    case _ =>
      var s' := SubmitStep(s, i, a);
      assert s'.log == s.log && s'.closers == s.closers && s'.rejected == s.rejected;
      assert s'.submits == s.submits[i := s'.submits[i]];
      SumUpdate(s.submits, i, s'.submits[i], RefusalUncounted);
  }

  // ----- shutdown calls -----

  /** The log entry RejectNext adds. */
  function Discard(pc: CloserPc): Settlement
    requires pc.Rejecting? && pc.pending != []
  {
    Settlement(pc.pending[0], RejectedResult(pc.pending[0], pc.finished), Discarded)
  }

  lemma IssuedLawNotifyAll(s: State, c: nat, f: Envelope -> nat)
    requires IssuedLaw(s, f) && CloserEnabled(s, c, WakeProducers)
    ensures IssuedLaw(CloserStep(s, c, WakeProducers), f)
  {
    SumEqual(s.submits, CloserStep(s, c, WakeProducers).submits, SubmitHolds(f), SubmitHolds(f));
  }

  lemma IssuedLawReject(s: State, c: nat, f: Envelope -> nat)
    requires IssuedLaw(s, f) && CloserEnabled(s, c, RejectNext)
    ensures IssuedLaw(CloserStep(s, c, RejectNext), f)
  {
    SumAppend(s.log, Discard(s.closers[c].pc), SettledBy(PushRefused, f));
  }

  lemma IssuedLawCloser(s: State, c: nat, a: CloserAction, f: Envelope -> nat)
    requires IssuedLaw(s, f) && CloserEnabled(s, c, a)
    ensures IssuedLaw(CloserStep(s, c, a), f)
  {
    match a
    case WakeProducers => IssuedLawNotifyAll(s, c, f);
    case RejectNext => IssuedLawReject(s, c, f);
    case _ =>
  }

  lemma WorkLawsNotifyAll(s: State, c: nat, f: Envelope -> nat)
    requires PoppedLaw(s, f) && ExecutedLaw(s, f) && CloserEnabled(s, c, WakeConsumers)
    ensures var s' := CloserStep(s, c, WakeConsumers); PoppedLaw(s', f) && ExecutedLaw(s', f)
  {
    SumEqual(s.workers, CloserStep(s, c, WakeConsumers).workers, WorkerTook(f), WorkerTook(f));
    SumEqual(s.workers, CloserStep(s, c, WakeConsumers).workers, WorkerRuns(f), WorkerRuns(f));
  }

  lemma WorkLawsReject(s: State, c: nat, f: Envelope -> nat)
    requires PoppedLaw(s, f) && ExecutedLaw(s, f) && CloserEnabled(s, c, RejectNext)
    ensures var s' := CloserStep(s, c, RejectNext); PoppedLaw(s', f) && ExecutedLaw(s', f)
  {
    SumAppend(s.log, Discard(s.closers[c].pc), SettledBy(Ran, f));
  }

  lemma WorkLawsCloser(s: State, c: nat, a: CloserAction, f: Envelope -> nat)
    requires PoppedLaw(s, f) && ExecutedLaw(s, f) && CloserEnabled(s, c, a)
    ensures PoppedLaw(CloserStep(s, c, a), f) && ExecutedLaw(CloserStep(s, c, a), f)
  {
    match a
    case WakeConsumers => WorkLawsNotifyAll(s, c, f);
    case RejectNext => WorkLawsReject(s, c, f);
    case _ =>
  }

  /** The drain moves the queue contents into the call's batch. */
  lemma DrainedLawClose(s: State, c: nat, f: Envelope -> nat)
    requires DrainedLaw(s, f) && CloserEnabled(s, c, CloseQueue)
    ensures DrainedLaw(CloserStep(s, c, CloseQueue), f)
  {
    SumUpdate(s.closers, c, CloserStep(s, c, CloseQueue).closers[c], CloserHolds(f));
    SumConcat(s.drained, s.queue.items, f);
  }

  /** Rejecting moves the head of the batch into the log. */
  lemma DrainedLawReject(s: State, c: nat, f: Envelope -> nat)
    requires DrainedLaw(s, f) && CloserEnabled(s, c, RejectNext)
    ensures DrainedLaw(CloserStep(s, c, RejectNext), f)
  {
    var pc := s.closers[c].pc;
    SumUpdate(s.closers, c, CloserStep(s, c, RejectNext).closers[c], CloserHolds(f));
    SumAppend(s.log, Discard(pc), SettledBy(Discarded, f));
    SumHead(pc.pending, f);
  }

  lemma DrainedLawCloser(s: State, c: nat, a: CloserAction, f: Envelope -> nat)
    requires DrainedLaw(s, f) && DrainersHoldNothing(s.closers) && CloserEnabled(s, c, a)
    ensures DrainedLaw(CloserStep(s, c, a), f)
  {
    if a.CloseQueue? {
      DrainedLawClose(s, c, f);
    } else if a.RejectNext? {
      DrainedLawReject(s, c, f);
    } else {
      var s' := CloserStep(s, c, a);
      assert Batch(s'.closers[c].pc) == Batch(s.closers[c].pc);
      SumUpdate(s.closers, c, s'.closers[c], CloserHolds(f));
    }
  }

  lemma SampleLawCloser(s: State, c: nat, a: CloserAction, g: Sample -> nat)
    requires SampleLaw(s, g) && CloserEnabled(s, c, a)
    ensures SampleLaw(CloserStep(s, c, a), g)
  {
    if a.WakeConsumers? {
      SumEqual(s.workers, CloserStep(s, c, a).workers, PendingSample(g), PendingSample(g));
    } else if a.RejectNext? {
      SumAppend(s.log, Discard(s.closers[c].pc), RanSample(g));
    }
  }

  lemma RejectedLawNotifyAll(s: State, c: nat)
    requires RejectedLaw(s) && CloserEnabled(s, c, WakeProducers)
    ensures RejectedLaw(CloserStep(s, c, WakeProducers))
  {
    var s' := CloserStep(s, c, WakeProducers);
    SumUpdate(s.closers, c, s'.closers[c], DiscardsUncounted);
    SumEqual(s.submits, s'.submits, RefusalUncounted, RefusalUncounted);
  }

  lemma RejectedLawReject(s: State, c: nat)
    requires RejectedLaw(s) && CloserEnabled(s, c, RejectNext)
    ensures RejectedLaw(CloserStep(s, c, RejectNext))
  {
    SumUpdate(s.closers, c, CloserStep(s, c, RejectNext).closers[c], DiscardsUncounted);
    SumAppend(s.log, Discard(s.closers[c].pc), IsRejection);
  }

  lemma RejectedLawCloser(s: State, c: nat, a: CloserAction)
    requires RejectedLaw(s) && CloserEnabled(s, c, a)
    ensures RejectedLaw(CloserStep(s, c, a))
  {
    match a
    case WakeProducers => RejectedLawNotifyAll(s, c);
    case RejectNext => RejectedLawReject(s, c);
    case _ =>
      var s' := CloserStep(s, c, a);
      assert s'.log == s.log && s'.submits == s.submits;
      SumUpdate(s.closers, c, s'.closers[c], DiscardsUncounted);
  }

  // ----- all steps -----

  lemma EnvelopeLawsAct(s: State, a: Action, f: Envelope -> nat)
    requires EnvelopeLaws(s, f) && DrainersHoldNothing(s.closers) && Enabled(s, a)
    ensures EnvelopeLaws(Act(s, a), f)
  {
    match a
    case Worker(w, wa) =>
      IssuedLawWorker(s, w, wa, f);
      PoppedLawWorker(s, w, wa, f);
      ExecutedLawWorker(s, w, wa, f);
      DrainedLawWorker(s, w, wa, f);
    case Submitter(i, sa) =>
      IssuedLawSubmit(s, i, sa, f);
      WorkLawsSubmit(s, i, sa, f);
      DrainedLawSubmit(s, i, sa, f);
    case Stopper(c, ca) =>
      IssuedLawCloser(s, c, ca, f);
      WorkLawsCloser(s, c, ca, f);
      DrainedLawCloser(s, c, ca, f);
    case Spawn =>
      SumAppend(s.workers, Checking(false), WorkerTook(f));
      SumAppend(s.workers, Checking(false), WorkerRuns(f));
    case Submit(outcome) =>
      var env := Envelope(s.nextId, outcome, s.now);
      SumAppend(s.issued, env, f);
      SumAppend(s.submits, Trying(env, false), SubmitHolds(f));
    case SpawnFails => SumAppend(s.closers, Closer(Drain, Called), CloserHolds(f));
    case Shutdown(mode) => SumAppend(s.closers, Closer(mode, Called), CloserHolds(f));
    case Constructed =>
  }

  lemma SampleLawAct(s: State, a: Action, g: Sample -> nat)
    requires SampleLaw(s, g) && Enabled(s, a)
    ensures SampleLaw(Act(s, a), g)
  {
    match a
    case Worker(w, wa) => SampleLawWorker(s, w, wa, g);
    case Submitter(i, sa) => SampleLawSubmit(s, i, sa, g);
    case Stopper(c, ca) => SampleLawCloser(s, c, ca, g);
    case Spawn => SumAppend(s.workers, Checking(false), PendingSample(g));
    case _ =>
  }

  lemma RejectedLawAct(s: State, a: Action)
    requires RejectedLaw(s) && Enabled(s, a)
    ensures RejectedLaw(Act(s, a))
  {
    match a
    case Worker(w, wa) => RejectedLawWorker(s, w, wa);
    case Submitter(i, sa) => RejectedLawSubmit(s, i, sa);
    case Stopper(c, ca) => RejectedLawCloser(s, c, ca);
    case Submit(outcome) => SumAppend(s.submits, Trying(Envelope(s.nextId, outcome, s.now), false), RefusalUncounted);
    case SpawnFails => SumAppend(s.closers, Closer(Drain, Called), DiscardsUncounted);
    case Shutdown(mode) => SumAppend(s.closers, Closer(mode, Called), DiscardsUncounted);
    case _ =>
  }

  lemma LedgerInit(s: State, f: Envelope -> nat, g: Sample -> nat)
    requires Init(s)
    ensures EnvelopeLaws(s, f) && SampleLaw(s, g)
  {
    SumZero(s.samples, BufferSum(g));
  }
}
