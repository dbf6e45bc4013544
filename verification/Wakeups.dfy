/** No lost wakeup: the accounting that ties sleepers, pending notifications and the queue contents together. */
module Wakeups {
  import opened Core
  import opened Protocol
  import opened Sums

  function OwesConsumer(pc: SubmitPc): nat { if pc.Pushed? then 1 else 0 }
  function OwesProducer(pc: WorkerPc): nat { if pc.Popped? then 1 else 0 }
  function WokenConsumer(pc: WorkerPc): nat { if pc.Checking? && pc.woken then 1 else 0 }
  function WokenProducer(pc: SubmitPc): nat { if pc.Trying? && pc.woken then 1 else 0 }

  ghost predicate SomeAsleep(workers: seq<WorkerPc>)
  {
    exists w :: 0 <= w < |workers| && workers[w].Asleep?
  }

  ghost predicate SomeWaiting(submits: seq<SubmitPc>)
  {
    exists i :: 0 <= i < |submits| && submits[i].Waiting?
  }

  /** While open with a consumer asleep, every item is matched by an owed notification or a woken consumer. */
  ghost predicate ConsumersCovered(s: State)
  {
    !s.queue.closed && SomeAsleep(s.workers) ==>
      |s.queue.items| <= Sum(s.submits, OwesConsumer) + Sum(s.workers, WokenConsumer)
  }

  /** While open with a producer asleep, every free slot is matched by an owed notification or a woken producer. */
  ghost predicate ProducersCovered(s: State)
  {
    !s.queue.closed && SomeWaiting(s.submits) ==>
      s.queue.capacity - |s.queue.items| <= Sum(s.workers, OwesProducer) + Sum(s.submits, WokenProducer)
  }

  ghost predicate OwesAllConsumers(closers: seq<Closer>, c: int)
  {
    0 <= c < |closers| && closers[c].pc.NotifyEmpty?
  }

  ghost predicate OwesAllProducers(closers: seq<Closer>, c: int)
  {
    0 <= c < |closers| && (closers[c].pc.NotifyEmpty? || closers[c].pc.NotifyFull?)
  }

  /** Once closed, a sleeper of either kind is still owed a notify_all by some closer. */
  ghost predicate SleepersOwedNotifyAll(s: State)
  {
    s.queue.closed ==>
      && (SomeAsleep(s.workers) ==> exists c :: OwesAllConsumers(s.closers, c))
      && (SomeWaiting(s.submits) ==> exists c :: OwesAllProducers(s.closers, c))
  }

  ghost predicate NoLostWakeup(s: State)
  {
    ConsumersCovered(s) && ProducersCovered(s) && SleepersOwedNotifyAll(s)
  }

  lemma CoveredWorker(s: State, w: nat, a: WorkerAction)
    requires NoLostWakeup(s) && WorkerEnabled(s, w, a)
    ensures ConsumersCovered(WorkerStep(s, w, a))
    ensures ProducersCovered(WorkerStep(s, w, a))
  {
    var s' := WorkerStep(s, w, a);
    assert s'.workers == s.workers[w := s'.workers[w]];
    SumUpdate(s.workers, w, s'.workers[w], WokenConsumer);
    SumUpdate(s.workers, w, s'.workers[w], OwesProducer);
    if a.WakeProducer? && a.target.Some? {
      var i := a.target.value;
      SumUpdate(s.submits, i, s'.submits[i], OwesConsumer);
      SumUpdate(s.submits, i, s'.submits[i], WokenProducer);
    }
  }

  lemma CoveredSubmit(s: State, i: nat, a: SubmitAction)
    requires NoLostWakeup(s) && SubmitEnabled(s, i, a)
    ensures ConsumersCovered(SubmitStep(s, i, a))
    ensures ProducersCovered(SubmitStep(s, i, a))
  {
    var s' := SubmitStep(s, i, a);
    assert s'.submits == s.submits[i := s'.submits[i]];
    SumUpdate(s.submits, i, s'.submits[i], WokenProducer);
    SumUpdate(s.submits, i, s'.submits[i], OwesConsumer);
    if a.WakeConsumer? && a.target.Some? {
      var w := a.target.value;
      SumUpdate(s.workers, w, s'.workers[w], OwesProducer);
      SumUpdate(s.workers, w, s'.workers[w], WokenConsumer);
    }
  }

  lemma OwedWorker(s: State, w: nat, a: WorkerAction)
    requires NoLostWakeup(s) && WorkerEnabled(s, w, a)
    ensures SleepersOwedNotifyAll(WorkerStep(s, w, a))
  {
  }

  lemma OwedSubmit(s: State, i: nat, a: SubmitAction)
    requires NoLostWakeup(s) && SubmitEnabled(s, i, a)
    ensures SleepersOwedNotifyAll(SubmitStep(s, i, a))
  {
  }

  lemma NoLostWakeupCloser(s: State, c: nat, a: CloserAction)
    requires NoLostWakeup(s) && CloserEnabled(s, c, a)
    requires !s.closers[c].pc.Called? ==> s.queue.closed
    ensures NoLostWakeup(CloserStep(s, c, a))
  {
    var s' := CloserStep(s, c, a);
    assert s'.queue.closed;
    if SomeAsleep(s'.workers) {
      assert SomeAsleep(s.workers);
      if a.CloseQueue? && s'.closers[c].pc.NotifyEmpty? {
        assert OwesAllConsumers(s'.closers, c);
      } else {
        var d :| OwesAllConsumers(s.closers, d);
        assert OwesAllConsumers(s'.closers, d);
      }
    }
    if SomeWaiting(s'.submits) {
      assert SomeWaiting(s.submits);
      if !OwesAllProducers(s'.closers, c) {
        var d :| OwesAllProducers(s.closers, d);
        assert OwesAllProducers(s'.closers, d);
      }
    }
  }

  lemma NoLostWakeupArrival(s: State, mode: Mode)
    requires NoLostWakeup(s)
    ensures SleepersOwedNotifyAll(s.(closers := s.closers + [Closer(mode, Called)]))
  {
    var closers := s.closers + [Closer(mode, Called)];
    if s.queue.closed && SomeAsleep(s.workers) {
      var d :| OwesAllConsumers(s.closers, d);
      assert OwesAllConsumers(closers, d);
    }
    if s.queue.closed && SomeWaiting(s.submits) {
      var d :| OwesAllProducers(s.closers, d);
      assert OwesAllProducers(closers, d);
    }
  }

  lemma NoLostWakeupAct(s: State, a: Action)
    requires NoLostWakeup(s) && Enabled(s, a)
    requires forall c | 0 <= c < |s.closers| :: !s.closers[c].pc.Called? ==> s.queue.closed
    ensures NoLostWakeup(Act(s, a))
  {
    var s' := Act(s, a);
    match a
    case Worker(w, wa) => CoveredWorker(s, w, wa); OwedWorker(s, w, wa);
    case Submitter(i, sa) => CoveredSubmit(s, i, sa); OwedSubmit(s, i, sa);
    case Stopper(c, ca) => NoLostWakeupCloser(s, c, ca);
    case Spawn =>
      SumAppend(s.workers, Checking(false), WokenConsumer);
      SumAppend(s.workers, Checking(false), OwesProducer);
    case Submit(outcome) =>
      var pc := Trying(Envelope(s.nextId, outcome, s.now), false);
      SumAppend(s.submits, pc, OwesConsumer);
      SumAppend(s.submits, pc, WokenProducer);
    case SpawnFails => NoLostWakeupArrival(s, Drain);
    case Shutdown(mode) => NoLostWakeupArrival(s, mode);
    case Constructed =>
  }

  lemma NoLostWakeupInit(s: State)
    requires Init(s)
    ensures NoLostWakeup(s)
  {
  }
}
