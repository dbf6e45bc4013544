/** Deadlock freedom, and a measure that every step decreases: every call returns and every shutdown terminates. */
module Progress {
  import opened Core
  import opened Protocol
  import opened Structure
  import opened Wakeups
  import opened Sums

  predicate IsArrival(a: Action) { a.Submit? || a.Shutdown? }

  predicate IsSpurious(a: Action)
  {
    (a.Worker? && a.wa.SpuriousConsumer?) || (a.Submitter? && a.sa.SpuriousProducer?)
  }

  /** Construction is over and no submit or shutdown call is in flight. */
  ghost predicate AllReturned(s: State)
  {
    && !s.phase.Constructing?
    && (forall i | 0 <= i < |s.submits| :: s.submits[i].Done?)
    && (forall c | 0 <= c < |s.closers| :: s.closers[c].pc.Returned?)
  }

  // ----- some thread can always move -----

  ghost function ConsumerTarget(s: State): (target: Option<nat>)
    ensures CanNotifyConsumer(s, target)
  {
    if w: nat :| w < |s.workers| && s.workers[w].Asleep? then Some(w) else None
  }

  ghost function ProducerTarget(s: State): (target: Option<nat>)
    ensures CanNotifyProducer(s, target)
  {
    if i: nat :| i < |s.submits| && s.submits[i].Waiting? then Some(i) else None
  }

  ghost function WorkerMove(s: State, w: nat): (a: WorkerAction)
    requires w < |s.workers| <= |s.samples| && !s.workers[w].Asleep? && !s.workers[w].Exited?
    ensures WorkerEnabled(s, w, a) && !a.SpuriousConsumer?
  {
    match s.workers[w]
    case Checking(_) => CheckPop
    case Popped(_) => WakeProducer(ProducerTarget(s))
    case Dequeued(_) => Begin
    case Executing(_, _) => Complete
    case Settling(_, _) => Settle
    case Recording(_) => Record
  }

  ghost function SubmitMove(s: State, i: nat): (a: SubmitAction)
    requires i < |s.submits| && !s.submits[i].Waiting? && !s.submits[i].Done?
    ensures SubmitEnabled(s, i, a) && !a.SpuriousProducer?
  {
    match s.submits[i]
    case Trying(_, _) => CheckPush
    case Pushed => WakeConsumer(ConsumerTarget(s))
    case Refusing(_) => Refuse
    case Uncounted => CountRefusal
  }

  /** A shutdown call blocks only on shutdown_mutex_ or on a worker that has not exited. */
  ghost predicate CloserBlocked(s: State, closer: Closer)
  {
    var pc := closer.pc;
    || pc.Returned?
    || (pc.Locking? && s.joiner.Some?)
    || (pc.Joining? && pc.next < |s.workers| && !s.workers[pc.next].Exited?)
  }

  ghost function CloserMove(s: State, c: nat): (a: CloserAction)
    requires c < |s.closers| && !CloserBlocked(s, s.closers[c])
    ensures CloserEnabled(s, c, a)
  {
    match s.closers[c].pc
    case Called => CloseQueue
    case NotifyEmpty(_) => WakeConsumers
    case NotifyFull(_) => WakeProducers
    case Rejecting(pending, _, _) => if pending == [] then CountRejects else RejectNext
    case Locking => LockShutdown
    case Joining(k) => if k < |s.workers| then JoinNext else JoinDone
  }

  /** Every thread sleeps, has finished, or waits for another thread. */
  ghost predicate NobodyCanMove(s: State)
  {
    && (forall w | 0 <= w < |s.workers| :: s.workers[w].Asleep? || s.workers[w].Exited?)
    && (forall i | 0 <= i < |s.submits| :: s.submits[i].Waiting? || s.submits[i].Done?)
    && (forall c | 0 <= c < |s.closers| :: CloserBlocked(s, s.closers[c]))
  }

  /** While open: if nobody could move, a waiting producer would face both a full and an empty queue. */
  lemma OpenNotStuck(s: State)
    requires Structural(s) && NoLostWakeup(s) && !s.phase.Constructing? && !AllReturned(s) && !s.queue.closed
    ensures !NobodyCanMove(s)
  {
    if NobodyCanMove(s) {
      assert forall c :: !PastClosing(s.closers, c);
      assert s.closers == [] by {
        if s.closers != [] {
          assert CloserBlocked(s, s.closers[0]) && PastClosing(s.closers, 0);
        }
      }
      assert SomeWaiting(s.submits);
      assert s.phase.Ready? && s.workers[0].Asleep?;
      assert SomeAsleep(s.workers);
      SumZero(s.submits, OwesConsumer);
      SumZero(s.submits, WokenProducer);
      SumZero(s.workers, OwesProducer);
      SumZero(s.workers, WokenConsumer);
      assert false;
    }
  }

  /** Once closed: no sleepers are left, so all workers have exited and the join loop can go on. */
  lemma ClosedNotStuck(s: State)
    requires Structural(s) && NoLostWakeup(s) && !s.phase.Constructing? && !AllReturned(s) && s.queue.closed
    ensures !NobodyCanMove(s)
  {
  }

  /** Deadlock freedom: while construction or any submit or shutdown call is unfinished, some thread can take a step. */
  lemma SomeThreadCanMove(s: State) returns (a: Action)
    requires Structural(s) && NoLostWakeup(s) && !AllReturned(s)
    ensures Enabled(s, a) && !IsArrival(a) && !IsSpurious(a)
  {
    if s.phase.Constructing? {
      a := if |s.workers| < s.workerCount then Spawn else Constructed;
      return;
    }
    assert !NobodyCanMove(s) by {
      if s.queue.closed {
        ClosedNotStuck(s);
      } else {
        OpenNotStuck(s);
      }
    }
    if w: nat :| w < |s.workers| && !s.workers[w].Asleep? && !s.workers[w].Exited? {
      a := Worker(w, WorkerMove(s, w));
    } else if i: nat :| i < |s.submits| && !s.submits[i].Waiting? && !s.submits[i].Done? {
      a := Submitter(i, SubmitMove(s, i));
    } else {
      var c: nat :| c < |s.closers| && !CloserBlocked(s, s.closers[c]);
      a := Stopper(c, CloserMove(s, c));
    }
  }

  // ----- every step uses up work -----

  /** A closed queue never puts a thread to sleep again, so a sleeper then weighs more than a checking thread. */
  function WeighWorker(closed: bool, pc: WorkerPc): nat
  {
    match pc
    case Checking(_) => 1
    case Asleep => if closed then 2 else 0
    case Popped(_) => 7
    case Dequeued(_) => 5
    case Executing(_, _) => 4
    case Settling(_, _) => 3
    case Recording(_) => 2
    case Exited => 0
  }

  function WeighSubmit(closed: bool, pc: SubmitPc): nat
  {
    match pc
    case Trying(_, _) => 10
    case Waiting(_) => if closed then 11 else 9
    case Pushed => 2
    case Refusing(_) => 3
    case Uncounted => 2
    case Done(_) => 0
  }

  /** n bounds the number of workers to join. */
  function WeighCloser(n: nat, c: Closer): nat
  {
    match c.pc
    case Called => n + 7
    case NotifyEmpty(batch) => n + 6 + |batch|
    case NotifyFull(batch) => n + 5 + |batch|
    case Rejecting(pending, _, _) => n + 4 + |pending|
    case Locking => n + 3
    case Joining(k) => if k <= n then n + 2 - k else 1
    case Returned => 0
  }

  function WorkerWeight(closed: bool): WorkerPc -> nat { (pc: WorkerPc) => WeighWorker(closed, pc) }
  function SubmitWeight(closed: bool): SubmitPc -> nat { (pc: SubmitPc) => WeighSubmit(closed, pc) }
  function CloserWeight(n: nat): Closer -> nat { (c: Closer) => WeighCloser(n, c) }

  /** What closing may add to the weights of sleepers, set aside while the queue is open. */
  function Reserve(s: State): nat
  {
    if s.queue.closed then 0 else 2 * (|s.workers| + |s.submits|)
  }

  function ConstructionWork(s: State): nat
  {
    if s.phase.Constructing? && |s.workers| <= s.workerCount
    then s.workerCount + 9 + 4 * (s.workerCount - |s.workers|)
    else 0
  }

  /** An upper bound on the number of steps the calls now in flight can still cause. */
  function Work(s: State): nat
  {
    Sum(s.workers, WorkerWeight(s.queue.closed))
    + Sum(s.submits, SubmitWeight(s.queue.closed))
    + Sum(s.closers, CloserWeight(s.workerCount))
    + 7 * |s.queue.items| + Reserve(s) + ConstructionWork(s)
  }

  /** A pop's notification moves at most one producer from asleep to trying. */
  lemma NotifyUsesWork(s: State, w: nat, target: Option<nat>)
    requires WorkerEnabled(s, w, WakeProducer(target))
    ensures Work(WorkerStep(s, w, WakeProducer(target))) < Work(s)
  {
    SumUpdate(s.workers, w, Dequeued(s.workers[w].env), WorkerWeight(s.queue.closed));
    if target.Some? {
      var i := target.value;
      SumUpdate(s.submits, i, Trying(s.submits[i].env, true), SubmitWeight(s.queue.closed));
    }
  }

  lemma PopUsesWork(s: State, w: nat)
    requires WorkerEnabled(s, w, CheckPop)
    ensures Work(WorkerStep(s, w, CheckPop)) < Work(s)
  {
    var s' := WorkerStep(s, w, CheckPop);
    SumUpdate(s.workers, w, s'.workers[w], WorkerWeight(s.queue.closed));
  }

  lemma PushUsesWork(s: State, i: nat)
    requires SubmitEnabled(s, i, CheckPush)
    ensures Work(SubmitStep(s, i, CheckPush)) < Work(s)
  {
    var s' := SubmitStep(s, i, CheckPush);
    SumUpdate(s.submits, i, s'.submits[i], SubmitWeight(s.queue.closed));
  }

  lemma WorkerUsesWork(s: State, w: nat, a: WorkerAction)
    requires WorkerEnabled(s, w, a) && (a.SpuriousConsumer? ==> s.queue.closed)
    ensures Work(WorkerStep(s, w, a)) < Work(s)
  {
    if a.WakeProducer? {
      NotifyUsesWork(s, w, a.target);
    } else if a.CheckPop? {
      PopUsesWork(s, w);
    } else {
      var s' := WorkerStep(s, w, a);
      assert s'.workers == s.workers[w := s'.workers[w]] && s'.submits == s.submits && s'.closers == s.closers;
      SumUpdate(s.workers, w, s'.workers[w], WorkerWeight(s.queue.closed));
    }
  }

  lemma SubmitUsesWork(s: State, i: nat, a: SubmitAction)
    requires SubmitEnabled(s, i, a) && (a.SpuriousProducer? ==> s.queue.closed)
    ensures Work(SubmitStep(s, i, a)) < Work(s)
  {
    if a.CheckPush? {
      PushUsesWork(s, i);
    } else {
      var s' := SubmitStep(s, i, a);
      assert s'.submits == s.submits[i := s'.submits[i]];
      SumUpdate(s.submits, i, s'.submits[i], SubmitWeight(s.queue.closed));
      if a.WakeConsumer? && a.target.Some? {
        var w := a.target.value;
        SumUpdate(s.workers, w, s'.workers[w], WorkerWeight(s.queue.closed));
      }
    }
  }

  /** Closing adds at most two per sleeper, which the reserve covers. */
  lemma ClosingReserve(s: State)
    ensures Sum(s.workers, WorkerWeight(true)) + Sum(s.submits, SubmitWeight(true))
            <= Sum(s.workers, WorkerWeight(s.queue.closed)) + Sum(s.submits, SubmitWeight(s.queue.closed)) + Reserve(s)
  {
    SumLeq(s.workers, s.workers, WorkerWeight(true), WorkerWeight(s.queue.closed), if s.queue.closed then 0 else 2);
    SumLeq(s.submits, s.submits, SubmitWeight(true), SubmitWeight(s.queue.closed), if s.queue.closed then 0 else 2);
  }

  lemma ClosingUsesWork(s: State, c: nat)
    requires CloserEnabled(s, c, CloseQueue)
    ensures Work(CloserStep(s, c, CloseQueue)) < Work(s)
  {
    SumUpdate(s.closers, c, CloserStep(s, c, CloseQueue).closers[c], CloserWeight(s.workerCount));
    ClosingReserve(s);
  }

  lemma CloserUsesWork(s: State, c: nat, a: CloserAction)
    requires Shape(s) && CloserEnabled(s, c, a)
    requires !s.closers[c].pc.Called? ==> s.queue.closed
    ensures Work(CloserStep(s, c, a)) < Work(s)
  {
    if a.CloseQueue? {
      ClosingUsesWork(s, c);
    } else {
      var s' := CloserStep(s, c, a);
      SumUpdate(s.closers, c, s'.closers[c], CloserWeight(s.workerCount));
      if a.WakeConsumers? {
        SumLeq(s'.workers, s.workers, WorkerWeight(true), WorkerWeight(true), 0);
      } else if a.WakeProducers? {
        SumLeq(s'.submits, s.submits, SubmitWeight(true), SubmitWeight(true), 0);
      }
    }
  }

  /** Every step other than a new call, and other than a spurious wakeup while the queue is open, uses up work. */
  lemma StepUsesWork(s: State, a: Action)
    requires Structural(s) && Enabled(s, a) && !IsArrival(a) && (IsSpurious(a) ==> s.queue.closed)
    ensures Work(Act(s, a)) < Work(s)
  {
    match a
    case Worker(w, wa) => WorkerUsesWork(s, w, wa);
    case Submitter(i, sa) => SubmitUsesWork(s, i, sa);
    case Stopper(c, ca) =>
      assert !s.closers[c].pc.Called? ==> PastClosing(s.closers, c);
      CloserUsesWork(s, c, ca);
    case Spawn =>
      SumAppend(s.workers, Checking(false), WorkerWeight(s.queue.closed));
    case SpawnFails =>
      SumAppend(s.closers, Closer(Drain, Called), CloserWeight(s.workerCount));
    case Constructed =>
  }

  // ----- the price of calls and of idle wakeups -----

  /** What a step may cost: a new call brings its own work, a spurious wakeup on the open queue one more check. */
  function Price(s: State, a: Action): nat
  {
    if a.Submit? then 13
    else if a.Shutdown? then s.workerCount + 8
    else if IsSpurious(a) && !s.queue.closed then 2
    else 0
  }

  lemma SubmitAddsWork(s: State, outcome: Outcome)
    requires Enabled(s, Submit(outcome))
    ensures Work(Act(s, Submit(outcome))) <= Work(s) + 12
  {
    SumAppend(s.submits, Trying(Envelope(s.nextId, outcome, s.now), false), SubmitWeight(s.queue.closed));
  }

  lemma ShutdownAddsWork(s: State, mode: Mode)
    requires Enabled(s, Shutdown(mode))
    ensures Work(Act(s, Shutdown(mode))) == Work(s) + s.workerCount + 7
  {
    SumAppend(s.closers, Closer(mode, Called), CloserWeight(s.workerCount));
  }

  lemma IdleConsumerAddsWork(s: State, w: nat)
    requires WorkerEnabled(s, w, SpuriousConsumer)
    ensures Work(WorkerStep(s, w, SpuriousConsumer)) <= Work(s) + 1
  {
    SumUpdate(s.workers, w, Checking(true), WorkerWeight(s.queue.closed));
  }

  lemma IdleProducerAddsWork(s: State, i: nat)
    requires SubmitEnabled(s, i, SpuriousProducer)
    ensures Work(SubmitStep(s, i, SpuriousProducer)) <= Work(s) + 1
  {
    SumUpdate(s.submits, i, Trying(s.submits[i].env, true), SubmitWeight(s.queue.closed));
  }

  /** Every step of any kind raises the work by less than its price. */
  lemma StepWithinPrice(s: State, a: Action)
    requires Structural(s) && Enabled(s, a)
    ensures Work(Act(s, a)) < Work(s) + Price(s, a)
  {
    if a.Submit? {
      SubmitAddsWork(s, a.outcome);
    } else if a.Shutdown? {
      ShutdownAddsWork(s, a.mode);
    } else if IsSpurious(a) && !s.queue.closed {
      if a.Worker? {
        IdleConsumerAddsWork(s, a.w);
      } else {
        IdleProducerAddsWork(s, a.i);
      }
    } else {
      StepUsesWork(s, a);
    }
  }
}
