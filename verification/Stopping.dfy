/** Shutting down under load: once the queue is closed, a shutdown finishes however many submit calls keep arriving. */
module Stopping {
  import opened Runs
  import opened Protocol
  import opened Structure
  import opened Wakeups
  import opened Progress
  import opened Reachability
  import opened Engine
  import opened Sums

  /** A bound on the steps workers and shutdown calls have left once the queue is closed. */
  function StopWork(s: State): nat
  {
    Sum(s.workers, WorkerWeight(true)) + Sum(s.closers, CloserWeight(s.workerCount)) + 7 * |s.queue.items|
  }

  lemma WorkerUsesStopWork(s: State, w: nat, a: WorkerAction)
    requires WorkerEnabled(s, w, a) && s.queue.closed
    ensures StopWork(WorkerStep(s, w, a)) < StopWork(s)
  {
    var s' := WorkerStep(s, w, a);
    assert s'.workers == s.workers[w := s'.workers[w]] && s'.closers == s.closers;
    SumUpdate(s.workers, w, s'.workers[w], WorkerWeight(true));
  }

  lemma SubmitAddsNoStopWork(s: State, i: nat, a: SubmitAction)
    requires SubmitEnabled(s, i, a) && s.queue.closed
    ensures StopWork(SubmitStep(s, i, a)) <= StopWork(s)
  {
    if a.WakeConsumer? && a.target.Some? {
      SumUpdate(s.workers, a.target.value, Checking(true), WorkerWeight(true));
    }
  }

  lemma ClosingUsesStopWork(s: State, c: nat)
    requires CloserEnabled(s, c, CloseQueue) && s.queue.closed
    ensures StopWork(CloserStep(s, c, CloseQueue)) < StopWork(s)
  {
    SumUpdate(s.closers, c, CloserStep(s, c, CloseQueue).closers[c], CloserWeight(s.workerCount));
  }

  lemma CloserUsesStopWork(s: State, c: nat, a: CloserAction)
    requires Shape(s) && CloserEnabled(s, c, a) && s.queue.closed
    ensures StopWork(CloserStep(s, c, a)) < StopWork(s)
  {
    if a.CloseQueue? {
      ClosingUsesStopWork(s, c);
    } else {
      var s' := CloserStep(s, c, a);
      assert s'.queue == s.queue && s'.workerCount == s.workerCount;
      SumUpdate(s.closers, c, s'.closers[c], CloserWeight(s.workerCount));
      if a.WakeConsumers? {
        SumLeq(s'.workers, s.workers, WorkerWeight(true), WorkerWeight(true), 0);
      }
    }
  }

  /** One for a step of a worker or of a shutdown call. */
  function Counts(a: Action): nat { if a.Worker? || a.Stopper? then 1 else 0 }

  lemma StepUsesStopWork(s: State, a: Action)
    requires Structural(s) && s.queue.closed && Enabled(s, a) && !a.Shutdown?
    ensures StopWork(Act(s, a)) + Counts(a) <= StopWork(s)
  {
    assert !s.phase.Constructing? by {
      var c :| PastClosing(s.closers, c);
    }
    match a
    case Worker(w, wa) => WorkerUsesStopWork(s, w, wa);
    case Submitter(i, sa) => SubmitAddsNoStopWork(s, i, sa);
    case Stopper(c, ca) => CloserUsesStopWork(s, c, ca);
    case Submit(_) =>
  }

  /** Any step but a new shutdown call; counted if a worker or a shutdown call takes it. */
  ghost predicate CountedStep(s: State, s': State, count: nat)
  {
    exists a, t :: Step(s, a, t, s') && !a.Shutdown? && count == Counts(a)
  }

  ghost predicate ClosedInvariant(s: State) { Invariant(s) && s.queue.closed }

  lemma CountedStepKeeps(s: State, s': State, count: nat)
    requires ClosedInvariant(s) && CountedStep(s, s', count)
    ensures ClosedInvariant(s') && StopWork(s') + count <= StopWork(s)
  {
    var a, t :| Step(s, a, t, s') && !a.Shutdown? && count == Counts(a);
    assert Next(s, s');
    SinceNext(s, s');
    InvariantNext(s, s');
    InvariantAt(s, t);
    assert StopWork(At(s, t)) == StopWork(s);
    StepUsesStopWork(At(s, t), a);
  }

  // ----- no shutdown waits for a submitter -----

  ghost predicate AllStopped(s: State)
  {
    forall c | 0 <= c < |s.closers| :: s.closers[c].pc.Returned?
  }

  /** No worker and no shutdown call can move. */
  ghost predicate Stalled(s: State)
  {
    && (forall w | 0 <= w < |s.workers| :: s.workers[w].Asleep? || s.workers[w].Exited?)
    && (forall c | 0 <= c < |s.closers| :: CloserBlocked(s, s.closers[c]))
  }

  lemma ClosedNotStalled(s: State)
    requires Structural(s) && NoLostWakeup(s) && s.queue.closed && !AllStopped(s)
    ensures !Stalled(s)
  {
  }

  /** Once closed, while a shutdown call is in flight, a worker or a shutdown call can move with no submitter's help. */
  lemma StopCanMove(s: State) returns (a: Action)
    requires Structural(s) && NoLostWakeup(s) && s.queue.closed && !AllStopped(s)
    ensures Enabled(s, a) && Counts(a) == 1 && !IsSpurious(a)
  {
    ClosedNotStalled(s);
    if w: nat :| w < |s.workers| && !s.workers[w].Asleep? && !s.workers[w].Exited? {
      a := Worker(w, WorkerMove(s, w));
    } else {
      var c: nat :| c < |s.closers| && !CloserBlocked(s, s.closers[c]);
      a := Stopper(c, CloserMove(s, c));
    }
  }

  lemma ClosedRunKeeps(s: State, s': State, n: nat, count: nat)
    requires Reachable(s) && s.queue.closed && Spends(CountedStep, s, s', n, count)
    ensures ClosedInvariant(s') && count + StopWork(s') <= StopWork(s)
  {
    ReachableSound(s, EveryEnvelope, EverySample);
    forall x, y, d: nat | ClosedInvariant(x) && CountedStep(x, y, d)
      ensures ClosedInvariant(y) && StopWork(y) + d <= StopWork(x)
    {
      CountedStepKeeps(x, y, d);
    }
    MeasurePays(CountedStep, ClosedInvariant, StopWork, s, s', n, count);
  }

  /** Shutdown under load: in every run after closing without a further shutdown call, however many submit calls arrive
      and whatever they do, workers and shutdown calls take at most StopWork steps in all. Until every shutdown call has
      returned one of them can move without a spurious wakeup; when none can, every worker is joined. */
  lemma ShutdownUnderLoad(s: State, s': State, n: nat, count: nat)
    requires Reachable(s) && s.queue.closed && Spends(CountedStep, s, s', n, count)
    ensures count + StopWork(s') <= StopWork(s)
    ensures (forall a | Enabled(s', a) && !IsSpurious(a) :: Counts(a) == 0) ==>
              AllStopped(s') && s'.joined && s'.joins == Range(|s'.workers|)
  {
    ClosedRunKeeps(s, s', n, count);
    if !AllStopped(s') {
      var a := StopCanMove(s');
    } else {
      StoppedMeansJoined(s');
    }
  }

  lemma StoppedMeansJoined(s: State)
    requires Structural(s) && s.queue.closed && AllStopped(s)
    ensures s.joined && s.joins == Range(|s.workers|)
  {
    var c :| PastClosing(s.closers, c);
    assert s.closers[c].pc.Returned?;
  }
}
