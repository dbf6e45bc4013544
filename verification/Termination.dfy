/** Every call returns: no reachable state is stuck, and without new calls every run is bounded. */
module Termination {
  import opened Runs
  import opened Protocol
  import opened Structure
  import opened Wakeups
  import opened Progress
  import opened Reachability
  import Engine

  /** A step that some thread takes by itself: neither a new call nor a spurious wakeup. */
  ghost predicate QuietStep(s: State, s': State)
  {
    exists a, t :: Step(s, a, t, s') && !IsArrival(a) && !IsSpurious(a)
  }

  /** No wakeup is ever lost. */
  lemma NoLostWakeupAlways(s: State)
    requires Reachable(s)
    ensures ConsumersCovered(s) && ProducersCovered(s) && SleepersOwedNotifyAll(s)
  {
    Engine.FifoAlways(s);
    ReachableSound(s, Engine.EveryEnvelope, Engine.EverySample);
  }

  /** No reachable state with an unfinished constructor, submit or shutdown is stuck, even without spurious wakeups. */
  lemma NeverStuck(s: State) returns (a: Action)
    requires Reachable(s) && !AllReturned(s)
    ensures Enabled(s, a) && !IsArrival(a) && !IsSpurious(a)
  {
    ReachableSound(s, Engine.EveryEnvelope, Engine.EverySample);
    a := SomeThreadCanMove(s);
  }

  lemma QuietStepUsesWork(s: State, s': State)
    requires Invariant(s) && QuietStep(s, s')
    ensures Invariant(s') && Work(s') < Work(s)
  {
    var a, t :| Step(s, a, t, s') && !IsArrival(a) && !IsSpurious(a);
    InvariantAt(s, t);
    InvariantAct(At(s, t), a);
    assert Work(At(s, t)) == Work(s);
    StepUsesWork(At(s, t), a);
  }

  lemma QuietMove(s: State) returns (s': State)
    requires Invariant(s) && !AllReturned(s)
    ensures QuietStep(s, s')
  {
    var a := SomeThreadCanMove(s);
    assert At(s, s.now) == s;
    s' := Act(s, a);
    assert Step(s, a, s.now, s');
  }

  /** A step of any kind, with its price. */
  ghost predicate PricedStep(s: State, s': State, price: nat)
  {
    exists a, t :: Step(s, a, t, s') && price == Price(s, a)
  }

  lemma StepWithinPriceAt(s: State, a: Action, t: int)
    requires Structural(s) && Enabled(At(s, t), a)
    ensures Work(Act(At(s, t), a)) < Work(s) + Price(s, a)
  {
    assert Structural(At(s, t)) && Work(At(s, t)) == Work(s) && Price(At(s, t), a) == Price(s, a);
    StepWithinPrice(At(s, t), a);
  }

  lemma PricedStepWork(s: State, s': State, price: nat)
    requires Structural(s) && PricedStep(s, s', price)
    ensures Next(s, s') && Work(s') < Work(s) + price
  {
    var a, t :| Step(s, a, t, s') && price == Price(s, a);
    StepWithinPriceAt(s, a, t);
  }

  lemma PricedStepKeeps(s: State, s': State, price: nat)
    requires Invariant(s) && PricedStep(s, s', price)
    ensures Invariant(s') && Work(s') < Work(s) + price && Since(s, s') && SameEngine(s, s')
  {
    PricedStepWork(s, s', price);
    InvariantNext(s, s');
    SinceNext(s, s');
    SameEngineNext(s, s');
  }

  ghost predicate Kept(s: State, s': State)
  {
    Invariant(s') && Since(s, s') && SameEngine(s, s')
  }

  lemma PricedRunKeeps(s: State, s': State, n: nat, cost: nat)
    requires Invariant(s) && Spends(PricedStep, s, s', n, cost)
    ensures Invariant(s') && n + Work(s') <= Work(s) + cost && Since(s, s') && SameEngine(s, s')
  {
    forall x, y, d: nat | Kept(s, x) && PricedStep(x, y, d)
      ensures Kept(s, y) && Work(y) < Work(x) + d
    {
      PricedStepKeeps(x, y, d);
      SinceTransitive(s, x, y);
    }
    PriceBoundsLength(PricedStep, x => Kept(s, x), Work, s, s', n, cost);
  }

  /** Every run whatsoever: its length is bounded by the work present plus 13 for each submit call it starts,
      workerCount + 8 for each shutdown call, and 2 for each spurious wakeup while the queue is open. */
  lemma EveryRunIsBounded(s: State, s': State, n: nat, cost: nat)
    requires Reachable(s) && Spends(PricedStep, s, s', n, cost)
    ensures n + Work(s') <= Work(s) + cost
  {
    ReachableSound(s, Engine.EveryEnvelope, Engine.EverySample);
    PricedRunKeeps(s, s', n, cost);
  }

  /** From every reachable state the calls in flight can all return, without new calls or spurious wakeups. */
  lemma EveryCallCanReturn(s: State) returns (s': State, n: nat)
    requires Reachable(s)
    ensures Leads(QuietStep, s, s', n) && AllReturned(s')
  {
    ReachableSound(s, Engine.EveryEnvelope, Engine.EverySample);
    forall x, y | Invariant(x) && QuietStep(x, y)
      ensures Invariant(y) && Work(y) < Work(x)
    {
      QuietStepUsesWork(x, y);
    }
    forall x | Invariant(x) && !AllReturned(x)
      ensures exists y :: QuietStep(x, y)
    {
      var y := QuietMove(x);
    }
    s', n := ReachesGoal(QuietStep, Invariant, AllReturned, Work, s);
  }

  /** No thread can move by itself: only a new call or a spurious wakeup could happen. */
  ghost predicate Exhausted(s: State)
  {
    forall a | Enabled(s, a) :: IsArrival(a) || IsSpurious(a)
  }

  lemma ExhaustedMeansReturned(s: State)
    requires Structural(s) && NoLostWakeup(s) && Exhausted(s)
    ensures AllReturned(s)
  {
    if !AllReturned(s) {
      var a := SomeThreadCanMove(s);
      assert false;
    }
  }

  /** A run of any kind that no thread can continue by itself has returned every call. */
  lemma MaximalRunsReturn(s: State, s': State, n: nat, cost: nat)
    requires Reachable(s) && Spends(PricedStep, s, s', n, cost) && Exhausted(s')
    ensures n + Work(s') <= Work(s) + cost && AllReturned(s')
  {
    ReachableSound(s, Engine.EveryEnvelope, Engine.EverySample);
    PricedRunKeeps(s, s', n, cost);
    ExhaustedMeansReturned(s');
  }

  lemma ReturnedMeansJoinedAll(s: State)
    requires Structural(s) && AllReturned(s) && s.closers != []
    ensures Engine.Quiescent(s) && s.joined && ExitedBelow(s.workers, |s.workers|) && s.joins == Range(|s.workers|)
  {
    assert s.closers[0].pc.Returned?;
    assert PastClosing(s.closers, 0);
  }

  /** If a shutdown was under way, the constructor's own after a failed start included, then a run of any kind that no
      thread can continue by itself is bounded and has every worker exited and joined, once. */
  lemma ShutdownTerminates(s: State, s': State, n: nat, cost: nat)
    requires Reachable(s) && s.closers != [] && Spends(PricedStep, s, s', n, cost) && Exhausted(s')
    ensures n + Work(s') <= Work(s) + cost
    ensures Engine.Quiescent(s') && s'.joined && ExitedBelow(s'.workers, |s'.workers|)
    ensures s'.joins == Range(|s'.workers|)
  {
    ReachableSound(s, Engine.EveryEnvelope, Engine.EverySample);
    PricedRunKeeps(s, s', n, cost);
    ExhaustedMeansReturned(s');
    ReturnedMeansJoinedAll(s');
  }

  // ----- a constructor that fails part way -----

  /** The queue is closed and every worker that was started has exited and been joined, once. */
  ghost predicate Released(s: State)
  {
    s.queue.closed && s.joined && ExitedBelow(s.workers, |s.workers|) && s.joins == Range(|s.workers|)
  }

  /** A constructor that failed to start a thread rethrows only after closing the queue and joining every worker that
      had been started; nothing was ever submitted to it. */
  lemma FailedConstructorReleases(s: State)
    requires Reachable(s) && s.phase.ConstructorThrew? && AllReturned(s)
    ensures s.queue.closed && s.joined && ExitedBelow(s.workers, |s.workers|) && s.joins == Range(|s.workers|)
    ensures s.issued == []
  {
    ReachableInvariant(s);
    ReturnedMeansJoinedAll(s);
  }

  /** From the moment starting a thread has failed, every run is bounded by the work there is and the spurious wakeups
      on the open queue, and one that no thread can continue by itself has released every started worker. */
  lemma FailedConstructionTerminates(s: State, s': State, n: nat, cost: nat)
    requires Reachable(s) && s.phase.ConstructorThrew? && Spends(PricedStep, s, s', n, cost)
    ensures n + Work(s') <= Work(s) + cost
    ensures s'.phase.ConstructorThrew? && |s'.workers| == |s.workers|
    ensures Exhausted(s') ==> AllReturned(s') && Released(s')
  {
    ReachableSound(s, Engine.EveryEnvelope, Engine.EverySample);
    PricedRunKeeps(s, s', n, cost);
    if Exhausted(s') {
      ExhaustedMeansReturned(s');
      ReturnedMeansJoinedAll(s');
    }
  }
}
