/** What can happen: any instants a task may have, and a constructor that fails after any number of workers. */
module Witnesses {
  import opened Core
  import opened Queues
  import opened Runs
  import opened Protocol
  import opened Progress
  import opened Reachability
  import opened Termination
  import Lag

  /** The state before any thread is started. */
  function Fresh(workers: nat, capacity: nat, now: int): State
  {
    State(workers, Constructing, Queue(capacity, [], false), [], [], [], 1, 0, seq(workers, _ => []), false, None, [],
          now, [], [], [], [], [], [], false)
  }

  lemma FreshReachable(workers: nat, capacity: nat, now: int)
    requires 0 < workers && 0 < capacity
    ensures Reachable(Fresh(workers, capacity, now))
  {
    var s := Fresh(workers, capacity, now);
    assert Init(s) && Leads(Next, s, s, 0);
  }

  // ----- instants -----

  /** An engine with one idle worker. */
  lemma OneWorker(now: int) returns (s: State)
    ensures Reachable(s) && s == Fresh(1, 1, now).(phase := Ready, workers := [Checking(false)])
  {
    FreshReachable(1, 1, now);
    s := Fresh(1, 1, now);
    Lag.TakeStep(s, Spawn);
    s := Act(s, Spawn);
    Lag.TakeStep(s, Constructed);
    s := Act(s, Constructed);
  }

  /** It has accepted the first task. */
  lemma TaskAccepted(env: Envelope) returns (s: State)
    requires env.id == 1
    ensures Reachable(s) && s.now == env.submitted && s.queue.items == [env] && s.workers == [Checking(false)]
    ensures s.submits == [Pushed] && s.samples == [[]] && s.log == []
  {
    s := OneWorker(env.submitted);
    Lag.TakeStep(s, Submit(env.outcome));
    s := Act(s, Submit(env.outcome));
    Lag.TakeStep(s, Submitter(0, CheckPush));
    s := Act(s, Submitter(0, CheckPush));
  }

  /** The worker has dequeued it. */
  lemma TaskDequeued(env: Envelope) returns (s: State)
    requires env.id == 1
    ensures Reachable(s) && s.now == env.submitted && s.workers == [Dequeued(env)] && s.samples == [[]] && s.log == []
  {
    s := TaskAccepted(env);
    Lag.TakeStep(s, Worker(0, CheckPop));
    s := Act(s, Worker(0, CheckPop));
    Lag.TakeStep(s, Worker(0, WakeProducer(None)));
    s := Act(s, Worker(0, WakeProducer(None)));
  }

  /** The worker runs it from one instant to another. */
  lemma TaskExecuted(s: State, env: Envelope, dequeued: int, finished: int) returns (s': State)
    requires Reachable(s) && s.now == env.submitted && s.workers == [Dequeued(env)] && s.samples == [[]] && s.log == []
    requires env.submitted <= dequeued <= finished
    ensures Reachable(s') && s'.workers == [Settling(env, TaskTimings(env.submitted, dequeued, finished))]
    ensures s'.samples == [[]] && s'.log == []
  {
    ReachableStep(s, Worker(0, Begin), dequeued);
    s' := Act(At(s, dequeued), Worker(0, Begin));
    ReachableStep(s', Worker(0, Complete), finished);
    s' := Act(At(s', finished), Worker(0, Complete));
  }

  /** Any outcome and any ordered instants occur in some run, as a result and as a sample. */
  lemma EveryTimingOccurs(outcome: Outcome, submitted: int, dequeued: int, finished: int) returns (s: State)
    requires submitted <= dequeued <= finished
    ensures Reachable(s) && |s.log| == 1 && s.log[0].cause.Ran? && s.log[0].env.outcome == outcome
    ensures s.log[0].result.timings == TaskTimings(submitted, dequeued, finished)
    ensures |s.samples| == 1 && |s.samples[0]| == 1
    ensures s.samples[0][0].timings == TaskTimings(submitted, dequeued, finished)
  {
    var env := Envelope(1, outcome, submitted);
    s := TaskDequeued(env);
    s := TaskExecuted(s, env, dequeued, finished);
    Lag.TakeStep(s, Worker(0, Settle));
    s := Act(s, Worker(0, Settle));
    Lag.TakeStep(s, Worker(0, Record));
    s := Act(s, Worker(0, Record));
  }

  // ----- a constructor that fails -----

  lemma {:induction false} WorkersStarted(n: nat, k: nat, capacity: nat) returns (s: State)
    requires k < n && 0 < capacity
    ensures Reachable(s) && s.phase.Constructing? && s.workerCount == n && |s.workers| == k
    ensures s.queue.capacity == capacity
    decreases k
  {
    if k == 0 {
      FreshReachable(n, capacity, 0);
      s := Fresh(n, capacity, 0);
    } else {
      s := WorkersStarted(n, k - 1, capacity);
      Lag.TakeStep(s, Spawn);
      s := Act(s, Spawn);
    }
  }

  /** Whatever the number of workers asked for and the number started before the failure, there is a run in which the
      constructor throws, having released exactly those. */
  lemma FailedConstructionOccurs(n: nat, k: nat, capacity: nat) returns (s: State)
    requires k < n && 0 < capacity
    ensures Reachable(s) && s.phase.ConstructorThrew? && s.workerCount == n && |s.workers| == k
    ensures AllReturned(s) && Released(s)
  {
    s := WorkersStarted(n, k, capacity);
    Lag.TakeStep(s, SpawnFails);
    s := FailureReturns(Act(s, SpawnFails));
    FailedConstructorReleases(s);
  }

  lemma FailureReturns(s: State) returns (s': State)
    requires Reachable(s) && s.phase.ConstructorThrew?
    ensures Reachable(s') && s'.phase.ConstructorThrew? && AllReturned(s')
    ensures s'.workerCount == s.workerCount && |s'.workers| == |s.workers|
  {
    var m;
    s', m := EveryCallCanReturn(s);
    Lag.QuietRunIsRun(s, s', m);
    ReachableAlong(s, s', m);
    SameEngineAlong(s, s', m);
  }

  // ----- freedom of the environment -----

  /** At any moment a sleeping consumer may wake for no reason, and nothing else changes. */
  lemma ConsumerMayWake(s: State, w: nat) returns (s': State)
    requires Reachable(s) && w < |s.workers| && s.workers[w].Asleep?
    ensures Reachable(s') && s' == s.(workers := s.workers[w := Checking(true)])
  {
    assert w < |s.samples| by {
      ReachableInvariant(s);
    }
    Lag.TakeStep(s, Worker(w, SpuriousConsumer));
    s' := Act(s, Worker(w, SpuriousConsumer));
  }

  /** So may a sleeping producer. */
  lemma ProducerMayWake(s: State, i: nat) returns (s': State)
    requires Reachable(s) && i < |s.submits| && s.submits[i].Waiting?
    ensures Reachable(s') && s' == s.(submits := s.submits[i := Trying(s.submits[i].env, true)])
  {
    Lag.TakeStep(s, Submitter(i, SpuriousProducer));
    s' := Act(s, Submitter(i, SpuriousProducer));
  }

  /** Once constructed, the engine may be told to stop at any moment, in either way and any number of times. */
  lemma StopMayArrive(s: State, mode: Mode) returns (s': State)
    requires Reachable(s) && s.phase.Ready?
    ensures Reachable(s') && s' == s.(closers := s.closers + [Closer(mode, Called)])
  {
    Lag.TakeStep(s, Shutdown(mode));
    s' := Act(s, Shutdown(mode));
  }

  /** Once constructed, the engine may be given a task at any moment, open or closed. */
  lemma TaskMayArrive(s: State, outcome: Outcome) returns (s': State)
    requires Reachable(s) && s.phase.Ready?
    ensures Reachable(s') && |s'.submits| == |s.submits| + 1
    ensures s'.submits[|s.submits|] == Trying(Envelope(s.nextId, outcome, s.now), false)
    ensures s'.queue == s.queue && s'.workers == s.workers && s'.closers == s.closers
  {
    Lag.TakeStep(s, Submit(outcome));
    s' := Act(s, Submit(outcome));
  }
}
