/**
  The engine as a transition system with one program counter per thread.

  A lock-protected section is one step, and a notification is a later step of its own because the code notifies after
  unlocking. Any number of submit, shutdown and shutdown_now calls may be in flight; workers are started one by one by
  the constructor. A waiting thread may wake spuriously. Every step happens at some instant of a monotone clock.
 */
module Protocol {
  import opened Core
  import opened Queues
  import opened Runs

  /** shutdown() drains, shutdown_now() aborts. */
  datatype Mode = Drain | Abort

  /** worker_loop: pop(), then run() and record. `woken` marks a thread that slept and has yet to re-check. */
  datatype WorkerPc =
    | Checking(woken: bool)
    | Asleep                                            // in the sleeper set of not_empty
    | Popped(env: Envelope)                             // owes a notify_one on not_full
    | Dequeued(env: Envelope)
    | Executing(env: Envelope, dequeued: int)
    | Settling(env: Envelope, timings: TaskTimings)     // execute() is over, the promise is not set yet
    | Recording(sample: Sample)                         // the promise is set, the sample is not appended yet
    | Exited

  /** submit: push(), and on refusal reject() followed by the counter increment. */
  datatype SubmitPc =
    | Trying(env: Envelope, woken: bool)
    | Waiting(env: Envelope)                            // in the sleeper set of not_full
    | Pushed                                            // owes a notify_one on not_empty
    | Refusing(env: Envelope)
    | Uncounted                                         // rejected, rejected_ not incremented yet
    | Done(accepted: bool)

  /** shutdown and shutdown_now, down to join_workers. */
  datatype CloserPc =
    | Called
    | NotifyEmpty(batch: seq<Envelope>)                 // owes a notify_all on both condition variables
    | NotifyFull(batch: seq<Envelope>)                  // owes a notify_all on not_full
    | Rejecting(pending: seq<Envelope>, settled: nat, finished: int)
    | Locking                                           // about to take shutdown_mutex_
    | Joining(next: nat)                                // holds shutdown_mutex_
    | Returned

  datatype Closer = Closer(mode: Mode, pc: CloserPc)

  datatype Phase = Constructing | Ready | ConstructorThrew

  /** How a promise came to be set. */
  datatype Cause = Ran | PushRefused | Discarded

  /** One set_value: the envelope it belongs to and the value it delivers. */
  datatype Settlement = Settlement(env: Envelope, result: TaskResult, cause: Cause)

  datatype State = State(
    workerCount: nat,
    phase: Phase,
    queue: Queue<Envelope>,
    workers: seq<WorkerPc>,
    submits: seq<SubmitPc>,
    closers: seq<Closer>,
    nextId: nat,
    rejected: nat,
    samples: seq<seq<Sample>>,
    joined: bool,
    joiner: Option<nat>,          // the closer holding shutdown_mutex_ across the join loop
    joins: seq<nat>,              // worker indices on which join() has returned
    now: int,
    // History: what has happened so far. No step's guard looks at these.
    issued: seq<Envelope>,
    accepted: seq<Envelope>,
    popped: seq<Envelope>,
    drained: seq<Envelope>,
    executed: seq<Envelope>,
    log: seq<Settlement>,
    aborted: bool)

  datatype WorkerAction =
    | CheckPop
    | WakeProducer(target: Option<nat>)
    | Begin
    | Complete
    | Settle
    | Record
    | SpuriousConsumer

  datatype SubmitAction =
    | CheckPush
    | WakeConsumer(target: Option<nat>)
    | Refuse
    | CountRefusal
    | SpuriousProducer

  datatype CloserAction =
    | CloseQueue
    | WakeConsumers
    | WakeProducers
    | RejectNext
    | CountRejects
    | LockShutdown
    | JoinNext
    | JoinDone

  datatype Action =
    | Spawn
    | SpawnFails
    | Constructed
    | Submit(outcome: Outcome)
    | Shutdown(mode: Mode)
    | Worker(w: nat, wa: WorkerAction)
    | Submitter(i: nat, sa: SubmitAction)
    | Stopper(c: nat, ca: CloserAction)

  /** notify_one wakes exactly one sleeper if there is one, and is lost otherwise. */
  predicate CanNotifyConsumer(s: State, target: Option<nat>)
  {
    match target
    case Some(w) => w < |s.workers| && s.workers[w].Asleep?
    case None => forall w | 0 <= w < |s.workers| :: !s.workers[w].Asleep?
  }

  predicate CanNotifyProducer(s: State, target: Option<nat>)
  {
    match target
    case Some(i) => i < |s.submits| && s.submits[i].Waiting?
    case None => forall i | 0 <= i < |s.submits| :: !s.submits[i].Waiting?
  }

  function NotifyConsumer(s: State, target: Option<nat>): State
    requires CanNotifyConsumer(s, target)
  {
    match target
    case Some(w) => s.(workers := s.workers[w := Checking(true)])
    case None => s
  }

  function NotifyProducer(s: State, target: Option<nat>): State
    requires CanNotifyProducer(s, target)
  {
    match target
    case Some(i) => s.(submits := s.submits[i := Trying(s.submits[i].env, true)])
    case None => s
  }

  function WokenWorker(pc: WorkerPc): WorkerPc { if pc.Asleep? then Checking(true) else pc }

  function WokenSubmit(pc: SubmitPc): SubmitPc { if pc.Waiting? then Trying(pc.env, true) else pc }

  /** notify_all on not_empty. */
  function NotifyAllConsumers(s: State): State
  {
    s.(workers := seq(|s.workers|, w requires 0 <= w < |s.workers| => WokenWorker(s.workers[w])))
  }

  /** notify_all on not_full. */
  function NotifyAllProducers(s: State): State
  {
    s.(submits := seq(|s.submits|, i requires 0 <= i < |s.submits| => WokenSubmit(s.submits[i])))
  }

  // ----- workers -----

  predicate WorkerEnabled(s: State, w: nat, a: WorkerAction)
  {
    w < |s.workers| && w < |s.samples| &&
    var pc := s.workers[w];
    match a
    case CheckPop => pc.Checking?
    case WakeProducer(target) => pc.Popped? && CanNotifyProducer(s, target)
    case Begin => pc.Dequeued?
    case Complete => pc.Executing?
    case Settle => pc.Settling?
    case Record => pc.Recording?
    case SpuriousConsumer => pc.Asleep?
  }

  function SetWorker(s: State, w: nat, pc: WorkerPc): State
    requires w < |s.workers|
  {
    s.(workers := s.workers[w := pc])
  }

  function WorkerStep(s: State, w: nat, a: WorkerAction): State
    requires WorkerEnabled(s, w, a)
  {
    var pc := s.workers[w];
    match a
    case CheckPop =>
      var (q, verdict) := PopSection(s.queue);
      (match verdict
       case Took(env) => SetWorker(s, w, Popped(env)).(queue := q, popped := s.popped + [env])
       case Finished => SetWorker(s, w, Exited)
       case MustWaitForItem => SetWorker(s, w, Asleep))
    case WakeProducer(target) =>
      SetWorker(NotifyProducer(s, target), w, Dequeued(pc.env))
    case Begin =>
      SetWorker(s, w, Executing(pc.env, s.now)).(executed := s.executed + [pc.env])
    case Complete =>
      SetWorker(s, w, Settling(pc.env, TaskTimings(pc.env.submitted, pc.dequeued, s.now)))
    case Settle =>
      var result := RanResult(pc.env, pc.timings);
      SetWorker(s, w, Recording(SampleOf(result))).(log := s.log + [Settlement(pc.env, result, Ran)])
    case Record =>
      SetWorker(s, w, Checking(false)).(samples := s.samples[w := s.samples[w] + [pc.sample]])
    case SpuriousConsumer =>
      SetWorker(s, w, Checking(true))
  }

  // ----- submit calls -----

  predicate SubmitEnabled(s: State, i: nat, a: SubmitAction)
  {
    i < |s.submits| &&
    var pc := s.submits[i];
    match a
    case CheckPush => pc.Trying?
    case WakeConsumer(target) => pc.Pushed? && CanNotifyConsumer(s, target)
    case Refuse => pc.Refusing?
    case CountRefusal => pc.Uncounted?
    case SpuriousProducer => pc.Waiting?
  }

  function SetSubmit(s: State, i: nat, pc: SubmitPc): State
    requires i < |s.submits|
  {
    s.(submits := s.submits[i := pc])
  }

  function SubmitStep(s: State, i: nat, a: SubmitAction): State
    requires SubmitEnabled(s, i, a)
  {
    var pc := s.submits[i];
    match a
    case CheckPush =>
      var (q, verdict) := PushSection(s.queue, pc.env);
      (match verdict
       case Accepted => SetSubmit(s, i, Pushed).(queue := q, accepted := s.accepted + [pc.env])
       case Refused => SetSubmit(s, i, Refusing(pc.env))
       case MustWaitForSpace => SetSubmit(s, i, Waiting(pc.env)))
    case WakeConsumer(target) =>
      SetSubmit(NotifyConsumer(s, target), i, Done(true))
    case Refuse =>
      SetSubmit(s, i, Uncounted).(
        log := s.log + [Settlement(pc.env, RejectedResult(pc.env, s.now), PushRefused)])
    case CountRefusal =>
      SetSubmit(s, i, Done(false)).(rejected := s.rejected + 1)
    case SpuriousProducer =>
      SetSubmit(s, i, Trying(pc.env, true))
  }

  // ----- shutdown calls -----

  predicate CloserEnabled(s: State, c: nat, a: CloserAction)
  {
    c < |s.closers| &&
    var pc := s.closers[c].pc;
    match a
    case CloseQueue => pc.Called?
    case WakeConsumers => pc.NotifyEmpty?
    case WakeProducers => pc.NotifyFull?
    case RejectNext => pc.Rejecting? && pc.pending != []
    case CountRejects => pc.Rejecting? && pc.pending == []
    case LockShutdown => pc.Locking? && s.joiner.None?
    case JoinNext =>
      pc.Joining? && pc.next < |s.workers| && (pc.next in s.joins || s.workers[pc.next].Exited?)
    case JoinDone => pc.Joining? && pc.next >= |s.workers|
  }

  function SetCloser(s: State, c: nat, pc: CloserPc): State
    requires c < |s.closers|
  {
    s.(closers := s.closers[c := s.closers[c].(pc := pc)])
  }

  function CloserStep(s: State, c: nat, a: CloserAction): State
    requires CloserEnabled(s, c, a)
  {
    var pc := s.closers[c].pc;
    match a
    case CloseQueue =>
      (match s.closers[c].mode
       case Drain =>
         var (q, first) := CloseSection(s.queue);
         SetCloser(s, c, if first then NotifyEmpty([]) else Locking).(queue := q)
       case Abort =>
         var (q, batch) := DrainSection(s.queue);
         SetCloser(s, c, NotifyEmpty(batch)).(queue := q, drained := s.drained + batch, aborted := true))
    case WakeConsumers =>
      SetCloser(NotifyAllConsumers(s), c, NotifyFull(pc.batch))
    case WakeProducers =>
      SetCloser(NotifyAllProducers(s), c,
                if s.closers[c].mode.Drain? then Locking else Rejecting(pc.batch, 0, s.now))
    case RejectNext =>
      var env := pc.pending[0];
      SetCloser(s, c, Rejecting(pc.pending[1..], pc.settled + 1, pc.finished)).(
        log := s.log + [Settlement(env, RejectedResult(env, pc.finished), Discarded)])
    case CountRejects =>
      SetCloser(s, c, Locking).(rejected := s.rejected + pc.settled)
    case LockShutdown =>
      if s.joined then SetCloser(s, c, Returned)
      else SetCloser(s, c, Joining(0)).(joiner := Some(c))
    case JoinNext =>
      SetCloser(s, c, Joining(pc.next + 1)).(
        joins := if pc.next in s.joins then s.joins else s.joins + [pc.next])
    case JoinDone =>
      SetCloser(s, c, Returned).(joined := true, joiner := None)
  }

  // ----- the whole system -----

  predicate Enabled(s: State, a: Action)
  {
    match a
    case Spawn => s.phase.Constructing? && |s.workers| < s.workerCount
    case SpawnFails => s.phase.Constructing? && |s.workers| < s.workerCount
    case Constructed => s.phase.Constructing? && |s.workers| == s.workerCount
    case Submit(_) => s.phase.Ready?
    case Shutdown(_) => s.phase.Ready?
    case Worker(w, wa) => WorkerEnabled(s, w, wa)
    case Submitter(i, sa) => SubmitEnabled(s, i, sa)
    case Stopper(c, ca) => CloserEnabled(s, c, ca)
  }

  function Act(s: State, a: Action): State
    requires Enabled(s, a)
  {
    match a
    case Spawn => s.(workers := s.workers + [Checking(false)])
    case SpawnFails => s.(phase := ConstructorThrew, closers := s.closers + [Closer(Drain, Called)])
    case Constructed => s.(phase := Ready)
    case Submit(outcome) =>
      var env := Envelope(s.nextId, outcome, s.now);
      s.(nextId := s.nextId + 1, issued := s.issued + [env], submits := s.submits + [Trying(env, false)])
    case Shutdown(mode) => s.(closers := s.closers + [Closer(mode, Called)])
    case Worker(w, wa) => WorkerStep(s, w, wa)
    case Submitter(i, sa) => SubmitStep(s, i, sa)
    case Stopper(c, ca) => CloserStep(s, c, ca)
  }

  /** The same state at a later instant. */
  function At(s: State, t: int): State { s.(now := t) }

  ghost predicate Step(s: State, a: Action, t: int, s': State)
  {
    s.now <= t && Enabled(At(s, t), a) && s' == Act(At(s, t), a)
  }

  ghost predicate Next(s: State, s': State)
  {
    exists a, t :: Step(s, a, t, s')
  }

  /** The constructor's argument checks have passed and no thread has been started. */
  ghost predicate Init(s: State)
  {
    && 0 < s.workerCount
    && 0 < s.queue.capacity
    && s == State(s.workerCount, Constructing, Queue(s.queue.capacity, [], false), [], [], [], 1, 0,
                  seq(s.workerCount, _ => []), false, None, [], s.now, [], [], [], [], [], [], false)
  }

  ghost predicate Reachable(s: State)
  {
    exists s0, n: nat :: Init(s0) && Leads(Next, s0, s, n)
  }
}
