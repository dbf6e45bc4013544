/** The structural invariant: shape of the state, FIFO history, what a closed queue implies, and the join protocol. */
module Structure {
  import opened Core
  import opened Queues
  import opened Protocol

  ghost predicate Shape(s: State)
  {
    && 0 < s.workerCount
    && |s.samples| == s.workerCount
    && |s.workers| <= s.workerCount
    && (s.phase.Constructing? ==> s.closers == [])
    && (s.phase.ConstructorThrew? ==> |s.closers| == 1 && s.closers[0].mode.Drain?)
    && (s.phase.Ready? ==> |s.workers| == s.workerCount)
    && (!s.phase.Ready? ==> s.submits == [])
  }

  /** Ids are handed out as 1, 2, 3, ...: issued[i] carries id i + 1 and belongs to submits[i]. */
  ghost predicate Ids(s: State)
  {
    && s.nextId == |s.issued| + 1
    && |s.submits| == |s.issued|
    && (forall i | 0 <= i < |s.issued| :: s.issued[i].id == i + 1)
    && (forall i | 0 <= i < |s.submits| :: Holding(s.submits[i]) ==> s.submits[i].env == s.issued[i])
  }

  predicate Holding(pc: SubmitPc) { pc.Trying? || pc.Waiting? || pc.Refusing? }

  /** The queue is bounded, and pops, drains and the contents together are the accepted pushes in order. */
  ghost predicate Fifo(s: State)
  {
    && 0 < s.queue.capacity
    && |s.queue.items| <= s.queue.capacity
    && s.accepted == s.popped + s.drained + s.queue.items
    && (s.aborted ==> s.queue.closed && s.queue.items == [])
    && (!s.aborted ==> s.drained == [])
  }

  /** A worker leaves its loop only when the queue is closed and empty, and then it stays so. */
  ghost predicate ExitMeansFinished(workers: seq<WorkerPc>, q: Queue<Envelope>)
  {
    forall w | 0 <= w < |workers| :: workers[w].Exited? ==> q.closed && q.items == []
  }

  ghost predicate PastClosing(closers: seq<Closer>, c: int)
  {
    0 <= c < |closers| && !closers[c].pc.Called?
  }

  /** The queue is closed exactly when some shutdown call has run its closing section. */
  ghost predicate ClosedByCloser(closers: seq<Closer>, closed: bool)
  {
    closed <==> exists c :: PastClosing(closers, c)
  }

  ghost predicate HasDrained(closers: seq<Closer>, c: int)
  {
    PastClosing(closers, c) && closers[c].mode.Abort?
  }

  /** The queue has been drained exactly when some shutdown_now call has run its closing section. */
  ghost predicate AbortedByCloser(closers: seq<Closer>, aborted: bool)
  {
    aborted <==> exists c :: HasDrained(closers, c)
  }

  /** shutdown() takes nothing out of the queue. */
  ghost predicate DrainersHoldNothing(closers: seq<Closer>)
  {
    forall c | 0 <= c < |closers| :: closers[c].mode.Drain? ==> Batch(closers[c].pc) == [] && !closers[c].pc.Rejecting?
  }

  ghost predicate Closing(s: State)
  {
    && ExitMeansFinished(s.workers, s.queue)
    && ClosedByCloser(s.closers, s.queue.closed)
    && AbortedByCloser(s.closers, s.aborted)
    && DrainersHoldNothing(s.closers)
  }

  /** The envelopes a shutdown_now call has taken out of the queue and not yet rejected. */
  function Batch(pc: CloserPc): seq<Envelope>
  {
    match pc
    case NotifyEmpty(batch) => batch
    case NotifyFull(batch) => batch
    case Rejecting(pending, _, _) => pending
    case _ => []
  }

  function Range(n: nat): seq<nat> { seq(n, i => i) }

  ghost predicate ExitedBelow(workers: seq<WorkerPc>, k: nat)
  {
    k <= |workers| && forall w | 0 <= w < k :: workers[w].Exited?
  }

  /** Only the holder of shutdown_mutex_ is in the join loop. */
  ghost predicate HolderJoins(closers: seq<Closer>, joiner: Option<nat>)
  {
    && (forall c | 0 <= c < |closers| :: closers[c].pc.Joining? ==> joiner == Some(c))
    && (joiner.Some? ==> joiner.value < |closers| && closers[joiner.value].pc.Joining?)
  }

  ghost predicate ReturnedMeansJoined(closers: seq<Closer>, joined: bool)
  {
    forall c | 0 <= c < |closers| :: closers[c].pc.Returned? ==> joined
  }

  /** How many workers have been joined: all after joined_, the loop counter during the loop, none before. */
  function JoinedSoFar(s: State): nat
  {
    if s.joined then |s.workers|
    else if s.joiner.Some? && s.joiner.value < |s.closers| && s.closers[s.joiner.value].pc.Joining?
    then s.closers[s.joiner.value].pc.next
    else 0
  }

  /** Workers 0, 1, 2, ... are joined once each, in order, each after it has exited; joined_ is set after the last. */
  ghost predicate JoinProtocol(s: State)
  {
    && HolderJoins(s.closers, s.joiner)
    && ReturnedMeansJoined(s.closers, s.joined)
    && (s.joined ==> s.joiner.None? && !s.phase.Constructing?)
    && ExitedBelow(s.workers, JoinedSoFar(s))
    && s.joins == Range(JoinedSoFar(s))
  }

  ghost predicate Structural(s: State)
  {
    Shape(s) && Ids(s) && Fifo(s) && Closing(s) && JoinProtocol(s)
  }

  lemma ShapeWorker(s: State, w: nat, a: WorkerAction)
    requires Shape(s) && WorkerEnabled(s, w, a)
    ensures Shape(WorkerStep(s, w, a))
  {
  }

  lemma ShapeSubmit(s: State, i: nat, a: SubmitAction)
    requires Shape(s) && SubmitEnabled(s, i, a)
    ensures Shape(SubmitStep(s, i, a))
  {
  }

  lemma ShapeCloser(s: State, c: nat, a: CloserAction)
    requires Shape(s) && CloserEnabled(s, c, a)
    ensures Shape(CloserStep(s, c, a))
  {
  }

  lemma ShapeAct(s: State, a: Action)
    requires Shape(s) && Enabled(s, a)
    ensures Shape(Act(s, a))
  {
    match a
    case Worker(w, wa) => ShapeWorker(s, w, wa);
    case Submitter(i, sa) => ShapeSubmit(s, i, sa);
    case Stopper(c, ca) => ShapeCloser(s, c, ca);
    case _ =>
  }

  lemma IdsWorker(s: State, w: nat, a: WorkerAction)
    requires Ids(s) && WorkerEnabled(s, w, a)
    ensures Ids(WorkerStep(s, w, a))
  {
  }

  lemma IdsSubmit(s: State, i: nat, a: SubmitAction)
    requires Ids(s) && SubmitEnabled(s, i, a)
    ensures Ids(SubmitStep(s, i, a))
  {
    var s' := SubmitStep(s, i, a);
    assert s'.issued == s.issued && s'.nextId == s.nextId && s'.submits == s.submits[i := s'.submits[i]];
    assert Holding(s'.submits[i]) ==> Holding(s.submits[i]) && s'.submits[i].env == s.submits[i].env;
  }

  lemma IdsCloser(s: State, c: nat, a: CloserAction)
    requires Ids(s) && CloserEnabled(s, c, a)
    ensures Ids(CloserStep(s, c, a))
  {
  }

  lemma IdsAct(s: State, a: Action)
    requires Ids(s) && Enabled(s, a)
    ensures Ids(Act(s, a))
  {
    match a
    case Worker(w, wa) => IdsWorker(s, w, wa);
    case Submitter(i, sa) => IdsSubmit(s, i, sa);
    case Stopper(c, ca) => IdsCloser(s, c, ca);
    case _ =>
  }

  lemma FifoWorker(s: State, w: nat, a: WorkerAction)
    requires Fifo(s) && WorkerEnabled(s, w, a)
    ensures Fifo(WorkerStep(s, w, a))
  {
  }

  lemma FifoSubmit(s: State, i: nat, a: SubmitAction)
    requires Fifo(s) && SubmitEnabled(s, i, a)
    ensures Fifo(SubmitStep(s, i, a))
  {
  }

  lemma FifoCloser(s: State, c: nat, a: CloserAction)
    requires Fifo(s) && CloserEnabled(s, c, a)
    ensures Fifo(CloserStep(s, c, a))
  {
  }

  lemma FifoAct(s: State, a: Action)
    requires Fifo(s) && Enabled(s, a)
    ensures Fifo(Act(s, a))
  {
    match a
    case Worker(w, wa) => FifoWorker(s, w, wa);
    case Submitter(i, sa) => FifoSubmit(s, i, sa);
    case Stopper(c, ca) => FifoCloser(s, c, ca);
    case _ =>
  }

  lemma ClosingWorker(s: State, w: nat, a: WorkerAction)
    requires Shape(s) && Closing(s) && WorkerEnabled(s, w, a)
    ensures Closing(WorkerStep(s, w, a))
  {
  }

  lemma ClosingSubmit(s: State, i: nat, a: SubmitAction)
    requires Shape(s) && Closing(s) && SubmitEnabled(s, i, a)
    ensures Closing(SubmitStep(s, i, a))
  {
  }

  lemma ClosingClose(s: State, c: nat)
    requires Shape(s) && Closing(s) && CloserEnabled(s, c, CloseQueue)
    ensures Closing(CloserStep(s, c, CloseQueue))
  {
    var s' := CloserStep(s, c, CloseQueue);
    assert PastClosing(s'.closers, c);
    assert forall d :: HasDrained(s.closers, d) ==> HasDrained(s'.closers, d);
    assert s.closers[c].mode.Abort? <==> HasDrained(s'.closers, c);
    assert forall d | d != c :: HasDrained(s'.closers, d) ==> HasDrained(s.closers, d);
  }

  lemma ClosingCloser(s: State, c: nat, a: CloserAction)
    requires Shape(s) && Closing(s) && CloserEnabled(s, c, a)
    ensures Closing(CloserStep(s, c, a))
  {
    if a.CloseQueue? {
      ClosingClose(s, c);
    } else {
      var s' := CloserStep(s, c, a);
      assert s'.queue == s.queue && s'.aborted == s.aborted;
      assert PastClosing(s.closers, c) && PastClosing(s'.closers, c);
      assert forall d :: PastClosing(s'.closers, d) <==> PastClosing(s.closers, d);
      assert forall d :: HasDrained(s'.closers, d) <==> HasDrained(s.closers, d);
    }
  }

  /** A new shutdown call changes nothing until it reaches its closing section. */
  lemma ClosingArrival(s: State, mode: Mode)
    requires Closing(s)
    ensures Closing(s.(closers := s.closers + [Closer(mode, Called)]))
  {
    var closers := s.closers + [Closer(mode, Called)];
    assert forall c :: PastClosing(closers, c) <==> PastClosing(s.closers, c);
    assert forall c :: HasDrained(closers, c) <==> HasDrained(s.closers, c);
  }

  lemma ClosingAct(s: State, a: Action)
    requires Shape(s) && Closing(s) && Enabled(s, a)
    ensures Closing(Act(s, a))
  {
    match a
    case Worker(w, wa) => ClosingWorker(s, w, wa);
    case Submitter(i, sa) => ClosingSubmit(s, i, sa);
    case Stopper(c, ca) => ClosingCloser(s, c, ca);
    case SpawnFails => ClosingArrival(s, Drain);
    case Shutdown(mode) => ClosingArrival(s, mode);
    case _ =>
  }

  lemma JoinProtocolWorker(s: State, w: nat, a: WorkerAction)
    requires Shape(s) && JoinProtocol(s) && WorkerEnabled(s, w, a)
    ensures JoinProtocol(WorkerStep(s, w, a))
  {
  }

  lemma JoinProtocolSubmit(s: State, i: nat, a: SubmitAction)
    requires Shape(s) && JoinProtocol(s) && SubmitEnabled(s, i, a)
    ensures JoinProtocol(SubmitStep(s, i, a))
  {
  }

  /** Steps of a shutdown call before join_workers. */
  lemma JoinProtocolBefore(s: State, c: nat, a: CloserAction)
    requires Shape(s) && JoinProtocol(s) && CloserEnabled(s, c, a)
    requires !a.LockShutdown? && !a.JoinNext? && !a.JoinDone?
    ensures JoinProtocol(CloserStep(s, c, a))
  {
    var s' := CloserStep(s, c, a);
    assert s'.joiner == s.joiner && s'.joined == s.joined && s'.joins == s.joins && s'.phase == s.phase;
    assert |s'.closers| == |s.closers| && forall d | 0 <= d < |s.closers| && d != c :: s'.closers[d] == s.closers[d];
    assert !s'.closers[c].pc.Joining? && !s'.closers[c].pc.Returned?;
    assert |s'.workers| == |s.workers|;
    assert forall w | 0 <= w < |s.workers| :: s.workers[w].Exited? ==> s'.workers[w].Exited?;
    assert JoinedSoFar(s') == JoinedSoFar(s);
  }

  lemma JoinProtocolLock(s: State, c: nat)
    requires Shape(s) && JoinProtocol(s) && CloserEnabled(s, c, LockShutdown)
    ensures JoinProtocol(CloserStep(s, c, LockShutdown))
  {
  }

  lemma JoinProtocolNext(s: State, c: nat)
    requires Shape(s) && JoinProtocol(s) && CloserEnabled(s, c, JoinNext)
    ensures JoinProtocol(CloserStep(s, c, JoinNext))
  {
    var k := s.closers[c].pc.next;
    assert s.joins == Range(k) && k !in s.joins;
    assert s.joins + [k] == Range(k + 1);
  }

  lemma JoinProtocolDone(s: State, c: nat)
    requires Shape(s) && JoinProtocol(s) && CloserEnabled(s, c, JoinDone)
    ensures JoinProtocol(CloserStep(s, c, JoinDone))
  {
  }

  lemma JoinProtocolCloser(s: State, c: nat, a: CloserAction)
    requires Shape(s) && JoinProtocol(s) && CloserEnabled(s, c, a)
    ensures JoinProtocol(CloserStep(s, c, a))
  {
    match a
    case LockShutdown => JoinProtocolLock(s, c);
    case JoinNext => JoinProtocolNext(s, c);
    case JoinDone => JoinProtocolDone(s, c);
    case _ => JoinProtocolBefore(s, c, a);
  }

  lemma JoinProtocolAct(s: State, a: Action)
    requires Shape(s) && JoinProtocol(s) && Enabled(s, a)
    ensures JoinProtocol(Act(s, a))
  {
    match a
    case Worker(w, wa) => JoinProtocolWorker(s, w, wa);
    case Submitter(i, sa) => JoinProtocolSubmit(s, i, sa);
    case Stopper(c, ca) => JoinProtocolCloser(s, c, ca);
    case _ =>
  }

  lemma StructuralInit(s: State)
    requires Init(s)
    ensures Structural(s)
  {
  }

  lemma StructuralAct(s: State, a: Action)
    requires Structural(s) && Enabled(s, a)
    ensures Structural(Act(s, a))
  {
    ShapeAct(s, a);
    IdsAct(s, a);
    FifoAct(s, a);
    ClosingAct(s, a);
    JoinProtocolAct(s, a);
  }
}
