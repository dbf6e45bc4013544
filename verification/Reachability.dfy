/** Induction over runs: the invariants hold in every reachable state, and some facts, once true, stay true. */
module Reachability {
  import opened Core
  import opened Protocol
  import opened Structure
  import opened Wakeups
  import opened Records
  import opened Ledger
  import opened Runs

  ghost predicate Invariant(s: State)
  {
    Structural(s) && NoLostWakeup(s) && Honest(s) && Verdicts(s) && RejectedLaw(s)
  }

  lemma InvariantAt(s: State, t: int)
    requires Invariant(s) && s.now <= t
    ensures Invariant(At(s, t))
  {
    HonestLater(s, t);
  }

  lemma InvariantAct(s: State, a: Action)
    requires Invariant(s) && Enabled(s, a)
    ensures Invariant(Act(s, a))
  {
    StructuralAct(s, a);
    assert forall c | 0 <= c < |s.closers| :: !s.closers[c].pc.Called? ==> PastClosing(s.closers, c);
    NoLostWakeupAct(s, a);
    HonestAct(s, a);
    VerdictsAct(s, a);
    RejectedLawAct(s, a);
  }

  lemma InvariantInit(s: State)
    requires Init(s)
    ensures Invariant(s)
  {
    StructuralInit(s);
    NoLostWakeupInit(s);
    RecordsInit(s);
  }

  lemma InvariantNext(s: State, s': State)
    requires Invariant(s) && Next(s, s')
    ensures Invariant(s')
  {
    var a, t :| Step(s, a, t, s');
    InvariantAt(s, t);
    InvariantAct(At(s, t), a);
  }

  lemma LawsNext(s: State, s': State, f: Envelope -> nat, g: Sample -> nat)
    requires Invariant(s) && Next(s, s') && EnvelopeLaws(s, f) && SampleLaw(s, g)
    ensures EnvelopeLaws(s', f) && SampleLaw(s', g)
  {
    var a, t :| Step(s, a, t, s');
    EnvelopeLawsAct(At(s, t), a, f);
    SampleLawAct(At(s, t), a, g);
  }

  /** The invariant together with the conservation laws for one pair of weights. */
  ghost predicate Sound(s: State, f: Envelope -> nat, g: Sample -> nat)
  {
    Invariant(s) && EnvelopeLaws(s, f) && SampleLaw(s, g)
  }

  lemma SoundNext(s: State, s': State, f: Envelope -> nat, g: Sample -> nat)
    requires Sound(s, f, g) && Next(s, s')
    ensures Sound(s', f, g)
  {
    LawsNext(s, s', f, g);
    InvariantNext(s, s');
  }

  lemma SoundAlong(s: State, s': State, n: nat, f: Envelope -> nat, g: Sample -> nat)
    requires Sound(s, f, g) && Leads(Next, s, s', n)
    ensures Sound(s', f, g)
  {
    forall x, y | Sound(x, f, g) && Next(x, y)
      ensures Sound(y, f, g)
    {
      SoundNext(x, y, f, g);
    }
    Runs.InvariantAlong(Next, x => Sound(x, f, g), s, s', n);
  }

  /** Every reachable state satisfies the invariant, and the conservation laws for every weight. */
  lemma ReachableSound(s: State, f: Envelope -> nat, g: Sample -> nat)
    requires Reachable(s)
    ensures Invariant(s) && EnvelopeLaws(s, f) && SampleLaw(s, g)
  {
    var s0, n: nat :| Init(s0) && Leads(Next, s0, s, n);
    InvariantInit(s0);
    LedgerInit(s0, f, g);
    SoundAlong(s0, s, n, f, g);
  }

  /** The conservation laws alone. */
  lemma ReachableLaws(s: State, f: Envelope -> nat, g: Sample -> nat)
    requires Reachable(s)
    ensures EnvelopeLaws(s, f) && SampleLaw(s, g) && Fifo(s) && Ids(s) && GenuineLog(s.log)
  {
    ReachableSound(s, f, g);
  }

  lemma ReachableInvariant(s: State)
    requires Reachable(s)
    ensures Structural(s) && Verdicts(s)
  {
    ReachableSound(s, env => 0, sample => 0);
  }

  lemma ReachableNext(s: State, s': State)
    requires Reachable(s) && Next(s, s')
    ensures Reachable(s')
  {
    var s0, n: nat :| Init(s0) && Leads(Next, s0, s, n);
    assert Leads(Next, s0, s', n + 1);
  }

  lemma ReachableStep(s: State, a: Action, t: int)
    requires Reachable(s) && s.now <= t && Enabled(At(s, t), a)
    ensures Reachable(Act(At(s, t), a))
  {
    assert Step(s, a, t, Act(At(s, t), a));
    ReachableNext(s, Act(At(s, t), a));
  }

  lemma ReachableAlong(s: State, s': State, n: nat)
    requires Reachable(s) && Leads(Next, s, s', n)
    ensures Reachable(s')
  {
    forall x, y | Reachable(x) && Next(x, y)
      ensures Reachable(y)
    {
      ReachableNext(x, y);
    }
    Runs.InvariantAlong(Next, Reachable, s, s', n);
  }

  // ----- what never changes back -----

  /** Histories only grow, construction, closing and joining are final, and a finished queue stays finished. */
  ghost predicate Since(s: State, s': State)
  {
    && s.issued <= s'.issued && s.accepted <= s'.accepted && s.popped <= s'.popped
    && s.drained <= s'.drained && s.executed <= s'.executed && s.log <= s'.log && s.rejected <= s'.rejected
    && (s.queue.closed ==> s'.queue.closed && s'.accepted == s.accepted)
    && (Finished(s) ==> Finished(s') && s'.popped == s.popped && s'.drained == s.drained)
    && (s.aborted ==> s'.aborted) && |s.closers| <= |s'.closers| && (s.phase.Ready? ==> s'.phase.Ready?)
    && (s.joined ==> s'.joined && s'.samples == s.samples && s'.executed == s.executed)
  }

  ghost predicate Finished(s: State) { s.queue.closed && s.queue.items == [] }

  lemma SinceWorker(s: State, w: nat, a: WorkerAction)
    requires WorkerEnabled(s, w, a) && (s.joined ==> ExitedBelow(s.workers, |s.workers|))
    ensures Since(s, WorkerStep(s, w, a))
  {
  }

  lemma SinceSubmit(s: State, i: nat, a: SubmitAction)
    requires SubmitEnabled(s, i, a)
    ensures Since(s, SubmitStep(s, i, a))
  {
  }

  lemma SinceClosing(s: State, c: nat)
    requires CloserEnabled(s, c, CloseQueue)
    ensures Since(s, CloserStep(s, c, CloseQueue))
  {
  }

  lemma SinceRejecting(s: State, c: nat)
    requires CloserEnabled(s, c, RejectNext)
    ensures Since(s, CloserStep(s, c, RejectNext))
  {
  }

  /** The other steps of a shutdown call leave the queue and the histories alone. */
  lemma SinceElsewhere(s: State, c: nat, a: CloserAction)
    requires CloserEnabled(s, c, a) && !a.CloseQueue? && !a.RejectNext?
    ensures Since(s, CloserStep(s, c, a))
  {
    var s' := CloserStep(s, c, a);
    assert s'.queue == s.queue && s'.samples == s.samples && s'.aborted == s.aborted && s'.phase == s.phase;
    assert s'.issued == s.issued && s'.accepted == s.accepted && s'.popped == s.popped;
    assert s'.drained == s.drained && s'.executed == s.executed && s'.log == s.log;
  }

  lemma SinceCloser(s: State, c: nat, a: CloserAction)
    requires CloserEnabled(s, c, a)
    ensures Since(s, CloserStep(s, c, a))
  {
    match a
    case CloseQueue => SinceClosing(s, c);
    case RejectNext => SinceRejecting(s, c);
    case _ => SinceElsewhere(s, c, a);
  }

  lemma SinceAct(s: State, a: Action)
    requires Enabled(s, a) && (s.joined ==> ExitedBelow(s.workers, |s.workers|))
    ensures Since(s, Act(s, a))
  {
    match a
    case Worker(w, wa) => SinceWorker(s, w, wa);
    case Submitter(i, sa) => SinceSubmit(s, i, sa);
    case Stopper(c, ca) => SinceCloser(s, c, ca);
    case _ =>
  }

  lemma SinceNext(s: State, s': State)
    requires Invariant(s) && Next(s, s')
    ensures Since(s, s')
  {
    var a, t :| Step(s, a, t, s');
    SinceAct(At(s, t), a);
  }

  lemma SinceTransitive(s: State, m: State, s': State)
    requires Since(s, m) && Since(m, s')
    ensures Since(s, s')
  {
  }

  lemma SinceAlong(s: State, s': State, n: nat)
    requires Invariant(s) && Leads(Next, s, s', n)
    ensures Since(s, s') && Invariant(s')
  {
    forall x, y | Invariant(x) && Since(s, x) && Next(x, y)
      ensures Invariant(y) && Since(s, y)
    {
      InvariantNext(x, y);
      SinceNext(x, y);
      SinceTransitive(s, x, y);
    }
    Runs.InvariantAlong(Next, x => Invariant(x) && Since(s, x), s, s', n);
  }

  // ----- what never changes at all -----

  /** The number of workers asked for and the capacity; a constructor that threw starts no more workers. */
  ghost predicate SameEngine(s: State, s': State)
  {
    && s'.workerCount == s.workerCount && s'.queue.capacity == s.queue.capacity
    && (s.phase.ConstructorThrew? ==> s'.phase.ConstructorThrew? && |s'.workers| == |s.workers|)
  }

  lemma SameEngineWorker(s: State, w: nat, a: WorkerAction)
    requires WorkerEnabled(s, w, a)
    ensures SameEngine(s, WorkerStep(s, w, a))
  {
  }

  lemma SameEngineSubmit(s: State, i: nat, a: SubmitAction)
    requires SubmitEnabled(s, i, a)
    ensures SameEngine(s, SubmitStep(s, i, a))
  {
  }

  lemma SameEngineCloser(s: State, c: nat, a: CloserAction)
    requires CloserEnabled(s, c, a)
    ensures SameEngine(s, CloserStep(s, c, a))
  {
  }

  lemma SameEngineAct(s: State, a: Action)
    requires Enabled(s, a)
    ensures SameEngine(s, Act(s, a))
  {
    match a
    case Worker(w, wa) => SameEngineWorker(s, w, wa);
    case Submitter(i, sa) => SameEngineSubmit(s, i, sa);
    case Stopper(c, ca) => SameEngineCloser(s, c, ca);
    case _ =>
  }

  lemma SameEngineNext(s: State, s': State)
    requires Next(s, s')
    ensures SameEngine(s, s')
  {
    var a, t :| Step(s, a, t, s');
    SameEngineAct(At(s, t), a);
  }

  lemma SameEngineAlong(s: State, s': State, n: nat)
    requires Leads(Next, s, s', n)
    ensures SameEngine(s, s')
  {
    forall x, y | SameEngine(s, x) && Next(x, y)
      ensures SameEngine(s, y)
    {
      SameEngineNext(x, y);
    }
    Runs.InvariantAlong(Next, x => SameEngine(s, x), s, s', n);
  }
}
