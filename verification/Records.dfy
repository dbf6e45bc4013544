/** What the records say: instants are ordered, results and samples are genuine, verdicts match the call's outcome. */
module Records {
  import opened Core
  import opened Queues
  import opened Protocol
  import opened Structure

  /** A sample of a task that ran, with ordered instants. */
  predicate GenuineSample(sample: Sample)
  {
    (sample.state.Succeeded? || sample.state.Failed?) && sample.timings.Ordered()
  }

  /** The delivered result is the one the envelope's fate calls for. */
  predicate GenuineSettlement(e: Settlement)
  {
    var t := e.result.timings;
    && t.submitted == e.env.submitted
    && t.Ordered()
    && e.result == (if e.cause.Ran? then RanResult(e.env, t) else RejectedResult(e.env, t.finished))
  }

  ghost predicate StampedBefore(envs: seq<Envelope>, now: int)
  {
    forall k | 0 <= k < |envs| :: envs[k].submitted <= now
  }

  predicate WorkerHonest(pc: WorkerPc, now: int)
  {
    match pc
    case Popped(env) => env.submitted <= now
    case Dequeued(env) => env.submitted <= now
    case Executing(env, dequeued) => env.submitted <= dequeued <= now
    case Settling(env, timings) => timings.submitted == env.submitted && timings.Ordered()
    case Recording(sample) => GenuineSample(sample)
    case _ => true
  }

  ghost predicate CloserHonest(pc: CloserPc, now: int)
  {
    StampedBefore(Batch(pc), if pc.Rejecting? then pc.finished else now)
  }

  ghost predicate WorkersHonest(workers: seq<WorkerPc>, now: int)
  {
    forall w | 0 <= w < |workers| :: WorkerHonest(workers[w], now)
  }

  ghost predicate SubmitsHonest(submits: seq<SubmitPc>, now: int)
  {
    forall i | 0 <= i < |submits| :: Holding(submits[i]) ==> submits[i].env.submitted <= now
  }

  ghost predicate ClosersHonest(closers: seq<Closer>, now: int)
  {
    forall c | 0 <= c < |closers| :: CloserHonest(closers[c].pc, now)
  }

  ghost predicate GenuineBuffer(buffer: seq<Sample>)
  {
    forall k | 0 <= k < |buffer| :: GenuineSample(buffer[k])
  }

  ghost predicate GenuineBuffers(samples: seq<seq<Sample>>)
  {
    forall w | 0 <= w < |samples| :: GenuineBuffer(samples[w])
  }

  ghost predicate GenuineLog(log: seq<Settlement>)
  {
    forall k | 0 <= k < |log| :: GenuineSettlement(log[k])
  }

  ghost predicate Honest(s: State)
  {
    && StampedBefore(s.queue.items, s.now)
    && WorkersHonest(s.workers, s.now)
    && SubmitsHonest(s.submits, s.now)
    && ClosersHonest(s.closers, s.now)
    && GenuineBuffers(s.samples)
    && GenuineLog(s.log)
  }

  predicate WasAccepted(pc: SubmitPc) { pc.Pushed? || pc == Done(true) }
  predicate WasRejected(pc: SubmitPc) { pc.Uncounted? || pc == Done(false) }

  ghost predicate IsIssued(issued: seq<Envelope>, submits: seq<SubmitPc>, env: Envelope)
  {
    1 <= env.id <= |issued| == |submits| && issued[env.id - 1] == env
  }

  /** An accepted envelope was issued, and its call reports true. */
  ghost predicate AcceptedReported(accepted: seq<Envelope>, issued: seq<Envelope>, submits: seq<SubmitPc>)
  {
    forall k | 0 <= k < |accepted| ::
      IsIssued(issued, submits, accepted[k]) && WasAccepted(submits[accepted[k].id - 1])
  }

  /** A refused envelope was issued, and its call reports false. */
  ghost predicate RefusedReported(log: seq<Settlement>, issued: seq<Envelope>, submits: seq<SubmitPc>)
  {
    forall k | 0 <= k < |log| && log[k].cause.PushRefused? ::
      IsIssued(issued, submits, log[k].env) && WasRejected(submits[log[k].env.id - 1])
  }

  /** A refusal is only ever decided by a push that saw the queue closed. */
  ghost predicate RefusalsSawClosed(submits: seq<SubmitPc>, closed: bool)
  {
    forall i | 0 <= i < |submits| :: submits[i].Refusing? || WasRejected(submits[i]) ==> closed
  }

  ghost predicate Verdicts(s: State)
  {
    && AcceptedReported(s.accepted, s.issued, s.submits)
    && RefusedReported(s.log, s.issued, s.submits)
    && RefusalsSawClosed(s.submits, s.queue.closed)
  }

  lemma HonestLater(s: State, t: int)
    requires Honest(s) && s.now <= t
    ensures Honest(At(s, t))
  {
  }

  lemma HonestPop(s: State, w: nat)
    requires Honest(s) && WorkerEnabled(s, w, CheckPop)
    ensures Honest(WorkerStep(s, w, CheckPop))
  {
    var s' := WorkerStep(s, w, CheckPop);
    assert WorkerHonest(s'.workers[w], s.now);
  }

  lemma HonestSettle(s: State, w: nat)
    requires Honest(s) && WorkerEnabled(s, w, Settle)
    ensures Honest(WorkerStep(s, w, Settle))
  {
    var s' := WorkerStep(s, w, Settle);
    assert WorkerHonest(s.workers[w], s.now);
    assert WorkerHonest(s'.workers[w], s.now);
  }

  lemma HonestRecord(s: State, w: nat)
    requires Honest(s) && WorkerEnabled(s, w, Record)
    ensures Honest(WorkerStep(s, w, Record))
  {
    assert WorkerHonest(s.workers[w], s.now) && GenuineBuffer(s.samples[w]);
  }

  lemma HonestWorker(s: State, w: nat, a: WorkerAction)
    requires Honest(s) && WorkerEnabled(s, w, a)
    ensures Honest(WorkerStep(s, w, a))
  {
    match a
    case CheckPop => HonestPop(s, w);
    case Settle => HonestSettle(s, w);
    case Record => HonestRecord(s, w);
    case _ =>
      var s' := WorkerStep(s, w, a);
      assert s'.queue == s.queue && s'.closers == s.closers && s'.samples == s.samples && s'.log == s.log;
      assert WorkerHonest(s.workers[w], s.now) && WorkerHonest(s'.workers[w], s.now);
  }

  lemma HonestPush(s: State, i: nat)
    requires Honest(s) && SubmitEnabled(s, i, CheckPush)
    ensures Honest(SubmitStep(s, i, CheckPush))
  {
  }

  lemma HonestRefuse(s: State, i: nat)
    requires Honest(s) && SubmitEnabled(s, i, Refuse)
    ensures Honest(SubmitStep(s, i, Refuse))
  {
  }

  lemma HonestSubmit(s: State, i: nat, a: SubmitAction)
    requires Honest(s) && SubmitEnabled(s, i, a)
    ensures Honest(SubmitStep(s, i, a))
  {
    match a
    case CheckPush => HonestPush(s, i);
    case Refuse => HonestRefuse(s, i);
    case _ =>
      var s' := SubmitStep(s, i, a);
      assert s'.queue == s.queue && s'.closers == s.closers && s'.samples == s.samples && s'.log == s.log;
  }

  lemma HonestClosing(s: State, c: nat)
    requires Honest(s) && CloserEnabled(s, c, CloseQueue)
    ensures Honest(CloserStep(s, c, CloseQueue))
  {
  }

  lemma HonestRejecting(s: State, c: nat)
    requires Honest(s) && CloserEnabled(s, c, RejectNext)
    ensures Honest(CloserStep(s, c, RejectNext))
  {
    var pc := s.closers[c].pc;
    assert CloserHonest(pc, s.now) && Batch(pc)[0] == pc.pending[0];
    assert forall k | 0 <= k < |pc.pending[1..]| :: pc.pending[1..][k] == pc.pending[k + 1];
  }

  lemma HonestCloser(s: State, c: nat, a: CloserAction)
    requires Honest(s) && CloserEnabled(s, c, a)
    ensures Honest(CloserStep(s, c, a))
  {
    if a.CloseQueue? {
      HonestClosing(s, c);
    } else if a.RejectNext? {
      HonestRejecting(s, c);
    } else {
      var s' := CloserStep(s, c, a);
      assert s'.log == s.log && s'.samples == s.samples && s'.queue == s.queue;
    }
  }

  lemma HonestAct(s: State, a: Action)
    requires Honest(s) && Enabled(s, a)
    ensures Honest(Act(s, a))
  {
    match a
    case Worker(w, wa) => HonestWorker(s, w, wa);
    case Submitter(i, sa) => HonestSubmit(s, i, sa);
    case Stopper(c, ca) => HonestCloser(s, c, ca);
    case _ =>
  }

  ghost predicate SameVerdict(before: SubmitPc, after: SubmitPc)
  {
    && (WasAccepted(before) ==> WasAccepted(after))
    && (WasRejected(before) ==> WasRejected(after))
    && (after.Refusing? || WasRejected(after) ==> before.Refusing? || WasRejected(before))
  }

  /** Steps that decide no push keep the verdicts. */
  lemma VerdictsFrame(s: State, s': State)
    requires Verdicts(s)
    requires s'.issued == s.issued && s'.accepted == s.accepted
    requires |s'.submits| == |s.submits| && forall i | 0 <= i < |s.submits| :: SameVerdict(s.submits[i], s'.submits[i])
    requires s.queue.closed ==> s'.queue.closed
    requires s'.log == s.log || exists e: Settlement :: s'.log == s.log + [e] && !e.cause.PushRefused?
    ensures Verdicts(s')
  {
  }

  lemma VerdictsWorker(s: State, w: nat, a: WorkerAction)
    requires Verdicts(s) && WorkerEnabled(s, w, a)
    ensures Verdicts(WorkerStep(s, w, a))
  {
    VerdictsFrame(s, WorkerStep(s, w, a));
  }

  lemma VerdictsAccept(s: State, i: nat)
    requires Ids(s) && Verdicts(s) && SubmitEnabled(s, i, CheckPush)
    requires PushSection(s.queue, s.submits[i].env).1.Accepted?
    ensures Verdicts(SubmitStep(s, i, CheckPush))
  {
    var env := s.submits[i].env;
    var submits := s.submits[i := Pushed];
    assert env == s.issued[i] && IsIssued(s.issued, submits, env);
    forall k | 0 <= k < |s.accepted + [env]|
      ensures IsIssued(s.issued, submits, (s.accepted + [env])[k])
      ensures WasAccepted(submits[(s.accepted + [env])[k].id - 1])
    {
    }
    assert AcceptedReported(s.accepted + [env], s.issued, submits);
    assert RefusedReported(s.log, s.issued, submits);
  }

  lemma VerdictsPush(s: State, i: nat)
    requires Ids(s) && Verdicts(s) && SubmitEnabled(s, i, CheckPush)
    ensures Verdicts(SubmitStep(s, i, CheckPush))
  {
    if PushSection(s.queue, s.submits[i].env).1.Accepted? {
      VerdictsAccept(s, i);
    }
  }

  lemma VerdictsRefuse(s: State, i: nat)
    requires Ids(s) && Verdicts(s) && SubmitEnabled(s, i, Refuse)
    ensures Verdicts(SubmitStep(s, i, Refuse))
  {
  }

  lemma VerdictsSubmit(s: State, i: nat, a: SubmitAction)
    requires Ids(s) && Verdicts(s) && SubmitEnabled(s, i, a)
    ensures Verdicts(SubmitStep(s, i, a))
  {
    match a
    case CheckPush => VerdictsPush(s, i);
    case Refuse => VerdictsRefuse(s, i);
    case _ => VerdictsFrame(s, SubmitStep(s, i, a));
  }

  lemma VerdictsCloser(s: State, c: nat, a: CloserAction)
    requires Verdicts(s) && CloserEnabled(s, c, a)
    ensures Verdicts(CloserStep(s, c, a))
  {
    VerdictsFrame(s, CloserStep(s, c, a));
  }

  lemma VerdictsAct(s: State, a: Action)
    requires Ids(s) && Verdicts(s) && Enabled(s, a)
    ensures Verdicts(Act(s, a))
  {
    match a
    case Worker(w, wa) => VerdictsWorker(s, w, wa);
    case Submitter(i, sa) => VerdictsSubmit(s, i, sa);
    case Stopper(c, ca) => VerdictsCloser(s, c, ca);
    case _ =>
  }

  lemma RecordsInit(s: State)
    requires Init(s)
    ensures Honest(s) && Verdicts(s)
  {
  }
}
