/** Refused submissions: which pushes are refused, over whole runs, and what becomes of their envelopes. */
module Refusals {
  import opened Runs
  import opened Protocol
  import opened Structure
  import opened Records
  import opened Ledger
  import opened Reachability
  import opened Engine
  import opened Sums

  /** The push of call i was refused, whether or not the envelope has been rejected yet. */
  ghost predicate Declined(s: State, i: nat)
  {
    i < |s.submits| && (s.submits[i].Refusing? || WasRejected(s.submits[i]))
  }

  // ----- one step -----

  /** The step evaluates the push of call i on a closed queue. */
  ghost predicate PushMeetsClosed(s: State, s': State, i: nat)
  {
    s.queue.closed && exists t :: Step(s, Submitter(i, CheckPush), t, s')
  }

  lemma DeclinedByWorker(s: State, w: nat, a: WorkerAction, i: nat)
    requires WorkerEnabled(s, w, a)
    ensures Declined(WorkerStep(s, w, a), i) <==> Declined(s, i)
  {
  }

  lemma DeclinedBySubmit(s: State, j: nat, a: SubmitAction, i: nat)
    requires SubmitEnabled(s, j, a)
    ensures Declined(SubmitStep(s, j, a), i) <==> Declined(s, i) || (i == j && a.CheckPush? && s.queue.closed)
  {
  }

  lemma DeclinedByCloser(s: State, c: nat, a: CloserAction, i: nat)
    requires CloserEnabled(s, c, a)
    ensures Declined(CloserStep(s, c, a), i) <==> Declined(s, i)
  {
  }

  lemma DeclinedByAct(s: State, a: Action, i: nat)
    requires Enabled(s, a)
    ensures Declined(Act(s, a), i) <==> Declined(s, i) || (a == Submitter(i, CheckPush) && s.queue.closed)
  {
    match a
    case Worker(w, wa) => DeclinedByWorker(s, w, wa, i);
    case Submitter(j, sa) => DeclinedBySubmit(s, j, sa, i);
    case Stopper(c, ca) => DeclinedByCloser(s, c, ca, i);
    case _ =>
  }

  lemma DeclinedAt(s: State, t: int, i: nat)
    ensures Declined(At(s, t), i) <==> Declined(s, i)
  {
  }

  /** A call becomes declined exactly in a step where its own push meets a closed queue, and stays declined. */
  lemma DeclinedNext(s: State, s': State, i: nat)
    requires Next(s, s')
    ensures Declined(s', i) <==> Declined(s, i) || PushMeetsClosed(s, s', i)
  {
    forall a, t | Step(s, a, t, s')
      ensures Declined(s', i) <==> Declined(s, i) || (a == Submitter(i, CheckPush) && s.queue.closed)
    {
      DeclinedAt(s, t, i);
      DeclinedByAct(At(s, t), a, i);
    }
    var a, t :| Step(s, a, t, s');
  }

  // ----- whole runs -----

  lemma DeclinedForGood(s: State, i: nat, s': State, n: nat)
    requires Declined(s, i) && Leads(Next, s, s', n)
    ensures Declined(s', i)
  {
    forall x, y | Declined(x, i) && Next(x, y)
      ensures Declined(y, i)
    {
      DeclinedNext(x, y, i);
    }
    Runs.InvariantAlong(Next, x => Declined(x, i), s, s', n);
  }

  /** A declined envelope was never queued. */
  lemma DeclinedNotAccepted(s: State, i: nat)
    requires Ids(s) && Verdicts(s) && Declined(s, i)
    ensures Sum(s.accepted, WithId(i + 1)) == 0
  {
    forall k | 0 <= k < |s.accepted|
      ensures WithId(i + 1)(s.accepted[k]) == 0
    {
      assert IsIssued(s.issued, s.submits, s.accepted[k]);
    }
    SumZero(s.accepted, WithId(i + 1));
  }

  /** The envelope of a declined call is with that call, unchanged, or has been rejected once; it is nowhere else. */
  ghost predicate KeptOrRejected(s: State, i: nat)
  {
    && i < |s.submits| == |s.issued|
    && (s.submits[i].Refusing? ==> s.submits[i].env == s.issued[i])
    && Sum(s.submits, SubmitHolds(WithId(i + 1))) + Sum(s.log, SettledBy(PushRefused, WithId(i + 1))) == 1
    && Sum(s.accepted, WithId(i + 1)) == 0
    && Sum(s.popped, WithId(i + 1)) == Sum(s.drained, WithId(i + 1)) == 0
    && Sum(s.executed, WithId(i + 1)) == 0
  }

  lemma DeclinedKept(s: State, i: nat)
    requires Invariant(s) && EnvelopeLaws(s, WithId(i + 1)) && Declined(s, i)
    ensures KeptOrRejected(s, i)
  {
    DeclinedNotAccepted(s, i);
    Conservation(s, WithId(i + 1));
    IssuedOnce(s, i + 1, |s.issued|);
  }

  /** A refused push leaves no trace: now and for ever after, its envelope is not queued, popped, drained or executed,
      and stays with its call, unchanged, until that call has rejected it, once. */
  lemma RefusedPushKeepsEnvelope(s: State, i: nat, s': State, n: nat)
    requires Reachable(s) && Declined(s, i) && Leads(Next, s, s', n)
    ensures KeptOrRejected(s', i)
  {
    ReachableAlong(s, s', n);
    DeclinedForGood(s, i, s', n);
    ReachableSound(s', WithId(i + 1), EverySample);
    DeclinedKept(s', i);
  }

  /** A run from the initial state, as the sequence of its states. */
  ghost predicate IsRun(run: seq<State>)
  {
    IsTrace(Next, run) && Init(run[0])
  }

  /** At step k of the run, the push of call i meets a closed queue. */
  ghost predicate SawClosedAt(run: seq<State>, i: nat, k: nat)
  {
    k + 1 < |run| && PushMeetsClosed(run[k], run[k + 1], i)
  }

  ghost predicate PushSawClosed(run: seq<State>, i: nat)
  {
    exists k: nat :: SawClosedAt(run, i, k)
  }

  lemma {:induction false} RunReaches(run: seq<State>, k: nat)
    requires IsRun(run) && k < |run|
    ensures Reachable(run[k])
  {
    if k == 0 {
      assert Leads(Next, run[0], run[0], 0);
    } else {
      RunReaches(run, k - 1);
      assert Next(run[k - 1], run[k - 1 + 1]);
      ReachableNext(run[k - 1], run[k]);
    }
  }

  /** Along a run, the declined calls are exactly those whose push has met a closed queue. */
  lemma {:induction false} DeclinedIffSawClosed(run: seq<State>, i: nat, k: nat)
    requires IsRun(run) && k < |run|
    ensures Declined(run[k], i) <==> exists j: nat :: j < k && SawClosedAt(run, i, j)
  {
    if k == 0 {
      assert run[0].submits == [];
    } else {
      DeclinedIffSawClosed(run, i, k - 1);
      assert Next(run[k - 1], run[k - 1 + 1]);
      DeclinedNext(run[k - 1], run[k], i);
      assert SawClosedAt(run, i, k - 1) <==> PushMeetsClosed(run[k - 1], run[k], i);
    }
  }

  // ----- the call that closes -----

  /** A shutdown() call runs its closing section and is left owing the notifications. */
  ghost predicate ClosesAndNotifies(s: State, s': State, c: nat)
  {
    && c < |s.closers| && c < |s'.closers| && s.closers[c] == Closer(Drain, Called)
    && s'.closers[c].pc.NotifyEmpty?
  }

  lemma CloseByCloser(s: State, b: nat, a: CloserAction, c: nat)
    requires CloserEnabled(s, b, a)
    ensures ClosesAndNotifies(s, CloserStep(s, b, a), c) ==>
              c == b && !s.queue.closed && CloserStep(s, b, a).queue.closed
  {
  }

  lemma CloseByAct(s: State, a: Action, c: nat)
    requires Enabled(s, a)
    ensures ClosesAndNotifies(s, Act(s, a), c) ==>
              a.Stopper? && a.c == c && !s.queue.closed && Act(s, a).queue.closed
  {
    match a
    case Worker(w, wa) => assert WorkerStep(s, w, wa).closers == s.closers;
    case Submitter(i, sa) => assert SubmitStep(s, i, sa).closers == s.closers;
    case Stopper(b, ca) => CloseByCloser(s, b, ca, c);
    case _ =>
  }

  /** Such a step closes an open queue, and no two calls take it together. */
  lemma CloseByNext(s: State, s': State, c: nat, c': nat)
    requires Next(s, s') && ClosesAndNotifies(s, s', c) && ClosesAndNotifies(s, s', c')
    ensures !s.queue.closed && s'.queue.closed && c == c'
  {
    var a, t :| Step(s, a, t, s');
    assert ClosesAndNotifies(At(s, t), s', c) && ClosesAndNotifies(At(s, t), s', c');
    CloseByAct(At(s, t), a, c);
    CloseByAct(At(s, t), a, c');
  }

  lemma ClosedAlong(run: seq<State>, j: nat, k: nat)
    requires IsRun(run) && j <= k < |run| && run[j].queue.closed
    ensures run[k].queue.closed
  {
    forall i: nat | j <= i < k && run[i].queue.closed
      ensures run[i + 1].queue.closed
    {
      RunReaches(run, i);
      ReachableSound(run[i], EveryEnvelope, EverySample);
      SinceNext(run[i], run[i + 1]);
    }
    IndexInduction((i: nat) => i < |run| && run[i].queue.closed, j, k);
  }

  ghost predicate ClosesAt(run: seq<State>, c: nat, k: nat)
  {
    k + 1 < |run| && ClosesAndNotifies(run[k], run[k + 1], c)
  }

  /** In every run, of all shutdown() calls at most one, in one step, closes the queue and notifies; the others find it
      closed and go straight to joining. */
  lemma OneCloseNotifies(run: seq<State>, c: nat, k: nat, c': nat, k': nat)
    requires IsRun(run) && ClosesAt(run, c, k) && ClosesAt(run, c', k') && k <= k'
    ensures k == k' && c == c'
  {
    assert Next(run[k], run[k + 1]) && Next(run[k'], run[k' + 1]);
    CloseByNext(run[k], run[k + 1], c, c);
    CloseByNext(run[k'], run[k' + 1], c', c');
    if k < k' {
      ClosedAlong(run, k + 1, k');
    } else {
      CloseByNext(run[k], run[k + 1], c, c');
    }
  }

  ghost predicate IsRunTo(run: seq<State>, s: State) { IsRun(run) && s == run[|run| - 1] }

  /** The reachable states are exactly those in which some run ends. */
  lemma ReachableIffRun(s: State)
    ensures Reachable(s) <==> exists run :: IsRunTo(run, s)
  {
    if Reachable(s) {
      var s0, n: nat :| Init(s0) && Leads(Next, s0, s, n);
      var run := TraceOf(Next, s0, s, n);
      assert IsRunTo(run, s);
    }
    if run :| IsRunTo(run, s) {
      RunReaches(run, |run| - 1);
    }
  }

  lemma RunDeclines(run: seq<State>, s: State, i: nat)
    requires IsRunTo(run, s)
    ensures Reachable(s) && (Declined(s, i) <==> PushSawClosed(run, i))
  {
    RunReaches(run, |run| - 1);
    DeclinedIffSawClosed(run, i, |run| - 1);
    assert forall k: nat :: SawClosedAt(run, i, k) ==> k < |run| - 1;
  }

  /** At rest, an id was rejected by its call exactly if that call was declined. */
  lemma DeclinedAtRest(s: State, id: nat)
    requires Reachable(s) && Quiescent(s) && OnlyDrains(s) && 1 <= id < s.nextId
    ensures Rejections(s, id) == if Declined(s, id - 1) then 1 else 0
    ensures Sum(s.log, SettledBy(Ran, WithId(id))) == if Declined(s, id - 1) then 0 else 1
  {
    RejectionsById(s, id);
    ResolvedOnce(s, id);
    SettledByCause(s.log, |s.log|, WithId(id));
  }

  /** Without shutdown_now, in every run that has come to rest: an id is rejected exactly when, at some step of the run,
      the push of its own submit call met a closed queue; otherwise a worker ran it. */
  lemma RejectedIffPushSawClosed(run: seq<State>, s: State, id: nat)
    requires IsRunTo(run, s) && Quiescent(s) && OnlyDrains(s) && 1 <= id < s.nextId
    ensures Rejections(s, id) == if PushSawClosed(run, id - 1) then 1 else 0
    ensures Sum(s.log, SettledBy(Ran, WithId(id))) == if PushSawClosed(run, id - 1) then 0 else 1
  {
    RunDeclines(run, s, id - 1);
    DeclinedAtRest(s, id);
  }

  /** Closing decides: in every run, an id ends refused exactly if it had not been accepted when the queue was closed.
      The accepted ones end run by a worker, or discarded by a shutdown_now if there was one. */
  lemma ClosingDecides(s: State, s': State, n: nat, id: nat)
    requires Reachable(s) && s.queue.closed && Leads(Next, s, s', n) && Quiescent(s') && 1 <= id < s'.nextId
    ensures Sum(s'.log, SettledBy(PushRefused, WithId(id))) == 1 - Sum(s.accepted, WithId(id))
    ensures Sum(s'.log, SettledBy(Ran, WithId(id))) + Sum(s'.log, SettledBy(Discarded, WithId(id)))
            == Sum(s.accepted, WithId(id))
    ensures OnlyDrains(s') ==> Sum(s'.log, SettledBy(Discarded, WithId(id))) == 0
  {
    ReachableSound(s, EveryEnvelope, EverySample);
    SinceAlong(s, s', n);
    ReachableAlong(s, s', n);
    AtRestById(s', id);
  }

  lemma AtRestById(s: State, id: nat)
    requires Reachable(s) && Quiescent(s) && 1 <= id < s.nextId
    ensures Sum(s.log, SettledBy(PushRefused, WithId(id))) == 1 - Sum(s.accepted, WithId(id))
    ensures Sum(s.log, SettledBy(Ran, WithId(id))) + Sum(s.log, SettledBy(Discarded, WithId(id)))
            == Sum(s.accepted, WithId(id))
    ensures OnlyDrains(s) ==> Sum(s.log, SettledBy(Discarded, WithId(id))) == 0
  {
    ReachableSound(s, WithId(id), EverySample);
    NothingHeld(s, WithId(id), EverySample);
    IssuedOnce(s, id, |s.issued|);
    AcceptedFate(s, id);
    if OnlyDrains(s) {
      NothingDrained(s);
    }
  }
}
