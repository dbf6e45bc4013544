/** A summary taken too early: how far it can fall short of the submissions. */
module Lag {
  import opened Core
  import opened Queues
  import opened Runs
  import opened Protocol
  import opened Progress
  import opened Reachability
  import opened Engine
  import opened Accounting
  import opened Pool
  import opened Termination

  lemma TakeStep(s: State, a: Action)
    requires Reachable(s) && Enabled(s, a)
    ensures Reachable(Act(s, a))
  {
    assert At(s, s.now) == s;
    ReachableStep(s, a, s.now);
  }

  /** Some engine finishes its construction. */
  lemma ReadyEngine() returns (s: State)
    ensures Reachable(s) && s.phase.Ready?
  {
    var s0 := State(1, Constructing, Queue(1, [], false), [], [], [], 1, 0, seq(1, _ => []), false, None, [], 0,
                    [], [], [], [], [], [], false);
    assert Leads(Next, s0, s0, 0);
    TakeStep(s0, Spawn);
    TakeStep(Act(s0, Spawn), Constructed);
    s := Act(Act(s0, Spawn), Constructed);
  }

  lemma QuietRunIsRun(s: State, s': State, n: nat)
    requires Leads(QuietStep, s, s', n)
    ensures Leads(Next, s, s', n)
  {
    forall x, y | QuietStep(x, y)
      ensures Next(x, y)
    {
      var a, t :| Step(x, a, t, y) && !IsArrival(a) && !IsSpurious(a);
    }
    LeadsWeaker(QuietStep, Next, s, s', n);
  }

  /** The tasks a summary taken now would cover. */
  function Covered(s: State): nat { |Flatten(s.samples)| + s.rejected }

  lemma CoveredIsTotal(s: State)
    ensures EngineSummary(s).total == Covered(s)
  {
  }

  lemma RestIsComplete(s: State)
    requires AllReturned(s)
    ensures NothingInFlight(s)
  {
  }

  lemma JoinedAtRest(s: State)
    requires Reachable(s) && AllReturned(s) && s.closers != []
    ensures s.joined
  {
    ReachableInvariant(s);
    assert s.closers[0].pc.Returned?;
  }

  /** With every call returned after a shutdown, a summary covers every submission. */
  lemma CompleteAtRest(s: State)
    requires Reachable(s) && AllReturned(s) && s.closers != []
    ensures s.joined && EngineSummary(s).total == s.nextId - 1
  {
    JoinedAtRest(s);
    RestIsComplete(s);
    CompleteAt(s);
  }

  lemma CallsReturn(s: State) returns (s': State)
    requires Reachable(s) && s.phase.Ready? && s.closers != []
    ensures Reachable(s') && s'.phase.Ready? && AllReturned(s') && s'.closers != []
  {
    var n;
    s', n := EveryCallCanReturn(s);
    QuietRunIsRun(s, s', n);
    ReachableAlong(s, s', n);
    ReachableSound(s, EveryEnvelope, EverySample);
    SinceAlong(s, s', n);
  }

  lemma CallShutdown(s: State) returns (s': State)
    requires Reachable(s) && s.phase.Ready?
    ensures Reachable(s') && s'.phase.Ready? && s'.closers != []
  {
    TakeStep(s, Shutdown(Drain));
    s' := Act(s, Shutdown(Drain));
  }

  /** A submit call that has only just begun changes no counter and no sample. */
  lemma CallSubmit(s: State) returns (s': State)
    requires Reachable(s) && s.phase.Ready?
    ensures Reachable(s') && s'.phase.Ready? && s'.joined == s.joined
    ensures Covered(s') == Covered(s) && s'.nextId == s.nextId + 1
  {
    TakeStep(s, Submit(Returns));
    s' := Act(s, Submit(Returns));
  }

  lemma {:induction false} CallSubmits(s: State, m: nat) returns (s': State)
    requires Reachable(s) && s.phase.Ready?
    ensures Reachable(s') && s'.phase.Ready? && s'.joined == s.joined
    ensures Covered(s') == Covered(s) && s'.nextId == s.nextId + m
  {
    if m == 0 {
      s' := s;
    } else {
      s' := CallSubmits(s, m - 1);
      s' := CallSubmit(s');
    }
  }

  /** For every m there is a reachable state in which a summary can be taken and covers all submissions but m. */
  lemma SummaryCanLag(m: nat) returns (s: State)
    ensures Reachable(s) && s.joined && EngineSummary(s).total + m == s.nextId - 1
  {
    s := ReadyEngine();
    s := CallShutdown(s);
    s := CallsReturn(s);
    CompleteAtRest(s);
    CoveredIsTotal(s);
    s := CallSubmits(s, m);
    CoveredIsTotal(s);
  }
}
