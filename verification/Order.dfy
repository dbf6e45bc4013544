/** First come, first served across calls: a submission accepted before another began is never overtaken by it. */
module Order {
  import opened Core
  import opened Runs
  import opened Protocol
  import opened Structure
  import opened Records
  import opened Ledger
  import opened Reachability
  import opened Engine
  import opened Sums

  /** id stands at position k of the sequence and nowhere else. */
  ghost predicate OnlyAt(envs: seq<Envelope>, id: nat, k: nat)
  {
    k < |envs| && forall i | 0 <= i < |envs| :: envs[i].id == id <==> i == k
  }

  /** A call that holds nothing and was not rejected had its envelope accepted. */
  lemma AcceptedOnceReported(s: State, i: nat)
    requires Ids(s) && Verdicts(s) && IssuedLaw(s, WithId(i + 1)) && i < |s.submits| && WasAccepted(s.submits[i])
    ensures Sum(s.accepted, WithId(i + 1)) == 1
  {
    RefusedOnce(s, i + 1);
    SumZero(s.submits, SubmitHolds(WithId(i + 1)));
    IssuedOnce(s, i + 1, |s.issued|);
  }

  lemma PositionOf(envs: seq<Envelope>, id: nat) returns (k: nat)
    requires Sum(envs, WithId(id)) == 1
    ensures OnlyAt(envs, id, k)
  {
    k := SumWitness(envs, |envs|, WithId(id));
    forall i: nat | i < |envs| && i != k
      ensures envs[i].id != id
    {
      SumTwoMembers(envs, |envs|, if i < k then i else k, if i < k then k else i, WithId(id));
    }
  }

  /** An accepted call has exactly one position among the accepted pushes. */
  lemma AcceptedPosition(s: State, i: nat) returns (k: nat)
    requires Reachable(s) && i < |s.submits| && WasAccepted(s.submits[i])
    ensures OnlyAt(s.accepted, i + 1, k)
  {
    ReachableSound(s, WithId(i + 1), EverySample);
    AcceptedOnceReported(s, i);
    k := PositionOf(s.accepted, i + 1);
  }

  /** A call that has not begun has nothing accepted. */
  lemma NotYetAccepted(s: State, j: nat)
    requires Ids(s) && Verdicts(s) && j >= |s.submits|
    ensures forall k | 0 <= k < |s.accepted| :: s.accepted[k].id != j + 1
  {
    forall k | 0 <= k < |s.accepted|
      ensures s.accepted[k].id != j + 1
    {
      assert IsIssued(s.issued, s.submits, s.accepted[k]);
    }
  }

  /** Position k, that of call i, comes before any push of call j, and i has been dequeued before j was. */
  ghost predicate Precedes(s: State, k: nat, i: nat, j: nat)
  {
    && OnlyAt(s.accepted, i + 1, k)
    && (forall q | 0 <= q < |s.accepted| && s.accepted[q].id == j + 1 :: k < q)
    && (forall q | 0 <= q < |s.popped| && s.popped[q].id == j + 1 :: k < q && s.popped[k].id == i + 1)
  }

  /** A position found in one state is the position in every later one. */
  lemma PositionStays(s: State, s': State, i: nat, k: nat)
    requires Ids(s') && IssuedLaw(s', WithId(i + 1)) && s.accepted <= s'.accepted && OnlyAt(s.accepted, i + 1, k)
    ensures OnlyAt(s'.accepted, i + 1, k)
  {
    AcceptedOnce(s', i + 1);
    SumMember(s'.accepted, k, WithId(i + 1));
    var k' := PositionOf(s'.accepted, i + 1);
    assert s'.accepted[k].id == i + 1;
  }

  /** What was accepted in s precedes what a call begun after s gets accepted, and is served first. */
  lemma LaterCallsFollow(s: State, s': State, i: nat, j: nat, k: nat)
    requires Ids(s) && Verdicts(s) && |s.submits| <= j && OnlyAt(s.accepted, i + 1, k)
    requires Fifo(s') && s.accepted <= s'.accepted && OnlyAt(s'.accepted, i + 1, k)
    ensures Precedes(s', k, i, j)
  {
    NotYetAccepted(s, j);
    assert forall q | 0 <= q < |s.accepted| :: s'.accepted[q] == s.accepted[q];
    assert forall q | 0 <= q < |s'.popped| :: s'.popped[q] == s'.accepted[q];
  }

  lemma LaterFacts(s: State, s': State, n: nat, f: Envelope -> nat)
    requires Reachable(s) && Leads(Next, s, s', n)
    ensures Ids(s) && Verdicts(s) && s.accepted <= s'.accepted && Ids(s') && Fifo(s') && IssuedLaw(s', f)
  {
    ReachableSound(s, f, EverySample);
    SinceAlong(s, s', n);
    SoundAlong(s, s', n, f, EverySample);
  }

  /** First come, first served: if the push of call i was accepted before call j began, then in every later state i
      precedes j among the accepted pushes, each in one place, and j is never dequeued ahead of i. */
  lemma NeverOvertaken(s: State, i: nat, j: nat, s': State, n: nat) returns (k: nat)
    requires Reachable(s) && i < |s.submits| <= j && WasAccepted(s.submits[i]) && Leads(Next, s, s', n)
    ensures Precedes(s', k, i, j)
  {
    k := AcceptedPosition(s, i);
    LaterFacts(s, s', n, WithId(i + 1));
    PositionStays(s, s', i, k);
    LaterCallsFollow(s, s', i, j, k);
  }
}
