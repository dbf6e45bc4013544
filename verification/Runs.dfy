/** Finite runs of an arbitrary step relation, and induction over them. */
module Runs {

  /** s leads to s' in exactly n steps of the relation. */
  ghost predicate Leads<S(!new)>(step: (S, S) -> bool, s: S, s': S, n: nat)
    decreases n
  {
    if n == 0 then s == s' else exists m :: Leads(step, s, m, n - 1) && step(m, s')
  }

  /** What every step keeps holds along the whole run. */
  lemma {:induction false} InvariantAlong<S(!new)>(step: (S, S) -> bool, inv: S -> bool, s: S, s': S, n: nat)
    requires inv(s) && Leads(step, s, s', n)
    requires forall x, y :: inv(x) && step(x, y) ==> inv(y)
    ensures inv(s')
    decreases n
  {
    if n == 0 {
    } else {
      var m :| Leads(step, s, m, n - 1) && step(m, s');
      InvariantAlong(step, inv, s, m, n - 1);
    }
  }

  /** What holds at one index of a run and is passed on from each to the next holds at every later one. */
  lemma {:induction false} IndexInduction(p: nat -> bool, first: nat, last: nat)
    requires first <= last && p(first)
    requires forall i: nat | first <= i < last && p(i) :: p(i + 1)
    ensures p(last)
    decreases last
  {
    if first == last {
    } else {
      IndexInduction(p, first, last - 1);
    }
  }

  /** A run of a step relation is a run of any weaker one. */
  lemma {:induction false} LeadsWeaker<S(!new)>(strong: (S, S) -> bool, weak: (S, S) -> bool, s: S, s': S, n: nat)
    requires Leads(strong, s, s', n)
    requires forall x, y :: strong(x, y) ==> weak(x, y)
    ensures Leads(weak, s, s', n)
    decreases n
  {
    if n == 0 {
    } else {
      var m :| Leads(strong, s, m, n - 1) && strong(m, s');
      LeadsWeaker(strong, weak, s, m, n - 1);
    }
  }

  /** A run as the sequence of its states. */
  ghost predicate IsTrace<S(!new)>(step: (S, S) -> bool, trace: seq<S>)
  {
    trace != [] && forall j, k | 0 <= j < k == j + 1 < |trace| :: step(trace[j], trace[k])
  }

  lemma {:induction false} TraceOf<S(!new)>(step: (S, S) -> bool, s: S, s': S, n: nat) returns (trace: seq<S>)
    requires Leads(step, s, s', n)
    ensures IsTrace(step, trace) && |trace| == n + 1 && trace[0] == s && trace[n] == s'
    decreases n
  {
    if n == 0 {
      trace := [s];
    } else {
      var m :| Leads(step, s, m, n - 1) && step(m, s');
      var front := TraceOf(step, s, m, n - 1);
      trace := front + [s'];
    }
  }

  lemma {:induction false} LeadsOn<S(!new)>(step: (S, S) -> bool, s: S, m: S, s': S, n: nat)
    requires step(s, m) && Leads(step, m, s', n)
    ensures Leads(step, s, s', n + 1)
    decreases n
  {
    if n == 0 {
      assert Leads(step, s, s, 0);
    } else {
      var p :| Leads(step, m, p, n - 1) && step(p, s');
      LeadsOn(step, s, m, p, n - 1);
    }
  }

  /** A decreasing measure and a step from every state short of the goal lead to the goal. */
  lemma {:induction false} ReachesGoal<S(!new)>(
    step: (S, S) -> bool, inv: S -> bool, goal: S -> bool, measure: S -> nat, s: S)
    returns (s': S, n: nat)
    requires inv(s)
    requires forall x, y :: inv(x) && step(x, y) ==> inv(y) && measure(y) < measure(x)
    requires forall x :: inv(x) && !goal(x) ==> exists y :: step(x, y)
    ensures Leads(step, s, s', n) && inv(s') && goal(s')
    decreases measure(s)
  {
    if goal(s) {
      s', n := s, 0;
    } else {
      var m :| step(s, m);
      var k: nat;
      s', k := ReachesGoal(step, inv, goal, measure, m);
      LeadsOn(step, s, m, s', k);
      n := k + 1;
    }
  }

  // ----- runs with a price -----

  /** s leads to s' in exactly n steps, whose prices add up to cost. */
  ghost predicate Spends<S(!new)>(step: (S, S, nat) -> bool, s: S, s': S, n: nat, cost: nat)
    decreases n
  {
    if n == 0 then s == s' && cost == 0
    else exists m, d: nat :: step(m, s', d) && d <= cost && Spends(step, s, m, n - 1, cost - d)
  }

  /** If a step never raises the measure by as much as its price, the price of a run bounds its length. */
  lemma {:induction false} PriceBoundsLength<S(!new)>(
    step: (S, S, nat) -> bool, inv: S -> bool, measure: S -> nat, s: S, s': S, n: nat, cost: nat)
    requires inv(s) && Spends(step, s, s', n, cost)
    requires forall x, y, d: nat :: inv(x) && step(x, y, d) ==> inv(y) && measure(y) < measure(x) + d
    ensures inv(s') && n + measure(s') <= measure(s) + cost
    decreases n
  {
    if n == 0 {
    } else {
      var m, d: nat :| step(m, s', d) && d <= cost && Spends(step, s, m, n - 1, cost - d);
      PriceBoundsLength(step, inv, measure, s, m, n - 1, cost - d);
    }
  }

  /** If the measure pays the price of every step, it bounds the price of a run. */
  lemma {:induction false} MeasurePays<S(!new)>(
    step: (S, S, nat) -> bool, inv: S -> bool, measure: S -> nat, s: S, s': S, n: nat, cost: nat)
    requires inv(s) && Spends(step, s, s', n, cost)
    requires forall x, y, d: nat :: inv(x) && step(x, y, d) ==> inv(y) && measure(y) + d <= measure(x)
    ensures inv(s') && cost + measure(s') <= measure(s)
    decreases n
  {
    if n == 0 {
    } else {
      var m, d: nat :| step(m, s', d) && d <= cost && Spends(step, s, m, n - 1, cost - d);
      MeasurePays(step, inv, measure, s, m, n - 1, cost - d);
    }
  }
}
