/** Which instants a result carries: the clock at the steps of the run in which its task was submitted, started, ended
    or rejected. */
module Instants {
  import opened Core
  import opened Runs
  import opened Protocol
  import opened Structure
  import opened Ledger
  import opened Reachability
  import opened Engine
  import opened Refusals
  import opened Sums

  // ----- one step -----

  /** What a worker's step leaves alone. */
  lemma WorkerLeaves(s: State, w: nat, a: WorkerAction)
    requires WorkerEnabled(s, w, a)
    ensures var s' := WorkerStep(s, w, a);
            s'.now == s.now && s'.issued == s.issued && s'.closers == s.closers && s'.drained == s.drained
  {
  }

  lemma SubmitLeaves(s: State, i: nat, a: SubmitAction)
    requires SubmitEnabled(s, i, a)
    ensures var s' := SubmitStep(s, i, a);
            s'.now == s.now && s'.issued == s.issued && s'.closers == s.closers && s'.drained == s.drained
  {
  }

  lemma CloserLeaves(s: State, c: nat, a: CloserAction)
    requires CloserEnabled(s, c, a)
    ensures CloserStep(s, c, a).now == s.now && CloserStep(s, c, a).issued == s.issued
  {
  }

  /** At most one task is issued in a step, stamped with the instant of that step. */
  lemma IssuedAct(s: State, a: Action)
    requires Enabled(s, a)
    ensures var s' := Act(s, a);
            && s'.now == s.now
            && (|| s'.issued == s.issued
                || exists env: Envelope :: s'.issued == s.issued + [env] && env.submitted == s.now)
  {
    match a
    case Worker(w, wa) => WorkerLeaves(s, w, wa);
    case Submitter(i, sa) => SubmitLeaves(s, i, sa);
    case Stopper(c, ca) => CloserLeaves(s, c, ca);
    case _ =>
  }

  lemma IssuedNext(s: State, s': State)
    requires Next(s, s')
    ensures s.now <= s'.now
    ensures s'.issued == s.issued || exists env: Envelope :: s'.issued == s.issued + [env] && env.submitted == s'.now
  {
    var a, t :| Step(s, a, t, s');
    IssuedAct(At(s, t), a);
  }

  lemma WorkerStepPcs(s: State, v: nat, a: WorkerAction, w: nat)
    requires WorkerEnabled(s, v, a) && w < |s.workers|
    ensures PcFollows(s, WorkerStep(s, v, a), w)
  {
  }

  /** What brings worker w to a position in which it holds an instant. */
  ghost predicate PcFollows(s: State, s': State, w: nat)
  {
    w < |s.workers| <= |s'.workers| &&
    var pc, pc' := s.workers[w], s'.workers[w];
    && (pc'.Executing? ==> pc' == pc || (pc == Dequeued(pc'.env) && pc'.dequeued == s'.now
                                         && s'.executed == s.executed + [pc'.env]))
    && (pc'.Settling? ==> pc' == pc || (pc.Executing? && pc.env == pc'.env
                                        && pc'.timings == TaskTimings(pc.env.submitted, pc.dequeued, s'.now)))
    && (pc'.Recording? ==> pc' == pc || (pc.Settling? && IsSampleOf(pc'.sample, pc.env, pc.timings)))
  }

  /** The sample of a task that ran with these instants. */
  ghost predicate IsSampleOf(sample: Sample, env: Envelope, timings: TaskTimings)
  {
    && sample.id == env.id && sample.timings == timings
    && sample.state == if env.outcome.Returns? then Succeeded else Failed
  }

  lemma SubmitStepPcs(s: State, i: nat, a: SubmitAction, w: nat)
    requires SubmitEnabled(s, i, a) && w < |s.workers|
    ensures PcFollows(s, SubmitStep(s, i, a), w)
  {
  }

  lemma CloserStepPcs(s: State, c: nat, a: CloserAction, w: nat)
    requires CloserEnabled(s, c, a) && w < |s.workers|
    ensures PcFollows(s, CloserStep(s, c, a), w)
  {
  }

  lemma ActPcs(s: State, a: Action, w: nat)
    requires Enabled(s, a) && w < |s.workers|
    ensures PcFollows(s, Act(s, a), w)
  {
    match a
    case Worker(v, wa) => WorkerStepPcs(s, v, wa, w);
    case Submitter(i, sa) => SubmitStepPcs(s, i, sa, w);
    case Stopper(c, ca) => CloserStepPcs(s, c, ca, w);
    case _ =>
  }

  lemma ActStartsIdle(s: State, a: Action)
    requires Enabled(s, a)
    ensures |Act(s, a).workers| == |s.workers| || Act(s, a).workers == s.workers + [Checking(false)]
  {
    match a
    case Worker(v, wa) => assert |WorkerStep(s, v, wa).workers| == |s.workers|;
    case Submitter(i, sa) => assert |SubmitStep(s, i, sa).workers| == |s.workers|;
    case Stopper(c, ca) => assert |CloserStep(s, c, ca).workers| == |s.workers|;
    case _ =>
  }

  lemma PcNext(s: State, s': State, w: nat)
    requires Next(s, s') && w < |s'.workers|
    ensures if w < |s.workers| then PcFollows(s, s', w) else s'.workers[w] == Checking(false)
  {
    var a, t :| Step(s, a, t, s');
    if w < |s.workers| {
      ActPcs(At(s, t), a, w);
    } else {
      ActStartsIdle(At(s, t), a);
    }
  }

  /** The step that sets a promise, by cause: the worker is done executing, the call was refused, or the batch is being
      discarded. */
  ghost predicate SettledIn(s: State, s': State, e: Settlement)
  {
    match e.cause
    case Ran => exists w :: 0 <= w < |s.workers| && s.workers[w] == Settling(e.env, e.result.timings)
    case PushRefused =>
      && (exists i :: 0 <= i < |s.submits| && s.submits[i] == Refusing(e.env))
      && e.result.timings == TaskTimings(e.env.submitted, s'.now, s'.now)
    case Discarded => true
  }

  lemma SettleByWorker(s: State, w: nat, a: WorkerAction)
    requires WorkerEnabled(s, w, a) && WorkerStep(s, w, a).log != s.log
    ensures var s' := WorkerStep(s, w, a);
            s.log < s'.log && s'.log == s.log + [s'.log[|s.log|]] && SettledIn(s, s', s'.log[|s.log|])
  {
  }

  lemma SettleBySubmit(s: State, i: nat, a: SubmitAction)
    requires SubmitEnabled(s, i, a) && SubmitStep(s, i, a).log != s.log
    ensures var s' := SubmitStep(s, i, a);
            s.log < s'.log && s'.log == s.log + [s'.log[|s.log|]] && SettledIn(s, s', s'.log[|s.log|])
  {
  }

  lemma SettleByCloser(s: State, c: nat, a: CloserAction)
    requires CloserEnabled(s, c, a) && CloserStep(s, c, a).log != s.log
    ensures var s' := CloserStep(s, c, a);
            s.log < s'.log && s'.log == s.log + [s'.log[|s.log|]] && SettledIn(s, s', s'.log[|s.log|])
  {
  }

  /** At most one promise is set in a step. */
  lemma LogNext(s: State, s': State)
    requires Next(s, s')
    ensures s.log <= s'.log && |s'.log| <= |s.log| + 1
    ensures s'.log != s.log ==> var e := s'.log[|s.log|]; s'.log == s.log + [e] && SettledIn(s, s', e)
  {
    var a, t :| Step(s, a, t, s');
    if s'.log != s.log {
      match a
      case Worker(w, wa) => SettleByWorker(At(s, t), w, wa);
      case Submitter(i, sa) => SettleBySubmit(At(s, t), i, sa);
      case Stopper(c, ca) => SettleByCloser(At(s, t), c, ca);
      case _ =>
    }
  }

  // ----- where in the run something happened -----

  /** Step p of the run issues the envelope, at the instant it carries. */
  ghost predicate IssuedAt(run: seq<State>, env: Envelope, p: nat)
  {
    p + 1 < |run| && run[p + 1].issued == run[p].issued + [env] && env.submitted == run[p + 1].now
  }

  /** Step q of the run sets the promise. */
  ghost predicate SettledAt(run: seq<State>, e: Settlement, q: nat)
  {
    q + 1 < |run| && run[q + 1].log == run[q].log + [e]
  }

  lemma RunStep(run: seq<State>, k: nat)
    requires IsRun(run) && k + 1 < |run|
    ensures Next(run[k], run[k + 1])
  {
  }

  lemma RunStart(run: seq<State>)
    requires IsRun(run)
    ensures run[0].issued == [] && run[0].log == [] && run[0].drained == [] && run[0].workers == []
    ensures forall w | 0 <= w < |run[0].samples| :: run[0].samples[w] == []
  {
  }

  /** The clock has not gone back, and issued tasks and set promises stand. */
  ghost predicate Grown(s: State, s': State)
  {
    s.now <= s'.now && s.issued <= s'.issued && s.log <= s'.log
  }

  lemma GrownTransitive(s: State, m: State, s': State)
    requires Grown(s, m) && Grown(m, s')
    ensures Grown(s, s')
  {
  }

  lemma StepGrows(run: seq<State>, k: nat)
    requires IsRun(run) && k + 1 < |run|
    ensures Grown(run[k], run[k + 1])
  {
    RunStep(run, k);
    IssuedNext(run[k], run[k + 1]);
    LogNext(run[k], run[k + 1]);
  }

  lemma GrownAlong(run: seq<State>, j: nat, k: nat)
    requires IsRun(run) && j <= k < |run|
    ensures Grown(run[j], run[k])
  {
    forall i: nat | j <= i < k && Grown(run[j], run[i])
      ensures Grown(run[j], run[i + 1])
    {
      StepGrows(run, i);
      GrownTransitive(run[j], run[i], run[i + 1]);
    }
    IndexInduction((i: nat) => i < |run| && Grown(run[j], run[i]), j, k);
  }

  lemma IssuedByStep(run: seq<State>, k: nat, x: nat)
    requires IsRun(run) && k + 1 < |run| && x < |run[k + 1].issued|
    ensures if x < |run[k].issued| then run[k].issued[x] == run[k + 1].issued[x]
            else IssuedAt(run, run[k + 1].issued[x], k)
  {
    RunStep(run, k);
    IssuedNext(run[k], run[k + 1]);
  }

  lemma SettledByStep(run: seq<State>, k: nat, m: nat)
    requires IsRun(run) && k + 1 < |run| && m < |run[k + 1].log|
    ensures if m < |run[k].log| then run[k].log[m] == run[k + 1].log[m]
            else SettledAt(run, run[k + 1].log[m], k)
  {
    RunStep(run, k);
    LogNext(run[k], run[k + 1]);
  }

  lemma {:induction false} IssueInstant(run: seq<State>, k: nat, x: nat) returns (p: nat)
    requires IsRun(run) && k < |run| && x < |run[k].issued|
    ensures p < k && IssuedAt(run, run[k].issued[x], p)
    decreases k
  {
    assert k > 0 by {
      RunStart(run);
    }
    IssuedByStep(run, k - 1, x);
    if x < |run[k - 1].issued| {
      p := IssueInstant(run, k - 1, x);
    } else {
      p := k - 1;
    }
  }

  lemma {:induction false} SettleStep(run: seq<State>, k: nat, m: nat) returns (q: nat)
    requires IsRun(run) && k < |run| && m < |run[k].log|
    ensures q < k && SettledAt(run, run[k].log[m], q)
    decreases k
  {
    assert k > 0 by {
      RunStart(run);
    }
    SettledByStep(run, k - 1, m);
    if m < |run[k - 1].log| {
      q := SettleStep(run, k - 1, m);
    } else {
      q := k - 1;
    }
  }

  lemma SettledHow(run: seq<State>, e: Settlement, q: nat)
    requires IsRun(run) && SettledAt(run, e, q)
    ensures SettledIn(run[q], run[q + 1], e)
  {
    RunStep(run, q);
    LogNext(run[q], run[q + 1]);
  }

  // ----- tasks that ran -----

  ghost predicate Executes(s: State, w: nat, env: Envelope)
  {
    w < |s.workers| && s.workers[w].Executing? && s.workers[w].env == env
  }

  /** In step j worker w begins to execute an envelope dequeued before. */
  ghost predicate StartsAt(run: seq<State>, w: nat, env: Envelope, j: nat)
  {
    && j + 1 < |run| && env in run[j].popped && !Executes(run[j], w, env) && Executes(run[j + 1], w, env)
    && run[j + 1].executed == run[j].executed + [env]
  }

  /** Worker w begins the envelope in step j and executes it in all states up to k. */
  ghost predicate RunsFrom(run: seq<State>, w: nat, env: Envelope, j: nat, k: nat)
  {
    j < k < |run| && StartsAt(run, w, env, j) && forall i | j < i <= k :: Executes(run[i], w, env)
  }

  /** Worker w executes the envelope from step j to step k, and these steps give the instants. */
  ghost predicate RanDuring(run: seq<State>, w: nat, env: Envelope, timings: TaskTimings, j: nat, k: nat)
  {
    && RunsFrom(run, w, env, j, k) && k + 1 < |run| && !Executes(run[k + 1], w, env)
    && timings == TaskTimings(env.submitted, run[j + 1].now, run[k + 1].now)
  }

  ghost predicate RanBefore(run: seq<State>, w: nat, env: Envelope, timings: TaskTimings, limit: nat)
  {
    exists j: nat, k: nat :: k < limit && RanDuring(run, w, env, timings, j, k)
  }

  ghost predicate SampledBefore(run: seq<State>, w: nat, sample: Sample, limit: nat)
  {
    exists env, timings :: RanBefore(run, w, env, timings, limit) && IsSampleOf(sample, env, timings)
  }

  ghost predicate BegunAt(run: seq<State>, w: nat, env: Envelope, dequeued: int, k: nat)
  {
    exists j: nat :: RunsFrom(run, w, env, j, k) && dequeued == run[j + 1].now
  }

  /** The instants worker w holds in state k are those of its own steps. */
  ghost predicate PcTimed(run: seq<State>, k: nat, w: nat)
  {
    k < |run| && w < |run[k].workers| &&
    match run[k].workers[w]
    case Executing(env, dequeued) => BegunAt(run, w, env, dequeued, k)
    case Settling(env, timings) => RanBefore(run, w, env, timings, k)
    case Recording(sample) => SampledBefore(run, w, sample, k)
    case _ => true
  }

  ghost predicate AllTimed(run: seq<State>, k: nat)
  {
    k < |run| && forall w: nat | w < |run[k].workers| :: PcTimed(run, k, w)
  }

  lemma RanBeforeLater(run: seq<State>, w: nat, env: Envelope, timings: TaskTimings, limit: nat)
    requires RanBefore(run, w, env, timings, limit)
    ensures RanBefore(run, w, env, timings, limit + 1)
  {
  }

  lemma SampledBeforeLater(run: seq<State>, w: nat, sample: Sample, limit: nat)
    requires SampledBefore(run, w, sample, limit)
    ensures SampledBefore(run, w, sample, limit + 1)
  {
    var env, timings :| RanBefore(run, w, env, timings, limit) && IsSampleOf(sample, env, timings);
    RanBeforeLater(run, w, env, timings, limit);
  }

  /** What a worker is about to execute has been dequeued. */
  lemma TakenWasPopped(s: State, w: nat, env: Envelope)
    requires Reachable(s) && w < |s.workers| && s.workers[w] == Dequeued(env)
    ensures env in s.popped
  {
    ReachableSound(s, SameAs(env), EverySample);
    SumMember(s.workers, w, WorkerTook(SameAs(env)));
    var i := SumWitness(s.popped, |s.popped|, SameAs(env));
  }

  lemma BegunAtLater(run: seq<State>, w: nat, env: Envelope, dequeued: int, k: nat)
    requires BegunAt(run, w, env, dequeued, k) && k + 1 < |run| && Executes(run[k + 1], w, env)
    ensures BegunAt(run, w, env, dequeued, k + 1)
  {
    var j: nat :| RunsFrom(run, w, env, j, k) && dequeued == run[j + 1].now;
    assert RunsFrom(run, w, env, j, k + 1);
  }

  /** A worker that executes in state k + 1 went on, or began in step k. */
  lemma ExecutingTimed(run: seq<State>, k: nat, w: nat)
    requires IsRun(run) && k + 1 < |run| && AllTimed(run, k)
    requires w < |run[k + 1].workers| && run[k + 1].workers[w].Executing?
    ensures PcTimed(run, k + 1, w)
  {
    RunStep(run, k);
    PcNext(run[k], run[k + 1], w);
    var pc, pc' := run[k].workers[w], run[k + 1].workers[w];
    if pc == pc' {
      assert PcTimed(run, k, w);
      BegunAtLater(run, w, pc.env, pc.dequeued, k);
    } else {
      RunReaches(run, k);
      TakenWasPopped(run[k], w, pc'.env);
      assert RunsFrom(run, w, pc'.env, k, k + 1);
    }
  }

  /** A worker that has its result in state k + 1 had it before, or ended execution in step k. */
  lemma SettlingTimed(run: seq<State>, k: nat, w: nat)
    requires IsRun(run) && k + 1 < |run| && AllTimed(run, k)
    requires w < |run[k + 1].workers| && run[k + 1].workers[w].Settling?
    ensures PcTimed(run, k + 1, w)
  {
    RunStep(run, k);
    PcNext(run[k], run[k + 1], w);
    assert PcTimed(run, k, w);
    var pc, pc' := run[k].workers[w], run[k + 1].workers[w];
    if pc == pc' {
      RanBeforeLater(run, w, pc.env, pc.timings, k);
    } else {
      var j: nat :| RunsFrom(run, w, pc.env, j, k) && pc.dequeued == run[j + 1].now;
      assert RanDuring(run, w, pc'.env, pc'.timings, j, k);
    }
  }

  lemma RecordingTimed(run: seq<State>, k: nat, w: nat)
    requires IsRun(run) && k + 1 < |run| && AllTimed(run, k)
    requires w < |run[k + 1].workers| && run[k + 1].workers[w].Recording?
    ensures PcTimed(run, k + 1, w)
  {
    RunStep(run, k);
    PcNext(run[k], run[k + 1], w);
    assert PcTimed(run, k, w);
    var pc, pc' := run[k].workers[w], run[k + 1].workers[w];
    if pc == pc' {
      SampledBeforeLater(run, w, pc.sample, k);
    } else {
      RanBeforeLater(run, w, pc.env, pc.timings, k);
    }
  }

  lemma TimedStep(run: seq<State>, k: nat)
    requires IsRun(run) && k + 1 < |run| && AllTimed(run, k)
    ensures AllTimed(run, k + 1)
  {
    var k' := k + 1;
    forall w: nat | w < |run[k'].workers|
      ensures PcTimed(run, k', w)
    {
      if run[k'].workers[w].Executing? {
        ExecutingTimed(run, k, w);
      } else if run[k'].workers[w].Settling? {
        SettlingTimed(run, k, w);
      } else if run[k'].workers[w].Recording? {
        RecordingTimed(run, k, w);
      }
    }
  }

  lemma TimedAlong(run: seq<State>, k: nat)
    requires IsRun(run) && k < |run|
    ensures AllTimed(run, k)
  {
    RunStart(run);
    forall i: nat | 0 <= i < k && AllTimed(run, i)
      ensures AllTimed(run, i + 1)
    {
      TimedStep(run, i);
    }
    IndexInduction((i: nat) => AllTimed(run, i), 0, k);
  }

  /** What was dequeued had been issued. */
  lemma PoppedWasIssued(s: State, env: Envelope) returns (i: nat)
    requires Reachable(s) && env in s.popped
    ensures i < |s.issued| && s.issued[i] == env
  {
    ReachableSound(s, SameAs(env), EverySample);
    Conservation(s, SameAs(env));
    var k :| 0 <= k < |s.popped| && s.popped[k] == env;
    SumMember(s.popped, k, SameAs(env));
    i := SumWitness(s.issued, |s.issued|, SameAs(env));
  }

  /** The submission of a task that ran lies before its start. */
  lemma IssuedBeforeStart(run: seq<State>, w: nat, env: Envelope, j: nat) returns (p: nat)
    requires IsRun(run) && StartsAt(run, w, env, j)
    ensures p < j && IssuedAt(run, env, p)
  {
    RunReaches(run, j);
    var i := PoppedWasIssued(run[j], env);
    p := IssueInstant(run, j, i);
  }

  /** In every run, the result of a task that ran carries the instant of the step that issued it, of the step in which a
      worker put it into execution, and of the step in which that worker, having executed it ever since, stopped
      executing it; its promise is set in a still later step. */
  lemma RanInstants(run: seq<State>, s: State, m: nat) returns (p: nat, w: nat, j: nat, k: nat, q: nat)
    requires IsRunTo(run, s) && m < |s.log| && s.log[m].cause.Ran?
    ensures p < j < k < q && IssuedAt(run, s.log[m].env, p) && SettledAt(run, s.log[m], q)
    ensures RunsFrom(run, w, s.log[m].env, j, k) && !Executes(run[k + 1], w, s.log[m].env)
    ensures s.log[m].result.timings == TaskTimings(run[p + 1].now, run[j + 1].now, run[k + 1].now)
  {
    var e := s.log[m];
    q := SettleStep(run, |run| - 1, m);
    SettledHow(run, e, q);
    w :| 0 <= w < |run[q].workers| && run[q].workers[w] == Settling(e.env, e.result.timings);
    TimedAlong(run, q);
    assert PcTimed(run, q, w);
    j, k :| k < q && RanDuring(run, w, e.env, e.result.timings, j, k);
    p := IssuedBeforeStart(run, w, e.env, j);
  }

  // ----- samples -----

  /** A sample in a buffer was there before, or its worker appended it. */
  ghost predicate SampleFollows(s: State, s': State, v: nat, x: nat)
  {
    v < |s.samples| && v < |s'.samples| && x < |s'.samples[v]| &&
    if x < |s.samples[v]| then s.samples[v][x] == s'.samples[v][x]
    else v < |s.workers| && s.workers[v] == Recording(s'.samples[v][x])
  }

  lemma WorkerSamples(s: State, w: nat, a: WorkerAction, v: nat, x: nat)
    requires WorkerEnabled(s, w, a)
    requires v < |WorkerStep(s, w, a).samples| && x < |WorkerStep(s, w, a).samples[v]|
    ensures SampleFollows(s, WorkerStep(s, w, a), v, x)
  {
  }

  lemma SamplesNext(s: State, s': State, v: nat, x: nat)
    requires Next(s, s') && v < |s'.samples| && x < |s'.samples[v]|
    ensures SampleFollows(s, s', v, x)
  {
    var a, t :| Step(s, a, t, s');
    match a
    case Worker(w, wa) => WorkerSamples(At(s, t), w, wa, v, x);
    case Submitter(i, sa) => SubmitWritesNoBuffer(At(s, t), i, sa);
    case Stopper(c, ca) => CloserWritesNoBuffer(At(s, t), c, ca);
    case _ =>
  }

  lemma SampleInStep(run: seq<State>, k: nat, v: nat, x: nat)
    requires IsRun(run) && k + 1 < |run| && v < |run[k + 1].samples| && x < |run[k + 1].samples[v]|
    ensures SampleFollows(run[k], run[k + 1], v, x)
  {
    RunStep(run, k);
    SamplesNext(run[k], run[k + 1], v, x);
  }

  /** The sample, if it is there in state k, is one of a task the worker executed. */
  ghost predicate SampleTimed(run: seq<State>, v: nat, x: nat, k: nat)
  {
    k < |run| && (v < |run[k].samples| && x < |run[k].samples[v]| ==> SampledBefore(run, v, run[k].samples[v][x], k))
  }

  lemma SampleTimedStep(run: seq<State>, v: nat, x: nat, k: nat)
    requires IsRun(run) && k + 1 < |run| && SampleTimed(run, v, x, k)
    ensures SampleTimed(run, v, x, k + 1)
  {
    if v < |run[k + 1].samples| && x < |run[k + 1].samples[v]| {
      SampleInStep(run, k, v, x);
      if x >= |run[k].samples[v]| {
        TimedAlong(run, k);
        assert PcTimed(run, k, v);
      }
      SampledBeforeLater(run, v, run[k + 1].samples[v][x], k);
    }
  }

  lemma SampleTimedAlong(run: seq<State>, v: nat, x: nat, k: nat)
    requires IsRun(run) && k < |run|
    ensures SampleTimed(run, v, x, k)
  {
    RunStart(run);
    forall i: nat | 0 <= i < k && SampleTimed(run, v, x, i)
      ensures SampleTimed(run, v, x, i + 1)
    {
      SampleTimedStep(run, v, x, i);
    }
    IndexInduction((i: nat) => SampleTimed(run, v, x, i), 0, k);
  }

  /** In every run, a sample in the buffer of worker v is that of a task which worker v itself executed, from step j to
      step k of the run, and carries the instants of the step that issued it and of those two steps. */
  lemma SampleInstants(run: seq<State>, s: State, v: nat, x: nat) returns (env: Envelope, p: nat, j: nat, k: nat)
    requires IsRunTo(run, s) && v < |s.samples| && x < |s.samples[v]|
    ensures p < j < k < |run| - 1 && IssuedAt(run, env, p)
    ensures RunsFrom(run, v, env, j, k) && !Executes(run[k + 1], v, env)
    ensures s.samples[v][x].timings == TaskTimings(run[p + 1].now, run[j + 1].now, run[k + 1].now)
    ensures s.samples[v][x].id == env.id
    ensures s.samples[v][x].state == if env.outcome.Returns? then Succeeded else Failed
  {
    var sample := s.samples[v][x];
    SampleTimedAlong(run, v, x, |run| - 1);
    var timings;
    env, timings :| RanBefore(run, v, env, timings, |run| - 1) && IsSampleOf(sample, env, timings);
    j, k :| k < |run| - 1 && RanDuring(run, v, env, timings, j, k);
    p := IssuedBeforeStart(run, v, env, j);
  }

  // ----- refused tasks -----

  /** In every run, the result of a refused task carries the instant of the step that issued it and, twice, the instant
      of the step that rejected it, which comes after its push met a closed queue. */
  lemma RefusedInstants(run: seq<State>, s: State, m: nat) returns (p: nat, j: nat, q: nat)
    requires IsRunTo(run, s) && m < |s.log| && s.log[m].cause.PushRefused?
    ensures p < j < q && IssuedAt(run, s.log[m].env, p) && SettledAt(run, s.log[m], q)
    ensures s.log[m].env.id > 0 && SawClosedAt(run, s.log[m].env.id - 1, j)
    ensures s.log[m].result.timings == TaskTimings(run[p + 1].now, run[q + 1].now, run[q + 1].now)
  {
    var e := s.log[m];
    q := SettleStep(run, |run| - 1, m);
    SettledHow(run, e, q);
    var i: nat :| i < |run[q].submits| && run[q].submits[i] == Refusing(e.env);
    RunReaches(run, q);
    RefusingIsIssued(run[q], i);
    DeclinedIffSawClosed(run, i, q);
    j :| j < q && SawClosedAt(run, i, j);
    p := IssuedBeforePush(run, i, j, q);
  }

  lemma RefusingIsIssued(s: State, i: nat)
    requires Reachable(s) && i < |s.submits| && s.submits[i].Refusing?
    ensures i < |s.issued| && s.issued[i] == s.submits[i].env && s.issued[i].id == i + 1
  {
    ReachableInvariant(s);
  }

  lemma PushIsIssued(s: State, s': State, i: nat)
    requires Reachable(s) && PushMeetsClosed(s, s', i)
    ensures i < |s.issued|
  {
    ReachableInvariant(s);
  }

  lemma IssuedBeforePush(run: seq<State>, i: nat, j: nat, q: nat) returns (p: nat)
    requires IsRun(run) && SawClosedAt(run, i, j) && j < q < |run| && i < |run[q].issued|
    ensures p < j && IssuedAt(run, run[q].issued[i], p)
  {
    RunReaches(run, j);
    PushIsIssued(run[j], run[j + 1], i);
    GrownAlong(run, j, q);
    p := IssueInstant(run, j, i);
  }

  // ----- discarded tasks -----

  /** In step d the shutdown_now call c closes and drains the queue. */
  ghost predicate DrainsAt(run: seq<State>, c: nat, d: nat)
  {
    && d + 1 < |run| && c < |run[d].closers| && c < |run[d + 1].closers|
    && run[d].closers[c] == Closer(Abort, Called) && !run[d + 1].closers[c].pc.Called?
  }

  function Discard(env: Envelope, finished: int): Settlement
  {
    Settlement(env, TaskResult(env.id, Rejected, "", TaskTimings(env.submitted, finished, finished)), Discarded)
  }

  predicate PastRejecting(pc: CloserPc) { pc.Locking? || pc.Joining? || pc.Returned? }

  /** How a shutdown_now call goes on, from its drain to its join. */
  ghost predicate CloserFollows(s: State, s': State, c: nat)
  {
    c < |s.closers| && c < |s'.closers| && s'.closers[c].mode == s.closers[c].mode &&
    var pc, pc' := s.closers[c].pc, s'.closers[c].pc;
    match pc
    case Called => pc' == pc || pc' == NotifyEmpty(s.queue.items)
    case NotifyEmpty(batch) => pc' == pc || pc' == NotifyFull(batch)
    case NotifyFull(batch) => pc' == pc || pc' == Rejecting(batch, 0, s'.now)
    case Rejecting(pending, n, finished) =>
      || pc' == pc
      || (pending == [] && pc' == Locking)
      || (pending != [] && pc' == Rejecting(pending[1..], n + 1, finished)
          && s'.log == s.log + [Discard(pending[0], finished)])
    case _ => PastRejecting(pc')
  }

  lemma CloserStepFollows(s: State, b: nat, a: CloserAction, c: nat)
    requires CloserEnabled(s, b, a) && c < |s.closers| && s.closers[c].mode.Abort?
    ensures CloserFollows(s, CloserStep(s, b, a), c)
  {
  }

  lemma CloserAct(s: State, a: Action, c: nat)
    requires Enabled(s, a) && c < |s.closers| && s.closers[c].mode.Abort?
    ensures CloserFollows(s, Act(s, a), c)
  {
    match a
    case Worker(w, wa) => WorkerLeaves(s, w, wa);
    case Submitter(i, sa) => SubmitLeaves(s, i, sa);
    case Stopper(b, ca) => CloserStepFollows(s, b, ca, c);
    case _ =>
  }

  lemma CloserNext(s: State, s': State, c: nat)
    requires Next(s, s') && c < |s.closers| && s.closers[c].mode.Abort?
    ensures CloserFollows(s, s', c)
  {
    var a, t :| Step(s, a, t, s');
    CloserAct(At(s, t), a, c);
  }

  lemma CloserInStep(run: seq<State>, k: nat, c: nat)
    requires IsRun(run) && k + 1 < |run| && c < |run[k].closers| && run[k].closers[c].mode.Abort?
    ensures CloserFollows(run[k], run[k + 1], c) && Grown(run[k], run[k + 1])
  {
    RunStep(run, k);
    CloserNext(run[k], run[k + 1], c);
    StepGrows(run, k);
  }

  /** In state k the first n of the items have been discarded with the instant of step p, the others are still held. */
  ghost predicate Discarding(run: seq<State>, c: nat, d: nat, p: nat, n: nat, k: nat)
  {
    d < p < k < |run| && c < |run[k].closers| && c < |run[p + 1].closers| &&
    var items, pc, finished := run[d].queue.items, run[k].closers[c].pc, run[p + 1].now;
    && n <= |items|
    && run[p + 1].closers[c].pc == Rejecting(items, 0, finished)
    && (pc == Rejecting(items[n..], n, finished) || (n == |items| && PastRejecting(pc)))
    && forall x | 0 <= x < n :: Discard(items[x], finished) in run[k].log
  }

  /** Where the batch drained in step d is in state k. */
  ghost predicate BatchIs(run: seq<State>, c: nat, d: nat, k: nat)
  {
    d < k < |run| && c < |run[k].closers| && run[k].closers[c].mode.Abort? &&
    var items, pc := run[d].queue.items, run[k].closers[c].pc;
    pc == NotifyEmpty(items) || pc == NotifyFull(items) || exists p: nat, n: nat :: Discarding(run, c, d, p, n, k)
  }

  lemma DiscardingStep(run: seq<State>, c: nat, d: nat, p: nat, n: nat, k: nat) returns (n': nat)
    requires IsRun(run) && k + 1 < |run| && Discarding(run, c, d, p, n, k) && run[k].closers[c].mode.Abort?
    ensures Discarding(run, c, d, p, n', k + 1)
  {
    CloserInStep(run, k, c);
    var items, finished := run[d].queue.items, run[p + 1].now;
    assert forall e | e in run[k].log :: e in run[k + 1].log;
    n' := n;
    if run[k].closers[c].pc.Rejecting? && run[k + 1].closers[c].pc != run[k].closers[c].pc && n < |items| {
      n' := n + 1;
      assert items[n..][1..] == items[n + 1..] && items[n..][0] == items[n];
      assert run[k + 1].log[|run[k].log|] == Discard(items[n], finished);
    }
  }

  lemma BatchStep(run: seq<State>, c: nat, d: nat, k: nat)
    requires IsRun(run) && k + 1 < |run| && BatchIs(run, c, d, k)
    ensures BatchIs(run, c, d, k + 1)
  {
    CloserInStep(run, k, c);
    var items, pc := run[d].queue.items, run[k].closers[c].pc;
    if pc == NotifyEmpty(items) || pc == NotifyFull(items) {
      if run[k + 1].closers[c].pc.Rejecting? {
        assert items[0..] == items;
        assert Discarding(run, c, d, k, 0, k + 1);
      }
    } else {
      var p: nat, n: nat :| Discarding(run, c, d, p, n, k);
      var n' := DiscardingStep(run, c, d, p, n, k);
    }
  }

  lemma BatchStart(run: seq<State>, c: nat, d: nat)
    requires IsRun(run) && DrainsAt(run, c, d)
    ensures BatchIs(run, c, d, d + 1)
  {
    CloserInStep(run, d, c);
  }

  lemma BatchAlong(run: seq<State>, c: nat, d: nat, k: nat)
    requires IsRun(run) && DrainsAt(run, c, d) && d < k < |run|
    ensures BatchIs(run, c, d, k)
  {
    BatchStart(run, c, d);
    forall i: nat | d + 1 <= i < k && BatchIs(run, c, d, i)
      ensures BatchIs(run, c, d, i + 1)
    {
      BatchStep(run, c, d, i);
    }
    IndexInduction((i: nat) => BatchIs(run, c, d, i), d + 1, k);
  }

  /** While a shutdown_now call holds an envelope, its promise is not set. */
  lemma HeldNotSettled(s: State, c: nat, env: Envelope, m: nat)
    requires Reachable(s) && c < |s.closers| && env in Batch(s.closers[c].pc) && m < |s.log|
    ensures s.log[m].env != env
  {
    if s.log[m].env == env {
      var i :| 0 <= i < |Batch(s.closers[c].pc)| && Batch(s.closers[c].pc)[i] == env;
      ExactlyOnePlace(s, env.id);
      SumMember(Batch(s.closers[c].pc), i, WithId(env.id));
      SumMember(s.closers, c, CloserHolds(WithId(env.id)));
      SumMember(s.log, m, Settled(WithId(env.id)));
      assert false;
    }
  }

  /** The promise of an envelope is set by one entry of the log. */
  lemma SettledByOne(s: State, e: Settlement, m: nat)
    requires Reachable(s) && e in s.log && m < |s.log| && s.log[m].env == e.env
    ensures s.log[m] == e
  {
    var i :| 0 <= i < |s.log| && s.log[i] == e;
    if i < m {
      NoPromiseSetTwice(s, i, m);
    } else if m < i {
      NoPromiseSetTwice(s, m, i);
    }
  }

  /** Step p comes after the drain and before every rejection of the batch, and its instant is that of all of them. */
  ghost predicate OneInstant(run: seq<State>, log: seq<Settlement>, d: nat, p: nat)
  {
    d + 1 < |run| &&
    forall m: nat | m < |log| && log[m].env in run[d].queue.items ::
      && d < p < |run| - 1 && run[d + 1].now <= run[p + 1].now
      && log[m].cause.Discarded? && log[m] !in run[p + 1].log
      && log[m].result.timings == TaskTimings(log[m].env.submitted, run[p + 1].now, run[p + 1].now)
  }

  /** Of a batch being rejected, the entries of the log are those of the items already done. */
  lemma DiscardedEntry(s: State, c: nat, items: seq<Envelope>, n: nat, finished: int, m: nat)
    requires Reachable(s) && c < |s.closers| && n <= |items| && (n < |items| ==> Batch(s.closers[c].pc) == items[n..])
    requires forall x | 0 <= x < n :: Discard(items[x], finished) in s.log
    requires m < |s.log| && s.log[m].env in items
    ensures s.log[m] == Discard(s.log[m].env, finished)
  {
    var env := s.log[m].env;
    var x :| 0 <= x < |items| && items[x] == env;
    if x >= n {
      assert items[n..][x - n] == env;
      HeldNotSettled(s, c, env, m);
    } else {
      SettledByOne(s, Discard(env, finished), m);
    }
  }

  lemma DiscardedInstant(run: seq<State>, c: nat, d: nat, p: nat, n: nat, k: nat, m: nat)
    requires IsRun(run) && d + 1 < |run| && Discarding(run, c, d, p, n, k)
    requires m < |run[k].log| && run[k].log[m].env in run[d].queue.items
    ensures run[k].log[m] == Discard(run[k].log[m].env, run[p + 1].now) && run[k].log[m] !in run[p + 1].log
    ensures run[d + 1].now <= run[p + 1].now
  {
    assert run[k].log[m] == Discard(run[k].log[m].env, run[p + 1].now) by {
      RunReaches(run, k);
      DiscardedEntry(run[k], c, run[d].queue.items, n, run[p + 1].now, m);
    }
    NotSettledYet(run, c, d, p, run[k].log[m].env);
    GrownAlong(run, d + 1, p + 1);
  }

  lemma NotSettledYet(run: seq<State>, c: nat, d: nat, p: nat, env: Envelope)
    requires IsRun(run) && p + 1 < |run| && d < |run| && c < |run[p + 1].closers|
    requires env in run[d].queue.items && run[p + 1].closers[c].pc == Rejecting(run[d].queue.items, 0, run[p + 1].now)
    ensures forall e | e in run[p + 1].log :: e.env != env
  {
    RunReaches(run, p + 1);
    var log := run[p + 1].log;
    forall m: nat | m < |log|
      ensures log[m].env != env
    {
      HeldNotSettled(run[p + 1], c, env, m);
    }
  }

  lemma NothingRejectedYet(s: State, c: nat, items: seq<Envelope>)
    requires Reachable(s) && c < |s.closers| && Batch(s.closers[c].pc) == items
    ensures forall m: nat | m < |s.log| :: s.log[m].env !in items
  {
    forall m: nat | m < |s.log|
      ensures s.log[m].env !in items
    {
      if s.log[m].env in items {
        HeldNotSettled(s, c, s.log[m].env, m);
      }
    }
  }

  lemma DiscardingAtOneInstant(run: seq<State>, c: nat, d: nat, p: nat, n: nat)
    requires IsRun(run) && Discarding(run, c, d, p, n, |run| - 1)
    ensures OneInstant(run, run[|run| - 1].log, d, p)
  {
    var k := |run| - 1;
    forall m: nat | m < |run[k].log| && run[k].log[m].env in run[d].queue.items
      ensures run[k].log[m] == Discard(run[k].log[m].env, run[p + 1].now) && run[k].log[m] !in run[p + 1].log
      ensures run[d + 1].now <= run[p + 1].now
    {
      DiscardedInstant(run, c, d, p, n, k, m);
    }
  }

  /** In every run, the tasks that one shutdown_now call drains are rejected with one and the same instant, read after
      the drain and before the first of these rejections. */
  lemma DiscardedAtOneInstant(run: seq<State>, s: State, c: nat, d: nat) returns (p: nat)
    requires IsRunTo(run, s) && DrainsAt(run, c, d)
    ensures OneInstant(run, s.log, d, p)
  {
    var k := |run| - 1;
    BatchAlong(run, c, d, k);
    var items, pc := run[d].queue.items, s.closers[c].pc;
    p := 0;
    if pc == NotifyEmpty(items) || pc == NotifyFull(items) {
      RunReaches(run, k);
      NothingRejectedYet(s, c, items);
    } else {
      var n: nat;
      p, n :| Discarding(run, c, d, p, n, k);
      DiscardingAtOneInstant(run, c, d, p, n);
    }
  }

  // ----- every discarded task was drained by one call -----

  ghost predicate DrainedBy(s: State, s': State, c: nat)
  {
    && c < |s.closers| && c < |s'.closers| && s.closers[c] == Closer(Abort, Called) && !s'.closers[c].pc.Called?
    && s'.drained == s.drained + s.queue.items
  }

  lemma DrainedByCloser(s: State, c: nat, a: CloserAction)
    requires CloserEnabled(s, c, a)
    ensures CloserStep(s, c, a).drained == s.drained || DrainedBy(s, CloserStep(s, c, a), c)
  {
  }

  lemma DrainedByAct(s: State, a: Action)
    requires Enabled(s, a)
    ensures Act(s, a).drained == s.drained || exists c: nat :: DrainedBy(s, Act(s, a), c)
  {
    match a
    case Worker(w, wa) => WorkerLeaves(s, w, wa);
    case Submitter(i, sa) => SubmitLeaves(s, i, sa);
    case Stopper(c, ca) => DrainedByCloser(s, c, ca);
    case _ =>
  }

  lemma DrainedNext(s: State, s': State)
    requires Next(s, s')
    ensures s'.drained == s.drained || exists c: nat :: DrainedBy(s, s', c)
  {
    var a, t :| Step(s, a, t, s');
    DrainedByAct(At(s, t), a);
    if c: nat :| DrainedBy(At(s, t), s', c) {
      assert DrainedBy(s, s', c);
    }
  }

  lemma DrainedInStep(run: seq<State>, k: nat, x: nat) returns (c: nat)
    requires IsRun(run) && k + 1 < |run| && x < |run[k + 1].drained|
    ensures if x < |run[k].drained| then run[k].drained[x] == run[k + 1].drained[x]
            else DrainsAt(run, c, k) && run[k + 1].drained[x] in run[k].queue.items
  {
    RunStep(run, k);
    DrainedNext(run[k], run[k + 1]);
    c := 0;
    if run[k + 1].drained != run[k].drained {
      c :| DrainedBy(run[k], run[k + 1], c);
    }
  }

  lemma {:induction false} DrainStep(run: seq<State>, k: nat, x: nat) returns (c: nat, d: nat)
    requires IsRun(run) && k < |run| && x < |run[k].drained|
    ensures d < k && DrainsAt(run, c, d) && run[k].drained[x] in run[d].queue.items
    decreases k
  {
    assert k > 0 by {
      RunStart(run);
    }
    c := DrainedInStep(run, k - 1, x);
    if x < |run[k - 1].drained| {
      c, d := DrainStep(run, k - 1, x);
    } else {
      d := k - 1;
    }
  }

  lemma DiscardedWasDrained(s: State, m: nat) returns (x: nat)
    requires Reachable(s) && m < |s.log| && s.log[m].cause.Discarded?
    ensures x < |s.drained| && s.drained[x] == s.log[m].env
  {
    var env := s.log[m].env;
    ReachableSound(s, SameAs(env), EverySample);
    SumMember(s.log, m, SettledBy(Discarded, SameAs(env)));
    x := SumWitness(s.drained, |s.drained|, SameAs(env));
  }

  lemma SettledLater(run: seq<State>, e: Settlement, q: nat, p: nat)
    requires IsRun(run) && SettledAt(run, e, q) && p + 1 < |run| && e !in run[p + 1].log
    ensures p < q
  {
    assert run[q + 1].log[|run[q].log|] == e;
    if q <= p {
      GrownAlong(run, q + 1, p + 1);
    }
  }

  /** In every run, a discarded task was in the queue when a shutdown_now call drained it in step d; its result carries,
      twice, the instant of a step p between that drain and the step q that rejected it, and so do the results of all
      tasks drained with it. */
  lemma DiscardedInstants(run: seq<State>, s: State, m: nat) returns (c: nat, d: nat, p: nat, q: nat)
    requires IsRunTo(run, s) && m < |s.log| && s.log[m].cause.Discarded?
    ensures DrainsAt(run, c, d) && s.log[m].env in run[d].queue.items
    ensures d < p < q && SettledAt(run, s.log[m], q)
    ensures s.log[m].result.timings == TaskTimings(s.log[m].env.submitted, run[p + 1].now, run[p + 1].now)
    ensures OneInstant(run, s.log, d, p)
  {
    RunReaches(run, |run| - 1);
    var x := DiscardedWasDrained(s, m);
    c, d := DrainStep(run, |run| - 1, x);
    p := DiscardedAtOneInstant(run, s, c, d);
    q := SettleStep(run, |run| - 1, m);
    SettledLater(run, s.log[m], q, p);
  }
}
