/** The command-line run: one thread that submits, stops the engine and reports, beside the engine's own steps. */
module Cli {
  import opened Core
  import opened Runs
  import opened Protocol
  import opened Structure
  import opened Records
  import opened Ledger
  import opened Progress
  import opened Reachability
  import opened Engine
  import opened Metrics
  import opened Accounting
  import opened Sums
  import CommandLine
  import Termination

  /** make_task: every failEvery-th task throws, the others compute and return. */
  function MakeTask(options: CommandLine.Options, index: nat): Outcome
  {
    if options.failEvery != 0 && (index + 1) % options.failEvery == 0
    then ThrowsException("injected failure")
    else Returns
  }

  /** What the run prints and returns. */
  datatype Report = Report(interrupted: bool, summary: RunSummary, exitCode: int)

  datatype MainPc =
    | Starting                                                      // inside the engine's constructor
    | Looping(next: nat)                                            // about to look at the flag
    | Submitting(index: nat)                                        // saw the flag clear, about to submit
    | InSubmit(index: nat)
    | LoopDone                                                      // about to look at the flag for the last time
    | Deciding(interrupted: bool)                                   // about to call shutdown or shutdown_now
    | Stopping(interrupted: bool)
    | Reported(report: Report)                                      // about to destroy the engine
    | Destroying(report: Report)                                    // inside the engine's destructor
    | Ended(report: Report)
    | Crashed                                                       // the constructor threw

  datatype Program = Program(options: CommandLine.Options, engine: State, interrupted: bool, pc: MainPc)

  /** The engine no longer exists. */
  predicate Over(pc: MainPc) { pc.Ended? || pc.Crashed? }

  /** A step of the engine's threads or of the calls in flight. */
  ghost predicate EngineMoves(p: Program, p': Program)
  {
    && !Over(p.pc)
    && p' == p.(engine := p'.engine)
    && exists a, t :: Step(p.engine, a, t, p'.engine) && !IsArrival(a)
  }

  ghost predicate Calls(p: Program, p': Program, call: Action, pc: MainPc)
  {
    && p' == p.(engine := p'.engine, pc := pc)
    && exists t :: Step(p.engine, call, t, p'.engine)
  }

  function StopMode(interrupted: bool): Mode { if interrupted then Abort else Drain }

  function MakeReport(s: State, interrupted: bool): Report
  {
    var summary := EngineSummary(s);
    Report(interrupted, summary,
           if interrupted then CommandLine.EXIT_TASK_FAILURE
           else CommandLine.ExitCodeFor(summary.failed, summary.rejected))
  }

  /** A step of the main thread. */
  ghost predicate MainMoves(p: Program, p': Program)
  {
    match p.pc
    case Starting =>
      || (p.engine.phase.Ready? && p' == p.(pc := Looping(0)))
      || (p.engine.phase.ConstructorThrew? && AllReturned(p.engine) && p' == p.(pc := Crashed))
    case Looping(i) =>
      p' == p.(pc := if i < p.options.tasks && !p.interrupted then Submitting(i) else LoopDone)
    case Submitting(i) => Calls(p, p', Submit(MakeTask(p.options, i)), InSubmit(i))
    case InSubmit(i) =>
      i < |p.engine.submits| && p.engine.submits[i].Done? && p' == p.(pc := Looping(i + 1))
    case LoopDone => p' == p.(pc := Deciding(p.interrupted))
    case Deciding(interrupted) => Calls(p, p', Shutdown(StopMode(interrupted)), Stopping(interrupted))
    case Stopping(interrupted) =>
      && p.engine.closers != [] && p.engine.closers[0].pc.Returned?
      && p' == p.(pc := Reported(MakeReport(p.engine, interrupted)))
    case Reported(report) => Calls(p, p', Shutdown(Drain), Destroying(report))
    case Destroying(report) =>
      |p.engine.closers| == 2 && p.engine.closers[1].pc.Returned? && p' == p.(pc := Ended(report))
    case _ => false
  }

  /** A signal may arrive at any moment. */
  ghost predicate ProgramStep(p: Program, p': Program)
  {
    EngineMoves(p, p') || MainMoves(p, p') || p' == p.(interrupted := true)
  }

  ghost predicate ProgramInit(p: Program)
  {
    && Init(p.engine) && p.pc.Starting?
    && p.engine.workerCount == p.options.workers && p.engine.queue.capacity == p.options.queueCapacity
  }

  ghost predicate ReachableProgram(p: Program)
  {
    exists p0, n: nat :: ProgramInit(p0) && Leads(ProgramStep, p0, p, n)
  }

  // ----- what the main thread keeps -----

  ghost predicate AllAccepted(submits: seq<SubmitPc>, n: nat)
  {
    n <= |submits| && forall i | 0 <= i < n :: submits[i] == Done(true)
  }

  ghost predicate MadeBy(options: CommandLine.Options, issued: seq<Envelope>)
  {
    forall i | 0 <= i < |issued| :: issued[i].outcome == MakeTask(options, i)
  }

  ghost predicate TasksAsMade(p: Program) { MadeBy(p.options, p.engine.issued) }

  /** failed is tasks / fail-every, the rest succeeded, and the exit code is 0 if no task is made to fail, else 1. */
  ghost predicate CountsInjected(options: CommandLine.Options, report: Report)
  {
    var n, k, r := options.tasks, options.failEvery, report.summary;
    && r.total == n
    && r.failed == (if k == 0 then 0 else n / k)
    && r.succeeded == n - r.failed
    && r.rejected == 0
    && report.exitCode == (if k == 0 || n < k then 0 else 1)
  }

  /** What a report says of a run that submitted the given number of tasks. */
  ghost predicate Truthful(options: CommandLine.Options, submitted: nat, report: Report)
  {
    var r := report.summary;
    && r.succeeded + r.failed + r.rejected == r.total == submitted <= options.tasks
    && (report.interrupted ==> report.exitCode == 1)
    && (!report.interrupted ==> CountsInjected(options, report))
  }

  /** The first stopping call aborts if the run was interrupted and drains otherwise. */
  ghost predicate StopChosen(closers: seq<Closer>, interrupted: bool)
  {
    closers != [] && closers[0].mode == if interrupted then Abort else Drain
  }

  /** The stop behind a report: if interrupted, the queue was drained at once, what had been dequeued by then was run
      and what had not was rejected. */
  ghost predicate StoppedFor(s: State, report: Report)
  {
    && StopChosen(s.closers, report.interrupted)
    && (report.interrupted ==>
          && s.aborted
          && report.summary.succeeded + report.summary.failed == |s.popped|
          && report.summary.rejected == |s.drained|)
  }

  /** A report made: the run it describes, and the flag behind it. */
  ghost predicate ReportStands(p: Program, report: Report)
  {
    && Truthful(p.options, |p.engine.issued|, report)
    && StoppedFor(p.engine, report)
    && (report.interrupted ==> p.interrupted)
  }

  ghost predicate Position(p: Program)
  {
    var s, tasks := p.engine, p.options.tasks;
    match p.pc
    case Starting => s.submits == [] && (!s.phase.ConstructorThrew? ==> s.closers == [])
    case Looping(i) =>
      s.phase.Ready? && s.closers == [] && |s.submits| == i <= tasks && AllAccepted(s.submits, i)
    case Submitting(i) =>
      s.phase.Ready? && s.closers == [] && |s.submits| == i < tasks && AllAccepted(s.submits, i)
    case InSubmit(i) =>
      s.phase.Ready? && s.closers == [] && |s.submits| == i + 1 <= tasks && AllAccepted(s.submits, i)
    case LoopDone =>
      && s.phase.Ready? && s.closers == [] && AllAccepted(s.submits, |s.submits|) && |s.submits| <= tasks
      && (p.interrupted || |s.submits| == tasks)
    case Deciding(b) =>
      && s.phase.Ready? && s.closers == [] && AllAccepted(s.submits, |s.submits|) && |s.submits| <= tasks
      && (b || |s.submits| == tasks) && (b ==> p.interrupted)
    case Stopping(b) =>
      && s.phase.Ready? && |s.closers| == 1 && StopChosen(s.closers, b) && AllAccepted(s.submits, |s.submits|)
      && |s.submits| <= tasks && (b || |s.submits| == tasks) && (b ==> p.interrupted)
    case Reported(report) =>
      s.phase.Ready? && |s.closers| == 1 && AllAccepted(s.submits, |s.submits|) && ReportStands(p, report)
    case Destroying(report) =>
      s.phase.Ready? && |s.closers| == 2 && AllAccepted(s.submits, |s.submits|) && ReportStands(p, report)
    case Ended(report) => s.phase.Ready? && ReportStands(p, report)
    case Crashed => s.phase.ConstructorThrew? && AllReturned(s)
  }

  /** The engine has the workers and the queue the options ask for. */
  ghost predicate Configured(p: Program)
  {
    p.engine.workerCount == p.options.workers && p.engine.queue.capacity == p.options.queueCapacity
  }

  ghost predicate ProgramInvariant(p: Program)
  {
    Reachable(p.engine) && Configured(p) && TasksAsMade(p) && Position(p)
  }

  ghost predicate ReturnsKept(submits: seq<SubmitPc>, submits': seq<SubmitPc>)
  {
    |submits'| == |submits| && forall i | 0 <= i < |submits| :: submits[i].Done? ==> submits'[i] == submits[i]
  }

  ghost predicate ModesKept(closers: seq<Closer>, closers': seq<Closer>)
  {
    |closers'| == |closers| && forall c | 0 <= c < |closers| :: closers'[c].mode == closers[c].mode
  }

  /** Engine steps issue nothing, start no calls once constructed, and leave returned submit calls alone. */
  ghost predicate Undisturbed(s: State, s': State)
  {
    && s'.issued == s.issued && s'.workerCount == s.workerCount && s'.queue.capacity == s.queue.capacity
    && ReturnsKept(s.submits, s'.submits)
    && (s.phase.Ready? ==> s'.phase.Ready?)
    && (!s'.phase.ConstructorThrew? ==> !s.phase.ConstructorThrew? && ModesKept(s.closers, s'.closers))
  }

  lemma UndisturbedByWorker(s: State, w: nat, a: WorkerAction)
    requires WorkerEnabled(s, w, a)
    ensures Undisturbed(s, WorkerStep(s, w, a))
  {
  }

  lemma UndisturbedBySubmit(s: State, i: nat, a: SubmitAction)
    requires SubmitEnabled(s, i, a)
    ensures Undisturbed(s, SubmitStep(s, i, a))
  {
  }

  lemma UndisturbedByCloser(s: State, c: nat, a: CloserAction)
    requires CloserEnabled(s, c, a)
    ensures Undisturbed(s, CloserStep(s, c, a))
  {
  }

  lemma UndisturbedByEngine(s: State, a: Action)
    requires Enabled(s, a) && !IsArrival(a)
    ensures Undisturbed(s, Act(s, a))
  {
    match a
    case Worker(w, wa) => UndisturbedByWorker(s, w, wa);
    case Submitter(i, sa) => UndisturbedBySubmit(s, i, sa);
    case Stopper(c, ca) => UndisturbedByCloser(s, c, ca);
    case _ =>
  }

  lemma EngineStepKeeps(s: State, s': State, a: Action, t: int)
    requires Reachable(s) && Step(s, a, t, s') && !IsArrival(a)
    ensures Reachable(s') && Undisturbed(s, s') && Since(s, s') && Fifo(s)
  {
    UndisturbedByEngine(At(s, t), a);
    assert Next(s, s');
    ReachableNext(s, s');
    ReachableSound(s, EveryEnvelope, EverySample);
    SinceNext(s, s');
  }

  /** Engine steps leave the stop behind a report as it was. */
  lemma StopStands(s: State, s': State, report: Report)
    requires Fifo(s) && Since(s, s') && ModesKept(s.closers, s'.closers) && StoppedFor(s, report)
    ensures StoppedFor(s', report)
  {
  }

  lemma UndisturbedPosition(p: Program, p': Program)
    requires TasksAsMade(p) && Position(p) && !Over(p.pc) && Fifo(p.engine) && Since(p.engine, p'.engine)
    requires p' == p.(engine := p'.engine) && Undisturbed(p.engine, p'.engine)
    ensures TasksAsMade(p') && Position(p')
  {
    if p.pc.Reported? || p.pc.Destroying? {
      StopStands(p.engine, p'.engine, p.pc.report);
    }
  }

  lemma EngineMovesKeep(p: Program, p': Program)
    requires ProgramInvariant(p) && EngineMoves(p, p')
    ensures ProgramInvariant(p')
  {
    var a, t :| Step(p.engine, a, t, p'.engine) && !IsArrival(a);
    EngineStepKeeps(p.engine, p'.engine, a, t);
    UndisturbedPosition(p, p');
  }

  /** While no shutdown call has been made, a submit call that returns was accepted. */
  lemma NoStopNoRefusal(s: State, i: nat)
    requires Closing(s) && Verdicts(s) && s.closers == [] && i < |s.submits| && s.submits[i].Done?
    ensures s.submits[i] == Done(true)
  {
    assert !s.queue.closed;
    assert !WasRejected(s.submits[i]);
  }

  /** The stopping call has returned: every worker is joined and no call is in flight. */
  lemma StopReturned(s: State)
    requires Ids(s) && Closing(s) && s.phase.Ready? && AllAccepted(s.submits, |s.submits|)
    requires |s.closers| == 1 && s.closers[0].pc.Returned?
    ensures Quiescent(s) && |s.submits| == |s.issued| == s.nextId - 1
  {
    assert PastClosing(s.closers, 0);
  }

  lemma SubmitEffect(s: State, s': State, outcome: Outcome, t: int)
    requires Step(s, Submit(outcome), t, s')
    ensures s'.issued == s.issued + [Envelope(s.nextId, outcome, t)] && |s'.submits| == |s.submits| + 1
    ensures s'.submits[..|s.submits|] == s.submits && s'.closers == s.closers && s'.phase == s.phase
    ensures Next(s, s')
  {
  }

  lemma StopEffect(s: State, s': State, mode: Mode, t: int)
    requires Step(s, Shutdown(mode), t, s')
    ensures s' == At(s, t).(closers := s.closers + [Closer(mode, Called)])
    ensures Next(s, s')
  {
  }

  lemma SubmitCallKeeps(p: Program, p': Program, i: nat)
    requires Ids(p.engine) && TasksAsMade(p) && Position(p) && p.pc == Submitting(i)
    requires Calls(p, p', Submit(MakeTask(p.options, i)), InSubmit(i))
    ensures Next(p.engine, p'.engine) && TasksAsMade(p') && Position(p') && (Configured(p) ==> Configured(p'))
  {
    var t :| Step(p.engine, Submit(MakeTask(p.options, i)), t, p'.engine);
    SubmitEffect(p.engine, p'.engine, MakeTask(p.options, i), t);
    assert forall k | 0 <= k < i :: p'.engine.submits[k] == p'.engine.submits[..i][k];
  }

  lemma StopCallKeeps(p: Program, p': Program)
    requires TasksAsMade(p) && Position(p) && p.pc.Deciding?
    requires Calls(p, p', Shutdown(StopMode(p.pc.interrupted)), Stopping(p.pc.interrupted))
    ensures Next(p.engine, p'.engine) && TasksAsMade(p') && Position(p') && (Configured(p) ==> Configured(p'))
  {
    var t :| Step(p.engine, Shutdown(StopMode(p.pc.interrupted)), t, p'.engine);
    StopEffect(p.engine, p'.engine, StopMode(p.pc.interrupted), t);
  }

  lemma DestructorCallKeeps(p: Program, p': Program)
    requires TasksAsMade(p) && Position(p) && p.pc.Reported? && Calls(p, p', Shutdown(Drain), Destroying(p.pc.report))
    ensures Next(p.engine, p'.engine) && TasksAsMade(p') && Position(p') && (Configured(p) ==> Configured(p'))
  {
    var t :| Step(p.engine, Shutdown(Drain), t, p'.engine);
    StopEffect(p.engine, p'.engine, Drain, t);
  }

  /** Moves of the main thread that leave the engine alone. */
  lemma LocalMovesKeep(p: Program, p': Program)
    requires Structural(p.engine) && Verdicts(p.engine) && TasksAsMade(p) && Position(p)
    requires MainMoves(p, p') && p'.engine == p.engine
    requires p.pc.Starting? || p.pc.Looping? || p.pc.InSubmit? || p.pc.LoopDone? || p.pc.Destroying?
    ensures TasksAsMade(p') && Position(p')
  {
    if p.pc.InSubmit? {
      NoStopNoRefusal(p.engine, p.pc.index);
    }
  }

  lemma OneStopDrains(s: State, interrupted: bool)
    requires |s.closers| == 1 && StopChosen(s.closers, interrupted)
    ensures interrupted || OnlyDrains(s)
  {
  }

  lemma ReportKeeps(p: Program, p': Program)
    requires Reachable(p.engine) && TasksAsMade(p) && Position(p) && p.pc.Stopping? && MainMoves(p, p')
    ensures TasksAsMade(p') && Position(p') && p'.engine == p.engine
  {
    assert Structural(p.engine) by {
      ReachableInvariant(p.engine);
    }
    StopReturned(p.engine);
    OneStopDrains(p.engine, p.pc.interrupted);
    ReportIsTruthful(p.options, p.engine, p.pc.interrupted);
    ReportedStop(p.engine, p.pc.interrupted);
  }

  lemma MainMovesKeep(p: Program, p': Program)
    requires ProgramInvariant(p) && MainMoves(p, p')
    ensures ProgramInvariant(p')
  {
    ReachableInvariant(p.engine);
    if p.pc.Submitting? {
      SubmitCallKeeps(p, p', p.pc.index);
      ReachableNext(p.engine, p'.engine);
    } else if p.pc.Deciding? {
      StopCallKeeps(p, p');
      ReachableNext(p.engine, p'.engine);
    } else if p.pc.Reported? {
      DestructorCallKeeps(p, p');
      ReachableNext(p.engine, p'.engine);
    } else if p.pc.Stopping? {
      ReportKeeps(p, p');
    } else {
      LocalMovesKeep(p, p');
    }
  }

  lemma ReachableProgramInvariant(p: Program)
    requires ReachableProgram(p)
    ensures ProgramInvariant(p)
  {
    var p0, n: nat :| ProgramInit(p0) && Leads(ProgramStep, p0, p, n);
    assert Leads(Next, p0.engine, p0.engine, 0);
    forall x, y | ProgramInvariant(x) && ProgramStep(x, y)
      ensures ProgramInvariant(y)
    {
      ProgramStepKeeps(x, y);
    }
    Runs.InvariantAlong(ProgramStep, ProgramInvariant, p0, p, n);
  }

  lemma ProgramStepKeeps(p: Program, p': Program)
    requires ProgramInvariant(p) && ProgramStep(p, p')
    ensures ProgramInvariant(p')
  {
    if EngineMoves(p, p') {
      EngineMovesKeep(p, p');
    } else if MainMoves(p, p') {
      MainMovesKeep(p, p');
    }
  }

  // ----- the outcome -----

  function IsThrowing(env: Envelope): nat { if env.outcome.Returns? then 0 else 1 }

  lemma QuotientStep(n: nat, k: nat)
    requires k > 0
    ensures (n + 1) / k == n / k + if (n + 1) % k == 0 then 1 else 0
  {
    var q, r := n / k, n % k;
    assert n == q * k + r && (q + 1) * k == q * k + k;
    if r + 1 < k {
      DivisionIsUnique(n + 1, k, q, r + 1);
    } else {
      DivisionIsUnique(n + 1, k, q + 1, 0);
    }
  }

  lemma DivisionIsUnique(n: nat, k: nat, q: nat, r: nat)
    requires n == q * k + r && r < k
    ensures n / k == q && n % k == r
  {
    assert k * (n / k) + n % k == n;
    assert k * (q + 1) == q * k + k && k * (n / k + 1) == k * (n / k) + k;
    Cancel(k, n / k, q + 1);
    Cancel(k, q, n / k + 1);
  }

  /** Fault injection makes n / failEvery of the first n tasks throw. */
  lemma {:induction false} InjectedFailures(options: CommandLine.Options, issued: seq<Envelope>, n: nat)
    requires n <= |issued| && MadeBy(options, issued)
    ensures SumTo(issued, n, IsThrowing) == if options.failEvery == 0 then 0 else n / options.failEvery
  {
    if n == 0 {
      if options.failEvery != 0 {
        DivisionIsUnique(0, options.failEvery, 0, 0);
      }
    } else {
      InjectedFailures(options, issued, n - 1);
      if options.failEvery != 0 {
        QuotientStep(n - 1, options.failEvery);
      }
    }
  }

  /** With every submit call accepted and only a draining stop, every promise was set by a worker. */
  lemma EverythingRan(s: State, k: nat)
    requires Verdicts(s) && DrainedLaw(s, EveryEnvelope) && s.drained == []
    requires AllAccepted(s.submits, |s.submits|) && k < |s.log|
    ensures s.log[k].cause.Ran?
  {
    SumMember(s.log, k, SettledBy(Discarded, EveryEnvelope));
  }

  lemma FailuresAreThrows(s: State)
    requires GenuineLog(s.log) && forall k | 0 <= k < |s.log| :: s.log[k].cause.Ran?
    ensures Futures(s, Failed) == Sum(s.log, Settled(IsThrowing)) && Futures(s, Rejected) == 0
  {
    SumEqual(s.log, s.log, ResultIn(Failed), Settled(IsThrowing));
    SumZero(s.log, ResultIn(Rejected));
  }

  /** A drained run of accepted submissions: the failures are the tasks that throw, and nothing is rejected. */
  lemma DrainedRunCounts(s: State)
    requires Reachable(s) && Quiescent(s) && OnlyDrains(s) && AllAccepted(s.submits, |s.submits|)
    ensures Futures(s, Failed) == Sum(s.issued, IsThrowing) && Futures(s, Rejected) == 0
  {
    ReachableSound(s, EveryEnvelope, EverySample);
    NothingDrained(s);
    forall k | 0 <= k < |s.log|
      ensures s.log[k].cause.Ran?
    {
      EverythingRan(s, k);
    }
    FailuresAreThrows(s);
    SettledConservation(s, IsThrowing);
  }

  /** The same, as the summary reports it. */
  lemma DrainedRunSummary(s: State)
    requires Reachable(s) && Quiescent(s) && OnlyDrains(s) && AllAccepted(s.submits, |s.submits|)
    ensures var r := EngineSummary(s);
            && r.failed == Sum(s.issued, IsThrowing) && r.rejected == 0
            && r.succeeded + r.failed == r.total == s.nextId - 1
  {
    DrainedRunCounts(s);
    SummaryMatchesFutures(s);
  }

  lemma QuotientZero(n: nat, k: nat)
    requires k > 0
    ensures n / k == 0 <==> n < k
  {
    if n < k {
      DivisionIsUnique(n, k, 0, n);
    }
  }

  /** The report of an uninterrupted run: all tasks were submitted, the stop was a drain. */
  lemma DrainedReport(options: CommandLine.Options, s: State)
    requires Reachable(s) && Quiescent(s) && OnlyDrains(s) && AllAccepted(s.submits, |s.submits|)
    requires MadeBy(options, s.issued) && |s.issued| == s.nextId - 1 == options.tasks
    ensures CountsInjected(options, MakeReport(s, false))
  {
    DrainedRunSummary(s);
    InjectedFailures(options, s.issued, |s.issued|);
    if options.failEvery != 0 {
      QuotientZero(options.tasks, options.failEvery);
    }
  }

  lemma SummaryTotals(s: State)
    requires Reachable(s) && Quiescent(s)
    ensures var r := EngineSummary(s); r.succeeded + r.failed + r.rejected == r.total == s.nextId - 1
  {
    SummaryMatchesFutures(s);
  }

  lemma ReportIsTruthful(options: CommandLine.Options, s: State, interrupted: bool)
    requires Reachable(s) && Quiescent(s) && AllAccepted(s.submits, |s.submits|)
    requires MadeBy(options, s.issued) && |s.issued| == s.nextId - 1 <= options.tasks
    requires interrupted || (OnlyDrains(s) && |s.issued| == options.tasks)
    ensures Truthful(options, |s.issued|, MakeReport(s, interrupted))
  {
    SummaryTotals(s);
    if !interrupted {
      DrainedReport(options, s);
    }
  }

  // ----- the stop -----

  lemma NoneRefused(s: State)
    requires Verdicts(s) && AllAccepted(s.submits, |s.submits|)
    ensures forall k | 0 <= k < |s.log| :: !s.log[k].cause.PushRefused?
  {
  }

  /** With every submit call accepted, the rejected tasks are the drained ones. */
  lemma RejectedAreDrained(s: State)
    requires Reachable(s) && Quiescent(s) && AllAccepted(s.submits, |s.submits|)
    ensures Futures(s, Rejected) == |s.drained|
  {
    NothingHeldAtRest(s, EveryEnvelope, EverySample);
    assert Verdicts(s) by {
      ReachableInvariant(s);
    }
    NoneRefused(s);
    ReachableLaws(s, EveryEnvelope, EverySample);
    RejectionsAreRejectedResults(s.log);
    SumEqual(s.log, s.log, IsRejection, SettledBy(Discarded, EveryEnvelope));
    SumOnes(s.drained, |s.drained|, EveryEnvelope, 1);
  }

  /** With every submit call accepted, each submission was dequeued or drained. */
  lemma DequeuedOrDrained(s: State)
    requires Reachable(s) && Quiescent(s) && AllAccepted(s.submits, |s.submits|)
    ensures |s.popped| + |s.drained| == |s.issued| == s.nextId - 1
  {
    NothingHeldAtRest(s, EveryEnvelope, EverySample);
    assert Verdicts(s) by {
      ReachableInvariant(s);
    }
    NoneRefused(s);
    ReachableLaws(s, EveryEnvelope, EverySample);
    SumZero(s.log, SettledBy(PushRefused, EveryEnvelope));
    SumOnes(s.issued, |s.issued|, EveryEnvelope, 1);
    SumOnes(s.accepted, |s.accepted|, EveryEnvelope, 1);
  }

  lemma StopCounts(s: State)
    requires Reachable(s) && Quiescent(s) && AllAccepted(s.submits, |s.submits|)
    ensures var r := EngineSummary(s); r.succeeded + r.failed == |s.popped| && r.rejected == |s.drained|
  {
    SummaryMatchesFutures(s);
    RejectedAreDrained(s);
    DequeuedOrDrained(s);
  }

  lemma ReportedStop(s: State, interrupted: bool)
    requires Reachable(s) && Quiescent(s) && AllAccepted(s.submits, |s.submits|) && StopChosen(s.closers, interrupted)
    ensures StoppedFor(s, MakeReport(s, interrupted))
  {
    ReachableInvariant(s);
    StopCounts(s);
    assert s.closers[0].pc.Returned?;
    assert interrupted ==> HasDrained(s.closers, 0);
  }

  ghost predicate HasReport(pc: MainPc) { pc.Reported? || pc.Destroying? || pc.Ended? }

  /** Every uninterrupted run: failed is tasks / fail-every, the rest succeeded, nothing was rejected, and the exit code
      is 0 when no task was made to fail and 1 otherwise. */
  lemma UninterruptedOutcome(p: Program)
    requires ReachableProgram(p) && HasReport(p.pc) && !p.pc.report.interrupted
    ensures var n, k, r := p.options.tasks, p.options.failEvery, p.pc.report.summary;
            && r.total == n
            && r.failed == (if k == 0 then 0 else n / k)
            && r.succeeded == n - r.failed
            && r.rejected == 0
            && p.pc.report.exitCode == (if k == 0 || n < k then 0 else 1)
  {
    ReachableProgramInvariant(p);
  }

  /** Every interrupted run: the flag was up, the stop was shutdown_now, so the tasks still queued then were drained and
      are exactly those reported as rejected, and those reported as run are exactly the ones dequeued before. The exit
      code is 1, and the counts still account for every task submitted. */
  lemma InterruptedOutcome(p: Program)
    requires ReachableProgram(p) && HasReport(p.pc) && p.pc.report.interrupted
    ensures p.interrupted && p.pc.report.exitCode == 1
    ensures p.engine.closers != [] && p.engine.closers[0].mode == Abort && p.engine.aborted
    ensures var r := p.pc.report.summary;
            && r.succeeded + r.failed + r.rejected == r.total == |p.engine.issued| <= p.options.tasks
            && r.succeeded + r.failed == |p.engine.popped|
            && r.rejected == |p.engine.drained|
  {
    ReachableProgramInvariant(p);
  }

  /** The first stopping call of a run is shutdown_now if the run is reported as interrupted, and shutdown if not. */
  lemma StopFollowsReport(p: Program)
    requires ReachableProgram(p) && HasReport(p.pc)
    ensures p.engine.closers != []
    ensures p.engine.closers[0].mode == (if p.pc.report.interrupted then Abort else Drain)
    ensures p.pc.report.interrupted ==> p.engine.aborted && p.interrupted
  {
    ReachableProgramInvariant(p);
  }

  // ----- no submission after the flag -----

  /** The main thread is past its loop, or will meet the raised flag before it submits again. */
  predicate SubmitsNoMore(p: Program)
  {
    match p.pc
    case Submitting(_) => false
    case Starting => p.interrupted
    case Looping(_) => p.interrupted
    case InSubmit(_) => p.interrupted
    case _ => true
  }

  lemma NoMoreSubmissions(p: Program, p': Program)
    requires ProgramStep(p, p') && SubmitsNoMore(p)
    ensures SubmitsNoMore(p') && p'.engine.issued == p.engine.issued
  {
    if EngineMoves(p, p') {
      var a, t :| Step(p.engine, a, t, p'.engine) && !IsArrival(a);
      UndisturbedByEngine(At(p.engine, t), a);
    }
  }

  /** The submission the main thread may already be committed to. */
  lemma OneMoreSubmission(p: Program, p': Program)
    requires ProgramStep(p, p') && p.interrupted && p.pc.Submitting?
    ensures p'.interrupted && if p'.pc.Submitting? then p'.engine.issued == p.engine.issued
                              else SubmitsNoMore(p') && |p'.engine.issued| == |p.engine.issued| + 1
  {
    if EngineMoves(p, p') {
      var a, t :| Step(p.engine, a, t, p'.engine) && !IsArrival(a);
      UndisturbedByEngine(At(p.engine, t), a);
    }
  }

  ghost predicate AtMostOneMore(p: Program, p': Program)
  {
    if p'.pc.Submitting? then p'.interrupted && p'.engine.issued == p.engine.issued
    else SubmitsNoMore(p') && |p'.engine.issued| <= |p.engine.issued| + 1
  }

  /** In every run: once the main thread has met the raised flag in its loop, or has left the loop, nothing is submitted
      any more; from the moment the flag is raised, at most the one submission already decided on. */
  lemma NothingSubmittedAfterFlag(p: Program, p': Program, n: nat)
    requires Leads(ProgramStep, p, p', n)
    ensures SubmitsNoMore(p) ==> p'.engine.issued == p.engine.issued
    ensures p.interrupted ==> |p'.engine.issued| <= |p.engine.issued| + 1
  {
    if SubmitsNoMore(p) {
      forall x, y | SubmitsNoMore(x) && x.engine.issued == p.engine.issued && ProgramStep(x, y)
        ensures SubmitsNoMore(y) && y.engine.issued == p.engine.issued
      {
        NoMoreSubmissions(x, y);
      }
      Runs.InvariantAlong(ProgramStep, x => SubmitsNoMore(x) && x.engine.issued == p.engine.issued, p, p', n);
    } else if p.interrupted {
      forall x, y | AtMostOneMore(p, x) && ProgramStep(x, y)
        ensures AtMostOneMore(p, y)
      {
        if x.pc.Submitting? {
          OneMoreSubmission(x, y);
        } else {
          NoMoreSubmissions(x, y);
        }
      }
      Runs.InvariantAlong(ProgramStep, x => AtMostOneMore(p, x), p, p', n);
    }
  }

  // ----- which tasks fail -----

  /** Task number id throws exactly if fail-every divides id, and its result says so. */
  lemma FailuresAreInjected(p: Program, e: Settlement)
    requires ReachableProgram(p) && e in p.engine.log && e.cause.Ran?
    ensures var k := p.options.failEvery;
            if k != 0 && e.env.id % k == 0
            then e.result.state == Failed && e.result.error == "injected failure"
            else e.result.state == Succeeded && e.result.error == ""
    ensures e.result.id == e.env.id
  {
    ReachableProgramInvariant(p);
    var m :| 0 <= m < |p.engine.log| && p.engine.log[m] == e;
    ResultsAreTruthful(p.engine, m);
  }

  /** The engine runs with the number of workers and the queue capacity the options give. */
  lemma EngineIsConfigured(p: Program)
    requires ReachableProgram(p)
    ensures p.engine.workerCount == p.options.workers && |p.engine.workers| <= p.options.workers
    ensures p.engine.queue.capacity == p.options.queueCapacity
    ensures HasReport(p.pc) ==> |p.engine.workers| == p.options.workers
  {
    ReachableProgramInvariant(p);
    ReachableInvariant(p.engine);
  }

  /** If the constructor threw, the program ends with the queue closed and every started worker joined. */
  lemma CrashReleasesWorkers(p: Program)
    requires ReachableProgram(p) && p.pc.Crashed?
    ensures p.engine.queue.closed && p.engine.joined && ExitedBelow(p.engine.workers, |p.engine.workers|)
    ensures p.engine.joins == Range(|p.engine.workers|) && p.engine.issued == []
  {
    ReachableProgramInvariant(p);
    Termination.FailedConstructorReleases(p.engine);
  }
}
