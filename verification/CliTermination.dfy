/** The command-line run always ends: every run is bounded, and one that cannot go on has reported or crashed. */
module CliTermination {
  import opened Runs
  import opened Protocol
  import opened Structure
  import opened Progress
  import opened Reachability
  import opened Termination
  import opened Cli

  /** A program step and its price, that of a spurious wakeup on the open queue; the signal flag rises at most once. */
  ghost predicate PricedProgramStep(p: Program, p': Program, price: nat)
  {
    || PricedEngineMove(p, p', price)
    || (price == 0 && MainMoves(p, p'))
    || (price == 0 && !p.interrupted && p' == p.(interrupted := true))
  }

  ghost predicate PricedEngineMove(p: Program, p': Program, price: nat)
  {
    && !Over(p.pc) && p' == p.(engine := p'.engine)
    && exists a, t :: Step(p.engine, a, t, p'.engine) && !IsArrival(a) && price == Price(p.engine, a)
  }

  /** What the main thread has still to do; each submit call is worth fifteen engine steps. */
  function MainWork(p: Program): nat
  {
    var n, tasks := p.engine.workerCount, p.options.tasks;
    match p.pc
    case Starting => 15 * tasks + 2 * n + 21
    case Looping(i) => if i <= tasks then 15 * (tasks - i) + 2 * n + 20 else 0
    case Submitting(i) => if i <= tasks then 15 * (tasks - i) + 2 * n + 19 else 0
    case InSubmit(i) => if i < tasks then 15 * (tasks - i - 1) + 2 * n + 21 else 0
    case LoopDone => 2 * n + 19
    case Deciding(_) => 2 * n + 18
    case Stopping(_) => n + 10
    case Reported(_) => n + 9
    case Destroying(_) => 1
    case Ended(_) => 0
    case Crashed => 0
  }

  function ProgramWork(p: Program): nat
  {
    Work(p.engine) + MainWork(p) + if p.interrupted then 0 else 1
  }

  lemma SubmitCallUsesWork(p: Program, p': Program, i: nat)
    requires p.pc == Submitting(i) && i < p.options.tasks
    requires Calls(p, p', Submit(MakeTask(p.options, i)), InSubmit(i))
    ensures ProgramWork(p') < ProgramWork(p)
  {
    var t :| Step(p.engine, Submit(MakeTask(p.options, i)), t, p'.engine);
    assert Work(At(p.engine, t)) == Work(p.engine);
    SubmitAddsWork(At(p.engine, t), MakeTask(p.options, i));
  }

  /** The call that stops the engine, and the one its destructor makes. */
  lemma ShutdownCallUsesWork(p: Program, p': Program, mode: Mode, pc: MainPc)
    requires Calls(p, p', Shutdown(mode), pc)
    requires (p.pc.Deciding? && pc.Stopping?) || (p.pc.Reported? && pc.Destroying?)
    ensures ProgramWork(p') < ProgramWork(p)
  {
    var t :| Step(p.engine, Shutdown(mode), t, p'.engine);
    assert Work(At(p.engine, t)) == Work(p.engine);
    ShutdownAddsWork(At(p.engine, t), mode);
  }

  /** The moves in which the main thread only advances its own position. */
  predicate Advances(p: Program, pc: MainPc)
  {
    match p.pc
    case Starting => pc == Looping(0) || pc.Crashed?
    case Looping(i) =>
      (i < p.options.tasks && pc == Submitting(i)) || (i <= p.options.tasks && pc.LoopDone?)
    case InSubmit(i) => i < p.options.tasks && pc == Looping(i + 1)
    case LoopDone => pc.Deciding?
    case Stopping(_) => pc.Reported?
    case Destroying(_) => pc.Ended?
    case _ => false
  }

  lemma AdvanceUsesWork(p: Program, pc: MainPc)
    requires Advances(p, pc)
    ensures ProgramWork(p.(pc := pc)) < ProgramWork(p)
  {
  }

  lemma MainMoveUsesWork(p: Program, p': Program)
    requires Position(p) && MainMoves(p, p')
    ensures ProgramWork(p') < ProgramWork(p)
  {
    if p.pc.Submitting? {
      SubmitCallUsesWork(p, p', p.pc.index);
    } else if p.pc.Deciding? {
      ShutdownCallUsesWork(p, p', StopMode(p.pc.interrupted), Stopping(p.pc.interrupted));
    } else if p.pc.Reported? {
      ShutdownCallUsesWork(p, p', Drain, Destroying(p.pc.report));
    } else {
      AdvanceUsesWork(p, p'.pc);
    }
  }

  lemma EngineMoveKeepsWorkerCount(p: Program, p': Program, price: nat)
    requires PricedEngineMove(p, p', price)
    ensures p'.engine.workerCount == p.engine.workerCount && PricedStep(p.engine, p'.engine, price)
  {
    var a, t :| Step(p.engine, a, t, p'.engine) && !IsArrival(a) && price == Price(p.engine, a);
    UndisturbedByEngine(At(p.engine, t), a);
  }

  lemma EngineMoveUsesWork(p: Program, p': Program, price: nat)
    requires Structural(p.engine) && PricedEngineMove(p, p', price)
    ensures ProgramWork(p') < ProgramWork(p) + price
  {
    EngineMoveKeepsWorkerCount(p, p', price);
    PricedStepWork(p.engine, p'.engine, price);
    assert MainWork(p') == MainWork(p);
  }

  lemma PricedIsProgramStep(p: Program, p': Program, price: nat)
    requires PricedProgramStep(p, p', price)
    ensures ProgramStep(p, p')
  {
    if PricedEngineMove(p, p', price) {
      var a, t :| Step(p.engine, a, t, p'.engine) && !IsArrival(a) && price == Price(p.engine, a);
      assert EngineMoves(p, p');
    }
  }

  lemma EngineIsSound(p: Program)
    requires ProgramInvariant(p)
    ensures Invariant(p.engine)
  {
    ReachableSound(p.engine, env => 0, sample => 0);
  }

  lemma ProgramStepUsesWork(p: Program, p': Program, price: nat)
    requires ProgramInvariant(p) && PricedProgramStep(p, p', price)
    ensures ProgramInvariant(p') && ProgramWork(p') < ProgramWork(p) + price
  {
    PricedIsProgramStep(p, p', price);
    ProgramStepKeeps(p, p');
    if PricedEngineMove(p, p', price) {
      EngineIsSound(p);
      EngineMoveUsesWork(p, p', price);
    } else if MainMoves(p, p') {
      MainMoveUsesWork(p, p');
    }
  }

  /** When no call is in flight, the main thread can move. */
  lemma MainCanMove(p: Program) returns (p': Program)
    requires Shape(p.engine) && Position(p) && AllReturned(p.engine) && !Over(p.pc)
    ensures MainMoves(p, p')
  {
    var s := p.engine;
    assert At(s, s.now) == s;
    match p.pc
    case Starting => p' := p.(pc := if s.phase.Ready? then Looping(0) else Crashed);
    case Looping(i) => p' := p.(pc := if i < p.options.tasks && !p.interrupted then Submitting(i) else LoopDone);
    case Submitting(i) =>
      var call := Submit(MakeTask(p.options, i));
      p' := p.(engine := Act(s, call), pc := InSubmit(i));
      assert Step(s, call, s.now, p'.engine);
    case InSubmit(i) => p' := p.(pc := Looping(i + 1));
    case LoopDone => p' := p.(pc := Deciding(p.interrupted));
    case Deciding(b) =>
      var call := Shutdown(StopMode(b));
      p' := p.(engine := Act(s, call), pc := Stopping(b));
      assert Step(s, call, s.now, p'.engine);
    case Stopping(b) => p' := p.(pc := Reported(MakeReport(s, b)));
    case Reported(report) =>
      p' := p.(engine := Act(s, Shutdown(Drain)), pc := Destroying(report));
      assert Step(s, Shutdown(Drain), s.now, p'.engine);
    case Destroying(report) => p' := p.(pc := Ended(report));
  }

  /** A move the program makes by itself: by the main thread, or by an engine thread other than waking spuriously. */
  ghost predicate OwnMove(p: Program, p': Program)
  {
    MainMoves(p, p') || (!Over(p.pc) && p' == p.(engine := p'.engine) && QuietStep(p.engine, p'.engine))
  }

  lemma ProgramCanMove(p: Program) returns (p': Program)
    requires ProgramInvariant(p) && !Over(p.pc)
    ensures OwnMove(p, p')
  {
    EngineIsSound(p);
    if AllReturned(p.engine) {
      p' := MainCanMove(p);
    } else {
      var s' := QuietMove(p.engine);
      p' := p.(engine := s');
    }
  }

  /** Own moves are steps of the program, and free of charge. */
  lemma OwnMoveIsFree(p: Program, p': Program)
    requires OwnMove(p, p')
    ensures PricedProgramStep(p, p', 0)
  {
    if !MainMoves(p, p') {
      var a, t :| Step(p.engine, a, t, p'.engine) && !IsArrival(a) && !IsSpurious(a);
      assert PricedEngineMove(p, p', 0);
    }
  }

  lemma ProgramRunKeeps(p: Program, p': Program, n: nat, cost: nat)
    requires ReachableProgram(p) && Spends(PricedProgramStep, p, p', n, cost)
    ensures ProgramInvariant(p') && n + ProgramWork(p') <= ProgramWork(p) + cost
  {
    ReachableProgramInvariant(p);
    forall x, y, d: nat | ProgramInvariant(x) && PricedProgramStep(x, y, d)
      ensures ProgramInvariant(y) && ProgramWork(y) < ProgramWork(x) + d
    {
      ProgramStepUsesWork(x, y, d);
    }
    PriceBoundsLength(PricedProgramStep, ProgramInvariant, ProgramWork, p, p', n, cost);
  }

  /** Every run of the program, the engine's destructor included and with or without a signal, has at most the work at
      its start plus two steps for each spurious wakeup on the open queue. If neither the main thread nor an engine
      thread can move by itself, the program has ended, or the constructor threw. */
  lemma ProgramTerminates(p: Program, p': Program, n: nat, cost: nat)
    requires ReachableProgram(p) && Spends(PricedProgramStep, p, p', n, cost)
    ensures n + ProgramWork(p') <= ProgramWork(p) + cost
    ensures (forall x :: !OwnMove(p', x)) ==> p'.pc.Ended? || p'.pc.Crashed?
  {
    ProgramRunKeeps(p, p', n, cost);
    if !Over(p'.pc) {
      var x := ProgramCanMove(p');
    }
  }

  /** Left alone, the program reaches its end from every reachable state. */
  lemma ProgramCanEnd(p: Program) returns (p': Program, n: nat)
    requires ReachableProgram(p)
    ensures Leads(OwnMove, p, p', n) && (p'.pc.Ended? || p'.pc.Crashed?)
  {
    ReachableProgramInvariant(p);
    forall x, y | ProgramInvariant(x) && OwnMove(x, y)
      ensures ProgramInvariant(y) && ProgramWork(y) < ProgramWork(x)
    {
      OwnMoveIsFree(x, y);
      ProgramStepUsesWork(x, y, 0);
    }
    forall x | ProgramInvariant(x) && !ProgramOver(x)
      ensures exists y :: OwnMove(x, y)
    {
      var y := ProgramCanMove(x);
    }
    p', n := ReachesGoal(OwnMove, ProgramInvariant, ProgramOver, ProgramWork, p);
  }

  ghost predicate ProgramOver(p: Program) { Over(p.pc) }
}
