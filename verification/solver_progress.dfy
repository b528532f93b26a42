/**
 What the two threads wait for each other: nothing keeps the worker waiting once it has what it
 needs, and a stop that waits for the worker to leave does not wait for ever.
 */
module SolverProgress {
  import opened Basics
  import opened BringUpTypes
  import opened SolverProtocol
  import H = SolverHandOff
  import S = SolverSupply

  // ---- what the worker waits for ----

  predicate Unpublished(w: WorkerPc) {
    w.WaitRequest? || w.Woken? || w.Constructing? || w.Publishing?
  }

  predicate Solving(w: WorkerPc) {
    w.WaitObservation? || w.LoopHead? || w.ResetCheck? || w.Advancing?
  }

  /** The solver is announced once it is published, and a tick that has fed it has said so. */
  predicate Own(s: State) {
    !s.worker.NoThread? ==>
      && (Solving(s.worker) ==> s.mem.mpcReady)
      && (Unpublished(s.worker) ==> !s.mem.mpcReady)
      && (S.Given(s.ctl, s.hist).FromTick? && !s.ctl.pc.Fed? ==> s.mem.observationReady)
  }

  lemma ControlKeeps(cfg: Settings, s: State)
    requires S.Inv(cfg, s) && Own(s) && Enabled(cfg, s, ControlStep)
    ensures Own(ControlThreadStep(cfg, s).(step := s.step + 1))
  {
    match s.ctl.pc {
      case Loaded => if Supplies(s.ctl) {}
      case Supplied => if Swaps(s) {}
      case Rested => RecordingKeeps(cfg, s);
      case _ =>
    }
  }

  lemma RecordingKeeps(cfg: Settings, s: State)
    requires S.Inv(cfg, s) && Own(s) && s.ctl.pc.Rested?
    ensures Own(Commanding(cfg, s, Decide(cfg, s)).(step := s.step + 1))
  {
    var log, r := s.hist.log, RecordOf(cfg, s, Decide(cfg, s));
    assert (log + [r])[..|log|] == log;
  }

  lemma WorkerKeeps(cfg: Settings, s: State, solver: Solver)
    requires S.Inv(cfg, s) && Own(s) && WorkerCanStep(s)
    ensures Own(WorkerThreadStep(s, solver).(step := s.step + 1))
  {
    match s.worker {
      case Constructing => match solver { case _ => }
      case Advancing => match solver { case _ => }
      case _ =>
    }
  }

  /** Steps that leave the records, the tick, the worker and what the threads share alone. */
  lemma QuietKeeps(s: State, t: State)
    requires Own(s) && t.worker == s.worker && t.mem == s.mem.(terminate := t.mem.terminate)
    requires S.Given(t.ctl, t.hist) == S.Given(s.ctl, s.hist) && t.ctl.pc.Fed? == s.ctl.pc.Fed?
    ensures Own(t)
  {
  }

  lemma StandUpKeeps(cfg: Settings, s: State)
    requires Own(s)
    ensures Own(StandUpStep(cfg, s).(step := s.step + 1))
  {
    QuietKeeps(s, StandUpStep(cfg, s).(step := s.step + 1));
  }

  lemma StartKeeps(cfg: Settings, s: State)
    requires Own(s)
    ensures Own(StartStep(cfg, s).(step := s.step + 1))
  {
    QuietKeeps(s, StartStep(cfg, s).(step := s.step + 1));
  }

  lemma QuietEventKeeps(cfg: Settings, s: State, e: Event)
    requires Own(s) && Enabled(cfg, s, e)
    requires e.BeginTick? || e.BeginStop? || e.EstimatorUpdate? || e.EstimatorActivate? || e.EstimatorDeactivate?
             || e.Shutdown?
    ensures Own(Next(cfg, s, e))
  {
    QuietKeeps(s, Next(cfg, s, e));
  }

  lemma StopKeeps(cfg: Settings, s: State, a: ActivationInput)
    requires S.Inv(cfg, s) && Own(s) && s.ctl.pc.Stopping?
    ensures Own(Next(cfg, s, FinishStop(a)))
  {
    if s.ctl.pc.activate && a.succeeds {
      var log := s.hist.log;
      assert log == [] || log[|log| - 1].activation < s.hist.activation + 1;
    }
  }

  lemma OwnKeeps(cfg: Settings, s: State, e: Event)
    requires S.Inv(cfg, s) && Own(s) && Enabled(cfg, s, e)
    ensures Own(Next(cfg, s, e))
  {
    match e {
      case ControlStep => ControlKeeps(cfg, s);
      case WorkerStep(solver) => WorkerKeeps(cfg, s, solver);
      case FinishStop(a) => StopKeeps(cfg, s, a);
      case StandUpService => StandUpKeeps(cfg, s);
      case StartService => StartKeeps(cfg, s);
      case _ => QuietEventKeeps(cfg, s, e);
    }
  }

  lemma {:induction false} OwnHolds(cfg: Settings, s: State, events: seq<Event>)
    requires S.Inv(cfg, s) && Own(s) && Possible(cfg, s, events)
    ensures S.Inv(cfg, Run(cfg, s, events)) && Own(Run(cfg, s, events))
    decreases |events|
  {
    if events != [] {
      H.NextKeeps(cfg, s, events[0]);
      S.OwnKeeps(cfg, s, events[0]);
      OwnKeeps(cfg, s, events[0]);
      OwnHolds(cfg, Next(cfg, s, events[0]), events[1..]);
    }
  }

  /**
   In every reachable state: the worker waits for a request exactly until one tick has handed over
   and said so, and for an observation exactly until one tick has fed the solver and said so; a tick
   finds the solver exactly once the worker has published it; and nothing else keeps the worker waiting.
   */
  lemma WorkerWaitsForNothingElse(cfg: Settings, s: State)
    requires Reachable(cfg, s) && !s.mem.terminate && s.ok && !s.worker.NoThread? && !s.worker.Exited?
    ensures s.worker.WaitRequest? ==>
              (WorkerCanStep(s) <==> !S.Given(s.ctl, s.hist).Nothing? && !s.ctl.pc.Seeded?)
    ensures s.worker.WaitObservation? && !s.ctl.pc.Fed? ==>
              (WorkerCanStep(s) <==> S.Given(s.ctl, s.hist).FromTick?)
    ensures !s.worker.WaitRequest? && !s.worker.WaitObservation? ==> WorkerCanStep(s)
    ensures s.mem.mpcReady <==> Solving(s.worker)
  {
    var events :| Possible(cfg, START, events) && s == Run(cfg, START, events);
    OwnHolds(cfg, START, events);
  }

  // ---- the stop ----

  /** How many steps the worker is from leaving, once it is told to or the node shuts down. */
  function StepsLeft(w: WorkerPc): nat {
    match w
    case NoThread => 0
    case Exited => 0
    case Woken => 1
    case LoopHead => 1
    case WaitRequest => 2
    case WaitObservation => 2
    case Advancing => 2
    case Publishing => 3
    case ResetCheck => 3
    case Constructing => 4
  }

  lemma StepBrings(s: State, solver: Solver)
    requires (s.mem.terminate || !s.ok) && StepsLeft(s.worker) > 0
    ensures WorkerCanStep(s)
    ensures var t := WorkerThreadStep(s, solver);
            && StepsLeft(t.worker) < StepsLeft(s.worker)
            && t.mem.terminate == s.mem.terminate && t.ok == s.ok && !t.worker.NoThread?
  {
    match s.worker { case _ => }
  }

  /** The worker takes its steps as long as it can. */
  function WorkerRun(cfg: Settings, s: State, solvers: seq<Solver>): State
    decreases |solvers|
  {
    if solvers == [] || !WorkerCanStep(s) then s
    else WorkerRun(cfg, Next(cfg, s, WorkerStep(solvers[0])), solvers[1..])
  }

  /**
   Whatever the solver does, a worker that is told to stop, or sees the node shut down, leaves
   within four steps of its own, none of which has to wait: the join returns.
   */
  lemma {:induction false} JoinReturns(cfg: Settings, s: State, solvers: seq<Solver>)
    requires (s.mem.terminate || !s.ok) && |solvers| >= StepsLeft(s.worker)
    ensures StepsLeft(s.worker) <= 4
    ensures var t := WorkerRun(cfg, s, solvers);
            (t.worker.NoThread? || t.worker.Exited?) && t.ctl.pc == s.ctl.pc
    decreases |solvers|
  {
    if StepsLeft(s.worker) > 0 {
      StepBrings(s, solvers[0]);
      PcStays(s, solvers[0]);
      JoinReturns(cfg, Next(cfg, s, WorkerStep(solvers[0])), solvers[1..]);
    }
  }

  lemma PcStays(s: State, solver: Solver)
    ensures WorkerThreadStep(s, solver).ctl == s.ctl
  {
    match s.worker { case _ => }
  }
}
