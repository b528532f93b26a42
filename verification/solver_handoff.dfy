/** The deferred solver hand-off is free of races, of use after free and of stale solves, in every interleaving. */
module SolverHandOff {
  import opened Basics
  import opened BringUpTypes
  import opened SolverProtocol
  import M = BringUpMachine

  predicate Running(pc: ControlPc) {
    !pc.Inactive? && !pc.Stopping?
  }

  /** The worker has built its solver and may be using it. */
  predicate Solving(w: WorkerPc) {
    w.WaitObservation? || w.LoopHead? || w.ResetCheck? || w.Advancing?
  }

  predicate BeforeSolver(w: WorkerPc) {
    w.WaitRequest? || w.Woken? || w.Constructing?
  }

  predicate BeforeHandOver(p: Phase) {
    p.Passive? || p.StandUp? || p.Settle? || p.Converge?
  }

  /** A control tick has supplied an observation since the solver was built. */
  predicate SuppliedSinceBuilt(m: Shared) {
    m.mrt.Some? && m.mrt.value.fromTick && m.mrt.value.constructedAt < m.mrt.value.suppliedAt
  }

  /** Lifetime of the thread and of what it owns. */
  predicate Lifetime(step: nat, pc: ControlPc, m: Shared, w: WorkerPc) {
    && (pc.Inactive? ==> w.NoThread?)
    && (Running(pc) ==> !w.NoThread? && !m.terminate)
    && (pc.Stopping? ==> m.terminate)
    && (w.NoThread? ==> m.mrt.None? && !m.mpcReady && !m.locomotionRequested)
    && (BeforeSolver(w) ==> m.mrt.None? && !m.mpcReady && !m.observationReady)
    && (w.Publishing? ==> m.mrt.Some? && !m.mpcReady && !m.observationReady)
    && (Solving(w) ==> m.mrt.Some? && m.mpcReady)
    && (m.mpcReady ==> m.mrt.Some? && (Solving(w) || w.Exited?))
    && (m.mrt.Some? ==> m.mrt.value.constructedAt < step)
  }

  /** What the worker relies on. */
  predicate WorkerSide(ok: bool, m: Shared, w: WorkerPc) {
    && (w.Woken? ==> m.terminate || !ok || m.locomotionRequested)
    && (w.Constructing? || w.Publishing? || Solving(w) ==> m.locomotionRequested)
    && (m.observationReady && !w.NoThread? ==> SuppliedSinceBuilt(m))
    && (w.LoopHead? ==> m.observationReady || m.terminate || !ok)
    && (w.ResetCheck? || w.Advancing? ==> m.observationReady)
  }

  /** What a control tick relies on. */
  predicate ControlSide(ctl: ControlThread, m: Shared) {
    && (ctl.pc.Seeded? ==> !m.locomotionRequested)
    && ((ctl.pc.Loaded? || ctl.pc.Fed? || ctl.pc.Supplied?) && ctl.tick.solverReady ==> m.mpcReady)
    && (ctl.pc.Fed? ==> ctl.tick.solverReady && SuppliedSinceBuilt(m))
    && (Running(ctl.pc) && ctl.state.plans.hasActive ==> m.mpcReady)
    && (Running(ctl.pc) ==> (ctl.state.plans.hasActive <==> m.ActivePlan().Some?))
    && (ctl.state.plans.ready ==> ctl.state.plans.hasActive)
  }

  /** With an estimator the hand-over happens once per activation, out of Converge. */
  predicate OneHandOver(cfg: Settings, ctl: ControlThread, m: Shared) {
    cfg.source.StateEstimator? && Running(ctl.pc) && BeforeHandOver(ctl.state.stage.phase) ==>
      !m.locomotionRequested && !ctl.pc.Seeded?
  }

  predicate Inv(cfg: Settings, s: State) {
    && Lifetime(s.step, s.ctl.pc, s.mem, s.worker)
    && WorkerSide(s.ok, s.mem, s.worker)
    && ControlSide(s.ctl, s.mem)
    && OneHandOver(cfg, s.ctl, s.mem)
  }

  // ---- preservation ----

  lemma DecideIsLawful(cfg: Settings, s: State)
    requires OneHandOver(cfg, s.ctl, s.mem) && s.ctl.pc.Rested?
    ensures var r := Decide(cfg, s);
            && (r.handOver ==> !s.mem.locomotionRequested)
            && (r.command.FromMpc() ==> s.ctl.state.plans.ready)
            && (cfg.source.StateEstimator? && BeforeHandOver(r.stage.phase) ==>
                  BeforeHandOver(s.ctl.state.stage.phase) && !r.handOver)
  {
    if cfg.source.StateEstimator? {
      M.BringUpIsLawful(cfg, s.ctl.state, s.ctl.tick.input, s.ctl.tick.observation);
    }
  }

  lemma CommandingKeeps(cfg: Settings, s: State, r: M.Outcome)
    requires Inv(cfg, s) && s.ctl.pc.Rested?
    requires r.handOver ==> !s.mem.locomotionRequested
    requires cfg.source.StateEstimator? && BeforeHandOver(r.stage.phase) ==>
               BeforeHandOver(s.ctl.state.stage.phase) && !r.handOver
    ensures Inv(cfg, Commanding(cfg, s, r).(step := s.step + 1))
  {
  }

  lemma FeedingKeeps(cfg: Settings, s: State)
    requires Inv(cfg, s) && s.ctl.pc.Loaded?
    ensures Inv(cfg, Feeding(s).(step := s.step + 1))
  {
    if Supplies(s.ctl) {
    } else {
    }
  }

  lemma SwappingKeeps(cfg: Settings, s: State)
    requires Inv(cfg, s) && s.ctl.pc.Supplied?
    ensures Inv(cfg, Swapping(s).(step := s.step + 1))
  {
    if Swaps(s) {
    } else {
    }
  }

  lemma ValidatingKeeps(cfg: Settings, s: State)
    requires Inv(cfg, s) && s.ctl.pc.Swapped?
    ensures Inv(cfg, Validating(cfg, s).(step := s.step + 1))
  {
  }

  lemma PassingKeeps(cfg: Settings, s: State)
    requires Inv(cfg, s)
    requires s.ctl.pc.Fed? || s.ctl.pc.Validated? || s.ctl.pc.Seeded? || s.ctl.pc.Commanded? || s.ctl.pc.Idle?
    ensures Inv(cfg, ControlThreadStep(cfg, s).(step := s.step + 1))
  {
  }

  lemma ControlKeeps(cfg: Settings, s: State)
    requires Inv(cfg, s) && Running(s.ctl.pc)
    ensures Inv(cfg, ControlThreadStep(cfg, s).(step := s.step + 1))
  {
    match s.ctl.pc {
      case Loaded => FeedingKeeps(cfg, s);
      case Supplied => SwappingKeeps(cfg, s);
      case Swapped => ValidatingKeeps(cfg, s);
      case Rested =>
        DecideIsLawful(cfg, s);
        CommandingKeeps(cfg, s, Decide(cfg, s));
      case _ => PassingKeeps(cfg, s);
    }
  }

  lemma WorkerKeeps(cfg: Settings, s: State, solver: Solver)
    requires Inv(cfg, s) && WorkerCanStep(s)
    ensures Inv(cfg, WorkerThreadStep(s, solver).(step := s.step + 1))
  {
    match s.worker {
      case WaitRequest =>
      case Woken =>
      case Constructing => match solver { case Succeeds(_) => case Throws(_) => }
      case Publishing =>
      case WaitObservation =>
      case LoopHead =>
      case ResetCheck =>
      case Advancing => match solver { case Succeeds(_) => case Throws(_) => }
    }
  }

  lemma BeginningKeeps(cfg: Settings, s: State, input: TickInput)
    requires Inv(cfg, s) && s.ctl.pc.Idle?
    ensures Inv(cfg, Beginning(cfg, s, input).(step := s.step + 1))
  {
  }

  lemma ActivatingKeeps(cfg: Settings, s: State, a: ActivationInput)
    requires Inv(cfg, s) && s.ctl.pc.Stopping?
    ensures Inv(cfg, Activating(cfg, s, a).(step := s.step + 1))
  {
    if a.succeeds {
    } else {
    }
  }

  /** The services, the estimator and shutdown touch none of this. */
  lemma QuietKeeps(cfg: Settings, s: State, t: State)
    requires Inv(cfg, s)
    requires t.step == s.step + 1 && (s.ok == t.ok || !t.ok)
    requires t.mem == s.mem && t.worker == s.worker && t.ctl.pc == s.ctl.pc && t.ctl.tick == s.ctl.tick
    requires t.ctl.state.plans == s.ctl.state.plans && t.ctl.state.stage == s.ctl.state.stage
    ensures Inv(cfg, t)
  {
  }

  lemma NextKeeps(cfg: Settings, s: State, e: Event)
    requires Inv(cfg, s) && Enabled(cfg, s, e)
    ensures Inv(cfg, Next(cfg, s, e))
  {
    match e {
      case BeginTick(input) => BeginningKeeps(cfg, s, input);
      case ControlStep => ControlKeeps(cfg, s);
      case BeginStop(_) =>
      case FinishStop(a) =>
        if s.ctl.pc.activate {
          ActivatingKeeps(cfg, s, a);
        }
      case WorkerStep(solver) => WorkerKeeps(cfg, s, solver);
      case _ => QuietKeeps(cfg, s, Next(cfg, s, e));
    }
  }

  lemma {:induction false} InvHolds(cfg: Settings, s: State, events: seq<Event>)
    requires Inv(cfg, s) && Possible(cfg, s, events)
    ensures Inv(cfg, Run(cfg, s, events))
    decreases |events|
  {
    if events != [] {
      NextKeeps(cfg, s, events[0]);
      InvHolds(cfg, Next(cfg, s, events[0]), events[1..]);
    }
  }

  lemma ReachableInv(cfg: Settings, s: State)
    requires Reachable(cfg, s)
    ensures Inv(cfg, s)
  {
    var events :| Possible(cfg, START, events) && s == Run(cfg, START, events);
    InvHolds(cfg, START, events);
  }

  // ---- what it means ----

  /** The worker is reading the seed, or will without any further control step. */
  predicate MayReadSeed(s: State) {
    || s.worker.Constructing?
    || ((s.worker.WaitRequest? || s.worker.Woken?) && s.mem.locomotionRequested)
  }

  /** The next control step reads the plan in use: to validate, follow or visualise it. */
  predicate ReadsPlan(cfg: Settings, s: State) {
    || (s.ctl.pc.Swapped? && s.ctl.state.plans.hasActive)
    || (s.ctl.pc.Rested? && Decide(cfg, s).command.FromMpc())
    || (s.ctl.pc.Commanded? && s.ctl.state.plans.ready)
  }

  /** The step goes through the exchange pointer. */
  predicate Dereferences(cfg: Settings, s: State, e: Event) {
    match e
    case ControlStep =>
      || (s.ctl.pc.Loaded? && Supplies(s.ctl))
      || (s.ctl.pc.Supplied? && s.ctl.tick.solverReady)
      || ReadsPlan(cfg, s)
    case WorkerStep(_) => (s.worker.ResetCheck? && s.mem.resetRequested) || s.worker.Advancing?
    case _ => false
  }

  /** Only a hand-over writes the seed, only the join frees the solver. */
  lemma WritesAndFrees(cfg: Settings, s: State, e: Event)
    requires Enabled(cfg, s, e)
    ensures Next(cfg, s, e).mem.seed != s.mem.seed ==>
              e.ControlStep? && s.ctl.pc.Rested? && Decide(cfg, s).handOver
    ensures s.mem.mrt.Some? && Next(cfg, s, e).mem.mrt.None? ==> e.FinishStop?
  {
    if e.ControlStep? {
      match s.ctl.pc { case Rested => case Loaded => case Supplied => case Swapped => case _ => }
    } else if e.WorkerStep? {
      match s.worker { case Constructing => case Advancing => case _ => }
    }
  }

  /**
   In every interleaving: the seed is written only while the worker cannot read it; the
   exchange pointer is followed only while it exists, and its plan read only once there is
   one; it is freed only after the worker has left; and what the worker advances from was
   supplied by a control tick after the solver was built.
   */
  lemma HandOffIsSafe(cfg: Settings, s: State, e: Event)
    requires Reachable(cfg, s) && Enabled(cfg, s, e)
    ensures Next(cfg, s, e).mem.seed != s.mem.seed ==> !MayReadSeed(s)
    ensures e.ControlStep? && s.ctl.pc.Rested? && Decide(cfg, s).handOver ==> !MayReadSeed(s)
    ensures Dereferences(cfg, s, e) ==> s.mem.mrt.Some?
    ensures e.ControlStep? && ReadsPlan(cfg, s) ==> s.mem.ActivePlan().Some?
    ensures s.mem.mrt.Some? && Next(cfg, s, e).mem.mrt.None? ==> s.worker.Exited?
    ensures e.WorkerStep? && s.worker.Advancing? ==> SuppliedSinceBuilt(s.mem)
  {
    ReachableInv(cfg, s);
    WritesAndFrees(cfg, s, e);
    if e.ControlStep? && s.ctl.pc.Rested? {
      DecideIsLawful(cfg, s);
    }
  }

  /** What the solver is built from is the seed as it was last written, whatever ran in between. */
  lemma {:induction false} SeedIsStable(cfg: Settings, s: State, events: seq<Event>)
    requires Reachable(cfg, s) && Possible(cfg, s, events)
    requires forall k :: 0 <= k <= |events| ==> MayReadSeed(Run(cfg, s, events[..k]))
    ensures Run(cfg, s, events).mem.seed == s.mem.seed
    decreases |events|
  {
    if events != [] {
      var e, rest := events[0], events[1..];
      var s1 := Next(cfg, s, e);
      HandOffIsSafe(cfg, s, e);
      ReachableNext(cfg, s, e);
      assert events[..0] == [] && MayReadSeed(Run(cfg, s, events[..0]));
      forall k | 0 <= k <= |rest|
        ensures MayReadSeed(Run(cfg, s1, rest[..k]))
      {
        assert events[..k + 1][0] == e && events[..k + 1][1..] == rest[..k];
        assert MayReadSeed(Run(cfg, s, events[..k + 1]));
      }
      SeedIsStable(cfg, s1, rest);
    }
  }
}
