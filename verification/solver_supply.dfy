/**
 What the worker solves from and what the control thread follows: the observation in the
 exchange object is the one of the last tick that had it to give, and the plan in use is the
 newest the worker had finished at the last swap.
 */
module SolverSupply {
  import opened Basics
  import opened BringUpTypes
  import opened SolverProtocol
  import M = BringUpMachine
  import H = SolverHandOff

  type Log = seq<Record>

  // ---- the observation ----

  /** A recorded tick that found the solver ready, with a finite observation measured in that tick. */
  predicate Feeds(r: Record) {
    r.solverReady && r.fromHardware && r.observation.finite
  }

  /** What the exchange object should hold, told from the ticks alone. */
  datatype Basis = Nothing | FromSeed(observation: Observation) | FromTick(observation: Observation)

  /** The last tick of the activation that fed the solver, or else handed over to it. */
  function LastGiven(log: Log, activation: nat): Basis
    decreases |log|
  {
    if log == [] || log[|log| - 1].activation != activation then Nothing
    else
      var r := log[|log| - 1];
      if Feeds(r) then FromTick(r.observation)
      else if r.handOver then FromSeed(r.observation)
      else LastGiven(log[..|log| - 1], activation)
  }

  /** The tick in progress, past the point where it feeds the solver. */
  predicate PastFeeding(pc: ControlPc) {
    pc.Fed? || pc.Supplied? || pc.Swapped? || Judged(pc)
  }

  predicate FeedsNow(ctl: ControlThread) {
    PastFeeding(ctl.pc) && ctl.tick.solverReady && ctl.state.seen.fromHardware && ctl.tick.observation.finite
  }

  function Given(ctl: ControlThread, h: History): Basis {
    if FeedsNow(ctl) then FromTick(ctl.tick.observation) else LastGiven(h.log, h.activation)
  }

  // ---- invariant ----

  /** What was given, against what the thread's memory says of it. */
  predicate GivenSound(g: Basis, m: Shared, w: WorkerPc, pc: ControlPc) {
    && (m.mrt.Some? ==> !g.Nothing? && m.mrt.value.observation == g.observation && m.locomotionRequested)
    && (g.FromTick? ==> g.observation.origin.Measured? && g.observation.finite)
    && (!w.NoThread? ==>
          && (!m.mpcReady ==> !g.FromTick?)
          && (m.locomotionRequested || pc.Seeded? <==> !g.Nothing?)
          && (g.FromSeed? ==> g.observation == m.seed)
          && (m.observationReady ==> g.FromTick?))
    && (pc.Fed? ==> g.FromTick?)
  }

  /** What a tick has read. */
  predicate TickSound(ctl: ControlThread, m: Shared) {
    InTick(ctl.pc) ==>
      && (ctl.tick.solverReady ==> m.mpcReady)
      && (ctl.state.seen.fromHardware ==> ctl.tick.observation.origin.Measured?)
  }

  /** The newest of the first `n` plans. */
  function Newest(plans: seq<Plan>, n: nat): Option<Plan>
    requires n <= |plans|
  {
    if n == 0 then None else Some(plans[n - 1])
  }

  /** The plan in use is the newest at the last swap; the buffer holds the newest finished since. */
  predicate PlansSound(h: History, m: Shared, w: WorkerPc) {
    && h.taken <= |h.finished|
    && (m.mrt.Some? ==>
          && m.mrt.value.active == Newest(h.finished, h.taken)
          && m.mrt.value.buffered == if h.taken < |h.finished| then Newest(h.finished, |h.finished|) else None)
    && (!w.NoThread? && m.mrt.None? ==> h.finished == [])
  }

  predicate Own(s: State) {
    && PlansSound(s.hist, s.mem, s.worker)
    && GivenSound(Given(s.ctl, s.hist), s.mem, s.worker, s.ctl.pc)
    && TickSound(s.ctl, s.mem)
    && (|s.hist.log| > 0 ==> s.hist.log[|s.hist.log| - 1].activation <= s.hist.activation)
  }

  predicate Inv(cfg: Settings, s: State) {
    H.Inv(cfg, s) && Own(s)
  }

  // ---- preservation ----

  lemma CommandingKeeps(cfg: Settings, s: State)
    requires Inv(cfg, s) && s.ctl.pc.Rested?
    ensures Own(Commanding(cfg, s, Decide(cfg, s)).(step := s.step + 1))
  {
    var r, log := Decide(cfg, s), s.hist.log;
    H.DecideIsLawful(cfg, s);
    assert (log + [RecordOf(cfg, s, r)])[..|log|] == log;
  }

  lemma FeedingKeeps(cfg: Settings, s: State)
    requires Inv(cfg, s) && s.ctl.pc.Loaded?
    ensures Own(Feeding(s).(step := s.step + 1))
  {
    if Supplies(s.ctl) {
    } else {
    }
  }

  lemma SwappingKeeps(cfg: Settings, s: State)
    requires Inv(cfg, s) && s.ctl.pc.Supplied?
    ensures Own(Swapping(s).(step := s.step + 1))
  {
    if Swaps(s) {
    } else {
    }
  }

  lemma PassingKeeps(cfg: Settings, s: State)
    requires Own(s) && (s.ctl.pc.Fed? || s.ctl.pc.Swapped? || s.ctl.pc.Validated?)
    ensures Own(ControlThreadStep(cfg, s).(step := s.step + 1))
  {
  }

  lemma ControlKeeps(cfg: Settings, s: State)
    requires Inv(cfg, s) && Enabled(cfg, s, ControlStep)
    ensures Own(ControlThreadStep(cfg, s).(step := s.step + 1))
  {
    match s.ctl.pc {
      case Loaded => FeedingKeeps(cfg, s);
      case Supplied => SwappingKeeps(cfg, s);
      case Rested => CommandingKeeps(cfg, s);
      case Seeded =>
      case Commanded =>
      case _ => PassingKeeps(cfg, s);
    }
  }

  lemma WorkerKeeps(cfg: Settings, s: State, solver: Solver)
    requires Inv(cfg, s) && WorkerCanStep(s)
    ensures Own(WorkerThreadStep(s, solver).(step := s.step + 1))
  {
    match s.worker {
      case Constructing => match solver { case Succeeds(_) => case Throws(_) => }
      case Advancing => match solver { case Succeeds(_) => case Throws(_) => }
      case ResetCheck =>
      case _ =>
    }
  }

  lemma ActivatingKeeps(cfg: Settings, s: State, a: ActivationInput)
    requires Inv(cfg, s) && s.ctl.pc.Stopping?
    ensures Own(Activating(cfg, s, a).(step := s.step + 1))
  {
    if a.succeeds {
    } else {
    }
  }

  /** Steps that touch neither the exchange object, nor the tick, nor the records. */
  lemma QuietKeeps(s: State, t: State)
    requires Own(s)
    requires t.mem == s.mem.(terminate := t.mem.terminate) && t.worker == s.worker && t.hist.log == s.hist.log
    requires t.hist.activation == s.hist.activation && t.hist.finished == s.hist.finished
    requires t.hist.taken == s.hist.taken && t.ctl.state.seen == s.ctl.state.seen && t.ctl.tick == s.ctl.tick
    requires t.ctl.pc == s.ctl.pc || (!PastFeeding(s.ctl.pc) && !s.ctl.pc.Seeded? && t.ctl.pc.Stopping?)
    ensures Own(t)
  {
  }

  lemma StandUpKeeps(cfg: Settings, s: State)
    requires Own(s)
    ensures Own(StandUpStep(cfg, s).(step := s.step + 1))
  {
    QuietKeeps(s, StandUpStep(cfg, s).(step := s.step + 1));
  }

  lemma StartKeeps(cfg: Settings, s: State)
    requires Own(s)
    ensures Own(StartStep(cfg, s).(step := s.step + 1))
  {
    QuietKeeps(s, StartStep(cfg, s).(step := s.step + 1));
  }

  lemma QuietEventKeeps(cfg: Settings, s: State, e: Event)
    requires Own(s) && Enabled(cfg, s, e)
    requires e.BeginStop? || e.EstimatorUpdate? || e.EstimatorActivate? || e.EstimatorDeactivate? || e.Shutdown?
    ensures Own(Next(cfg, s, e))
  {
    QuietKeeps(s, Next(cfg, s, e));
  }

  lemma BeginningKeeps(cfg: Settings, s: State, input: TickInput)
    requires Inv(cfg, s) && s.ctl.pc.Idle?
    ensures Own(Next(cfg, s, BeginTick(input)))
  {
  }

  lemma StopKeeps(cfg: Settings, s: State, a: ActivationInput)
    requires Inv(cfg, s) && s.ctl.pc.Stopping?
    ensures Own(Next(cfg, s, FinishStop(a)))
  {
    if s.ctl.pc.activate {
      ActivatingKeeps(cfg, s, a);
    }
  }

  lemma OwnKeeps(cfg: Settings, s: State, e: Event)
    requires Inv(cfg, s) && Enabled(cfg, s, e)
    ensures Own(Next(cfg, s, e))
  {
    match e {
      case BeginTick(input) => BeginningKeeps(cfg, s, input);
      case ControlStep => ControlKeeps(cfg, s);
      case FinishStop(a) => StopKeeps(cfg, s, a);
      case WorkerStep(solver) => WorkerKeeps(cfg, s, solver);
      case StandUpService => StandUpKeeps(cfg, s);
      case StartService => StartKeeps(cfg, s);
      case _ => QuietEventKeeps(cfg, s, e);
    }
  }

  lemma {:induction false} InvHolds(cfg: Settings, s: State, events: seq<Event>)
    requires Inv(cfg, s) && Possible(cfg, s, events)
    ensures Inv(cfg, Run(cfg, s, events))
    decreases |events|
  {
    if events != [] {
      H.NextKeeps(cfg, s, events[0]);
      OwnKeeps(cfg, s, events[0]);
      InvHolds(cfg, Next(cfg, s, events[0]), events[1..]);
    }
  }

  lemma ReachableInv(cfg: Settings, s: State)
    requires Reachable(cfg, s)
    ensures Inv(cfg, s)
  {
    var events :| Possible(cfg, START, events) && s == Run(cfg, START, events);
    InvHolds(cfg, START, events);
  }

  // ---- what it means ----

  /** Record `k` is the last of the activation that fed the solver. */
  predicate FedLast(log: Log, activation: nat, k: nat) {
    && k < |log| && log[k].activation == activation && Feeds(log[k])
    && forall m :: k < m < |log| ==> !Feeds(log[m])
  }

  lemma {:induction false} LastGivenIsLast(log: Log, activation: nat)
    ensures LastGiven(log, activation).FromTick? ==>
              exists k: nat ::
                FedLast(log, activation, k) && LastGiven(log, activation).observation == log[k].observation
    ensures LastGiven(log, activation).FromSeed? ==>
              exists k :: 0 <= k < |log| && log[k].activation == activation && log[k].handOver
                && LastGiven(log, activation).observation == log[k].observation
    decreases |log|
  {
    if log != [] && log[|log| - 1].activation == activation {
      var r, before := log[|log| - 1], log[..|log| - 1];
      if Feeds(r) {
        assert FedLast(log, activation, |log| - 1);
      } else if !r.handOver {
        LastGivenIsLast(before, activation);
        if LastGiven(log, activation).FromTick? {
          var k: nat :| && FedLast(before, activation, k)
                        && LastGiven(before, activation).observation == before[k].observation;
          assert FedLast(log, activation, k);
        }
      }
    }
  }

  /**
   In every interleaving: what the worker advances from was measured and is finite, and it is the
   observation of the tick in progress, if that found the solver ready and has fed it, or else of
   the last tick of the activation that did.
   */
  lemma AdvancesFromTheLatestTick(cfg: Settings, s: State)
    requires Reachable(cfg, s) && s.worker.Advancing?
    ensures s.mem.mrt.Some?
    ensures var o := s.mem.mrt.value.observation;
            && o.origin.Measured? && o.finite
            && (if FeedsNow(s.ctl) then o == s.ctl.tick.observation
                else exists k: nat :: FedLast(s.hist.log, s.hist.activation, k) && o == s.hist.log[k].observation)
  {
    ReachableInv(cfg, s);
    LastGivenIsLast(s.hist.log, s.hist.activation);
  }

  /** Until a tick has fed it, the solver holds the seed, which is the observation of the tick that handed over. */
  lemma HoldsTheSeedUntilFed(cfg: Settings, s: State)
    requires Reachable(cfg, s) && s.mem.mrt.Some? && !FeedsNow(s.ctl)
    requires forall k :: 0 <= k < |s.hist.log| && s.hist.log[k].activation == s.hist.activation ==>
               !Feeds(s.hist.log[k])
    ensures s.mem.mrt.value.observation == s.mem.seed
    ensures exists k :: 0 <= k < |s.hist.log| && s.hist.log[k].activation == s.hist.activation
              && s.hist.log[k].handOver && s.mem.seed == s.hist.log[k].observation
  {
    ReachableInv(cfg, s);
    LastGivenIsLast(s.hist.log, s.hist.activation);
  }

  /** From the step that feeds it to the end of the tick, the solver holds this tick's observation. */
  lemma HoldsWhatThisTickGave(cfg: Settings, s: State)
    requires Reachable(cfg, s) && FeedsNow(s.ctl)
    ensures s.mem.mrt.Some? && s.mem.mrt.value.observation == s.ctl.tick.observation
  {
    ReachableInv(cfg, s);
  }

  /**
   A swap makes the newest plan the worker has finished in this activation the one in use, and
   says so exactly if there was one since the last swap.
   */
  lemma SwapTakesTheNewest(cfg: Settings, s: State)
    requires Reachable(cfg, s) && s.ctl.pc.Supplied?
    ensures var t := Next(cfg, s, ControlStep);
            && (s.ctl.tick.solverReady ==> t.mem.ActivePlan() == Newest(s.hist.finished, |s.hist.finished|))
            && (!s.ctl.tick.solverReady ==> t.mem == s.mem)
            && (t.ctl.tick.updated <==> s.ctl.tick.solverReady && s.hist.taken < |s.hist.finished|)
            && (t.ctl.tick.updated ==> t.ctl.state.plans.hasActive)
  {
    ReachableInv(cfg, s);
    if Swaps(s) {
    } else {
    }
  }

  // ---- warm-start resets ----

  /** The step asks for a reset: a tick that found its plan unusable, or an advance that failed. */
  predicate AsksForReset(cfg: Settings, s: State, e: Event) {
    || (e.ControlStep? && s.ctl.pc.Swapped? && Next(cfg, s, e).ctl.tick.reset)
    || (e.WorkerStep? && s.worker.Advancing? && e.solver.Throws?)
  }

  /** The worker went past its check, resetting first if it had to; or a new activation began. */
  predicate SettlesReset(s: State, e: Event) {
    || (e.WorkerStep? && s.worker.ResetCheck? && e.solver.Succeeds?)
    || (e.FinishStop? && s.ctl.pc.Stopping? && s.ctl.pc.activate)
  }

  /** A reset has been asked for since the last one was settled. */
  predicate ResetIsOwed(cfg: Settings, s: State, events: seq<Event>, owed: bool)
    decreases |events|
  {
    if events == [] then owed
    else
      var e := events[0];
      ResetIsOwed(cfg, Next(cfg, s, e), events[1..], AsksForReset(cfg, s, e) || (owed && !SettlesReset(s, e)))
  }

  lemma StepOwes(cfg: Settings, s: State, e: Event)
    requires Enabled(cfg, s, e)
    ensures Next(cfg, s, e).mem.resetRequested <==>
            AsksForReset(cfg, s, e) || (s.mem.resetRequested && !SettlesReset(s, e))
  {
    match e {
      case ControlStep => ControlOwes(cfg, s);
      case WorkerStep(solver) => WorkerOwes(s, solver);
      case StandUpService => ServicesOwe(cfg, s);
      case StartService => ServicesOwe(cfg, s);
      case FinishStop(a) => StopOwes(cfg, s, a);
      case _ =>
    }
  }

  lemma ControlOwes(cfg: Settings, s: State)
    ensures var t := ControlThreadStep(cfg, s);
            t.mem.resetRequested <==> s.mem.resetRequested || (s.ctl.pc.Swapped? && t.ctl.tick.reset)
  {
    match s.ctl.pc {
      case Loaded => if Supplies(s.ctl) {}
      case Supplied => if Swaps(s) {}
      case _ =>
    }
  }

  lemma WorkerOwes(s: State, solver: Solver)
    ensures WorkerThreadStep(s, solver).mem.resetRequested <==>
            || (s.worker.Advancing? && solver.Throws?)
            || (s.mem.resetRequested && !(s.worker.ResetCheck? && solver.Succeeds?))
  {
    match s.worker {
      case Constructing => match solver { case _ => }
      case Advancing => match solver { case _ => }
      case ResetCheck =>
      case _ =>
    }
  }

  lemma ServicesOwe(cfg: Settings, s: State)
    ensures StandUpStep(cfg, s).mem == StartStep(cfg, s).mem == s.mem
  {
  }

  lemma StopOwes(cfg: Settings, s: State, a: ActivationInput)
    requires s.ctl.pc.Stopping?
    ensures Next(cfg, s, FinishStop(a)).mem.resetRequested <==> s.mem.resetRequested && !s.ctl.pc.activate
  {
  }

  lemma {:induction false} RunOwes(cfg: Settings, s: State, events: seq<Event>)
    requires Possible(cfg, s, events)
    ensures Run(cfg, s, events).mem.resetRequested <==> ResetIsOwed(cfg, s, events, s.mem.resetRequested)
    decreases |events|
  {
    if events != [] {
      StepOwes(cfg, s, events[0]);
      RunOwes(cfg, Next(cfg, s, events[0]), events[1..]);
    }
  }

  /**
   In every run the worker finds a reset to be made exactly if one is owed, and advances only
   with none left to make: a reset that fails stays owed and keeps it from advancing.
   */
  lemma ResetsAreMadeWhenOwed(cfg: Settings, events: seq<Event>, solver: Solver)
    requires Possible(cfg, START, events)
    ensures var s := Run(cfg, START, events);
            var t := WorkerThreadStep(s, solver);
            && (s.mem.resetRequested <==> ResetIsOwed(cfg, START, events, false))
            && (s.worker.ResetCheck? ==>
                  && (t.worker.Advancing? <==> solver.Succeeds? || !ResetIsOwed(cfg, START, events, false))
                  && (t.worker.Advancing? ==> !t.mem.resetRequested)
                  && (!t.worker.Advancing? ==> t.worker.LoopHead? && t.mem.resetRequested))
  {
    RunOwes(cfg, START, events);
  }
}
