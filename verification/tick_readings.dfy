/**
 What a control tick makes of its readings: which observations are measured, what stands in for
 one that is not, and what a tick takes from the estimator and the solver when it begins.
 */
module TickReadings {
  import opened Basics
  import opened BringUpTypes
  import opened SolverProtocol
  import M = BringUpMachine

  type Log = seq<Record>

  // ---- observations ----

  /** The last measured observation; with a ground-truth base each activation starts with one of its own. */
  function LastMeasured(cfg: Settings, log: Log, activation: nat): Option<Observation> {
    if log == [] || (cfg.source.GroundTruth? && log[|log| - 1].activation != activation) then None
    else if log[|log| - 1].fromHardware then Some(log[|log| - 1].observation)
    else LastMeasured(cfg, log[..|log| - 1], activation)
  }

  /** The readings of the tick are the observation. */
  predicate IsMeasured(cfg: Settings, input: TickInput, o: Observation) {
    && input.jointsForObservation
    && (cfg.source.GroundTruth? ==> input.groundTruthReadable && o.origin == Measured(None))
    && (cfg.source.StateEstimator? ==> o.origin.Measured? && o.origin.birth.Some?)
    && (o.finite <==> input.stateFinite)
  }

  /**
   The last measured observation stands in for that of the tick. Before there was any it is the
   initial state, or with a ground-truth base the one measured at activation.
   */
  predicate StandsIn(cfg: Settings, last: Option<Observation>, o: Observation) {
    match last
    case Some(m) => o.origin == m.origin && o.finite == m.finite
    case None => if cfg.source.StateEstimator? then o.origin == InitialState && o.finite else o.origin == Measured(None)
  }

  predicate Reads(cfg: Settings, log: Log, activation: nat, input: TickInput, measured: bool, o: Observation) {
    && o.time == input.time
    && (cfg.source.GroundTruth? ==> (measured <==> input.jointsForObservation && input.groundTruthReadable))
    && (measured ==> IsMeasured(cfg, input, o))
    && (!measured ==> StandsIn(cfg, LastMeasured(cfg, log, activation), o))
  }

  predicate RecordReads(cfg: Settings, log: Log, r: Record) {
    Reads(cfg, log, r.activation, r.input, r.fromHardware, r.observation)
  }

  // ---- the pose without a plan ----

  /** The pose the last plan-derived command of the activation set, or else the one at activation. */
  function LastPose(log: Log, activation: nat): Target {
    if log == [] || log[|log| - 1].activation != activation then ActivationPose
    else if log[|log| - 1].ready then PlannedPose(log[|log| - 1].observation)
    else LastPose(log[..|log| - 1], activation)
  }

  /** A ground-truth base follows a usable plan, and without one holds that pose. */
  predicate FollowsOrHolds(log: Log, r: Record) {
    r.command == if r.ready then Mpc(r.observation) else Hold(LastPose(log, r.activation))
  }

  // ---- invariant ----

  predicate LastKept(cfg: Settings, last: Option<Observation>, pc: ControlPc, seen: Option<Observation>) {
    if last.Some? || cfg.source.StateEstimator? then seen == last
    else pc.Inactive? || pc.Stopping? || (seen.Some? && seen.value.origin == Measured(None))
  }

  predicate AllRead(cfg: Settings, log: Log) {
    forall k :: 0 <= k < |log| ==> RecordReads(cfg, log[..k], log[k])
  }

  predicate AllFollow(log: Log) {
    forall k :: 0 <= k < |log| ==> FollowsOrHolds(log[..k], log[k])
  }

  predicate PoseSound(s: State) {
    && AllFollow(s.hist.log)
    && (s.ctl.pc.Inactive? || s.ctl.pc.Stopping? || s.ctl.pose == LastPose(s.hist.log, s.hist.activation))
  }

  /** An estimate is only held by an active estimator that was asked to initialise and did. */
  predicate SpeaksWhenAsked(est: EstimatorSide) {
    && (est.filter.epoch != 0 || est.filter.estimate.valid ==> est.active)
    && (est.filter.estimate.valid ==> est.filter.initialized && est.filter.epoch != 0)
  }

  predicate Own(cfg: Settings, s: State) {
    && SpeaksWhenAsked(s.est)
    && (cfg.source.GroundTruth? ==> PoseSound(s))
    && AllRead(cfg, s.hist.log)
    && (|s.hist.log| > 0 ==> s.hist.log[|s.hist.log| - 1].activation <= s.hist.activation)
    && (if InTick(s.ctl.pc) then
          && Reads(cfg, s.hist.log, s.hist.activation, s.ctl.tick.input, s.ctl.state.seen.fromHardware,
                   s.ctl.tick.observation)
          && (if s.ctl.state.seen.fromHardware then s.ctl.state.seen.last == Some(s.ctl.tick.observation)
              else LastKept(cfg, LastMeasured(cfg, s.hist.log, s.hist.activation), s.ctl.pc, s.ctl.state.seen.last))
        else LastKept(cfg, LastMeasured(cfg, s.hist.log, s.hist.activation), s.ctl.pc, s.ctl.state.seen.last))
  }

  /** Steps that leave the records, the tick and what was seen alone. */
  lemma QuietKeeps(cfg: Settings, s: State, t: State)
    requires Own(cfg, s)
    requires t.hist.log == s.hist.log && t.hist.activation == s.hist.activation
    requires SpeaksWhenAsked(t.est)
    requires t.ctl.state.seen == s.ctl.state.seen && (InTick(s.ctl.pc) <==> InTick(t.ctl.pc))
    requires InTick(t.ctl.pc) ==> t.ctl.tick.input == s.ctl.tick.input
    requires InTick(t.ctl.pc) ==> t.ctl.tick.observation == s.ctl.tick.observation
    requires t.ctl.pc.Inactive? || t.ctl.pc.Stopping? ||
             (t.ctl.pose == s.ctl.pose && !s.ctl.pc.Inactive? && !s.ctl.pc.Stopping?)
    ensures Own(cfg, t)
  {
  }

  lemma BeginningKeeps(cfg: Settings, s: State, input: TickInput)
    requires Own(cfg, s) && s.ctl.pc.Idle?
    ensures Own(cfg, Next(cfg, s, BeginTick(input)))
  {
  }

  lemma CommandingKeeps(cfg: Settings, s: State)
    requires Own(cfg, s) && s.ctl.pc.Rested?
    ensures Own(cfg, Commanding(cfg, s, Decide(cfg, s)).(step := s.step + 1))
  {
    var log, r := s.hist.log, RecordOf(cfg, s, Decide(cfg, s));
    var t := Commanding(cfg, s, Decide(cfg, s)).(step := s.step + 1);
    ReadGrows(cfg, log, r);
    SeenGrows(cfg, log, r, s.ctl.pc, s.ctl.state.seen.last);
    assert t.hist.log == log + [r];
    if cfg.source.GroundTruth? {
      FollowGrows(log, r);
      PoseGrows(log, r);
      assert PoseSound(t);
    }
  }

  /** What was seen last after one more record. */
  lemma SeenGrows(cfg: Settings, log: Log, r: Record, pc: ControlPc, seen: Option<Observation>)
    requires if r.fromHardware then seen == Some(r.observation)
             else LastKept(cfg, LastMeasured(cfg, log, r.activation), pc, seen)
    ensures LastKept(cfg, LastMeasured(cfg, log + [r], r.activation), pc, seen)
  {
    assert (log + [r])[..|log|] == log;
  }

  lemma PoseGrows(log: Log, r: Record)
    ensures LastPose(log + [r], r.activation) ==
            if r.ready then PlannedPose(r.observation) else LastPose(log, r.activation)
  {
    assert (log + [r])[..|log|] == log;
  }

  lemma ReadGrows(cfg: Settings, log: Log, r: Record)
    requires AllRead(cfg, log) && RecordReads(cfg, log, r)
    ensures AllRead(cfg, log + [r])
  {
    forall k | 0 <= k < |log| + 1
      ensures RecordReads(cfg, (log + [r])[..k], (log + [r])[k])
    {
      assert (log + [r])[..k] == log[..k];
    }
  }

  lemma FollowGrows(log: Log, r: Record)
    requires AllFollow(log) && FollowsOrHolds(log, r)
    ensures AllFollow(log + [r])
  {
    forall k | 0 <= k < |log| + 1
      ensures FollowsOrHolds((log + [r])[..k], (log + [r])[k])
    {
      assert (log + [r])[..k] == log[..k];
    }
  }

  lemma ControlKeeps(cfg: Settings, s: State)
    requires Own(cfg, s) && Enabled(cfg, s, ControlStep)
    ensures Own(cfg, ControlThreadStep(cfg, s).(step := s.step + 1))
  {
    match s.ctl.pc {
      case Loaded => FeedingKeeps(cfg, s);
      case Supplied => SwappingKeeps(cfg, s);
      case Rested => CommandingKeeps(cfg, s);
      case _ => PassingKeeps(cfg, s);
    }
  }

  lemma FeedingKeeps(cfg: Settings, s: State)
    requires Own(cfg, s) && s.ctl.pc.Loaded?
    ensures Own(cfg, Feeding(s).(step := s.step + 1))
  {
    QuietKeeps(cfg, s, Feeding(s).(step := s.step + 1));
  }

  lemma SwappingKeeps(cfg: Settings, s: State)
    requires Own(cfg, s) && s.ctl.pc.Supplied?
    ensures Own(cfg, Swapping(s).(step := s.step + 1))
  {
    QuietKeeps(cfg, s, Swapping(s).(step := s.step + 1));
  }

  lemma PassingKeeps(cfg: Settings, s: State)
    requires Own(cfg, s) && !BetweenTicks(s) && !s.ctl.pc.Stopping?
    requires !s.ctl.pc.Loaded? && !s.ctl.pc.Supplied? && !s.ctl.pc.Rested?
    ensures Own(cfg, ControlThreadStep(cfg, s).(step := s.step + 1))
  {
    QuietKeeps(cfg, s, ControlThreadStep(cfg, s).(step := s.step + 1));
  }

  lemma ActivatingKeeps(cfg: Settings, s: State, a: ActivationInput)
    requires Own(cfg, s) && Enabled(cfg, s, FinishStop(a)) && s.ctl.pc.activate
    ensures Own(cfg, Activating(cfg, s, a).(step := s.step + 1))
  {
    if cfg.source.StateEstimator? {
      AnyActivation(cfg, s.hist.log, s.hist.activation, s.hist.activation + 1);
    }
  }

  lemma {:induction false} AnyActivation(cfg: Settings, log: Log, a: nat, b: nat)
    requires cfg.source.StateEstimator?
    ensures LastMeasured(cfg, log, a) == LastMeasured(cfg, log, b)
  {
    if log != [] {
      AnyActivation(cfg, log[..|log| - 1], a, b);
    }
  }

  lemma WorkerKeeps(cfg: Settings, s: State, solver: Solver)
    requires Own(cfg, s)
    ensures Own(cfg, WorkerThreadStep(s, solver).(step := s.step + 1))
  {
    match s.worker { case _ => }
    QuietKeeps(cfg, s, WorkerThreadStep(s, solver).(step := s.step + 1));
  }

  lemma StandUpKeeps(cfg: Settings, s: State)
    requires Own(cfg, s)
    ensures Own(cfg, StandUpStep(cfg, s).(step := s.step + 1))
  {
    QuietKeeps(cfg, s, StandUpStep(cfg, s).(step := s.step + 1));
  }

  lemma StartKeeps(cfg: Settings, s: State)
    requires Own(cfg, s)
    ensures Own(cfg, StartStep(cfg, s).(step := s.step + 1))
  {
    QuietKeeps(cfg, s, StartStep(cfg, s).(step := s.step + 1));
  }

  lemma StopKeeps(cfg: Settings, s: State, a: ActivationInput)
    requires Own(cfg, s) && Enabled(cfg, s, FinishStop(a))
    ensures Own(cfg, Next(cfg, s, FinishStop(a)))
  {
    if s.ctl.pc.activate {
      ActivatingKeeps(cfg, s, a);
    }
  }

  lemma QuietEventKeeps(cfg: Settings, s: State, e: Event)
    requires Own(cfg, s) && Enabled(cfg, s, e)
    requires e.BeginStop? || e.EstimatorUpdate? || e.EstimatorActivate? || e.EstimatorDeactivate? || e.Shutdown?
    ensures Own(cfg, Next(cfg, s, e))
  {
    QuietKeeps(cfg, s, Next(cfg, s, e));
  }

  lemma OwnKeeps(cfg: Settings, s: State, e: Event)
    requires Own(cfg, s) && Enabled(cfg, s, e)
    ensures Own(cfg, Next(cfg, s, e))
  {
    match e {
      case BeginTick(input) => BeginningKeeps(cfg, s, input);
      case ControlStep => ControlKeeps(cfg, s);
      case FinishStop(a) => StopKeeps(cfg, s, a);
      case WorkerStep(solver) => WorkerKeeps(cfg, s, solver);
      case StandUpService => StandUpKeeps(cfg, s);
      case StartService => StartKeeps(cfg, s);
      case _ => QuietEventKeeps(cfg, s, e);
    }
  }

  lemma {:induction false} OwnHolds(cfg: Settings, s: State, events: seq<Event>)
    requires Own(cfg, s) && Possible(cfg, s, events)
    ensures Own(cfg, Run(cfg, s, events))
    decreases |events|
  {
    if events != [] {
      OwnKeeps(cfg, s, events[0]);
      OwnHolds(cfg, Next(cfg, s, events[0]), events[1..]);
    }
  }

  // ---- what it means ----

  /**
   In every run, each recorded tick: its observation bears its time. It was measured only from
   joints and a base that could be read, with a ground-truth base whenever they could, and is
   finite exactly if they were. Otherwise the last measured one stands in for it.
   */
  lemma ObservationsAreReadings(cfg: Settings, s: State, k: nat)
    requires Reachable(cfg, s) && k < |s.hist.log|
    ensures RecordReads(cfg, s.hist.log[..k], s.hist.log[k])
  {
    var events :| Possible(cfg, START, events) && s == Run(cfg, START, events);
    OwnHolds(cfg, START, events);
  }

  /** And without a usable plan a ground-truth base holds the pose the plan last set in this activation. */
  lemma HoldsTheLastPose(cfg: Settings, s: State, k: nat)
    requires Reachable(cfg, s) && cfg.source.GroundTruth? && k < |s.hist.log|
    ensures FollowsOrHolds(s.hist.log[..k], s.hist.log[k])
  {
    var events :| Possible(cfg, START, events) && s == Run(cfg, START, events);
    OwnHolds(cfg, START, events);
  }

  /** In every run the exports show an epoch or a valid estimate only while the estimator is active and has started. */
  lemma OnlyAnAskedEstimatorSpeaks(cfg: Settings, s: State)
    requires Reachable(cfg, s)
    ensures SpeaksWhenAsked(s.est)
  {
    var events :| Possible(cfg, START, events) && s == Run(cfg, START, events);
    OwnHolds(cfg, START, events);
  }

  /**
   A tick begins with the newest exports if it can read them and else with what it had, and trusts
   the estimate only if the estimator runs the epoch asked for. It looks once at whether there is a solver.
   */
  lemma BeginsWithTheExports(cfg: Settings, s: State, input: TickInput)
    requires s.ctl.pc.Idle? && cfg.source.StateEstimator?
    ensures var t := Next(cfg, s, BeginTick(input));
            var link, filter, kept := t.ctl.state.link, s.est.filter, s.ctl.state.link;
            && (t.ctl.tick.solverReady <==> s.mem.mpcReady)
            && link.epoch == kept.epoch
            && link.status == (if input.exportsReadable then Status(filter.ready, filter.epoch) else kept.status)
            && (link.estimate.valid <==>
                  if input.exportsReadable then filter.estimate.valid && kept.epoch != 0 && filter.epoch == kept.epoch
                  else kept.estimate.valid)
            && (t.ctl.state.seen.fromHardware <==> input.jointsForObservation && link.estimate.valid)
            && (t.ctl.state.seen.fromHardware ==>
                  t.ctl.tick.observation.origin ==
                  Measured(Some(if input.exportsReadable then filter.estimate.birth else kept.estimate.birth)))
  {
  }

  /** An upright tick of Converge that reads the joints hands over exactly when the estimator answers and is ready. */
  lemma HandsOverExactlyWhenReady(cfg: Settings, s: State)
    ensures var link, input := s.ctl.state.link, s.ctl.tick.input;
            cfg.source.StateEstimator? ==>
              (Decide(cfg, s).handOver <==>
                && s.ctl.state.stage.phase == Converge && s.ctl.state.seen.fromHardware
                && input.joints && (input.tilt.None? || input.tilt.value <= cfg.tiltLimit)
                && link.epoch != 0 && link.status.epoch == link.epoch && link.status.ready)
    ensures cfg.source.GroundTruth? ==>
              (Decide(cfg, s).handOver <==>
                s.ctl.state.seen.fromHardware && !s.ctl.state.plans.ready && !s.mem.locomotionRequested)
  {
    if cfg.source.StateEstimator? && s.ctl.tick.input.joints {
      match s.ctl.state.stage.phase {
        case Passive =>
        case StandUp =>
        case Settle =>
        case Converge =>
        case StartingMpc =>
        case Blend =>
        case Locomotion =>
        case Fault =>
      }
    }
  }
}
