/**
 The control thread's own state and the bring-up state machine: each operation as a
 function on that state, and the controller whose methods update the fields in place.
 */
module BringUpMachine {
  import opened Basics
  import opened BringUpTypes

  /** The bring-up phase and what is timed within it. */
  datatype Stage = Stage(phase: Phase, atRest: bool, start: real, settledSince: real, filter: Option<Rates>)

  /** Flags raised by the two services. */
  datatype Calls = Calls(standUp: bool, start: bool)

  /** What is known of the estimator, and the epoch asked of it. */
  datatype Link = Link(estimate: Estimate, status: Status, epoch: Epoch, drives: bool)
  {
    predicate InitializedForRequest() {
      epoch != 0 && status.epoch == epoch
    }
  }

  datatype Plans = Plans(hasActive: bool, ready: bool)

  datatype Seen = Seen(fromHardware: bool, last: Option<Observation>)

  datatype Control = Control(stage: Stage, calls: Calls, link: Link, plans: Plans, seen: Seen)

  const PASSIVE_STAGE := Stage(Passive, false, -1.0, -1.0, None)

  const FRESH_CONTROL :=
    Control(PASSIVE_STAGE, Calls(false, false), Link(NO_ESTIMATE, Status(false, 0), 0, false),
            Plans(false, false), Seen(false, None))

  // ---- estimator side of a control tick ----

  function ReadEstimator(l: Link, readable: bool, exports: Exports): Link {
    if !readable then l
    else
      var l1 := l.(status := exports.status);
      l1.(estimate := exports.estimate.(valid := exports.estimate.valid && l1.InitializedForRequest()))
  }

  function RequestInitialization(l: Link): Link {
    l.(epoch := NextEpoch(l.status.epoch), estimate := l.estimate.(valid := false))
  }

  // ---- observation ----

  predicate Observable(cfg: Settings, l: Link, input: TickInput) {
    && input.jointsForObservation
    && (if cfg.source.StateEstimator? then l.estimate.valid else input.groundTruthReadable)
  }

  function BaseOrigin(cfg: Settings, l: Link): Origin {
    Measured(if cfg.source.StateEstimator? then Some(l.estimate.birth) else None)
  }

  function Held(seen: Seen, time: real): Observation {
    match seen.last
    case Some(last) => last.(time := time)
    case None => Observation(time, InitialState, true)
  }

  function Observe(cfg: Settings, l: Link, seen: Seen, input: TickInput): (Seen, Observation) {
    if Observable(cfg, l, input) then
      var o := Observation(input.time, BaseOrigin(cfg, l), input.stateFinite);
      (Seen(true, Some(o)), o)
    else
      (seen.(fromHardware := false), Held(seen, input.time))
  }

  // ---- policy validation ----

  predicate Usable(cfg: Settings, fromHardware: bool, plan: Option<Plan>, o: Observation) {
    && fromHardware
    && plan.Some?
    && Covers(plan.value, o.time + cfg.policyTimeOffset, Margin(cfg.updateRate))
  }

  /** The revalidated plan flags, and whether a warm-start reset is requested. */
  function Validate(cfg: Settings, p: Plans, fromHardware: bool, plan: Option<Plan>, o: Observation, updated: bool)
    : (Plans, bool)
  {
    var ready := p.hasActive && Usable(cfg, fromHardware, plan, o);
    (p.(ready := ready), p.hasActive && !ready && (updated || p.ready))
  }

  // ---- bring-up ----

  function Entered(phase: Phase, t: real): Stage {
    Stage(phase, false, t, -1.0, None)
  }

  /** What one call of the bring-up did. */
  datatype Outcome = Outcome(stage: Stage, link: Link, command: Command, requested: bool, handOver: bool)

  predicate Tilted(cfg: Settings, p: Phase, input: TickInput) {
    input.tilt.Some? && p != Passive && p != Fault && input.tilt.value > cfg.tiltLimit
  }

  /** The stage in which the tick is processed: the tilt guard runs before the phase does. */
  function Guarded(cfg: Settings, g: Stage, input: TickInput): Stage {
    if Tilted(cfg, g.phase, input) then Entered(Fault, input.time)
    else if g.start < 0.0 then g.(start := input.time)
    else g
  }

  // ---- the trunk at rest ----

  const GRAVITY: real := 9.81

  function Toward(a: real, from: Axes, to: Axes): Axes {
    Axes(from.x + a * (to.x - from.x), from.y + a * (to.y - from.y), from.z + a * (to.z - from.z))
  }

  /** The low-passed rates after one more reading; the first reading starts the filter. */
  function Filtered(cfg: Settings, filter: Option<Rates>, raw: Rates): Rates {
    var from := if filter.Some? then filter.value else raw;
    Rates(Toward(cfg.settleWeight, from.gyro, raw.gyro), Toward(cfg.settleWeight, from.accel, raw.accel))
  }

  /** Turning slowly, and the accelerometer close to gravity. */
  predicate Calm(cfg: Settings, r: Rates) {
    && cfg.norm(r.gyro) < cfg.settleGyroMax
    && Abs(cfg.norm(r.accel) - GRAVITY) < cfg.settleAccelTolerance
  }

  /** The limits can be met at all. */
  ghost predicate CanRest(cfg: Settings) {
    exists r: Rates :: Calm(cfg, r)
  }

  /** Constant readings pass the filter as they are. */
  lemma ConstantPasses(cfg: Settings, r: Rates)
    ensures Filtered(cfg, None, r) == Filtered(cfg, Some(r), r) == r
  {
    TowardItself(cfg.settleWeight, r.gyro);
    TowardItself(cfg.settleWeight, r.accel);
  }

  lemma TowardItself(a: real, v: Axes)
    ensures Toward(a, v, v) == v
  {
  }

  /** What a Settle tick makes of its readings. */
  predicate FoundRest(cfg: Settings, filter: Option<Rates>, input: TickInput) {
    input.rates.Some? && Calm(cfg, Filtered(cfg, filter, input.rates.value))
  }

  /** The filter after a Settle tick; unreadable rates leave it as it was. */
  function NextFilter(cfg: Settings, filter: Option<Rates>, input: TickInput): Option<Rates> {
    if input.rates.Some? then Some(Filtered(cfg, filter, input.rates.value)) else filter
  }

  function Settled(cfg: Settings, g: Stage, input: TickInput): Stage {
    var rest := FoundRest(cfg, g.filter, input);
    var since := if rest then (if g.settledSince < 0.0 then input.time else g.settledSince) else -1.0;
    g.(filter := NextFilter(cfg, g.filter, input), settledSince := since,
       atRest := since >= 0.0 && input.time - since >= cfg.settleSeconds)
  }

  function SettleTick(cfg: Settings, c: Control, input: TickInput): Outcome {
    var g := Settled(cfg, c.stage, input);
    if g.atRest && (cfg.autoStart || c.calls.start)
    then Outcome(Entered(Converge, input.time), RequestInitialization(c.link), Hold(NominalStand), true, false)
    else Outcome(g, c.link, Hold(NominalStand), false, false)
  }

  function BlendTick(cfg: Settings, c: Control, input: TickInput, o: Observation): Outcome {
    if !c.plans.ready then
      Outcome(Entered(StartingMpc, input.time), c.link.(drives := false), Hold(NominalStand), false, false)
    else
      var a := Progress(input.time - c.stage.start, cfg.blendSeconds);
      Outcome(if a >= 1.0 then Entered(Locomotion, input.time) else c.stage, c.link, Blended(a, o), false, false)
  }

  function PhaseTick(cfg: Settings, c: Control, input: TickInput, o: Observation): Outcome {
    var g, t := c.stage, input.time;
    match g.phase
    case Passive =>
      Outcome(if cfg.autoStart || c.calls.standUp then Entered(StandUp, t) else g, c.link,
              Damp(ActivationPose), false, false)
    case StandUp =>
      var s := Progress(t - g.start, cfg.standUpSeconds);
      Outcome(if s >= 1.0 then Entered(Settle, t) else g, c.link, Hold(StandUpRamp(Smoothstep(s))), false, false)
    case Settle =>
      SettleTick(cfg, c, input)
    case Converge =>
      var converged := c.link.InitializedForRequest() && c.link.status.ready && c.seen.fromHardware;
      Outcome(if converged then Entered(StartingMpc, t) else g, c.link, Hold(NominalStand), false, converged)
    case StartingMpc =>
      if c.plans.ready
      then Outcome(Entered(Blend, t), c.link.(drives := true), Hold(NominalStand), false, false)
      else Outcome(g, c.link, Hold(NominalStand), false, false)
    case Blend =>
      BlendTick(cfg, c, input, o)
    case Locomotion =>
      if c.plans.ready then Outcome(g, c.link, Mpc(o), false, false)
      else Outcome(Entered(Fault, t), c.link.(drives := false), Damp(MeasuredJoints), false, false)
    case Fault =>
      Outcome(g, c.link, Damp(MeasuredJoints), false, false)
  }

  function BringUp(cfg: Settings, c: Control, input: TickInput, o: Observation): Outcome {
    if !input.joints then Outcome(c.stage, c.link, Damp(NominalStand), false, false)
    else PhaseTick(cfg, c.(stage := Guarded(cfg, c.stage, input)), input, o)
  }

  /**
   The ground-truth branch of a tick: no bring-up; the first usable observation seeds the solver.
   Without a usable plan it holds `pose`.
   */
  function GroundTruthTick(c: Control, o: Observation, pose: Target, locomotionRequested: bool): Outcome {
    if c.plans.ready then Outcome(c.stage, c.link, Mpc(o), false, false)
    else Outcome(c.stage, c.link, Hold(pose), false, !locomotionRequested && c.seen.fromHardware)
  }

  // ---- what one bring-up call may do ----

  /** The coded phase graph, without the edges into Fault. */
  predicate Edge(p: Phase, q: Phase) {
    || p == q
    || (p == Passive && q == StandUp)
    || (p == StandUp && q == Settle)
    || (p == Settle && q == Converge)
    || (p == Converge && q == StartingMpc)
    || (p == StartingMpc && q == Blend)
    || (p == Blend && (q == StartingMpc || q == Locomotion))
  }

  /** Requests leave Settle, hand-overs leave Converge, and the estimator link changes only at a request. */
  predicate LawfulLink(c: Control, r: Outcome) {
    && r.link.status == c.link.status
    && (r.handOver ==>
          && c.stage.phase == Converge && r.stage.phase == StartingMpc && !r.requested
          && c.link.InitializedForRequest() && c.link.status.ready && c.seen.fromHardware)
    && (r.requested ==>
          && c.stage.phase == Settle && r.stage.phase == Converge
          && r.link.epoch == NextEpoch(c.link.status.epoch) && !r.link.estimate.valid)
    && (!r.requested ==> r.link.epoch == c.link.epoch && r.link.estimate == c.link.estimate)
  }

  predicate LawfulMotion(c: Control, r: Outcome) {
    var p, q := c.stage.phase, r.stage.phase;
    && (Edge(p, q) || q == Fault)
    && (p == Fault ==> q == Fault)
    && (q == Converge && p != Converge ==> r.requested)
    && (p == Converge && q == StartingMpc ==> r.handOver)
    && (r.command.FromMpc() ==> c.plans.ready && (p == Blend || p == Locomotion))
  }

  /** Walking with no usable plan. */
  predicate PlanLost(c: Control) {
    c.stage.phase == Locomotion && !c.plans.ready
  }

  lemma PhaseTickIsLawful(cfg: Settings, c: Control, input: TickInput, o: Observation)
    ensures LawfulLink(c, PhaseTick(cfg, c, input, o))
    ensures LawfulMotion(c, PhaseTick(cfg, c, input, o))
    ensures PhaseTick(cfg, c, input, o).stage.phase == Fault <==> c.stage.phase == Fault || PlanLost(c)
    ensures c.stage.phase == Fault ==>
              PhaseTick(cfg, c, input, o) == Outcome(c.stage, c.link, Damp(MeasuredJoints), false, false)
  {
    match c.stage.phase {
      case Passive =>
      case StandUp =>
      case Settle =>
      case Converge =>
      case StartingMpc =>
      case Blend =>
      case Locomotion =>
      case Fault =>
    }
  }

  /**
   Whatever the readings, one call follows the phase graph, never leaves Fault, answers an
   excessive tilt with damping, derives a command from the plan only if that was validated, and
   ends in Fault exactly when it was there, saw the tilt, or walked without a usable plan.
   */
  lemma BringUpIsLawful(cfg: Settings, c: Control, input: TickInput, o: Observation)
    ensures LawfulLink(c, BringUp(cfg, c, input, o))
    ensures LawfulMotion(c, BringUp(cfg, c, input, o))
    ensures input.joints && Tilted(cfg, c.stage.phase, input) ==>
              BringUp(cfg, c, input, o).command == Damp(MeasuredJoints)
    ensures BringUp(cfg, c, input, o).stage.phase == Fault <==>
              c.stage.phase == Fault || (input.joints && (Tilted(cfg, c.stage.phase, input) || PlanLost(c)))
  {
    if input.joints {
      PhaseTickIsLawful(cfg, c.(stage := Guarded(cfg, c.stage, input)), input, o);
      if Tilted(cfg, c.stage.phase, input) {
      } else {
      }
    }
  }

  /** The settle timer after a tick that found the trunk at rest. */
  function RestSince(since: real, t: real): real {
    if since < 0.0 then t else since
  }

  /** The test a Settle tick makes: at rest now, and for long enough, and asked to start. */
  predicate MayConverge(cfg: Settings, c: Control, input: TickInput) {
    var since := RestSince(c.stage.settledSince, input.time);
    && FoundRest(cfg, c.stage.filter, input)
    && since >= 0.0
    && input.time - since >= cfg.settleSeconds
    && (cfg.autoStart || c.calls.start)
  }

  /** The settle timer across a processed Settle tick, and exactly when the tick ends in Converge. */
  lemma SettleOutcome(cfg: Settings, c: Control, input: TickInput, o: Observation)
    requires c.stage.phase == Settle
    ensures var r := BringUp(cfg, c, input, o);
            && (!input.joints ==> r.stage == c.stage)
            && (input.joints && !Tilted(cfg, Settle, input) ==>
                  && (r.stage.phase == Converge <==> MayConverge(cfg, c, input))
                  && (r.stage.phase == Settle || r.stage.phase == Converge)
                  && (r.stage.phase == Settle ==>
                        && r.stage.filter == NextFilter(cfg, c.stage.filter, input)
                        && r.stage.settledSince ==
                           if FoundRest(cfg, c.stage.filter, input)
                           then RestSince(c.stage.settledSince, input.time) else -1.0))
            && (input.joints && Tilted(cfg, Settle, input) ==> r.stage.phase == Fault)
  {
    if input.joints {
      var d := c.(stage := Guarded(cfg, c.stage, input));
      if Tilted(cfg, Settle, input) {
        assert PhaseTick(cfg, d, input, o).stage == d.stage;
      } else {
        assert PhaseTick(cfg, d, input, o) == SettleTick(cfg, d, input);
      }
    }
  }

  /** Settle is entered with the timer stopped and the filter not started. */
  lemma SettleStartsStopped(cfg: Settings, c: Control, input: TickInput, o: Observation)
    requires c.stage.phase != Settle && BringUp(cfg, c, input, o).stage.phase == Settle
    ensures BringUp(cfg, c, input, o).stage.settledSince < 0.0
    ensures BringUp(cfg, c, input, o).stage.filter == None
  {
    var d := c.(stage := Guarded(cfg, c.stage, input));
    match d.stage.phase {
      case StandUp =>
      case Passive =>
      case Converge =>
      case StartingMpc =>
      case Blend =>
      case Locomotion =>
      case Fault =>
    }
  }

  // ---- references ----

  /** Contact flags and epoch written for the estimator at the end of a tick. */
  function WriteReferences(cfg: Settings, c: Control, input: TickInput): References {
    var driving := !cfg.source.StateEstimator? || c.stage.phase == Blend || c.stage.phase == Locomotion;
    References(driving ==> input.contactLeft, driving ==> input.contactRight, c.link.epoch)
  }

  // ---- activation ----

  /** `on_activate`: the estimator status, the epoch, the last observation and the settle filter survive. */
  function Activated(c: Control): Control {
    Control(PASSIVE_STAGE.(filter := c.stage.filter), Calls(false, false),
            c.link.(estimate := NO_ESTIMATE, drives := false), Plans(false, false), c.seen)
  }

  /** The controller object; services raise the two request flags from another thread. */
  class Controller {
    const cfg: Settings
    var bringUpPhase: Phase
    var atRest: bool
    var phaseStartTime: real
    var settledSince: real
    var restGyro: Axes
    var restAccel: Axes
    var restFilterInitialized: bool
    var standUpRequested: bool
    var startRequested: bool
    var lastEstimate: Estimate
    var estimatorStatus: Status
    var estimatorEpoch: Epoch
    var estimatorDrivingControl: bool
    var hasActivePolicy: bool
    var activePolicyReady: bool
    var observationFromHardware: bool
    var lastHardwareObservation: Option<Observation>

    function StageView(): Stage
      reads this
    {
      Stage(bringUpPhase, atRest, phaseStartTime, settledSince,
            if restFilterInitialized then Some(Rates(restGyro, restAccel)) else None)
    }

    function LinkView(): Link
      reads this
    {
      Link(lastEstimate, estimatorStatus, estimatorEpoch, estimatorDrivingControl)
    }

    function SeenView(): Seen
      reads this
    {
      Seen(observationFromHardware, lastHardwareObservation)
    }

    function View(): Control
      reads this
    {
      Control(StageView(), Calls(standUpRequested, startRequested), LinkView(),
              Plans(hasActivePolicy, activePolicyReady), SeenView())
    }

    constructor (cfg: Settings)
      ensures this.cfg == cfg && View() == FRESH_CONTROL
    {
      this.cfg := cfg;
      bringUpPhase, atRest, phaseStartTime, settledSince := Passive, false, -1.0, -1.0;
      restGyro, restAccel, restFilterInitialized := Axes(0.0, 0.0, 0.0), Axes(0.0, 0.0, 0.0), false;
      standUpRequested, startRequested := false, false;
      lastEstimate, estimatorStatus, estimatorEpoch := NO_ESTIMATE, Status(false, 0), 0;
      estimatorDrivingControl, hasActivePolicy, activePolicyReady := false, false, false;
      observationFromHardware, lastHardwareObservation := false, None;
    }

    method ReturnToPassive()
      modifies this`bringUpPhase, this`atRest, this`phaseStartTime, this`settledSince
      ensures StageView() == PASSIVE_STAGE.(filter := old(StageView()).filter)
    {
      bringUpPhase, atRest, phaseStartTime, settledSince := Passive, false, -1.0, -1.0;
    }

    method ForgetRequestsAndPlans()
      modifies this`standUpRequested, this`startRequested, this`hasActivePolicy, this`activePolicyReady
      ensures !standUpRequested && !startRequested && !hasActivePolicy && !activePolicyReady
    {
      standUpRequested, startRequested, hasActivePolicy, activePolicyReady := false, false, false, false;
    }

    method OnActivate()
      modifies this
      ensures View() == Activated(old(View()))
    {
      lastEstimate, estimatorDrivingControl := NO_ESTIMATE, false;
      ReturnToPassive();
      ForgetRequestsAndPlans();
    }

    method ReadStateEstimator(readable: bool, exports: Exports)
      modifies this`lastEstimate, this`estimatorStatus
      ensures LinkView() == ReadEstimator(old(LinkView()), readable, exports)
    {
      if !readable {
        return;
      }
      lastEstimate, estimatorStatus := exports.estimate, exports.status;
      lastEstimate := lastEstimate.(valid := lastEstimate.valid && estimatorEpoch != 0 &&
                                    estimatorStatus.epoch == estimatorEpoch);
    }

    method RequestEstimatorInitialization()
      modifies this`estimatorEpoch, this`lastEstimate
      ensures LinkView() == RequestInitialization(old(LinkView()))
    {
      estimatorEpoch := NextEpoch(estimatorStatus.epoch);
      lastEstimate := lastEstimate.(valid := false);
    }

    method BuildObservation(input: TickInput) returns (o: Observation)
      modifies this`observationFromHardware, this`lastHardwareObservation
      ensures (SeenView(), o) == Observe(cfg, LinkView(), old(SeenView()), input)
    {
      observationFromHardware := false;
      o := match lastHardwareObservation
           case Some(last) => last.(time := input.time)
           case None => Observation(input.time, InitialState, true);
      if !input.jointsForObservation {
        return;
      }
      if cfg.source.StateEstimator? {
        if !lastEstimate.valid {
          return;
        }
        o := Observation(input.time, Measured(Some(lastEstimate.birth)), input.stateFinite);
      } else {
        if !input.groundTruthReadable {
          return;
        }
        o := Observation(input.time, Measured(None), input.stateFinite);
      }
      observationFromHardware := true;
      lastHardwareObservation := Some(o);
    }

    method ValidatePolicy(plan: Option<Plan>, o: Observation, updated: bool) returns (reset: bool)
      modifies this`activePolicyReady
      ensures (Plans(hasActivePolicy, activePolicyReady), reset)
           == Validate(cfg, Plans(hasActivePolicy, old(activePolicyReady)), observationFromHardware, plan, o, updated)
    {
      var previousReady := activePolicyReady;
      reset := false;
      activePolicyReady := false;
      if hasActivePolicy {
        var evaluation := o.time + cfg.policyTimeOffset;
        activePolicyReady := observationFromHardware && plan.Some? &&
                             Covers(plan.value, evaluation, Margin(cfg.updateRate));
        if !activePolicyReady && (updated || previousReady) {
          reset := true;
        }
      }
    }

    method EnterBringUpPhase(phase: Phase, t: real)
      modifies this`bringUpPhase, this`atRest, this`phaseStartTime, this`settledSince
      modifies this`restGyro, this`restAccel, this`restFilterInitialized
      ensures StageView() == Entered(phase, t)
    {
      bringUpPhase := phase;
      atRest := false;
      phaseStartTime := t;
      settledSince := -1.0;
      restFilterInitialized := false;
    }

    /** The settle filter's part of a Settle tick. */
    method FilterRates(input: TickInput) returns (rest: bool)
      modifies this`restGyro, this`restAccel, this`restFilterInitialized
      ensures rest == FoundRest(cfg, old(StageView()).filter, input)
      ensures StageView() == old(StageView()).(filter := NextFilter(cfg, old(StageView()).filter, input))
    {
      rest := false;
      if input.rates.Some? {
        var raw := input.rates.value;
        if !restFilterInitialized {
          restGyro, restAccel, restFilterInitialized := raw.gyro, raw.accel, true;
        }
        restGyro := Toward(cfg.settleWeight, restGyro, raw.gyro);
        restAccel := Toward(cfg.settleWeight, restAccel, raw.accel);
        rest := Calm(cfg, Rates(restGyro, restAccel));
      }
    }

    method RunSettle(input: TickInput) returns (command: Command, requested: bool)
      modifies this`bringUpPhase, this`atRest, this`phaseStartTime, this`settledSince
      modifies this`restGyro, this`restAccel, this`restFilterInitialized
      modifies this`estimatorEpoch, this`lastEstimate
      ensures Outcome(StageView(), LinkView(), command, requested, false) == SettleTick(cfg, old(View()), input)
    {
      var t := input.time;
      var rest := FilterRates(input);
      settledSince := if rest then (if settledSince < 0.0 then t else settledSince) else -1.0;
      var settled := settledSince >= 0.0 && t - settledSince >= cfg.settleSeconds;
      atRest := settled;
      command, requested := Hold(NominalStand), false;
      if settled && (cfg.autoStart || startRequested) {
        RequestEstimatorInitialization();
        requested := true;
        EnterBringUpPhase(Converge, t);
      }
    }

    method RunBlend(input: TickInput, o: Observation) returns (command: Command)
      modifies this`bringUpPhase, this`atRest, this`phaseStartTime, this`settledSince
      modifies this`restGyro, this`restAccel, this`restFilterInitialized, this`estimatorDrivingControl
      ensures Outcome(StageView(), LinkView(), command, false, false) == BlendTick(cfg, old(View()), input, o)
    {
      if !activePolicyReady {
        estimatorDrivingControl := false;
        EnterBringUpPhase(StartingMpc, input.time);
        return Hold(NominalStand);
      }
      var a := Progress(input.time - phaseStartTime, cfg.blendSeconds);
      command := Blended(a, o);
      if a >= 1.0 {
        EnterBringUpPhase(Locomotion, input.time);
      }
    }

    method GuardTilt(input: TickInput)
      modifies this`bringUpPhase, this`atRest, this`phaseStartTime, this`settledSince
      modifies this`restGyro, this`restAccel, this`restFilterInitialized
      ensures StageView() == Guarded(cfg, old(StageView()), input)
    {
      if phaseStartTime < 0.0 {
        phaseStartTime := input.time;
      }
      if input.tilt.Some? && bringUpPhase != Passive && bringUpPhase != Fault {
        if input.tilt.value > cfg.tiltLimit {
          EnterBringUpPhase(Fault, input.time);
        }
      }
    }

    method RunPhase(input: TickInput, o: Observation)
      returns (command: Command, requested: bool, handOver: bool)
      modifies this`bringUpPhase, this`atRest, this`phaseStartTime, this`settledSince
      modifies this`restGyro, this`restAccel, this`restFilterInitialized
      modifies this`estimatorEpoch, this`lastEstimate, this`estimatorDrivingControl
      ensures Outcome(StageView(), LinkView(), command, requested, handOver) == PhaseTick(cfg, old(View()), input, o)
    {
      requested, handOver := false, false;
      var t := input.time;
      match bringUpPhase {
        case Passive =>
          command := Damp(ActivationPose);
          if cfg.autoStart || standUpRequested {
            EnterBringUpPhase(StandUp, t);
          }
        case StandUp =>
          var s := Progress(t - phaseStartTime, cfg.standUpSeconds);
          command := Hold(StandUpRamp(Smoothstep(s)));
          if s >= 1.0 {
            EnterBringUpPhase(Settle, t);
          }
        case Settle =>
          command, requested := RunSettle(input);
        case Converge =>
          command := Hold(NominalStand);
          if estimatorEpoch != 0 && estimatorStatus.epoch == estimatorEpoch && estimatorStatus.ready &&
             observationFromHardware {
            handOver := true;
            EnterBringUpPhase(StartingMpc, t);
          }
        case StartingMpc =>
          command := Hold(NominalStand);
          if activePolicyReady {
            estimatorDrivingControl := true;
            EnterBringUpPhase(Blend, t);
          }
        case Blend =>
          command := RunBlend(input, o);
        case Locomotion =>
          command := Mpc(o);
          if !activePolicyReady {
            estimatorDrivingControl := false;
            EnterBringUpPhase(Fault, t);
            command := Damp(MeasuredJoints);
          }
        case Fault =>
          command := Damp(MeasuredJoints);
      }
    }

    method RunBringUp(input: TickInput, o: Observation)
      returns (command: Command, requested: bool, handOver: bool)
      modifies this`bringUpPhase, this`atRest, this`phaseStartTime, this`settledSince
      modifies this`restGyro, this`restAccel, this`restFilterInitialized
      modifies this`estimatorEpoch, this`lastEstimate, this`estimatorDrivingControl
      ensures Outcome(StageView(), LinkView(), command, requested, handOver) == BringUp(cfg, old(View()), input, o)
    {
      if !input.joints {
        return Damp(NominalStand), false, false;
      }
      GuardTilt(input);
      command, requested, handOver := RunPhase(input, o);
    }
  }
}
