/**
 Values shared by the control thread of the whole-body controller, the estimator
 controller and the solver worker. Observations, estimates and plans are opaque:
 what is kept of each is where it came from.
 */
module BringUpTypes {
  import opened Basics

  datatype Phase = Passive | StandUp | Settle | Converge | StartingMpc | Blend | Locomotion | Fault

  /** Where the floating base comes from; with ground truth an estimator may still be logged. */
  datatype BaseSource = StateEstimator | GroundTruth(logsEstimator: bool)

  datatype Axes = Axes(x: real, y: real, z: real)

  datatype Settings = Settings(
    source: BaseSource,
    autoStart: bool,
    tiltLimit: real,
    standUpSeconds: real,
    settleSeconds: real,
    blendSeconds: real,
    updateRate: nat,
    policyTimeOffset: real,
    // the settle filter: the weight of one tick, the library's vector norm, and how still is at rest
    settleWeight: real,
    norm: Axes -> real,
    settleGyroMax: real,
    settleAccelTolerance: real,
    // the estimator's readiness gate
    readyMinSeconds: real,
    readyRollPitchMax: real,
    readyHeightMax: real,
    readyVelocityMax: real)
  {
    predicate HasEstimator() {
      source.StateEstimator? || source.logsEstimator
    }
  }

  /** Epochs are 32-bit and wrap. */
  const EPOCHS: int := 0x1_0000_0000

  type Epoch = e: int | 0 <= e < EPOCHS

  function NextEpoch(e: Epoch): (r: Epoch)
    ensures r != e
  {
    (e + 1) % EPOCHS
  }

  /**
   What an estimate knows about the filter run that produced it: the steps at which the
   filter was last reset and stance-initialised, the references at that initialisation,
   the update the estimate is from, and how sure the filter was after it.
   */
  datatype Birth = Birth(resetAt: nat, initAt: nat, initTime: real, initInStance: bool, updateTime: real,
                         deviations: Deviations)

  /** The filter's standard deviations after an update: of the attitude, the position and the velocity. */
  datatype Deviations = Deviations(attitude: Axes, position: Axes, velocity: Axes)

  const NO_AXES := Axes(0.0, 0.0, 0.0)

  datatype Estimate = Estimate(valid: bool, birth: Birth)

  const NO_BIRTH := Birth(0, 0, 0.0, false, 0.0, Deviations(NO_AXES, NO_AXES, NO_AXES))
  const NO_ESTIMATE := Estimate(false, NO_BIRTH)

  datatype Status = Status(ready: bool, epoch: Epoch)

  /** The exported state interfaces, packed and unpacked together. */
  datatype Exports = Exports(estimate: Estimate, status: Status)

  /** The reference interfaces the consumer writes. */
  datatype References = References(left: bool, right: bool, epoch: Epoch)

  datatype Origin = InitialState | Measured(birth: Option<Birth>)

  datatype Observation = Observation(time: real, origin: Origin, finite: bool)

  datatype NodeTime = Finite(seconds: real) | NotFinite

  /** A plan, reduced to its node times. */
  datatype Plan = Plan(times: seq<NodeTime>)

  /**
   The solver's exchange object: the observation it will solve from (and whether a control
   tick supplied it, and when), the plan waiting in its buffer and the plan in use.
   */
  datatype Mrt = Mrt(constructedAt: nat, observation: Observation, fromTick: bool, suppliedAt: nat,
                     buffered: Option<Plan>, active: Option<Plan>)

  /** The pose at activation, measured now, that the plan last commanded, nominal, or on the way there. */
  datatype Target = ActivationPose | MeasuredJoints | PlannedPose(observation: Observation)
                  | NominalStand | StandUpRamp(alpha: real)

  /** Damp: servo only. Hold: servo plus weight compensation. */
  datatype Command = Damp(target: Target) | Hold(target: Target)
                   | Mpc(observation: Observation) | Blended(weight: real, observation: Observation)
  {
    predicate FromMpc() {
      Mpc? || Blended?
    }
  }

  /** What the gyro and the accelerometer of the trunk read. */
  datatype Rates = Rates(gyro: Axes, accel: Axes)

  /** One control tick's readings; the joints are read once for the observation and once for the bring-up. */
  datatype TickInput = TickInput(
    time: real,
    exportsReadable: bool,
    jointsForObservation: bool,
    groundTruthReadable: bool,
    stateFinite: bool,
    joints: bool,
    tilt: Option<real>,
    rates: Option<Rates>,
    contactLeft: bool,
    contactRight: bool)

  /** Fraction of a timed phase that has elapsed. */
  function Progress(elapsed: real, duration: real): real {
    if duration > 0.0 then Clamp(elapsed / duration) else 1.0
  }

  /** The stand-up ramp: zero slope at both ends. */
  function Smoothstep(s: real): real {
    s * s * (3.0 - 2.0 * s)
  }

  /** Two control periods. */
  function Margin(updateRate: nat): real {
    2.0 / (if updateRate < 1 then 1.0 else updateRate as real)
  }

  /** The plan has at least two nodes and covers `evaluation` with a margin before its end. */
  predicate Covers(plan: Plan, evaluation: real, margin: real) {
    && |plan.times| >= 2
    && plan.times[0].Finite?
    && plan.times[|plan.times| - 1].Finite?
    && plan.times[0].seconds <= evaluation
    && evaluation + margin < plan.times[|plan.times| - 1].seconds
  }
}
