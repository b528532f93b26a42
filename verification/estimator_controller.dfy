/**
 The estimator controller: it resets and stance-initialises its filter whenever the epoch
 it is given changes, gates readiness on time and divergence, and exports what it has.
 */
module EstimatorController {
  import opened BringUpTypes

  /**
   One update's readings and what the filter makes of them; `epochReadable` is whether the
   epoch reference held a finite value.
   */
  datatype EstimatorInput = EstimatorInput(
    time: real, epochReadable: bool, sensors: bool, imuValid: bool, deviations: Deviations)

  datatype Estimator = Estimator(
    epoch: Epoch,
    initialized: bool,
    ready: bool,
    firstValid: real,
    estimate: Estimate,
    resetAt: nat,
    initAt: nat,
    initTime: real,
    initInStance: bool)
  {
    function Exported(): Exports {
      Exports(estimate, Status(ready, epoch))
    }

    function Birth(time: real, d: Deviations): Birth {
      BringUpTypes.Birth(resetAt, initAt, initTime, initInStance, time, d)
    }
  }

  const FRESH_ESTIMATOR := Estimator(0, false, false, -1.0, NO_ESTIMATE, 0, 0, 0.0, false)

  function Reset(e: Estimator, step: nat): Estimator {
    e.(initialized := false, ready := false, firstValid := -1.0, resetAt := step)
  }

  /** Every observable deviation is below its limit; yaw and horizontal position are not observable. */
  predicate Bounded(cfg: Settings, d: Deviations) {
    && d.attitude.x < cfg.readyRollPitchMax && d.attitude.y < cfg.readyRollPitchMax
    && d.position.z < cfg.readyHeightMax
    && d.velocity.x < cfg.readyVelocityMax && d.velocity.y < cfg.readyVelocityMax
    && d.velocity.z < cfg.readyVelocityMax
  }

  /** Deviations below every limit. */
  function Small(cfg: Settings): (d: Deviations)
    ensures Bounded(cfg, d)
  {
    var a, p, v := cfg.readyRollPitchMax - 1.0, cfg.readyHeightMax - 1.0, cfg.readyVelocityMax - 1.0;
    Deviations(Axes(a, a, a), Axes(p, p, p), Axes(v, v, v))
  }

  function Larger(a: real, b: real): real {
    if a < b then b else a
  }

  function EvaluateReadiness(cfg: Settings, e: Estimator, time: real, d: Deviations): Estimator {
    if !e.initialized then e.(ready := false, firstValid := -1.0)
    else
      var first := if e.firstValid < 0.0 then time else e.firstValid;
      e.(firstValid := first, ready := time - first >= cfg.readyMinSeconds && Bounded(cfg, d))
  }

  function Requested(e: Estimator, input: EstimatorInput, refs: References): Epoch {
    if input.epochReadable && refs.epoch > 0 then refs.epoch else e.epoch
  }

  /** The estimator after it has compared the epoch reference with its own. */
  function Acted(e: Estimator, input: EstimatorInput, refs: References, step: nat): Estimator {
    var requested := Requested(e, input, refs);
    if requested != e.epoch
    then Reset(e, step).(estimate := NO_ESTIMATE, epoch := requested)
    else e
  }

  function Seeded(e: Estimator, input: EstimatorInput, refs: References, step: nat): Estimator {
    if e.initialized then e
    else e.(initialized := true, initAt := step, initTime := input.time, initInStance := refs.left && refs.right)
  }

  function Update(cfg: Settings, e: Estimator, input: EstimatorInput, refs: References, step: nat): Estimator {
    var e1 := Acted(e, input, refs, step);
    if e1.epoch == 0 || !input.sensors || (!e1.initialized && !input.imuValid) then e1
    else
      var e2 := Seeded(e1, input, refs, step);
      EvaluateReadiness(cfg, e2.(estimate := Estimate(true, e2.Birth(input.time, input.deviations))),
                        input.time, input.deviations)
  }

  function Activated(e: Estimator, step: nat): Estimator {
    Reset(e, step).(epoch := 0, estimate := NO_ESTIMATE)
  }

  /** Deactivation clears the epoch and the estimate but leaves the filter and its readiness flag alone. */
  function Deactivated(e: Estimator): Estimator {
    e.(epoch := 0, estimate := NO_ESTIMATE)
  }

  /**
   Roll, pitch, height and the three velocities are known to within their limits; the heading and
   the horizontal position, which nothing observes, do not matter.
   */
  predicate Sure(cfg: Settings, d: Deviations) {
    && cfg.readyRollPitchMax > d.attitude.x && cfg.readyRollPitchMax > d.attitude.y
    && cfg.readyHeightMax > d.position.z
    && cfg.readyVelocityMax > d.velocity.x && cfg.readyVelocityMax > d.velocity.y
    && cfg.readyVelocityMax > d.velocity.z
  }

  /**
   Any estimate exported as ready comes from a filter that was initialised after its last
   reset, had by then run for the minimum time and was sure of what it can know.
   */
  predicate Sound(cfg: Settings, e: Estimator, now: real) {
    && (e.initialized ==> e.resetAt <= e.initAt && e.initTime <= now)
    && (e.initialized && e.firstValid >= 0.0 ==> e.initTime <= e.firstValid)
    && (!e.initialized ==> e.firstValid < 0.0)
    && (e.ready ==> e.initialized)
    && (e.estimate.valid ==>
          && e.initialized
          && e.estimate.birth == e.Birth(e.estimate.birth.updateTime, e.estimate.birth.deviations)
          && (e.ready ==> e.estimate.birth.updateTime - e.initTime >= cfg.readyMinSeconds)
          && (e.ready ==> Sure(cfg, e.estimate.birth.deviations)))
  }

  lemma UpdateIsSound(cfg: Settings, e: Estimator, input: EstimatorInput, refs: References, step: nat, now: real)
    requires Sound(cfg, e, now) && now <= input.time
    requires e.resetAt <= step
    ensures Sound(cfg, Update(cfg, e, input, refs, step), input.time)
    ensures Update(cfg, e, input, refs, step).resetAt <= step
  {
  }

  /** The update gets past the checks of its inputs and runs the filter. */
  predicate Runs(e: Estimator, input: EstimatorInput, refs: References) {
    var changes := input.epochReadable && refs.epoch > 0 && refs.epoch != e.epoch;
    && (changes || e.epoch != 0)
    && input.sensors
    && (input.imuValid || (e.initialized && !changes))
  }

  /**
   An update that runs the filter leaves it ready exactly if the minimum time has passed since the
   first such update after the reset and it is sure; any other update leaves the flag alone, but
   for a changed epoch, which clears it.
   */
  lemma ReadyExactlyWhenOldAndSure(cfg: Settings, e: Estimator, input: EstimatorInput, refs: References, step: nat)
    requires !e.initialized ==> e.firstValid < 0.0
    ensures var g := Update(cfg, e, input, refs, step);
            var first := if g.epoch == e.epoch && e.firstValid >= 0.0 then e.firstValid else input.time;
            if Runs(e, input, refs)
            then g.estimate.valid &&
                 (g.ready <==> input.time - first >= cfg.readyMinSeconds && Sure(cfg, input.deviations))
            else g.ready == (e.ready && g.epoch == e.epoch)
  {
  }

  /** What nothing observes makes no difference. */
  lemma GaugeDoesNotMatter(cfg: Settings, e: Estimator, a: EstimatorInput, b: EstimatorInput, refs: References,
                           step: nat)
    requires b == a.(deviations := Deviations(a.deviations.attitude.(z := b.deviations.attitude.z),
                                              a.deviations.position.(x := b.deviations.position.x,
                                                                     y := b.deviations.position.y),
                                              a.deviations.velocity))
    ensures Update(cfg, e, a, refs, step).ready == Update(cfg, e, b, refs, step).ready
  {
  }

  /** A changed epoch resets the filter in that very update, and nothing else does. */
  lemma EpochChangeResets(cfg: Settings, e: Estimator, input: EstimatorInput, refs: References, step: nat)
    ensures var e' := Update(cfg, e, input, refs, step);
            && (e'.epoch != e.epoch ==> e'.resetAt == step && e'.epoch == refs.epoch)
            && (e'.epoch == e.epoch ==> e'.resetAt == e.resetAt)
            && (e'.initialized && (e'.epoch != e.epoch || !e.initialized) ==>
                  e'.initAt == step && (e'.initInStance <==> refs.left && refs.right))
  {
  }

  class Controller {
    const cfg: Settings
    var epoch: Epoch
    var estimate: Estimate
    var initialized: bool
    var ready: bool
    var firstValidTime: real
    var resetAt: nat
    var initAt: nat
    var initTime: real
    var initInStance: bool
    var exported: Exports

    function View(): Estimator
      reads this
    {
      Estimator(epoch, initialized, ready, firstValidTime, estimate, resetAt, initAt, initTime, initInStance)
    }

    /** The exports are rewritten at the end of every operation. */
    predicate Valid()
      reads this
    {
      exported == View().Exported()
    }

    constructor (cfg: Settings)
      ensures this.cfg == cfg && Valid() && View() == FRESH_ESTIMATOR
    {
      this.cfg := cfg;
      epoch, estimate, initialized, ready, firstValidTime := 0, NO_ESTIMATE, false, false, -1.0;
      resetAt, initAt, initTime, initInStance := 0, 0, 0.0, false;
      exported := Exports(NO_ESTIMATE, Status(false, 0));
    }

    method ResetFilter(step: nat)
      modifies this`initialized, this`ready, this`firstValidTime, this`resetAt
      ensures View() == Reset(old(View()), step)
    {
      initialized, ready, firstValidTime, resetAt := false, false, -1.0, step;
    }

    method WriteExports()
      modifies this`exported
      ensures Valid() && View() == old(View())
    {
      exported := Exports(estimate, Status(ready, epoch));
    }

    method Readiness(time: real, d: Deviations)
      modifies this`ready, this`firstValidTime
      ensures View() == EvaluateReadiness(cfg, old(View()), time, d)
    {
      ready := false;
      if !initialized {
        firstValidTime := -1.0;
        return;
      }
      if firstValidTime < 0.0 {
        firstValidTime := time;
      }
      if time - firstValidTime < cfg.readyMinSeconds {
        return;
      }
      ready := Larger(d.attitude.x, d.attitude.y) < cfg.readyRollPitchMax && d.position.z < cfg.readyHeightMax &&
               Larger(Larger(d.velocity.x, d.velocity.y), d.velocity.z) < cfg.readyVelocityMax;
    }

    method OnActivate(step: nat)
      modifies this
      ensures Valid() && View() == Activated(old(View()), step)
    {
      ResetFilter(step);
      epoch, estimate := 0, NO_ESTIMATE;
      WriteExports();
    }

    method OnDeactivate()
      modifies this
      ensures Valid() && View() == Deactivated(old(View()))
    {
      epoch, estimate := 0, NO_ESTIMATE;
      WriteExports();
    }

    method UpdateAndWrite(input: EstimatorInput, refs: References, step: nat)
      modifies this
      ensures Valid() && View() == Update(cfg, old(View()), input, refs, step)
    {
      var requested := if input.epochReadable && refs.epoch > 0 then refs.epoch else epoch;
      if requested != epoch {
        ResetFilter(step);
        estimate, epoch := NO_ESTIMATE, requested;
      }
      if epoch == 0 || !input.sensors {
        WriteExports();
        return;
      }
      if !initialized {
        if !input.imuValid {
          WriteExports();
          return;
        }
        initialized, initAt, initTime, initInStance := true, step, input.time, refs.left && refs.right;
      }
      estimate := Estimate(true, View().Birth(input.time, input.deviations));
      Readiness(input.time, input.deviations);
      WriteExports();
    }
  }
}
