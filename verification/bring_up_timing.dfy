/**
 The bring-up against the clock, on the records of a run: when the stand-up and the blend end,
 how their ramps run, and what each phase commands in between.
 */
module BringUpTiming {
  import opened Basics
  import opened BringUpTypes
  import opened SolverProtocol
  import M = BringUpMachine
  import B = BringUpHistory

  type Log = seq<Record>

  // ---- visits ----

  /** Since record `j` entered `p`, every record has been one tick of `p`, in the same activation. */
  predicate Visit(log: Log, j: nat, p: Phase) {
    && j < |log|
    && log[j].before != p && log[j].after == p
    && forall m :: j < m < |log| ==> log[m].before == p && log[m].activation == log[j].activation
  }

  lemma VisitIsOne(log: Log, i: nat, j: nat, p: Phase)
    requires Visit(log, i, p) && Visit(log, j, p)
    ensures i == j
  {
  }

  /**
   When the phase counts from: the entry, if its time is not negative; a negative one is taken for
   unset, and the next tick that reads the joints counts instead.
   */
  function Since(log: Log, j: nat): real
    requires j < |log|
    decreases |log|
  {
    var r := log[|log| - 1];
    if j == |log| - 1 then r.input.time
    else
      var before := Since(log[..|log| - 1], j);
      if r.input.joints && before < 0.0 then r.input.time else before
  }

  lemma {:induction false} SinceEntry(log: Log, j: nat)
    requires j < |log| && log[j].input.time >= 0.0
    ensures Since(log, j) == log[j].input.time
    decreases |log|
  {
    if j < |log| - 1 {
      SinceEntry(log[..|log| - 1], j);
    }
  }

  lemma {:induction false} SinceIsPast(log: Log, j: nat)
    requires B.Chained(log) && j < |log|
    ensures Since(log, j) <= log[|log| - 1].input.time
    decreases |log|
  {
    if j < |log| - 1 {
      SinceIsPast(log[..|log| - 1], j);
      assert B.Linked(log[|log| - 2], log[|log| - 1]);
    }
  }

  // ---- what a tick does ----

  /** The tick read the joints and an upright trunk. */
  predicate Steady(cfg: Settings, r: Record) {
    r.input.joints && !B.Leans(cfg, r.before, r.input)
  }

  /** `a` of the way after `elapsed` of `duration`: smooth at both ends, and done at the end. */
  predicate OnRamp(duration: real, elapsed: real, a: real) {
    && (elapsed >= duration ==> a == 1.0)
    && (0.0 <= elapsed < duration ==>
          a * (duration * duration * duration) == elapsed * elapsed * (3.0 * duration - 2.0 * elapsed))
  }

  predicate StandsUp(cfg: Settings, r: Record, elapsed: real) {
    && (r.after == Settle <==> elapsed >= cfg.standUpSeconds)
    && (r.after == Settle || r.after == StandUp)
    && r.command.Hold? && r.command.target.StandUpRamp?
    && OnRamp(cfg.standUpSeconds, elapsed, r.command.target.alpha)
  }

  predicate Blends(cfg: Settings, r: Record, elapsed: real) {
    if r.ready then
      && (r.after == Locomotion <==> elapsed >= cfg.blendSeconds)
      && (r.after == Locomotion || r.after == Blend)
      && r.command.Blended? && r.command.observation == r.observation
      && (elapsed >= cfg.blendSeconds ==> r.command.weight == 1.0)
      && (0.0 <= elapsed < cfg.blendSeconds ==> r.command.weight * cfg.blendSeconds == elapsed)
    else r.after == StartingMpc && r.command == Hold(NominalStand)
  }

  /** What the untimed phases command, and when the plan moves them on. */
  predicate Commands(cfg: Settings, r: Record) {
    if cfg.source.GroundTruth? then (r.command == Mpc(r.observation) <==> r.ready)
    else if !r.input.joints then r.command == Damp(NominalStand) && r.after == r.before
    else if B.Leans(cfg, r.before, r.input) then r.command == Damp(MeasuredJoints) && r.after == Fault
    else match r.before
      case Passive => r.command == Damp(ActivationPose)
      case Settle => r.command == Hold(NominalStand)
      case Converge => r.command == Hold(NominalStand)
      case StartingMpc => r.command == Hold(NominalStand) && (r.after == Blend <==> r.ready)
      case Locomotion =>
        if r.ready then r.command == Mpc(r.observation) && r.after == Locomotion
        else r.command == Damp(MeasuredJoints) && r.after == Fault
      case Fault => r.command == Damp(MeasuredJoints)
      case _ => true
  }

  /** Record `r`, behind `log`, is a stand-up or blend tick as the clock of its visit says. */
  ghost predicate Timed(cfg: Settings, log: Log, r: Record) {
    var log' := log + [r];
    && (r.before == StandUp && Steady(cfg, r) ==>
          exists j: nat :: j < |log| && Visit(log', j, StandUp) && StandsUp(cfg, r, r.input.time - Since(log', j)))
    && (r.before == Blend && Steady(cfg, r) ==>
          exists j: nat :: j < |log| && Visit(log', j, Blend) && Blends(cfg, r, r.input.time - Since(log', j)))
  }

  ghost predicate AllTimed(cfg: Settings, log: Log) {
    forall k :: 0 <= k < |log| ==> Timed(cfg, log[..k], log[k])
  }

  predicate AllCommands(cfg: Settings, log: Log) {
    forall k :: 0 <= k < |log| ==> Commands(cfg, log[k])
  }

  // ---- invariant ----

  /** The clock of the phase the controller is in. */
  ghost predicate ClockSound(g: M.Stage, log: Log, activation: nat) {
    g.phase != Passive ==>
      exists j: nat :: Visit(log, j, g.phase) && log[j].activation == activation && g.start == Since(log, j)
  }

  /** The link says the estimator drives exactly while the plan is followed; a fault keeps what it found. */
  predicate DrivesSound(c: M.Control) {
    c.stage.phase != Fault ==> (c.link.drives <==> c.stage.phase == Blend || c.stage.phase == Locomotion)
  }

  /** The references the estimator finds: stance until the plan is followed, and then the schedule. */
  predicate Refers(cfg: Settings, refs: References, following: bool, input: TickInput) {
    && (refs.left <==> (following ==> input.contactLeft))
    && (refs.right <==> (following ==> input.contactRight))
  }

  predicate Follows(cfg: Settings, p: Phase) {
    cfg.source.GroundTruth? || p == Blend || p == Locomotion
  }

  /** Between ticks, the references are those of the last tick of the activation. */
  predicate ReferencesSound(cfg: Settings, ctl: ControlThread, refs: References, h: History) {
    |h.log| > 0 && h.log[|h.log| - 1].activation == h.activation ==>
      && (ctl.pc.Seeded? || ctl.pc.Commanded? ==>
            ctl.tick.input == h.log[|h.log| - 1].input && ctl.state.stage.phase == h.log[|h.log| - 1].after)
      && (ctl.pc.Idle? && cfg.HasEstimator() ==>
            && refs.epoch == ctl.state.link.epoch
            && Refers(cfg, refs, Follows(cfg, h.log[|h.log| - 1].after), h.log[|h.log| - 1].input))
  }

  ghost predicate Own(cfg: Settings, s: State) {
    && AllCommands(cfg, s.hist.log)
    && (cfg.source.StateEstimator? ==>
          && AllTimed(cfg, s.hist.log)
          && ClockSound(s.ctl.state.stage, s.hist.log, s.hist.activation)
          && DrivesSound(s.ctl.state))
    && ReferencesSound(cfg, s.ctl, s.est.references, s.hist)
  }

  ghost predicate Inv(cfg: Settings, s: State) {
    B.Inv(cfg, s) && Own(cfg, s)
  }

  // ---- one call of the bring-up ----

  /** The clock across one call: restarted at a change of phase, and set if it was unset. */
  lemma ClockOutcome(cfg: Settings, c: M.Control, input: TickInput, o: Observation)
    ensures var g := M.BringUp(cfg, c, input, o).stage;
            g.start == if g.phase != c.stage.phase || (input.joints && c.stage.start < 0.0)
                       then input.time else c.stage.start
  {
    if input.joints {
      var d := c.(stage := M.Guarded(cfg, c.stage, input));
      match d.stage.phase {
        case Passive =>
        case StandUp =>
        case Settle =>
        case Converge =>
        case StartingMpc =>
        case Blend =>
        case Locomotion =>
        case Fault =>
      }
    }
  }

  /** How far the timed phases are, by the clock `since`. */
  lemma FractionIs(elapsed: real, duration: real) returns (u: real)
    ensures u == Progress(elapsed, duration)
    ensures elapsed >= duration ==> u == 1.0
    ensures 0.0 <= elapsed < duration ==> u * duration == elapsed && 0.0 <= u < 1.0
    ensures elapsed < 0.0 < duration ==> u == 0.0
  {
    u := Progress(elapsed, duration);
    if duration > 0.0 {
      QuotientIs(elapsed, duration, elapsed / duration);
    }
  }

  lemma QuotientIs(a: real, b: real, q: real)
    requires b > 0.0 && q == a / b
    ensures q * b == a
    ensures a >= b <==> q >= 1.0
    ensures a >= 0.0 <==> q >= 0.0
  {
    assert q * b == a;
    if q >= 1.0 {
      assert (q - 1.0) * b >= 0.0;
    } else {
      assert (1.0 - q) * b > 0.0;
    }
    if q >= 0.0 {
      assert q * b >= 0.0;
    } else {
      assert -q * b > 0.0;
    }
  }

  lemma CubicIs(u: real, duration: real, elapsed: real)
    requires u * duration == elapsed
    ensures Smoothstep(u) * (duration * duration * duration) == elapsed * elapsed * (3.0 * duration - 2.0 * elapsed)
  {
    var d := duration;
    assert elapsed * elapsed == u * u * (d * d);
    assert 3.0 * d - 2.0 * elapsed == (3.0 - 2.0 * u) * d;
    assert u * u * (d * d) * ((3.0 - 2.0 * u) * d) == u * u * (3.0 - 2.0 * u) * (d * d * d);
  }

  /** The ramp the stand-up commands is on its curve. */
  lemma RampIs(duration: real, elapsed: real)
    ensures OnRamp(duration, elapsed, Smoothstep(Progress(elapsed, duration)))
  {
    var u := FractionIs(elapsed, duration);
    if 0.0 <= elapsed < duration {
      CubicIs(u, duration, elapsed);
    }
  }

  function ClockOf(g: M.Stage, t: real): real {
    if g.start < 0.0 then t else g.start
  }

  lemma StandUpOutcome(cfg: Settings, c: M.Control, input: TickInput, o: Observation, r: Record)
    requires c.stage.phase == StandUp && input.joints && !B.Leans(cfg, StandUp, input)
    requires r.after == M.BringUp(cfg, c, input, o).stage.phase && r.command == M.BringUp(cfg, c, input, o).command
    requires input.time >= ClockOf(c.stage, input.time)
    ensures StandsUp(cfg, r, input.time - ClockOf(c.stage, input.time))
  {
    var elapsed := input.time - ClockOf(c.stage, input.time);
    var u := FractionIs(elapsed, cfg.standUpSeconds);
    RampIs(cfg.standUpSeconds, elapsed);
  }

  lemma BlendOutcome(cfg: Settings, c: M.Control, input: TickInput, o: Observation, r: Record)
    requires c.stage.phase == Blend && input.joints && !B.Leans(cfg, Blend, input)
    requires r.after == M.BringUp(cfg, c, input, o).stage.phase && r.command == M.BringUp(cfg, c, input, o).command
    requires r.ready == c.plans.ready && r.observation == o
    requires input.time >= ClockOf(c.stage, input.time)
    ensures Blends(cfg, r, input.time - ClockOf(c.stage, input.time))
  {
    var u := FractionIs(input.time - ClockOf(c.stage, input.time), cfg.blendSeconds);
  }

  // ---- a tick appends its record ----

  lemma VisitGrows(log: Log, r: Record, j: nat, p: Phase)
    requires Visit(log, j, p) && r.before == p && r.activation == log[j].activation
    ensures Visit(log + [r], j, p)
    ensures Since(log + [r], j) == if r.input.joints && Since(log, j) < 0.0 then r.input.time else Since(log, j)
  {
    assert (log + [r])[..|log|] == log;
  }

  /** The visit a tick of a timed phase belongs to, and the clock it goes by. */
  lemma VisitOf(cfg: Settings, s: State) returns (j: nat)
    requires cfg.source.StateEstimator? && Inv(cfg, s) && s.ctl.pc.Rested? && s.ctl.tick.input.joints
    requires s.ctl.state.stage.phase != Passive
    ensures var log' := s.hist.log + [RecordOf(cfg, s, Decide(cfg, s))];
            && j < |s.hist.log| && Visit(log', j, s.ctl.state.stage.phase)
            && Since(log', j) == ClockOf(s.ctl.state.stage, s.ctl.tick.input.time) <= s.ctl.tick.input.time
  {
    var c, log, r := s.ctl.state, s.hist.log, RecordOf(cfg, s, Decide(cfg, s));
    j :| Visit(log, j, c.stage.phase) && log[j].activation == r.activation && c.stage.start == Since(log, j);
    VisitGrows(log, r, j, c.stage.phase);
    B.AppendIsChained(cfg, s);
    SinceIsPast(log + [r], j);
  }

  lemma StandUpIsTimed(cfg: Settings, s: State)
    requires cfg.source.StateEstimator? && Inv(cfg, s) && s.ctl.pc.Rested? && s.ctl.state.stage.phase == StandUp
    ensures Timed(cfg, s.hist.log, RecordOf(cfg, s, Decide(cfg, s)))
  {
    var r := RecordOf(cfg, s, Decide(cfg, s));
    if Steady(cfg, r) {
      var j := VisitOf(cfg, s);
      StandUpOutcome(cfg, s.ctl.state, s.ctl.tick.input, s.ctl.tick.observation, r);
    }
  }

  lemma BlendIsTimed(cfg: Settings, s: State)
    requires cfg.source.StateEstimator? && Inv(cfg, s) && s.ctl.pc.Rested? && s.ctl.state.stage.phase == Blend
    ensures Timed(cfg, s.hist.log, RecordOf(cfg, s, Decide(cfg, s)))
  {
    var r := RecordOf(cfg, s, Decide(cfg, s));
    if Steady(cfg, r) {
      var j := VisitOf(cfg, s);
      BlendOutcome(cfg, s.ctl.state, s.ctl.tick.input, s.ctl.tick.observation, r);
    }
  }

  lemma TickIsTimed(cfg: Settings, s: State)
    requires cfg.source.StateEstimator? && Inv(cfg, s) && s.ctl.pc.Rested?
    ensures Timed(cfg, s.hist.log, RecordOf(cfg, s, Decide(cfg, s)))
  {
    if s.ctl.state.stage.phase == StandUp {
      StandUpIsTimed(cfg, s);
    } else if s.ctl.state.stage.phase == Blend {
      BlendIsTimed(cfg, s);
    }
  }

  lemma ClockKeeps(cfg: Settings, s: State)
    requires cfg.source.StateEstimator? && ClockSound(s.ctl.state.stage, s.hist.log, s.hist.activation)
    requires s.ctl.pc.Rested?
    ensures var r := Decide(cfg, s);
            ClockSound(r.stage, s.hist.log + [RecordOf(cfg, s, r)], s.hist.activation)
  {
    var c, log, r := s.ctl.state, s.hist.log, Decide(cfg, s);
    var rec := RecordOf(cfg, s, r);
    ClockOutcome(cfg, c, s.ctl.tick.input, s.ctl.tick.observation);
    if r.stage.phase != c.stage.phase {
      assert Visit(log + [rec], |log|, r.stage.phase) && Since(log + [rec], |log|) == rec.input.time;
    } else if r.stage.phase != Passive {
      var j: nat :| && Visit(log, j, c.stage.phase)
                    && log[j].activation == rec.activation && c.stage.start == Since(log, j);
      VisitGrows(log, rec, j, c.stage.phase);
    }
  }

  lemma CommandIsOk(cfg: Settings, s: State)
    ensures Commands(cfg, RecordOf(cfg, s, Decide(cfg, s)))
  {
    if cfg.source.StateEstimator? && s.ctl.tick.input.joints {
      match s.ctl.state.stage.phase {
        case Passive =>
        case StandUp =>
        case Settle =>
        case Converge =>
        case StartingMpc =>
        case Blend =>
        case Locomotion =>
        case Fault =>
      }
    }
  }

  lemma DrivesKeeps(cfg: Settings, s: State)
    requires cfg.source.StateEstimator? && DrivesSound(s.ctl.state) && s.ctl.pc.Rested?
    ensures var r := Decide(cfg, s);
            DrivesSound(s.ctl.state.(stage := r.stage, link := r.link))
  {
    var d := M.Guarded(cfg, s.ctl.state.stage, s.ctl.tick.input);
    match d.phase {
      case Passive =>
      case StandUp =>
      case Settle =>
      case Converge =>
      case StartingMpc =>
      case Blend =>
      case Locomotion =>
      case Fault =>
    }
  }

  lemma TimedStays(cfg: Settings, log: Log, r: Record)
    requires AllTimed(cfg, log) && Timed(cfg, log, r)
    ensures AllTimed(cfg, log + [r])
  {
    var log' := log + [r];
    forall k | 0 <= k < |log'|
      ensures Timed(cfg, log'[..k], log'[k])
    {
      assert log'[..k] == log[..k];
    }
  }

  lemma CommandingKeeps(cfg: Settings, s: State)
    requires Inv(cfg, s) && s.ctl.pc.Rested?
    ensures Own(cfg, Commanding(cfg, s, Decide(cfg, s)).(step := s.step + 1))
  {
    CommandIsOk(cfg, s);
    if cfg.source.StateEstimator? {
      TickIsTimed(cfg, s);
      TimedStays(cfg, s.hist.log, RecordOf(cfg, s, Decide(cfg, s)));
      ClockKeeps(cfg, s);
      DrivesKeeps(cfg, s);
    }
  }

  // ---- every other step ----

  /** Steps that leave the phase, its clock, the link and the records alone. */
  lemma QuietKeeps(cfg: Settings, s: State, t: State)
    requires Own(cfg, s)
    requires t.ctl.state.stage.phase == s.ctl.state.stage.phase && t.ctl.state.stage.start == s.ctl.state.stage.start
    requires t.ctl.state.link.drives == s.ctl.state.link.drives
    requires t.hist.log == s.hist.log && t.hist.activation == s.hist.activation
    requires t.ctl.pc.Idle? || t.ctl.pc.Seeded? || t.ctl.pc.Commanded? ==>
               t.est.references == s.est.references && t.ctl.state.link.epoch == s.ctl.state.link.epoch
               && t.ctl.tick.input == s.ctl.tick.input
               && (t.ctl.pc == s.ctl.pc || (s.ctl.pc.Seeded? && t.ctl.pc.Commanded?))
    ensures Own(cfg, t)
  {
  }

  lemma ReferencingKeeps(cfg: Settings, s: State)
    requires Own(cfg, s) && s.ctl.pc.Commanded?
    ensures Own(cfg, Referencing(cfg, s).(step := s.step + 1))
  {
  }

  lemma ControlKeeps(cfg: Settings, s: State)
    requires Inv(cfg, s) && Enabled(cfg, s, ControlStep)
    ensures Own(cfg, ControlThreadStep(cfg, s).(step := s.step + 1))
  {
    var t := ControlThreadStep(cfg, s).(step := s.step + 1);
    match s.ctl.pc {
      case Rested => CommandingKeeps(cfg, s);
      case Commanded => ReferencingKeeps(cfg, s);
      case Loaded => if Supplies(s.ctl) {} QuietKeeps(cfg, s, t);
      case Supplied => if Swaps(s) {} QuietKeeps(cfg, s, t);
      case _ => QuietKeeps(cfg, s, t);
    }
  }

  lemma WorkerKeeps(cfg: Settings, s: State, solver: Solver)
    requires Own(cfg, s)
    ensures Own(cfg, WorkerThreadStep(s, solver).(step := s.step + 1))
  {
    match s.worker { case Constructing => case Advancing => case ResetCheck => case _ => }
    QuietKeeps(cfg, s, WorkerThreadStep(s, solver).(step := s.step + 1));
  }

  lemma ActivatingKeeps(cfg: Settings, s: State, a: ActivationInput)
    requires Inv(cfg, s) && s.ctl.pc.Stopping?
    ensures Own(cfg, Activating(cfg, s, a).(step := s.step + 1))
  {
    if a.succeeds {
    } else {
    }
  }

  lemma StandUpKeeps(cfg: Settings, s: State)
    requires Own(cfg, s)
    ensures Own(cfg, StandUpStep(cfg, s).(step := s.step + 1))
  {
    QuietKeeps(cfg, s, StandUpStep(cfg, s).(step := s.step + 1));
  }

  lemma StartKeeps(cfg: Settings, s: State)
    requires Own(cfg, s)
    ensures Own(cfg, StartStep(cfg, s).(step := s.step + 1))
  {
    QuietKeeps(cfg, s, StartStep(cfg, s).(step := s.step + 1));
  }

  lemma StopKeeps(cfg: Settings, s: State, a: ActivationInput)
    requires Inv(cfg, s) && s.ctl.pc.Stopping?
    ensures Own(cfg, Next(cfg, s, FinishStop(a)))
  {
    if s.ctl.pc.activate {
      ActivatingKeeps(cfg, s, a);
    }
  }

  lemma QuietEventKeeps(cfg: Settings, s: State, e: Event)
    requires Own(cfg, s) && Enabled(cfg, s, e)
    requires e.BeginTick? || e.BeginStop? || e.EstimatorUpdate? || e.EstimatorActivate? || e.EstimatorDeactivate?
             || e.Shutdown?
    ensures Own(cfg, Next(cfg, s, e))
  {
    QuietKeeps(cfg, s, Next(cfg, s, e));
  }

  lemma OwnKeeps(cfg: Settings, s: State, e: Event)
    requires Inv(cfg, s) && Enabled(cfg, s, e)
    ensures Own(cfg, Next(cfg, s, e))
  {
    match e {
      case ControlStep => ControlKeeps(cfg, s);
      case FinishStop(a) => StopKeeps(cfg, s, a);
      case WorkerStep(solver) => WorkerKeeps(cfg, s, solver);
      case StandUpService => StandUpKeeps(cfg, s);
      case StartService => StartKeeps(cfg, s);
      case _ => QuietEventKeeps(cfg, s, e);
    }
  }

  lemma {:induction false} InvHolds(cfg: Settings, s: State, events: seq<Event>)
    requires Inv(cfg, s) && Possible(cfg, s, events)
    ensures Inv(cfg, Run(cfg, s, events))
    decreases |events|
  {
    if events != [] {
      B.NextKeeps(cfg, s, events[0]);
      OwnKeeps(cfg, s, events[0]);
      InvHolds(cfg, Next(cfg, s, events[0]), events[1..]);
    }
  }

  lemma ReachableInv(cfg: Settings, s: State)
    requires Reachable(cfg, s)
    ensures Inv(cfg, s)
  {
    var events :| Possible(cfg, START, events) && s == Run(cfg, START, events);
    InvHolds(cfg, START, events);
  }

  lemma ReachableOwn(cfg: Settings, s: State)
    requires Reachable(cfg, s)
    ensures Own(cfg, s)
  {
    ReachableInv(cfg, s);
  }

  lemma ReachableTimed(cfg: Settings, s: State)
    requires cfg.source.StateEstimator? && Reachable(cfg, s)
    ensures AllTimed(cfg, s.hist.log) && B.Chained(s.hist.log)
  {
    ReachableInv(cfg, s);
  }

  // ---- what it means ----

  /** The records up to and with `k` are one visit to `p`, entered by record `j` at a nonnegative time. */
  predicate Entered(log: Log, j: nat, k: nat, p: Phase) {
    j < k < |log| && Visit(log[..k + 1], j, p) && log[j].input.time >= 0.0
  }

  /** The clock of such a visit is its entry, and there is no other visit to take it for. */
  lemma StandUpHere(cfg: Settings, log: Log, j: nat, k: nat)
    requires AllTimed(cfg, log) && Entered(log, j, k, StandUp) && Steady(cfg, log[k])
    ensures StandsUp(cfg, log[k], log[k].input.time - log[j].input.time)
  {
    var upTo := log[..k] + [log[k]];
    assert upTo == log[..k + 1] && Timed(cfg, log[..k], log[k]);
    SinceEntry(upTo, j);
    var i: nat :| i < k && Visit(upTo, i, StandUp) && StandsUp(cfg, log[k], log[k].input.time - Since(upTo, i));
    VisitIsOne(upTo, i, j, StandUp);
  }

  lemma BlendHere(cfg: Settings, log: Log, j: nat, k: nat)
    requires AllTimed(cfg, log) && Entered(log, j, k, Blend) && Steady(cfg, log[k])
    ensures Blends(cfg, log[k], log[k].input.time - log[j].input.time)
  {
    var upTo := log[..k] + [log[k]];
    assert upTo == log[..k + 1] && Timed(cfg, log[..k], log[k]);
    SinceEntry(upTo, j);
    var i: nat :| i < k && Visit(upTo, i, Blend) && Blends(cfg, log[k], log[k].input.time - Since(upTo, i));
    VisitIsOne(upTo, i, j, Blend);
  }

  /**
   Over every run: StandUp is left, for Settle, exactly by a tick at least standUpSeconds after
   its entry that reads the joints and an upright trunk; the position asked for is on the ramp.
   */
  lemma StandUpTakesItsTime(cfg: Settings, s: State, j: nat, k: nat)
    requires cfg.source.StateEstimator? && Reachable(cfg, s) && Entered(s.hist.log, j, k, StandUp)
    requires Steady(cfg, s.hist.log[k])
    ensures StandsUp(cfg, s.hist.log[k], s.hist.log[k].input.time - s.hist.log[j].input.time)
  {
    ReachableTimed(cfg, s);
    StandUpHere(cfg, s.hist.log, j, k);
  }

  /**
   With a usable plan Blend is left, for Locomotion, exactly by such a tick at least blendSeconds
   after its entry, and the weight of the plan is the share of that time; without one the tick
   holds the stand and goes back.
   */
  lemma BlendTakesItsTime(cfg: Settings, s: State, j: nat, k: nat)
    requires cfg.source.StateEstimator? && Reachable(cfg, s) && Entered(s.hist.log, j, k, Blend)
    requires Steady(cfg, s.hist.log[k])
    ensures Blends(cfg, s.hist.log[k], s.hist.log[k].input.time - s.hist.log[j].input.time)
  {
    ReachableTimed(cfg, s);
    BlendHere(cfg, s.hist.log, j, k);
  }

  /** On the curve, later is not lower, and nothing is outside [0, 1]. */
  lemma RampRises(duration: real, e1: real, e2: real, a1: real, a2: real)
    requires 0.0 <= e1 <= e2 && OnRamp(duration, e1, a1) && OnRamp(duration, e2, a2)
    ensures 0.0 <= a1 <= a2 <= 1.0
    ensures e1 == 0.0 && duration > 0.0 ==> a1 == 0.0
  {
    var cube := duration * duration * duration;
    if e1 < duration {
      CubePositive(duration);
      CubicRises(duration, 0.0, e1);
      CubicRises(duration, e1, if e2 < duration then e2 else duration);
      CubicRises(duration, if e2 < duration then e2 else duration, duration);
      ScaledOrder(cube, 0.0, a1);
      var b2 := if e2 < duration then a2 else 1.0;
      ScaledOrder(cube, a1, b2);
      ScaledOrder(cube, b2, 1.0);
    }
  }

  lemma ProductPositive(x: real, y: real) returns (p: real)
    requires x > 0.0 && y > 0.0
    ensures p == x * y && p > 0.0
  {
    p := x * y;
  }

  lemma CubePositive(d: real)
    requires d > 0.0
    ensures d * d * d > 0.0
  {
    var square := ProductPositive(d, d);
    var cube := ProductPositive(square, d);
  }

  lemma ScaledOrder(c: real, a: real, b: real)
    requires c > 0.0 && a * c <= b * c
    ensures a <= b
  {
    if a > b {
      var p := ProductPositive(a - b, c);
      assert false;
    }
  }

  function Cubic(d: real, e: real): real {
    e * e * (3.0 * d - 2.0 * e)
  }

  lemma CubicRises(d: real, a: real, b: real)
    requires 0.0 <= a <= b <= d
    ensures Cubic(d, a) <= Cubic(d, b)
  {
    var slope := 3.0 * d * (a + b) - 2.0 * (a * a + a * b + b * b);
    SlopePositive(d, a, b);
    assert Cubic(d, b) - Cubic(d, a) == (b - a) * slope;
    assert (b - a) * slope >= 0.0;
  }

  lemma SlopePositive(d: real, a: real, b: real)
    requires 0.0 <= a <= b <= d
    ensures 3.0 * d * (a + b) - 2.0 * (a * a + a * b + b * b) >= 0.0
  {
    assert (d - b) * a >= 0.0 && (d - b) * b >= 0.0;
    assert (b - a) * a >= 0.0;
    assert (b - a) * (b - a) >= 0.0;
  }

  function Alpha(r: Record): real
    requires r.command.Hold? && r.command.target.StandUpRamp?
  {
    r.command.target.alpha
  }

  lemma VisitRises(cfg: Settings, log: Log, j: nat, k: nat, l: nat)
    requires AllTimed(cfg, log) && B.Chained(log) && k <= l
    requires Entered(log, j, k, StandUp) && Entered(log, j, l, StandUp)
    requires Steady(cfg, log[k]) && Steady(cfg, log[l])
    requires StandsUp(cfg, log[k], log[k].input.time - log[j].input.time)
    requires StandsUp(cfg, log[l], log[l].input.time - log[j].input.time)
    ensures 0.0 <= Alpha(log[k]) <= Alpha(log[l]) <= 1.0
    ensures log[k].input.time == log[j].input.time && cfg.standUpSeconds > 0.0 ==> Alpha(log[k]) == 0.0
    ensures log[l].after == Settle ==> Alpha(log[l]) == 1.0
  {
    B.Monotone(log, j, k);
    B.Monotone(log, k, l);
    RampRises(cfg.standUpSeconds, log[k].input.time - log[j].input.time, log[l].input.time - log[j].input.time,
              Alpha(log[k]), Alpha(log[l]));
  }

  /** Within one stand-up the position asked for never goes back, starts at the measured one and ends at the stand. */
  lemma RampNeverFalls(cfg: Settings, s: State, j: nat, k: nat, l: nat)
    requires cfg.source.StateEstimator? && Reachable(cfg, s) && k <= l
    requires Entered(s.hist.log, j, k, StandUp) && Entered(s.hist.log, j, l, StandUp)
    requires Steady(cfg, s.hist.log[k]) && Steady(cfg, s.hist.log[l])
    ensures var log := s.hist.log;
            && log[k].command.Hold? && log[k].command.target.StandUpRamp?
            && log[l].command.Hold? && log[l].command.target.StandUpRamp?
            && 0.0 <= Alpha(log[k]) <= Alpha(log[l]) <= 1.0
            && (log[k].input.time == log[j].input.time && cfg.standUpSeconds > 0.0 ==> Alpha(log[k]) == 0.0)
            && (log[l].after == Settle ==> Alpha(log[l]) == 1.0)
  {
    ReachableTimed(cfg, s);
    StandUpHere(cfg, s.hist.log, j, k);
    StandUpHere(cfg, s.hist.log, j, l);
    VisitRises(cfg, s.hist.log, j, k, l);
  }

  /** What every other tick commands, for both base sources. */
  lemma CommandsFollowThePhase(cfg: Settings, s: State, k: nat)
    requires Reachable(cfg, s) && k < |s.hist.log|
    ensures Commands(cfg, s.hist.log[k])
  {
    ReachableOwn(cfg, s);
  }

  /** Between ticks the estimator finds the epoch asked for, and stance until the plan is followed. */
  lemma ReferencesAreTheLastTicks(cfg: Settings, s: State)
    requires Reachable(cfg, s) && s.ctl.pc.Idle? && cfg.HasEstimator() && s.hist.log != []
    requires s.hist.log[|s.hist.log| - 1].activation == s.hist.activation
    ensures var r := s.hist.log[|s.hist.log| - 1];
            && s.est.references.epoch == s.ctl.state.link.epoch
            && Refers(cfg, s.est.references, Follows(cfg, r.after), r.input)
  {
    ReachableOwn(cfg, s);
  }

  /** The estimator is said to drive the control exactly while the plan is followed. */
  lemma DrivesWhileFollowing(cfg: Settings, s: State)
    requires cfg.source.StateEstimator? && Reachable(cfg, s)
    ensures DrivesSound(s.ctl.state)
  {
    ReachableOwn(cfg, s);
  }
}
