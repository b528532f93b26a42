/**
 The epoch handshake: when Converge hands over, the observation comes from a filter that
 was reset, stance-initialised and run long enough after this activation's request,
 exactly when the requested epoch was not the one the estimator was already running.
 */
module EpochFreshness {
  import opened Basics
  import opened BringUpTypes
  import opened SolverProtocol
  import M = BringUpMachine
  import E = EstimatorController
  import T = TickRuns

  predicate FreshBirth(cfg: Settings, b: Birth, q: Request) {
    && q.at < b.resetAt <= b.initAt
    && q.time <= b.initTime
    && b.initInStance
    && b.updateTime - b.initTime >= cfg.readyMinSeconds
  }

  predicate FreshSeed(cfg: Settings, o: Observation, q: Request) {
    && o.origin.Measured?
    && o.origin.birth.Some?
    && FreshBirth(cfg, o.origin.birth.value, q)
  }

  /** The filter on its own. */
  predicate FilterSound(cfg: Settings, step: nat, now: real, est: EstimatorSide) {
    && E.Sound(cfg, est.filter, now)
    && est.filter.resetAt <= step
    && (!est.active ==> est.filter.epoch == 0)
  }

  /** What the control thread knows of it. */
  predicate LinkSound(cfg: Settings, l: M.Link) {
    l.estimate.valid ==>
      && l.InitializedForRequest()
      && l.estimate.birth.resetAt <= l.estimate.birth.initAt
      && (l.status.ready ==> l.estimate.birth.updateTime - l.estimate.birth.initTime >= cfg.readyMinSeconds)
      && (l.status.ready ==> E.Sure(cfg, l.estimate.birth.deviations))
  }

  /** Within a tick, the reading is current and the observation is what was read. */
  predicate ReadingSound(cfg: Settings, ctl: ControlThread, f: E.Estimator) {
    InTick(ctl.pc) ==>
      && (cfg.HasEstimator() && ctl.tick.input.exportsReadable ==> ctl.state.link.status == f.Exported().status)
      && ctl.tick.observation.time == ctl.tick.input.time
      && (cfg.source.StateEstimator? && ctl.state.seen.fromHardware ==>
            ctl.state.link.estimate.valid &&
            ctl.tick.observation.origin == Measured(Some(ctl.state.link.estimate.birth)))
  }

  /** The estimator acted on the request, if it runs the requested epoch. */
  predicate FilterFresh(f: E.Estimator, epoch: Epoch, q: Request) {
    epoch != 0 && f.epoch == epoch ==>
      q.at < f.resetAt && (f.initialized ==> f.initInStance && q.time <= f.initTime)
  }

  predicate LinkFresh(l: M.Link, q: Request) {
    l.estimate.valid ==>
      q.at < l.estimate.birth.resetAt && l.estimate.birth.initInStance && q.time <= l.estimate.birth.initTime
  }

  /** From the request until Converge is left. */
  predicate Converging(step: nat, now: real, ctl: ControlThread, est: EstimatorSide, h: History) {
    ctl.state.stage.phase == Converge ==>
      && h.request.activation == h.activation
      && h.request.at < step && h.request.time <= now
      && h.request.asked == ctl.state.link.epoch
      && (h.request.readable ==> h.request.Distinct())
      && (!ctl.pc.Commanded? ==> est.references.left && est.references.right)
      && (h.request.Distinct() ==>
            && FilterFresh(est.filter, ctl.state.link.epoch, h.request)
            && LinkFresh(ctl.state.link, h.request))
  }

  predicate Inv(cfg: Settings, s: State) {
    && FilterSound(cfg, s.step, s.now, s.est)
    && LinkSound(cfg, s.ctl.state.link)
    && ReadingSound(cfg, s.ctl, s.est.filter)
    && Converging(s.step, s.now, s.ctl, s.est, s.hist)
  }

  // ---- preservation ----

  lemma ReadingKeeps(cfg: Settings, s: State, input: TickInput)
    requires cfg.source.StateEstimator? && Inv(cfg, s) && s.ctl.pc.Idle?
    ensures var l := Reading(cfg, s, input);
            && LinkSound(cfg, l)
            && l.epoch == s.ctl.state.link.epoch
            && (input.exportsReadable ==> l.status == s.est.filter.Exported().status)
            && (s.ctl.state.stage.phase == Converge && s.hist.request.Distinct() ==>
                  LinkFresh(l, s.hist.request))
  {
  }

  lemma BeginningKeeps(cfg: Settings, s: State, input: TickInput)
    requires cfg.source.StateEstimator? && Inv(cfg, s) && s.ctl.pc.Idle? && s.now <= input.time
    ensures Inv(cfg, Beginning(cfg, s, input).(step := s.step + 1))
  {
    ReadingKeeps(cfg, s, input);
  }

  lemma CommandingKeeps(cfg: Settings, s: State, r: M.Outcome)
    requires cfg.source.StateEstimator? && Inv(cfg, s) && s.ctl.pc.Rested?
    requires M.LawfulLink(s.ctl.state, r) && M.LawfulMotion(s.ctl.state, r)
    ensures Inv(cfg, Commanding(cfg, s, r).(step := s.step + 1))
  {
  }

  lemma ControlKeeps(cfg: Settings, s: State)
    requires cfg.source.StateEstimator? && Inv(cfg, s) && Enabled(cfg, s, ControlStep)
    ensures Inv(cfg, ControlThreadStep(cfg, s).(step := s.step + 1))
  {
    match s.ctl.pc {
      case Loaded => if Supplies(s.ctl) {}
      case Fed =>
      case Supplied => if Swaps(s) {}
      case Swapped =>
      case Validated =>
      case Rested =>
        M.BringUpIsLawful(cfg, s.ctl.state, s.ctl.tick.input, s.ctl.tick.observation);
        CommandingKeeps(cfg, s, Decide(cfg, s));
      case Seeded =>
      case Commanded =>
    }
  }

  lemma UpdateKeepsFresh(cfg: Settings, s: State, reading: E.EstimatorInput)
    requires Inv(cfg, s) && Enabled(cfg, s, EstimatorUpdate(reading))
    requires s.ctl.state.stage.phase == Converge && s.hist.request.Distinct()
    ensures FilterFresh(E.Update(cfg, s.est.filter, reading, s.est.references, s.step),
                        s.ctl.state.link.epoch, s.hist.request)
  {
    E.EpochChangeResets(cfg, s.est.filter, reading, s.est.references, s.step);
  }

  lemma UpdateKeeps(cfg: Settings, s: State, reading: E.EstimatorInput)
    requires Inv(cfg, s) && Enabled(cfg, s, EstimatorUpdate(reading))
    ensures Inv(cfg, Effect(cfg, s, EstimatorUpdate(reading)).(step := s.step + 1))
  {
    E.UpdateIsSound(cfg, s.est.filter, reading, s.est.references, s.step, s.now);
    if s.ctl.state.stage.phase == Converge && s.hist.request.Distinct() {
      UpdateKeepsFresh(cfg, s, reading);
    }
  }

  lemma WorkerKeeps(cfg: Settings, s: State, solver: Solver)
    requires Inv(cfg, s)
    ensures Inv(cfg, WorkerThreadStep(s, solver).(step := s.step + 1))
  {
    var s1 := WorkerThreadStep(s, solver);
    assert s1.ctl == s.ctl && s1.est == s.est && s1.hist.request == s.hist.request && s1.now == s.now by {
      match s.worker { case Constructing => case Advancing => case ResetCheck => case _ => }
    }
  }

  lemma ActivatingKeeps(cfg: Settings, s: State, a: ActivationInput)
    requires cfg.source.StateEstimator? && Inv(cfg, s)
    ensures Inv(cfg, Activating(cfg, s, a).(step := s.step + 1))
  {
    var c := ActivatedControl(cfg, s, a);
    assert c.stage.phase == Passive && !c.link.estimate.valid;
    if a.succeeds {}
  }

  /** The services and shutdown touch none of this. */
  lemma QuietKeeps(cfg: Settings, s: State, t: State)
    requires Inv(cfg, s)
    requires t.step == s.step + 1 && t.now == s.now && t.est == s.est
    requires t.ctl.pc == s.ctl.pc && t.ctl.tick == s.ctl.tick && t.ctl.state.stage == s.ctl.state.stage
    requires t.ctl.state.link == s.ctl.state.link && t.ctl.state.seen == s.ctl.state.seen
    requires t.hist.request == s.hist.request && t.hist.activation == s.hist.activation
    ensures Inv(cfg, t)
  {
  }

  lemma EstimatorKeeps(cfg: Settings, s: State, e: Event)
    requires cfg.source.StateEstimator? && Inv(cfg, s) && Enabled(cfg, s, e)
    requires e.EstimatorActivate? || e.EstimatorDeactivate?
    ensures Inv(cfg, Next(cfg, s, e))
  {
    if e.EstimatorActivate? {
    } else {
    }
  }

  lemma StopKeeps(cfg: Settings, s: State, a: ActivationInput)
    requires cfg.source.StateEstimator? && Inv(cfg, s) && s.ctl.pc.Stopping?
    ensures Inv(cfg, Next(cfg, s, FinishStop(a)))
  {
    if s.ctl.pc.activate {
      ActivatingKeeps(cfg, s, a);
    }
  }

  lemma NextKeeps(cfg: Settings, s: State, e: Event)
    requires cfg.source.StateEstimator? && Inv(cfg, s) && Enabled(cfg, s, e)
    ensures Inv(cfg, Next(cfg, s, e))
  {
    match e {
      case BeginTick(input) => BeginningKeeps(cfg, s, input);
      case ControlStep => ControlKeeps(cfg, s);
      case BeginStop(_) =>
      case FinishStop(a) => StopKeeps(cfg, s, a);
      case EstimatorUpdate(reading) => UpdateKeeps(cfg, s, reading);
      case EstimatorActivate => EstimatorKeeps(cfg, s, e);
      case EstimatorDeactivate => EstimatorKeeps(cfg, s, e);
      case WorkerStep(solver) => WorkerKeeps(cfg, s, solver);
      case _ => QuietKeeps(cfg, s, Next(cfg, s, e));
    }
  }

  lemma {:induction false} InvHolds(cfg: Settings, s: State, events: seq<Event>)
    requires cfg.source.StateEstimator? && Inv(cfg, s) && Possible(cfg, s, events)
    ensures Inv(cfg, Run(cfg, s, events))
    decreases |events|
  {
    if events != [] {
      NextKeeps(cfg, s, events[0]);
      InvHolds(cfg, Next(cfg, s, events[0]), events[1..]);
    }
  }

  lemma ReachableInv(cfg: Settings, s: State)
    requires cfg.source.StateEstimator? && Reachable(cfg, s)
    ensures Inv(cfg, s)
  {
    var events :| Possible(cfg, START, events) && s == Run(cfg, START, events);
    InvHolds(cfg, START, events);
  }

  // ---- freshness ----

  /** The next control step hands over to StartingMpc. */
  predicate HandsOver(cfg: Settings, s: State) {
    cfg.source.StateEstimator? && s.ctl.pc.Rested? && Decide(cfg, s).handOver
  }

  /**
   Over every interleaving and any number of activations: a hand-over belongs to a request of
   the same activation, and if that request named an epoch the estimator was not running,
   the seed is fresh. Reading the exports in the requesting tick is enough for that. In any case
   the filter was sure of roll, pitch, height and velocity when it made the seed.
   */
  lemma HandOverIsFresh(cfg: Settings, s: State)
    requires Reachable(cfg, s) && HandsOver(cfg, s)
    ensures s.hist.request.activation == s.hist.activation
    ensures s.hist.request.readable ==> s.hist.request.Distinct()
    ensures s.hist.request.Distinct() ==>
              FreshSeed(cfg, Next(cfg, s, ControlStep).mem.seed, s.hist.request)
    ensures var seed := Next(cfg, s, ControlStep).mem.seed;
            && seed.origin.Measured? && seed.origin.birth.Some?
            && E.Sure(cfg, seed.origin.birth.value.deviations)
            && seed.time == s.ctl.tick.input.time
  {
    ReachableInv(cfg, s);
    M.BringUpIsLawful(cfg, s.ctl.state, s.ctl.tick.input, s.ctl.tick.observation);
  }

  // ---- exactly when ----

  /** The next control step raises an initialization request. */
  predicate Requests(cfg: Settings, s: State) {
    cfg.source.StateEstimator? && s.ctl.pc.Rested? && Decide(cfg, s).requested
  }

  /** After `events`, a hand-over answers the request that is current in `s`. */
  predicate Answers(cfg: Settings, s: State, events: seq<Event>) {
    && Possible(cfg, s, events)
    && HandsOver(cfg, Run(cfg, s, events))
    && Run(cfg, s, events).hist.request == s.hist.request
  }

  ghost predicate OnlyFresh(cfg: Settings, s: State) {
    forall events :: Answers(cfg, s, events) ==>
      FreshSeed(cfg, Next(cfg, Run(cfg, s, events), ControlStep).mem.seed, s.hist.request)
  }

  /** The request taken in `s`, with the estimator's epoch and reset still those of `s`. */
  lemma RequestTaken(cfg: Settings, s: State)
    requires Requests(cfg, s)
    ensures var s1 := Next(cfg, s, ControlStep);
            && s1.hist.request == RequestOf(s, s.hist.activation, s.ctl.tick.input, s1.ctl.state.link.epoch)
            && s1.ctl.pc.Commanded? && s1.ctl.state.stage.phase == Converge
            && s1.est == s.est && s1.now == s.now && s1.step == s.step + 1
  {
    M.BringUpIsLawful(cfg, s.ctl.state, s.ctl.tick.input, s.ctl.tick.observation);
  }

  // A run that hands over a filter the request never reset.

  const READY_TICK := TickInput(0.0, true, true, true, false, true, None, None, true, true)

  function SecondUpdate(cfg: Settings, f: E.Estimator, t: real): E.EstimatorInput {
    var due := f.firstValid + cfg.readyMinSeconds;
    E.EstimatorInput(if due < t then t else due, true, true, true, E.Small(cfg))
  }

  /** Two updates without a reset are enough for a running filter to become ready. */
  lemma TwoUpdatesReady(cfg: Settings, f: E.Estimator, refs: References, now: real, step: nat, step': nat)
    returns (u1: E.EstimatorInput, u2: E.EstimatorInput)
    requires f.epoch != 0 && refs.epoch == f.epoch
    ensures now <= u1.time <= u2.time
    ensures var g := E.Update(cfg, E.Update(cfg, f, u1, refs, step), u2, refs, step');
            && g.epoch == f.epoch && g.ready && g.estimate.valid
            && g.resetAt == f.resetAt && g.estimate.birth.resetAt == f.resetAt
  {
    u1 := E.EstimatorInput(if now < 0.0 then 0.0 else now, true, true, true, E.Small(cfg));
    var f1 := E.Update(cfg, f, u1, refs, step);
    assert f1.initialized && f1.firstValid >= 0.0;
    u2 := SecondUpdate(cfg, f1, u1.time);
  }

  /** A tick whose observation is not supplied, up to its verdict on rest. */
  function TickTo(input: TickInput): seq<Event> {
    [BeginTick(input)] + ([ControlStep] + ([ControlStep] + ([ControlStep] + ([ControlStep] + []))))
  }

  lemma RunTick(cfg: Settings, s: State, input: TickInput)
    returns (s1: State, s2: State, s3: State, s4: State, s5: State)
    ensures s1 == Next(cfg, s, BeginTick(input)) && s2 == Next(cfg, s1, ControlStep)
    ensures s3 == Next(cfg, s2, ControlStep) && s4 == Next(cfg, s3, ControlStep) && s5 == Next(cfg, s4, ControlStep)
    ensures Run(cfg, s, TickTo(input)) == s5
    ensures Possible(cfg, s, TickTo(input)) <==>
              Enabled(cfg, s, BeginTick(input)) && Enabled(cfg, s1, ControlStep) && Enabled(cfg, s2, ControlStep) &&
              Enabled(cfg, s3, ControlStep) && Enabled(cfg, s4, ControlStep)
  {
    s1 := Next(cfg, s, BeginTick(input));
    s2 := Next(cfg, s1, ControlStep);
    s3 := Next(cfg, s2, ControlStep);
    s4 := Next(cfg, s3, ControlStep);
    s5 := Next(cfg, s4, ControlStep);
    RunFront(cfg, s4, ControlStep, []);
    RunFront(cfg, s3, ControlStep, [ControlStep] + []);
    RunFront(cfg, s2, ControlStep, [ControlStep] + ([ControlStep] + []));
    RunFront(cfg, s1, ControlStep, [ControlStep] + ([ControlStep] + ([ControlStep] + [])));
    RunFront(cfg, s, BeginTick(input), [ControlStep] + ([ControlStep] + ([ControlStep] + ([ControlStep] + []))));
  }

  /** The steps up to the verdict leave the phase, the link and the observation alone. */
  predicate SameReading(a: ControlThread, b: ControlThread) {
    && a.state.stage.phase == b.state.stage.phase && a.state.link == b.state.link && a.state.seen == b.state.seen
    && a.tick.observation == b.tick.observation && a.tick.input == b.tick.input
  }

  lemma QuietSteps(cfg: Settings, s: State)
    requires s.ctl.pc.Supplied? || s.ctl.pc.Swapped? || s.ctl.pc.Validated? || (s.ctl.pc.Loaded? && !Supplies(s.ctl))
    ensures var t := Next(cfg, s, ControlStep);
            && SameReading(s.ctl, t.ctl) && t.hist.request == s.hist.request && t.est == s.est
            && t.ctl.pc == (match s.ctl.pc
                            case Loaded => Supplied
                            case Supplied => Swapped
                            case Swapped => Validated
                            case _ => Rested)
  {
    match s.ctl.pc {
      case Loaded =>
      case Supplied => if Swaps(s) {}
      case Swapped =>
      case Validated =>
    }
  }

  /** A tick that reads a ready estimator running the requested epoch reaches the hand-over. */
  lemma TickHandsOver(cfg: Settings, s: State)
    requires cfg.source.StateEstimator? && s.ctl.pc.Idle? && s.ctl.state.stage.phase == Converge
    requires s.ctl.state.link.epoch != 0 && s.est.filter.epoch == s.ctl.state.link.epoch
    requires s.est.filter.ready && s.est.filter.estimate.valid
    ensures Answers(cfg, s, TickTo(READY_TICK.(time := s.now)))
    ensures var t := Run(cfg, s, TickTo(READY_TICK.(time := s.now)));
            Next(cfg, t, ControlStep).mem.seed.origin == Measured(Some(s.est.filter.estimate.birth))
  {
    var input := READY_TICK.(time := s.now);
    var s1, s2, s3, s4, s5 := RunTick(cfg, s, input);
    assert s1.ctl.state.link.InitializedForRequest() && s1.ctl.state.link.status.ready;
    assert s1.ctl.state.seen.fromHardware && !Supplies(s1.ctl);
    QuietSteps(cfg, s1);
    QuietSteps(cfg, s2);
    QuietSteps(cfg, s3);
    QuietSteps(cfg, s4);
    assert s5.ctl.state.stage.phase == Converge;
    assert Decide(cfg, s5).handOver;
  }

  function StaleEvents(u1: E.EstimatorInput, u2: E.EstimatorInput, input: TickInput): seq<Event> {
    [ControlStep] + ([EstimatorUpdate(u1)] + ([EstimatorUpdate(u2)] + TickTo(input)))
  }

  /** Two estimator updates between ticks make a running filter ready without a reset. */
  lemma ReadyAgain(cfg: Settings, s: State) returns (u1: E.EstimatorInput, u2: E.EstimatorInput)
    requires s.ctl.pc.Idle? && s.est.active && s.est.filter.epoch != 0
    requires s.est.references.epoch == s.est.filter.epoch
    ensures var s1 := Next(cfg, s, EstimatorUpdate(u1));
            var s2 := Next(cfg, s1, EstimatorUpdate(u2));
            && Enabled(cfg, s, EstimatorUpdate(u1)) && Enabled(cfg, s1, EstimatorUpdate(u2))
            && s2.ctl == s.ctl && s2.hist == s.hist
            && s2.est.filter.epoch == s.est.filter.epoch
            && s2.est.filter.ready && s2.est.filter.estimate.valid
            && s2.est.filter.estimate.birth.resetAt == s.est.filter.resetAt
  {
    u1, u2 := TwoUpdatesReady(cfg, s.est.filter, s.est.references, s.now, s.step, s.step + 1);
  }

  /** Just after a request of the running epoch: two estimator updates and a tick hand over without a reset. */
  lemma StaleRun(cfg: Settings, s: State) returns (events: seq<Event>)
    requires Reachable(cfg, s) && Requests(cfg, s)
    requires var l := Decide(cfg, s).link; l.epoch != 0 && l.epoch == s.est.filter.epoch
    ensures var s1 := Next(cfg, s, ControlStep);
            && Answers(cfg, s1, events)
            && !FreshSeed(cfg, Next(cfg, Run(cfg, s1, events), ControlStep).mem.seed, s1.hist.request)
  {
    ReachableInv(cfg, s);
    RequestTaken(cfg, s);
    var s1 := Next(cfg, s, ControlStep);
    var s2 := Next(cfg, s1, ControlStep);
    assert s2.ctl.pc.Idle? && s2.est.references.epoch == s2.est.filter.epoch && s2.est.filter == s.est.filter;
    var u1, u2 := ReadyAgain(cfg, s2);
    var s3 := Next(cfg, s2, EstimatorUpdate(u1));
    var s4 := Next(cfg, s3, EstimatorUpdate(u2));
    var input := READY_TICK.(time := s4.now);
    TickHandsOver(cfg, s4);
    RunFront(cfg, s3, EstimatorUpdate(u2), TickTo(input));
    RunFront(cfg, s2, EstimatorUpdate(u1), [EstimatorUpdate(u2)] + TickTo(input));
    RunFront(cfg, s1, ControlStep, [EstimatorUpdate(u1)] + ([EstimatorUpdate(u2)] + TickTo(input)));
    events := StaleEvents(u1, u2, input);
  }

  /**
   The condition is exact: just after a request, every hand-over that can still answer it is
   fresh if and only if the epoch asked for is not the one the estimator is running (or is 0,
   which is never answered).
   */
  lemma FreshExactlyWhenDistinct(cfg: Settings, s: State)
    requires Reachable(cfg, s) && Requests(cfg, s)
    ensures var asked := Decide(cfg, s).link.epoch;
            OnlyFresh(cfg, Next(cfg, s, ControlStep)) <==> asked != s.est.filter.epoch || asked == 0
  {
    var s1 := Next(cfg, s, ControlStep);
    RequestTaken(cfg, s);
    if s1.ctl.state.link.epoch != 0 && s1.ctl.state.link.epoch == s.est.filter.epoch {
      var events := StaleRun(cfg, s);
      assert Answers(cfg, s1, events);
    } else {
      ReachableNext(cfg, s, ControlStep);
      forall events | Answers(cfg, s1, events)
        ensures FreshSeed(cfg, Next(cfg, Run(cfg, s1, events), ControlStep).mem.seed, s1.hist.request)
      {
        var t := Run(cfg, s1, events);
        ReachableRun(cfg, s1, events);
        ReachableInv(cfg, t);
        M.BringUpIsLawful(cfg, t.ctl.state, t.ctl.tick.input, t.ctl.tick.observation);
        HandOverIsFresh(cfg, t);
      }
    }
  }

  // ---- it happens ----

  /** A request reaches the estimator, which then runs its epoch; nothing the controller does not read. */
  lemma RequestIsTaken(cfg: Settings, s: State) returns (t: State)
    requires cfg.source.StateEstimator? && Reachable(cfg, s) && s.ctl.pc.Idle? && s.est.active
    requires s.est.references.epoch == 1 && s.est.filter.epoch == 0
    ensures Reachable(cfg, t)
    ensures t == Next(cfg, s, EstimatorUpdate(E.EstimatorInput(s.now, true, false, false, E.Small(cfg))))
    ensures t.est.filter.epoch == 1
  {
    var e := EstimatorUpdate(E.EstimatorInput(s.now, true, false, false, E.Small(cfg)));
    ReachableNext(cfg, s, e);
    t := Next(cfg, s, e);
  }

  /**
   Whatever the settings, as long as some readings count as at rest, a request of the running
   epoch is reached: with the exports unreadable throughout, activate, bring up to a request of
   epoch 1, let the estimator act on it, activate again and bring up to a request, which asks
   for epoch 1 again. From there a run hands over an
   estimate that was never reset for the second request.
   */
  lemma StaleHandOverHappens(cfg: Settings) returns (s: State, events: seq<Event>)
    requires cfg.source.StateEstimator? && M.CanRest(cfg)
    ensures Reachable(cfg, s) && Requests(cfg, s)
    ensures Decide(cfg, s).link.epoch == 1 && s.est.filter.epoch == 1
    ensures var s1 := Next(cfg, s, ControlStep);
            && Answers(cfg, s1, events)
            && !FreshSeed(cfg, Next(cfg, Run(cfg, s1, events), ControlStep).mem.seed, s1.hist.request)
  {
    LeadsToItself(cfg, START);
    ReachableNext(cfg, START, EstimatorActivate);
    var s1 := T.Activation(cfg, START, Next(cfg, START, EstimatorActivate));
    var _, s2 := T.BringUpToRequest(cfg, START, s1);
    var s3 := RequestIsTaken(cfg, s2);
    var s4 := T.Activation(cfg, START, s3);
    var u;
    s, u := T.BringUpToRequest(cfg, START, s4);
    events := StaleRun(cfg, s);
  }
}
