/**
 The whole system as a transition system: the controller-manager thread (control ticks
 split at every access to memory shared with the worker, activation, deactivation, and
 estimator updates between them), the solver worker, the two services and shutdown.
 One event is one step of one thread, sequentially consistent. A service call takes a step for
 each of its accesses, a control tick one for each access whose place among those of the worker
 and the services matters. Where one step makes several stores (a phase change, an activation),
 an access between them has the effect it would have before or after them all.
 */
module SolverProtocol {
  import opened Basics
  import opened BringUpTypes
  import M = BringUpMachine
  import E = EstimatorController

  /** Where the controller-manager thread is; a control tick runs from Idle back to Idle. */
  datatype ControlPc =
    | Inactive
    | Stopping(activate: bool)
    | Idle
    | Loaded
    | Fed
    | Supplied
    | Swapped
    | Validated
    | Rested
    | Seeded
    | Commanded

  /** From the readings of a tick to the computation of its command. */
  predicate InTick(pc: ControlPc) {
    pc.Loaded? || pc.Fed? || pc.Supplied? || pc.Swapped? || Judged(pc)
  }

  /** The plan flags of this tick are set and its command is not computed yet. */
  predicate Judged(pc: ControlPc) {
    pc.Validated? || pc.Rested?
  }

  datatype WorkerPc =
    | NoThread
    | WaitRequest
    | Woken
    | Constructing
    | Publishing
    | WaitObservation
    | LoopHead
    | ResetCheck
    | Advancing
    | Exited

  /** What a control tick keeps between its steps. */
  datatype Tick = Tick(input: TickInput, observation: Observation, solverReady: bool,
                       updated: bool, previousReady: bool, reset: bool)

  /** `pose` is what a ground-truth base holds without a plan. */
  datatype ControlThread = ControlThread(state: M.Control, pc: ControlPc, tick: Tick, pose: Target)

  /** Memory shared by the control thread and the worker: five atomics and two plain objects. */
  datatype Shared = Shared(
    terminate: bool,
    locomotionRequested: bool,
    mpcReady: bool,
    observationReady: bool,
    resetRequested: bool,
    seed: Observation,
    mrt: Option<Mrt>)
  {
    function ActivePlan(): Option<Plan> {
      if mrt.Some? then mrt.value.active else None
    }
  }

  /** When a service call passed its last check: the activation, and the verdicts on rest published until then. */
  datatype Check = Check(activation: nat, verdicts: nat)

  /** How far a service call has come; the calls of one service do not overlap. */
  datatype ServicePc =
    | NoCall
    | SawPhase
    | Cleared(check: Check)

  datatype Services = Services(standUp: ServicePc, start: ServicePc)

  datatype EstimatorSide = EstimatorSide(active: bool, filter: E.Estimator, references: References)

  /** A service's flag as a tick finds it: whether it is up, and the check of this activation it answers. */
  datatype Flag = Flag(up: bool, answer: Option<nat>)

  /** What one control tick did, recorded when its command is computed; `rest` only matters in Settle. */
  datatype Record = Record(
    activation: nat,
    input: TickInput,
    rest: bool,
    before: Phase,
    after: Phase,
    command: Command,
    plan: Option<Plan>,
    observation: Observation,
    updated: bool,
    previousReady: bool,
    ready: bool,
    reset: bool,
    solverReady: bool,
    fromHardware: bool,
    handOver: bool,
    standUp: Flag,
    start: Flag)

  /**
   An initialization request: its step, time and activation, whether the exports were read
   in that tick, the epoch asked for and the epoch the estimator was then running.
   */
  datatype Request = Request(at: nat, time: real, activation: nat, readable: bool, asked: Epoch, inUse: Epoch)
  {
    /** The estimator will have to act on it. */
    predicate Distinct() {
      asked != inUse
    }
  }

  /** Of the stores to a service's flag: the last one's activation, and the last one's check made in the same. */
  datatype Stores = Stores(last: Option<nat>, answer: Option<Check>)
  {
    function Seen(activation: nat): Flag {
      Flag(last == Some(activation),
           if answer.Some? && answer.value.activation == activation then Some(answer.value.verdicts) else None)
    }

    function Stored(check: Check, activation: nat): Stores {
      Stores(Some(activation), if check.activation == activation then Some(check) else answer)
    }
  }

  /**
   History variables; no step depends on them. `finished` holds the plans the worker has finished
   in this activation, `taken` how many of them there were at the last swap.
   */
  datatype History = History(activation: nat, request: Request, standUp: Stores, start: Stores,
                             resets: nat, log: seq<Record>, finished: seq<Plan>, taken: nat)

  datatype State = State(
    step: nat,
    now: real,
    ok: bool,
    ctl: ControlThread,
    mem: Shared,
    worker: WorkerPc,
    est: EstimatorSide,
    svc: Services,
    hist: History)

  datatype ActivationInput = ActivationInput(readings: TickInput, succeeds: bool)

  /** What the solver library does where the source calls it: succeed, with a plan, or throw. */
  datatype Solver = Succeeds(plan: Plan) | Throws(leavesMrt: bool)

  datatype Event =
    | BeginTick(input: TickInput)
    | ControlStep
    | BeginStop(activate: bool)
    | FinishStop(activation: ActivationInput)
    | EstimatorUpdate(reading: E.EstimatorInput)
    | EstimatorActivate
    | EstimatorDeactivate
    | WorkerStep(solver: Solver)
    | StandUpService
    | StartService
    | Shutdown

  const NO_INPUT := TickInput(0.0, false, false, false, false, false, None, None, true, true)
  const NO_OBSERVATION := Observation(0.0, InitialState, true)

  const START: State :=
    State(0, 0.0, true,
          ControlThread(M.FRESH_CONTROL, Inactive, Tick(NO_INPUT, NO_OBSERVATION, false, false, false, false),
                        ActivationPose),
          Shared(false, false, false, false, false, NO_OBSERVATION, None),
          NoThread,
          EstimatorSide(false, E.FRESH_ESTIMATOR, References(true, true, 0)),
          Services(NoCall, NoCall),
          History(0, Request(0, 0.0, 0, false, 0, 0), Stores(None, None), Stores(None, None), 0, [], [], 0))

  // ---- control thread ----

  function Reading(cfg: Settings, s: State, input: TickInput): M.Link {
    M.ReadEstimator(s.ctl.state.link, cfg.HasEstimator() && input.exportsReadable, s.est.filter.Exported())
  }

  function Beginning(cfg: Settings, s: State, input: TickInput): State {
    var link := Reading(cfg, s, input);
    var (seen, o) := M.Observe(cfg, link, s.ctl.state.seen, input);
    s.(now := input.time,
       ctl := ControlThread(s.ctl.state.(link := link, seen := seen), Loaded,
                            Tick(input, o, s.mem.mpcReady, false, false, false), s.ctl.pose))
  }

  /** The observation is supplied only if the solver is ready and it was measured and is finite. */
  predicate Supplies(ctl: ControlThread) {
    ctl.tick.solverReady && ctl.state.seen.fromHardware && ctl.tick.observation.finite
  }

  function Feeding(s: State): State {
    if Supplies(s.ctl) then
      var fed := match s.mem.mrt
                 case Some(m) =>
                   Some(m.(observation := s.ctl.tick.observation, fromTick := true, suppliedAt := s.step))
                 case None => None;
      s.(ctl := s.ctl.(pc := Fed), mem := s.mem.(mrt := fed))
    else s.(ctl := s.ctl.(pc := Supplied))
  }

  /** `updatePolicy`: the buffered plan, if any, becomes the active one. */
  predicate Swaps(s: State) {
    s.ctl.tick.solverReady && s.mem.mrt.Some? && s.mem.mrt.value.buffered.Some?
  }

  function Swapping(s: State): State {
    if Swaps(s) then
      var m := s.mem.mrt.value;
      s.(ctl := ControlThread(s.ctl.state.(plans := s.ctl.state.plans.(hasActive := true)), Swapped,
                              s.ctl.tick.(updated := true), s.ctl.pose),
         hist := s.hist.(taken := |s.hist.finished|),
         mem := s.mem.(mrt := Some(m.(active := m.buffered, buffered := None))))
    else
      s.(ctl := s.ctl.(pc := Swapped, tick := s.ctl.tick.(updated := false)))
  }

  function Validating(cfg: Settings, s: State): State {
    var c, t := s.ctl.state, s.ctl.tick;
    var (plans, reset) :=
      M.Validate(cfg, c.plans, c.seen.fromHardware, s.mem.ActivePlan(), t.observation, t.updated);
    s.(ctl := ControlThread(c.(plans := plans), Validated, t.(previousReady := c.plans.ready, reset := reset),
                            s.ctl.pose),
       mem := s.mem.(resetRequested := s.mem.resetRequested || reset),
       hist := s.hist.(resets := s.hist.resets + if reset then 1 else 0))
  }

  /** The tick publishes a verdict on the rest of the trunk, before it loads the start flag. */
  predicate Judges(cfg: Settings, ctl: ControlThread) {
    && cfg.source.StateEstimator?
    && ctl.state.stage.phase == Settle
    && ctl.tick.input.joints
    && !M.Tilted(cfg, Settle, ctl.tick.input)
  }

  function Resting(cfg: Settings, s: State): State {
    var g := s.ctl.state.stage;
    var g' := if Judges(cfg, s.ctl) then g.(atRest := M.Settled(cfg, g, s.ctl.tick.input).atRest) else g;
    s.(ctl := s.ctl.(state := s.ctl.state.(stage := g'), pc := Rested))
  }

  function Decide(cfg: Settings, s: State): M.Outcome {
    if cfg.source.StateEstimator?
    then M.BringUp(cfg, s.ctl.state, s.ctl.tick.input, s.ctl.tick.observation)
    else M.GroundTruthTick(s.ctl.state, s.ctl.tick.observation, s.ctl.pose, s.mem.locomotionRequested)
  }

  function RecordOf(cfg: Settings, s: State, r: M.Outcome): Record {
    var t := s.ctl.tick;
    Record(s.hist.activation, t.input, M.FoundRest(cfg, s.ctl.state.stage.filter, t.input),
           s.ctl.state.stage.phase, r.stage.phase, r.command, s.mem.ActivePlan(),
           t.observation, t.updated, t.previousReady, s.ctl.state.plans.ready, t.reset,
           t.solverReady, s.ctl.state.seen.fromHardware, r.handOver,
           s.hist.standUp.Seen(s.hist.activation), s.hist.start.Seen(s.hist.activation))
  }

  function RequestOf(s: State, activation: nat, input: TickInput, asked: Epoch): Request {
    Request(s.step, s.now, activation, input.exportsReadable, asked, s.est.filter.epoch)
  }

  /** The command is computed; at a hand-over the seed is written before the request is raised. */
  function Commanding(cfg: Settings, s: State, r: M.Outcome): State {
    s.(ctl := s.ctl.(state := s.ctl.state.(stage := r.stage, link := r.link),
                     pc := if r.handOver then Seeded else Commanded,
                     pose := if cfg.source.GroundTruth? && r.command.Mpc? then PlannedPose(r.command.observation)
                             else s.ctl.pose),
       mem := if r.handOver then s.mem.(seed := s.ctl.tick.observation) else s.mem,
       hist := s.hist.(
         request := if r.requested then RequestOf(s, s.hist.activation, s.ctl.tick.input, r.link.epoch)
                    else s.hist.request,
         log := s.hist.log + [RecordOf(cfg, s, r)]))
  }

  function Referencing(cfg: Settings, s: State): State {
    var refs := if cfg.HasEstimator()
                then M.WriteReferences(cfg, s.ctl.state, s.ctl.tick.input) else s.est.references;
    s.(ctl := s.ctl.(pc := Idle), est := s.est.(references := refs))
  }

  function ControlThreadStep(cfg: Settings, s: State): State {
    match s.ctl.pc
    case Loaded => Feeding(s)
    case Fed => s.(ctl := s.ctl.(pc := Supplied), mem := s.mem.(observationReady := true))
    case Supplied => Swapping(s)
    case Swapped => Validating(cfg, s)
    case Validated => Resting(cfg, s)
    case Rested => Commanding(cfg, s, Decide(cfg, s))
    case Seeded => s.(ctl := s.ctl.(pc := Commanded), mem := s.mem.(locomotionRequested := true))
    case Commanded => Referencing(cfg, s)
    case _ => s
  }

  /** `stop_solver_thread` after the join: flags cleared, the solver freed. */
  function Freed(m: Shared): Shared {
    m.(mpcReady := false, locomotionRequested := false, mrt := None)
  }

  function Deactivating(s: State): State {
    s.(ctl := s.ctl.(pc := Inactive), mem := Freed(s.mem), worker := NoThread)
  }

  /** With a ground-truth base an estimator is read and asked to initialise at activation. */
  function ActivatedControl(cfg: Settings, s: State, a: ActivationInput): M.Control {
    var c := M.Activated(s.ctl.state);
    var link := if cfg.source.GroundTruth? && cfg.source.logsEstimator
                then M.RequestInitialization(
                       M.ReadEstimator(c.link, a.readings.exportsReadable, s.est.filter.Exported()))
                else c.link;
    var seen := if cfg.source.GroundTruth? && a.succeeds
                then M.Observe(cfg, link, c.seen, a.readings).0 else c.seen;
    c.(link := link, seen := seen)
  }

  /** `on_activate` after its `stop_solver_thread`. */
  function Activating(cfg: Settings, s: State, a: ActivationInput): State {
    var c := ActivatedControl(cfg, s, a);
    var m := Freed(s.mem).(observationReady := false, resetRequested := false);
    var h := s.hist.(activation := s.hist.activation + 1, finished := [], taken := 0,
                     request := if cfg.source.GroundTruth? && cfg.source.logsEstimator
                                then RequestOf(s, s.hist.activation + 1, a.readings, c.link.epoch)
                                else s.hist.request);
    if a.succeeds
    then s.(ctl := s.ctl.(state := c, pc := Idle, pose := ActivationPose), mem := m.(terminate := false),
            worker := WaitRequest, hist := h)
    else s.(ctl := s.ctl.(state := c, pc := Inactive), mem := m, worker := NoThread, hist := h)
  }

  // ---- worker thread ----

  function Built(s: State): Option<Mrt> {
    Some(Mrt(s.step, s.mem.seed, false, s.step, None, None))
  }

  function WorkerThreadStep(s: State, solver: Solver): State {
    match s.worker
    case WaitRequest => s.(worker := Woken)
    case Woken => s.(worker := if s.mem.terminate || !s.ok then Exited else Constructing)
    case Constructing =>
      (match solver
       case Succeeds(_) => s.(worker := Publishing, mem := s.mem.(mrt := Built(s)))
       case Throws(leaves) => s.(worker := Exited, mem := s.mem.(mrt := if leaves then Built(s) else s.mem.mrt)))
    case Publishing => s.(worker := WaitObservation, mem := s.mem.(mpcReady := true))
    case WaitObservation => s.(worker := LoopHead)
    case LoopHead => s.(worker := if s.mem.terminate || !s.ok then Exited else ResetCheck)
    case ResetCheck =>
      if s.mem.resetRequested && solver.Throws?
      then s.(worker := LoopHead)
      else s.(worker := Advancing, mem := s.mem.(resetRequested := false))
    case Advancing =>
      (match solver
       case Succeeds(plan) =>
         var mrt := match s.mem.mrt case Some(m) => Some(m.(buffered := Some(plan))) case None => None;
         s.(worker := LoopHead, mem := s.mem.(mrt := mrt), hist := s.hist.(finished := s.hist.finished + [plan]))
       case Throws(_) => s.(worker := LoopHead, mem := s.mem.(resetRequested := true)))
    case _ => s
  }

  predicate WorkerCanStep(s: State) {
    match s.worker
    case NoThread => false
    case Exited => false
    case WaitRequest => s.mem.terminate || !s.ok || s.mem.locomotionRequested
    case WaitObservation => s.mem.terminate || !s.ok || s.mem.observationReady
    case _ => true
  }

  // ---- services ----

  function Called(s: State, calls: M.Calls): State {
    s.(ctl := s.ctl.(state := s.ctl.state.(calls := calls)))
  }

  /** The verdicts published so far; that of a tick comes before its record. */
  function Verdicts(cfg: Settings, s: State): nat {
    |s.hist.log| + if s.ctl.pc.Rested? && Judges(cfg, s.ctl) then 1 else 0
  }

  function CheckNow(cfg: Settings, s: State): ServicePc {
    Cleared(Check(s.hist.activation, Verdicts(cfg, s)))
  }

  /** The next access of a stand-up call: load the phase, then store the flag. */
  function StandUpStep(cfg: Settings, s: State): State {
    match s.svc.standUp
    case Cleared(check) =>
      Called(s, s.ctl.state.calls.(standUp := true)).(
        svc := s.svc.(standUp := NoCall),
        hist := s.hist.(standUp := s.hist.standUp.Stored(check, s.hist.activation)))
    case _ =>
      s.(svc := s.svc.(standUp := if s.ctl.state.stage.phase == Passive then CheckNow(cfg, s) else NoCall))
  }

  /** The next access of a start call: load the phase, load the at-rest flag, then store the flag. */
  function StartStep(cfg: Settings, s: State): State {
    match s.svc.start
    case NoCall =>
      s.(svc := s.svc.(start := if s.ctl.state.stage.phase == Settle then SawPhase else NoCall))
    case SawPhase =>
      s.(svc := s.svc.(start := if s.ctl.state.stage.atRest then CheckNow(cfg, s) else NoCall))
    case Cleared(check) =>
      Called(s, s.ctl.state.calls.(start := true)).(
        svc := s.svc.(start := NoCall),
        hist := s.hist.(start := s.hist.start.Stored(check, s.hist.activation)))
  }

  // ---- steps ----

  predicate BetweenTicks(s: State) {
    s.ctl.pc.Idle? || s.ctl.pc.Inactive?
  }

  predicate Enabled(cfg: Settings, s: State, e: Event) {
    match e
    case BeginTick(input) => s.ctl.pc.Idle? && s.now <= input.time
    case ControlStep => !BetweenTicks(s) && !s.ctl.pc.Stopping?
    case BeginStop(activate) => BetweenTicks(s)
    case FinishStop(a) =>
      && s.ctl.pc.Stopping?
      && (s.worker.NoThread? || s.worker.Exited?)
      && (s.ctl.pc.activate && a.succeeds && cfg.source.GroundTruth? ==>
            a.readings.jointsForObservation && a.readings.groundTruthReadable)
    case EstimatorUpdate(reading) => s.est.active && BetweenTicks(s) && s.now <= reading.time
    case EstimatorActivate => !s.est.active && BetweenTicks(s)
    case EstimatorDeactivate => s.est.active && BetweenTicks(s)
    case WorkerStep(_) => WorkerCanStep(s)
    case _ => true
  }

  function Effect(cfg: Settings, s: State, e: Event): State {
    match e
    case BeginTick(input) => Beginning(cfg, s, input)
    case ControlStep => ControlThreadStep(cfg, s)
    case BeginStop(activate) => s.(ctl := s.ctl.(pc := Stopping(activate)), mem := s.mem.(terminate := true))
    case FinishStop(a) =>
      if s.ctl.pc.Stopping? && s.ctl.pc.activate then Activating(cfg, s, a) else Deactivating(s)
    case EstimatorUpdate(reading) =>
      s.(now := reading.time,
         est := s.est.(filter := E.Update(cfg, s.est.filter, reading, s.est.references, s.step)))
    case EstimatorActivate =>
      s.(est := s.est.(active := true, filter := E.Activated(s.est.filter, s.step)))
    case EstimatorDeactivate =>
      s.(est := s.est.(active := false, filter := E.Deactivated(s.est.filter)))
    case WorkerStep(solver) => WorkerThreadStep(s, solver)
    case StandUpService => StandUpStep(cfg, s)
    case StartService => StartStep(cfg, s)
    case Shutdown => s.(ok := false)
  }

  function Next(cfg: Settings, s: State, e: Event): State {
    Effect(cfg, s, e).(step := s.step + 1)
  }

  // ---- runs ----

  /** The state a sequence of events leads to. */
  function Run(cfg: Settings, s: State, events: seq<Event>): State
    decreases |events|
  {
    if events == [] then s else Run(cfg, Next(cfg, s, events[0]), events[1..])
  }

  /** Each event was enabled when it happened. */
  predicate Possible(cfg: Settings, s: State, events: seq<Event>)
    decreases |events|
  {
    events == [] || (Enabled(cfg, s, events[0]) && Possible(cfg, Next(cfg, s, events[0]), events[1..]))
  }

  lemma RunFront(cfg: Settings, s: State, e: Event, rest: seq<Event>)
    ensures Run(cfg, s, [e] + rest) == Run(cfg, Next(cfg, s, e), rest)
    ensures Possible(cfg, s, [e] + rest) <==> Enabled(cfg, s, e) && Possible(cfg, Next(cfg, s, e), rest)
  {
    assert ([e] + rest)[1..] == rest;
  }

  /** Some interleaving leads from `s` to `t`. */
  ghost predicate Leads(cfg: Settings, s: State, t: State) {
    exists events :: Possible(cfg, s, events) && t == Run(cfg, s, events)
  }

  ghost predicate Reachable(cfg: Settings, s: State) {
    Leads(cfg, START, s)
  }

  lemma RunAppend(cfg: Settings, s: State, events: seq<Event>, e: Event)
    requires Possible(cfg, s, events) && Enabled(cfg, Run(cfg, s, events), e)
    ensures Possible(cfg, s, events + [e])
    ensures Run(cfg, s, events + [e]) == Next(cfg, Run(cfg, s, events), e)
    decreases |events|
  {
    if events == [] {
      assert events + [e] == [e];
      assert [e][1..] == [];
    } else {
      assert (events + [e])[1..] == events[1..] + [e];
      RunAppend(cfg, Next(cfg, s, events[0]), events[1..], e);
    }
  }

  lemma LeadsToItself(cfg: Settings, s: State)
    ensures Leads(cfg, s, s)
  {
    assert Possible(cfg, s, []) && s == Run(cfg, s, []);
  }

  lemma LeadsNext(cfg: Settings, s: State, t: State, e: Event)
    requires Leads(cfg, s, t) && Enabled(cfg, t, e)
    ensures Leads(cfg, s, Next(cfg, t, e))
  {
    var events :| Possible(cfg, s, events) && t == Run(cfg, s, events);
    RunAppend(cfg, s, events, e);
  }

  lemma ReachableNext(cfg: Settings, s: State, e: Event)
    requires Reachable(cfg, s) && Enabled(cfg, s, e)
    ensures Reachable(cfg, Next(cfg, s, e))
  {
    LeadsNext(cfg, START, s, e);
  }

  lemma {:induction false} ReachableRun(cfg: Settings, s: State, events: seq<Event>)
    requires Reachable(cfg, s) && Possible(cfg, s, events)
    ensures Reachable(cfg, Run(cfg, s, events))
    decreases |events|
  {
    if events != [] {
      ReachableNext(cfg, s, events[0]);
      ReachableRun(cfg, Next(cfg, s, events[0]), events[1..]);
    }
  }
}
