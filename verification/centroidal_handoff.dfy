/**
 The earlier controller's hand-over to its solver worker, for both base sources. There is no
 wait for a fresh observation after construction here: until a policy has been received every
 solve starts from the seed, which the control thread does not touch again.
 */
module CentroidalHandOff {
  import opened Basics

  datatype Source = GroundTruth | StateEstimator

  /** An observation, told apart from others by its tick, and whether it was measured. */
  datatype Observation = Observation(tick: nat, measured: bool)

  /** The part of the bring-up that the hand-over depends on. */
  datatype Phase = Preparing | StartingMpc | Driving | Fault

  /**
   What a tick reads: its observation, whether the joints were readable, whether Converge would be
   left, and whether the tilt guard trips; it never does in Passive.
   */
  datatype Tick = Tick(observation: Observation, joints: bool, converged: bool, tilted: bool)

  datatype ControlPc = Inactive | Stopping | Idle | Loaded | SawReady | Using | Seeded

  datatype WorkerPc = NoThread | WaitRequest | Woken | Constructing | Publishing | LoopHead | Advancing | Exited

  /** The solver interface: the observation it would solve from, and whether a policy has been received. */
  datatype Mrt = Mrt(observation: Observation, received: bool)

  datatype Shared = Shared(terminate: bool, requested: bool, ready: bool, seed: Observation, mrt: Option<Mrt>)

  datatype State = State(pc: ControlPc, phase: Phase, tick: Tick, mem: Shared, worker: WorkerPc, ok: bool,
                         handOvers: nat)

  datatype Event =
    | BeginTick(tick: Tick)
    | ControlStep
    | BeginStop
    | FinishStop
    | Activate(succeeds: bool)
    | WorkerStep(throws: bool, leaves: bool)
    | Shutdown

  const NOTHING := Observation(0, false)

  const START: State :=
    State(Inactive, Preparing, Tick(NOTHING, false, false, false), Shared(false, false, false, NOTHING, None),
        NoThread, true, 0)

  // ---- control thread ----

  function Guarded(p: Phase, t: Tick): Phase {
    if t.tilted && !p.Fault? then Fault else p
  }

  function HandOver(s: State, p: Phase): State {
    s.(pc := Seeded, phase := p, mem := s.mem.(seed := s.tick.observation), handOvers := s.handOvers + 1)
  }

  /** After the readings: hold, hand over, or go and look at the solver. */
  function Decide(source: Source, s: State): State {
    if source.GroundTruth? then
      if s.mem.ready then s.(pc := SawReady)
      else if !s.mem.requested && s.tick.observation.measured then HandOver(s, s.phase)
      else s.(pc := Idle)
    else if !s.tick.joints then s.(pc := Idle)
    else
      var p := Guarded(s.phase, s.tick);
      match p
      case Preparing =>
        if s.tick.converged && s.tick.observation.measured then HandOver(s, StartingMpc) else s.(pc := Idle)
      case StartingMpc => if s.mem.ready then s.(pc := SawReady, phase := p) else s.(pc := Idle, phase := p)
      case Driving => s.(pc := Using, phase := p)
      case Fault => s.(pc := Idle, phase := p)
  }

  predicate Received(s: State) {
    s.mem.mrt.Some? && s.mem.mrt.value.received
  }

  /** Ready was seen: with a policy received the base source drives at once, the bring-up from its next tick. */
  function Look(source: Source, s: State): State {
    if source.GroundTruth? then
      if Received(s) then s.(pc := Using)
      else if !s.mem.requested && s.tick.observation.measured then HandOver(s, s.phase)
      else s.(pc := Idle)
    else s.(pc := Idle, phase := if Received(s) then Driving else s.phase)
  }

  /** `compute_mpc_joint_action`: this tick's observation becomes the solver's. */
  function Use(s: State): State {
    s.(pc := Idle, mem := s.mem.(mrt := match s.mem.mrt
                                        case Some(m) => Some(m.(observation := s.tick.observation))
                                        case None => None))
  }

  function ControlThreadStep(source: Source, s: State): State {
    match s.pc
    case Loaded => Decide(source, s)
    case SawReady => Look(source, s)
    case Using => Use(s)
    case Seeded => s.(pc := Idle, mem := s.mem.(requested := true))
    case _ => s
  }

  // ---- worker ----

  function Built(s: State): Option<Mrt> {
    Some(Mrt(s.mem.seed, false))
  }

  function WorkerThreadStep(s: State, throws: bool, leaves: bool): State {
    match s.worker
    case WaitRequest => s.(worker := Woken)
    case Woken => s.(worker := if s.mem.terminate || !s.ok then Exited else Constructing)
    case Constructing =>
      if throws then s.(worker := Exited, mem := s.mem.(mrt := if leaves then Built(s) else s.mem.mrt))
      else s.(worker := Publishing, mem := s.mem.(mrt := Built(s)))
    case Publishing => s.(worker := LoopHead, mem := s.mem.(ready := true))
    case LoopHead => s.(worker := if s.mem.terminate || !s.ok then Exited else Advancing)
    case Advancing =>
      if throws then s.(worker := LoopHead)
      else s.(worker := LoopHead, mem := s.mem.(mrt := match s.mem.mrt
                                                      case Some(m) => Some(m.(received := true))
                                                      case None => None))
    case _ => s
  }

  predicate WorkerCanStep(s: State) {
    match s.worker
    case NoThread => false
    case Exited => false
    case WaitRequest => s.mem.terminate || !s.ok || s.mem.requested
    case _ => true
  }

  // ---- steps ----

  predicate Enabled(s: State, e: Event) {
    match e
    case BeginTick(_) => s.pc.Idle?
    case ControlStep => s.pc.Loaded? || s.pc.SawReady? || s.pc.Using? || s.pc.Seeded?
    case BeginStop => s.pc.Idle?
    case FinishStop => s.pc.Stopping? && (s.worker.NoThread? || s.worker.Exited?)
    case Activate(_) => s.pc.Inactive?
    case WorkerStep(_, _) => WorkerCanStep(s)
    case Shutdown => true
  }

  function Next(source: Source, s: State, e: Event): State {
    match e
    case BeginTick(t) => s.(pc := Loaded, tick := t)
    case ControlStep => ControlThreadStep(source, s)
    case BeginStop => s.(pc := Stopping, mem := s.mem.(terminate := true))
    case FinishStop =>
      s.(pc := Inactive, worker := NoThread, mem := s.mem.(ready := false, requested := false, mrt := None))
    case Activate(succeeds) =>
      var m := s.mem.(requested := false, ready := false);
      if succeeds then s.(pc := Idle, phase := Preparing, mem := m.(terminate := false), worker := WaitRequest,
          handOvers := 0)
      else s.(phase := Preparing, mem := m, handOvers := 0)
    case WorkerStep(throws, leaves) => WorkerThreadStep(s, throws, leaves)
    case Shutdown => s.(ok := false)
  }

  // ---- invariant ----

  /** The worker may be reading the seed, or already has. */
  predicate MayReadSeed(w: WorkerPc) {
    !w.NoThread? && !w.WaitRequest? && !w.Woken? && !w.Exited?
  }

  predicate HasSolver(w: WorkerPc) {
    w.Publishing? || w.LoopHead? || w.Advancing?
  }

  predicate Solver(s: State) {
    && (HasSolver(s.worker) || s.mem.ready ==> s.mem.mrt.Some?)
    && (s.mem.mrt.Some? ==> HasSolver(s.worker) || s.worker.Exited?)
    && (s.mem.mrt.Some? && !s.mem.mrt.value.received ==> s.mem.mrt.value.observation == s.mem.seed)
    && (s.mem.ready ==> s.worker.LoopHead? || s.worker.Advancing? || s.worker.Exited?)
  }

  predicate HandedOver(source: Source, s: State) {
    && (s.mem.requested ==> s.handOvers == 1 && s.mem.seed.measured && !s.pc.Seeded?)
    && (s.pc.Seeded? ==> s.handOvers == 1 && s.mem.seed.measured && !s.mem.requested)
    && (!s.mem.requested && !s.pc.Seeded? && !s.pc.Inactive? ==> s.handOvers == 0)
    && (MayReadSeed(s.worker) || s.mem.mrt.Some? ==> s.mem.requested)
    && (source.StateEstimator? && s.handOvers > 0 ==> !s.phase.Preparing?)
    && (source.GroundTruth? ==> s.phase.Preparing?)
  }

  predicate InUse(source: Source, s: State) {
    && (s.pc.Using? ==> Received(s))
    && (s.pc.SawReady? ==> s.mem.ready && s.mem.requested)
    && (s.phase.Driving? && !s.pc.Inactive? ==> Received(s))
    && (s.pc.Inactive? ==> s.worker.NoThread? && s.mem.mrt.None? && !s.mem.ready && !s.mem.requested)
  }

  predicate Inv(source: Source, s: State) {
    Solver(s) && HandedOver(source, s) && InUse(source, s)
  }

  lemma ControlKeeps(source: Source, s: State)
    requires Inv(source, s) && Enabled(s, ControlStep)
    ensures Inv(source, ControlThreadStep(source, s))
  {
    match s.pc {
      case Loaded =>
        if source.StateEstimator? && s.tick.joints {
          match Guarded(s.phase, s.tick) { case _ => }
        }
      case SawReady =>
      case Using =>
      case Seeded =>
    }
  }

  /** A worker that was woken by the request, or by a stop that it then sees. */
  predicate WokenRightly(s: State) {
    s.worker.Woken? ==> s.mem.requested || s.mem.terminate || !s.ok
  }

  lemma WorkerKeeps(source: Source, s: State, throws: bool, leaves: bool)
    requires Inv(source, s) && WokenRightly(s) && WorkerCanStep(s)
    ensures Inv(source, WorkerThreadStep(s, throws, leaves)) && WokenRightly(WorkerThreadStep(s, throws, leaves))
  {
    match s.worker { case _ => }
  }

  lemma NextKeeps(source: Source, s: State, e: Event)
    requires Inv(source, s) && WokenRightly(s) && Enabled(s, e)
    ensures Inv(source, Next(source, s, e)) && WokenRightly(Next(source, s, e))
  {
    match e {
      case ControlStep => ControlKeeps(source, s);
      case WorkerStep(throws, leaves) => WorkerKeeps(source, s, throws, leaves);
      case _ =>
    }
  }

  // ---- runs ----

  function Run(source: Source, s: State, events: seq<Event>): State {
    if events == [] then s else Next(source, Run(source, s, events[..|events| - 1]), events[|events| - 1])
  }

  predicate Possible(source: Source, s: State, events: seq<Event>) {
    events == [] ||
    (Possible(source, s, events[..|events| - 1]) &&
     Enabled(Run(source, s, events[..|events| - 1]), events[|events| - 1]))
  }

  lemma {:induction false} InvHolds(source: Source, events: seq<Event>)
    requires Possible(source, START, events)
    ensures Inv(source, Run(source, START, events)) && WokenRightly(Run(source, START, events))
  {
    if events != [] {
      InvHolds(source, events[..|events| - 1]);
      NextKeeps(source, Run(source, START, events[..|events| - 1]), events[|events| - 1]);
    }
  }

  /**
   In every interleaving: the control thread uses the solver only when it exists and has a policy;
   until then a solve starts from the seed, which was measured; and there is one hand-over per activation.
   */
  lemma HandOffIsSafe(source: Source, events: seq<Event>)
    requires Possible(source, START, events)
    ensures var s := Run(source, START, events);
            && (s.pc.Using? ==> Received(s))
            && (s.worker.Advancing? ==> s.mem.mrt.Some?)
            && (s.worker.Advancing? && !Received(s) ==>
                  s.mem.mrt.value.observation == s.mem.seed && s.mem.seed.measured)
            && (!s.pc.Inactive? ==> s.handOvers <= 1)
  {
    InvHolds(source, events);
  }

  /** No step writes the seed once the worker may read it, and only the stop after the join frees the solver. */
  lemma SeedIsStable(source: Source, events: seq<Event>, e: Event)
    requires Possible(source, START, events) && Enabled(Run(source, START, events), e)
    ensures var s := Run(source, START, events);
            && (MayReadSeed(s.worker) ==> Next(source, s, e).mem.seed == s.mem.seed)
            && (s.mem.mrt.Some? && Next(source, s, e).mem.mrt.None? ==>
                  s.pc.Stopping? && (s.worker.NoThread? || s.worker.Exited?))
  {
    InvHolds(source, events);
  }

  // ---- a whole tick ----

  /** A tick that nothing interrupts. */
  function WholeTick(source: Source, s: State): State {
    var r := ControlThreadStep(source, s);
    if r.pc.SawReady? then ControlThreadStep(source, r) else r
  }

  /**
   With a ground-truth base the policy drives from its first tick, and the hand-over waits for nothing
   but a measured observation. With an estimated one a tick drives only after one that found the
   policy, in order and upright, and nothing leaves the fault.
   */
  lemma TickOutcome(source: Source, s: State)
    requires s.pc.Loaded? && Inv(source, s)
    ensures var r := WholeTick(source, s);
            var upright := s.tick.joints && !s.tick.tilted;
            && (source.GroundTruth? ==>
                  && (r.pc.Using? <==> s.mem.ready && Received(s))
                  && (r.pc.Seeded? <==> !s.mem.requested && s.tick.observation.measured)
                  && r.phase == s.phase)
            && (source.StateEstimator? ==>
                  && (r.pc.Using? <==> s.phase.Driving? && upright)
                  && (r.pc.Seeded? <==>
                        s.phase.Preparing? && upright && s.tick.converged && s.tick.observation.measured)
                  && (r.phase.Driving? <==>
                        || (s.phase.Driving? && !(s.tick.joints && s.tick.tilted))
                        || (s.phase.StartingMpc? && upright && s.mem.ready && Received(s)))
                  && (r.phase.Fault? <==> s.phase.Fault? || (s.tick.joints && s.tick.tilted))
                  && (r.phase.StartingMpc? && !s.phase.StartingMpc? <==> r.pc.Seeded?))
  {
  }

  // ---- which observation ----

  /** The observation of the last tick that began. */
  function LastTick(events: seq<Event>): Option<Observation> {
    if events == [] then None
    else
      match events[|events| - 1]
      case BeginTick(t) => Some(t.observation)
      case _ => LastTick(events[..|events| - 1])
  }

  /** What the last tick began with when it handed over, or when it used the policy, since the last activation. */
  function LastOf(source: Source, events: seq<Event>, handOver: bool): Option<Observation> {
    if events == [] then None
    else
      var before := events[..|events| - 1];
      match events[|events| - 1]
      case ControlStep =>
        var s := Run(source, START, before);
        if (if handOver then !s.pc.Seeded? && ControlThreadStep(source, s).pc.Seeded? else s.pc.Using?)
        then LastTick(before) else LastOf(source, before, handOver)
      case Activate(_) => None
      case _ => LastOf(source, before, handOver)
  }

  /** Since the solver was built, an advance of it has succeeded. */
  predicate HasSolved(source: Source, events: seq<Event>) {
    events != [] &&
    var before := events[..|events| - 1];
    match events[|events| - 1]
    case WorkerStep(throws, _) =>
      var w := Run(source, START, before).worker;
      (w.Advancing? && !throws) || (HasSolved(source, before) && !w.Constructing?)
    case FinishStop => false
    case _ => HasSolved(source, before)
  }

  predicate Traced(source: Source, events: seq<Event>, s: State) {
    && (Received(s) <==> HasSolved(source, events))
    && (s.worker.LoopHead? || s.worker.Advancing? ==> s.mem.ready)
    && (!s.pc.Idle? && !s.pc.Inactive? && !s.pc.Stopping? ==> LastTick(events) == Some(s.tick.observation))
    && (s.mem.requested || s.pc.Seeded? ==> LastOf(source, events, true) == Some(s.mem.seed))
    && (s.mem.mrt.Some? ==>
          s.mem.mrt.value.observation ==
          match LastOf(source, events, false) case Some(o) => o case None => s.mem.seed)
    && (LastOf(source, events, false).Some? && !s.pc.Inactive? && !s.worker.Exited? ==> Received(s))
  }

  lemma {:induction false} TracedHolds(source: Source, events: seq<Event>)
    requires Possible(source, START, events)
    ensures Traced(source, events, Run(source, START, events))
  {
    if events != [] {
      var before := events[..|events| - 1];
      var s, e := Run(source, START, before), events[|events| - 1];
      InvHolds(source, before);
      TracedHolds(source, before);
      match e {
        case ControlStep => ControlTraced(source, before, s);
        case WorkerStep(throws, leaves) => WorkerTraced(source, events, s, throws, leaves);
        case _ => OthersTraced(source, events, s, e);
      }
    }
  }

  lemma OthersTraced(source: Source, events: seq<Event>, s: State, e: Event)
    requires events != [] && events[|events| - 1] == e && !e.ControlStep? && !e.WorkerStep?
    requires Inv(source, s) && Enabled(s, e) && Traced(source, events[..|events| - 1], s)
    ensures Traced(source, events, Next(source, s, e))
  {
  }

  lemma ControlTraced(source: Source, before: seq<Event>, s: State)
    requires s == Run(source, START, before) && Inv(source, s) && Traced(source, before, s) && Enabled(s, ControlStep)
    ensures Traced(source, before + [ControlStep], ControlThreadStep(source, s))
  {
    var events := before + [ControlStep];
    assert events[..|events| - 1] == before;
  }

  lemma WorkerTraced(source: Source, events: seq<Event>, s: State, throws: bool, leaves: bool)
    requires events != [] && events[|events| - 1] == WorkerStep(throws, leaves)
    requires s == Run(source, START, events[..|events| - 1])
    requires Inv(source, s) && WorkerCanStep(s) && Traced(source, events[..|events| - 1], s)
    ensures Traced(source, events, WorkerThreadStep(s, throws, leaves))
  {
    var before := events[..|events| - 1];
    assert LastTick(events) == LastTick(before);
    assert forall h :: LastOf(source, events, h) == LastOf(source, before, h);
    assert HasSolved(source, events) <==>
           (s.worker.Advancing? && !throws) || (HasSolved(source, before) && !s.worker.Constructing?);
    match s.worker {
      case Constructing =>
      case Advancing =>
      case _ =>
    }
  }

  /**
   A solve starts from the observation of the last tick that used the policy; before any did, from
   that of the tick that handed over.
   */
  lemma SolvesFromTheLastUse(source: Source, events: seq<Event>)
    requires Possible(source, START, events)
    ensures var s := Run(source, START, events);
            s.worker.Advancing? ==>
              && s.mem.mrt.Some?
              && Some(s.mem.mrt.value.observation) ==
                 if LastOf(source, events, false).Some? then LastOf(source, events, false)
                 else LastOf(source, events, true)
  {
    InvHolds(source, events);
    TracedHolds(source, events);
  }

  /**
   There is a policy to use exactly if an advance has succeeded since the solver was built. Once it
   is built the control thread finds it, and the worker waits for nothing but the hand-over.
   */
  lemma PolicyExactlyOnceSolved(source: Source, events: seq<Event>)
    requires Possible(source, START, events)
    ensures var s := Run(source, START, events);
            && (Received(s) <==> HasSolved(source, events))
            && (s.worker.LoopHead? || s.worker.Advancing? ==> s.mem.ready && s.mem.mrt.Some?)
            && (s.worker.WaitRequest? && !s.mem.terminate && s.ok && !s.pc.Inactive? ==>
                  (WorkerCanStep(s) <==> s.handOvers == 1 && !s.pc.Seeded?))
            && (!s.worker.WaitRequest? && !s.worker.NoThread? && !s.worker.Exited? ==> WorkerCanStep(s))
  {
    InvHolds(source, events);
    TracedHolds(source, events);
  }

  // ---- the stop ----

  /** How many steps the worker is from leaving, once it is told to or the node shuts down. */
  function StepsLeft(w: WorkerPc): nat {
    match w
    case NoThread => 0
    case Exited => 0
    case Woken => 1
    case LoopHead => 1
    case WaitRequest => 2
    case Advancing => 2
    case Publishing => 2
    case Constructing => 3
  }

  /** The join returns: a worker that is told to stop can always take a step, and each brings it nearer to leaving. */
  lemma StopBringsTheWorkerOut(s: State, throws: bool, leaves: bool)
    requires (s.mem.terminate || !s.ok) && StepsLeft(s.worker) > 0
    ensures WorkerCanStep(s)
    ensures var t := WorkerThreadStep(s, throws, leaves);
            && StepsLeft(t.worker) < StepsLeft(s.worker)
            && t.mem.terminate == s.mem.terminate && t.ok == s.ok && t.pc == s.pc && !t.worker.NoThread?
  {
    match s.worker { case _ => }
  }
}
