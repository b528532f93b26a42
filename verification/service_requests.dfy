/**
 What the two services' flags answer. A call checks first and stores later, so a flag found
 up by a tick may rest on a check made long before: in this activation, or in an earlier one
 if the call was in flight while the controller was activated again.
 */
module ServiceRequests {
  import opened Basics
  import opened BringUpTypes
  import opened SolverProtocol
  import M = BringUpMachine
  import B = BringUpHistory

  // ---- the at-rest flag ----

  /** The record to come of a tick in Settle, as far as a dwell looks at it. */
  function Probe(activation: nat, input: TickInput, rest: bool): Record {
    Record(activation, input, rest, Settle, Settle, Hold(NominalStand), None, NO_OBSERVATION,
           false, false, false, false, false, false, false, Flag(false, None), Flag(false, None))
  }

  function Awaited(cfg: Settings, s: State): Record {
    var input := s.ctl.tick.input;
    Probe(s.hist.activation, input, M.FoundRest(cfg, s.ctl.state.stage.filter, input))
  }

  /** The ticks whose verdict has been published. */
  function Published(cfg: Settings, s: State): B.Log {
    if s.ctl.pc.Rested? && Judges(cfg, s.ctl)
    then s.hist.log + [Awaited(cfg, s)]
    else s.hist.log
  }

  /** At the end of tick `k` the trunk had dwelt at rest. */
  ghost predicate Dwells(cfg: Settings, log: B.Log, k: nat) {
    exists j: nat :: B.DweltSince(cfg, log, j, k)
  }

  /** The last of the first `n` ticks belongs to `activation`, and the trunk had dwelt at rest by then. */
  ghost predicate AtRestBy(cfg: Settings, log: B.Log, n: nat, activation: nat) {
    && 1 <= n <= |log|
    && log[n - 1].activation == activation
    && Dwells(cfg, log, n - 1)
  }

  /** The flag is up only in Settle and after a dwell; a tick that has published it stands by it. */
  ghost predicate FlagSound(cfg: Settings, s: State) {
    var g := s.ctl.state.stage;
    && (g.atRest ==>
          g.phase == Settle && AtRestBy(cfg, Published(cfg, s), |Published(cfg, s)|, s.hist.activation))
    && (s.ctl.pc.Rested? && Judges(cfg, s.ctl) ==> g.atRest == M.Settled(cfg, g, s.ctl.tick.input).atRest)
  }

  // ---- checks ----

  ghost predicate RestCheckSound(cfg: Settings, log: B.Log, activation: nat, check: Check) {
    check.activation <= activation && AtRestBy(cfg, log, check.verdicts, check.activation)
  }

  /** The tick after the check, if it is of the same activation, started in Passive. */
  predicate PassiveCheckSound(log: B.Log, activation: nat, phase: Phase, check: Check) {
    && check.activation <= activation
    && check.verdicts <= |log|
    && (check.verdicts == |log| && check.activation == activation ==> phase == Passive)
    && (check.verdicts < |log| ==> CheckedInPassive(log, check))
  }

  predicate CheckedInPassive(log: B.Log, check: Check)
    requires check.verdicts < |log|
  {
    && check.activation <= log[check.verdicts].activation
    && (check.activation == log[check.verdicts].activation ==> log[check.verdicts].before == Passive)
  }

  /** The check of the call in flight, and the one the flag answers. */
  ghost predicate StartChecks(cfg: Settings, log: B.Log, activation: nat, pc: ServicePc, stores: Stores) {
    && (pc.Cleared? ==> RestCheckSound(cfg, log, activation, pc.check))
    && (stores.answer.Some? ==> RestCheckSound(cfg, log, activation, stores.answer.value))
  }

  predicate StandUpChecks(log: B.Log, activation: nat, phase: Phase, pc: ServicePc, stores: Stores) {
    && (pc.Cleared? ==> PassiveCheckSound(log, activation, phase, pc.check))
    && (stores.answer.Some? ==> PassiveCheckSound(log, activation, phase, stores.answer.value))
  }

  ghost predicate ChecksSound(cfg: Settings, s: State) {
    && StartChecks(cfg, Published(cfg, s), s.hist.activation, s.svc.start, s.hist.start)
    && StandUpChecks(s.hist.log, s.hist.activation, s.ctl.state.stage.phase, s.svc.standUp, s.hist.standUp)
  }

  /** The start flag of tick `k` answers a check that found the trunk at rest in its activation. */
  ghost predicate StartAnswered(cfg: Settings, log: B.Log, k: nat)
    requires k < |log| && log[k].start.answer.Some?
  {
    AtRestBy(cfg, log[..k + 1], log[k].start.answer.value, log[k].activation)
  }

  /** The stand-up flag of tick `k` answers a check that found its activation in Passive. */
  predicate StandUpAnswered(log: B.Log, k: nat)
    requires k < |log| && log[k].standUp.answer.Some?
  {
    var n := log[k].standUp.answer.value;
    n <= k && log[n].activation == log[k].activation && log[n].before == Passive
  }

  ghost predicate AnswersSound(cfg: Settings, log: B.Log) {
    forall k :: 0 <= k < |log| ==>
      && (log[k].start.answer.Some? ==> StartAnswered(cfg, log, k))
      && (log[k].standUp.answer.Some? ==> StandUpAnswered(log, k))
  }

  ghost predicate Own(cfg: Settings, s: State) {
    FlagSound(cfg, s) && ChecksSound(cfg, s) && AnswersSound(cfg, s.hist.log)
  }

  ghost predicate Inv(cfg: Settings, s: State) {
    cfg.source.StateEstimator? && B.Inv(cfg, s) && Own(cfg, s)
  }

  // ---- dwells ----

  predicate Alike(r: Record, q: Record) {
    r.activation == q.activation && r.input == q.input && r.rest == q.rest && r.before == q.before
  }

  /** A dwell only looks at the activation, the readings and the phase of its ticks. */
  lemma AlikeKeeps(cfg: Settings, a: B.Log, b: B.Log, n: nat, activation: nat)
    requires AtRestBy(cfg, a, n, activation)
    requires n <= |b| && forall k :: 0 <= k < n ==> Alike(a[k], b[k])
    ensures AtRestBy(cfg, b, n, activation)
  {
    var j: nat :| B.DweltSince(cfg, a, j, n - 1);
    var a', b' := a[..n], b[..n];
    assert Alike(a[j], b[j]) && Alike(a[n - 1], b[n - 1]);
    assert B.RestfulFrom(b', j, activation) by {
      forall m | j <= m < n
        ensures B.Restful(b'[m], activation)
      {
        assert B.Restful(a'[m], activation) && Alike(a[m], b[m]);
      }
    }
    assert B.DweltSince(cfg, b, j, n - 1);
  }

  /** A tick in Settle that reads no joints prolongs a dwell. */
  lemma UnprocessedProlongs(cfg: Settings, log: B.Log, r: Record, activation: nat)
    requires AtRestBy(cfg, log, |log|, activation)
    requires B.Restful(r, activation) && !r.input.joints
    requires log[|log| - 1].input.time <= r.input.time
    ensures AtRestBy(cfg, log + [r], |log| + 1, activation)
  {
    var n, log' := |log|, log + [r];
    var j: nat :| B.DweltSince(cfg, log, j, n - 1);
    assert log[..n] == log && log'[..n + 1] == log';
    B.Unprocessed(log, r, activation);
    assert log'[j] == log[j] && B.DweltSince(cfg, log', j, n);
  }

  // ---- preservation ----

  /** The verdict a tick publishes is that of its dwell. */
  lemma VerdictIsDwell(cfg: Settings, s: State)
    requires B.TimerSound(s.ctl.state.stage, s.hist.log, s.hist.activation) && B.Chained(s.hist.log)
    requires |s.hist.log| > 0 ==> s.hist.log[|s.hist.log| - 1].input.time <= s.ctl.tick.input.time
    requires Judges(cfg, s.ctl) && M.Settled(cfg, s.ctl.state.stage, s.ctl.tick.input).atRest
    ensures AtRestBy(cfg, s.hist.log + [Awaited(cfg, s)], |s.hist.log| + 1, s.hist.activation)
  {
    B.RestfulTick(cfg, s.hist.log, Awaited(cfg, s), s.ctl.state.stage.settledSince);
  }

  /** Checks outlast whatever is recorded behind them. */
  lemma ChecksOutlast(cfg: Settings, a: B.Log, b: B.Log, activation: nat, check: Check)
    requires RestCheckSound(cfg, a, activation, check)
    requires |a| <= |b| && forall k :: 0 <= k < |a| ==> Alike(a[k], b[k])
    ensures RestCheckSound(cfg, b, activation, check)
  {
    AlikeKeeps(cfg, a, b, check.verdicts, check.activation);
  }

  lemma RestChecksOutlast(cfg: Settings, s: State, t: State)
    requires ChecksSound(cfg, s)
    requires t.svc.start == s.svc.start && t.hist.start == s.hist.start && s.hist.activation <= t.hist.activation
    requires |Published(cfg, s)| <= |Published(cfg, t)|
    requires forall k :: 0 <= k < |Published(cfg, s)| ==> Alike(Published(cfg, s)[k], Published(cfg, t)[k])
    ensures StartChecks(cfg, Published(cfg, t), t.hist.activation, t.svc.start, t.hist.start)
  {
    var a, b := Published(cfg, s), Published(cfg, t);
    if s.svc.start.Cleared? {
      ChecksOutlast(cfg, a, b, s.hist.activation, s.svc.start.check);
    }
    if s.hist.start.answer.Some? {
      ChecksOutlast(cfg, a, b, s.hist.activation, s.hist.start.answer.value);
    }
  }

  lemma RestingFlag(cfg: Settings, s: State)
    requires Inv(cfg, s) && s.ctl.pc.Validated?
    ensures FlagSound(cfg, Resting(cfg, s).(step := s.step + 1))
  {
    var t := Resting(cfg, s).(step := s.step + 1);
    if Judges(cfg, s.ctl) {
      assert Published(cfg, t) == s.hist.log + [Awaited(cfg, s)];
      if M.Settled(cfg, s.ctl.state.stage, s.ctl.tick.input).atRest {
        VerdictIsDwell(cfg, s);
      }
    } else {
      assert Published(cfg, t) == Published(cfg, s);
    }
  }

  lemma RestingKeeps(cfg: Settings, s: State)
    requires Own(cfg, s) && s.ctl.pc.Validated?
    requires FlagSound(cfg, Resting(cfg, s).(step := s.step + 1))
    ensures Own(cfg, Resting(cfg, s).(step := s.step + 1))
  {
    RestChecksOutlast(cfg, s, Resting(cfg, s).(step := s.step + 1));
  }

  /** A call of the bring-up leaves the flag up only in Settle: where it was, or where its verdict is. */
  lemma FlagOutcome(cfg: Settings, c: M.Control, input: TickInput, o: Observation)
    requires c.stage.atRest ==> c.stage.phase == Settle
    requires M.BringUp(cfg, c, input, o).stage.atRest
    ensures c.stage.phase == Settle && M.BringUp(cfg, c, input, o).stage.phase == Settle
    ensures if input.joints
            then !M.Tilted(cfg, Settle, input) && M.Settled(cfg, c.stage, input).atRest
            else c.stage.atRest
  {
    if input.joints {
      var d := c.(stage := M.Guarded(cfg, c.stage, input));
      match d.stage.phase {
        case Settle =>
        case Passive =>
        case StandUp =>
        case Converge =>
        case StartingMpc =>
        case Blend =>
        case Locomotion =>
        case Fault =>
      }
    }
  }

  lemma FlagSurvives(cfg: Settings, s: State)
    requires Inv(cfg, s) && s.ctl.pc.Rested? && Decide(cfg, s).stage.atRest
    ensures var r := Decide(cfg, s);
            && r.stage.phase == Settle
            && AtRestBy(cfg, s.hist.log + [RecordOf(cfg, s, r)], |s.hist.log| + 1, s.hist.activation)
  {
    var r, log, input := Decide(cfg, s), s.hist.log, s.ctl.tick.input;
    FlagOutcome(cfg, s.ctl.state, input, s.ctl.tick.observation);
    if input.joints {
      VerdictIsRecorded(cfg, s);
    } else {
      UnprocessedProlongs(cfg, log, RecordOf(cfg, s, r), s.hist.activation);
    }
  }

  /** What the published verdict says holds of the record. */
  lemma VerdictIsRecorded(cfg: Settings, s: State)
    requires FlagSound(cfg, s) && s.ctl.pc.Rested? && Judges(cfg, s.ctl)
    requires M.Settled(cfg, s.ctl.state.stage, s.ctl.tick.input).atRest
    ensures AtRestBy(cfg, s.hist.log + [RecordOf(cfg, s, Decide(cfg, s))], |s.hist.log| + 1, s.hist.activation)
  {
    AlikeKeeps(cfg, Published(cfg, s), s.hist.log + [RecordOf(cfg, s, Decide(cfg, s))], |s.hist.log| + 1,
               s.hist.activation);
  }

  lemma AnswersExtend(cfg: Settings, log: B.Log, r: Record)
    requires AnswersSound(cfg, log)
    requires r.start.answer.Some? ==> AtRestBy(cfg, log + [r], r.start.answer.value, r.activation)
    requires r.standUp.answer.Some? ==> StandUpAnswered(log + [r], |log|)
    ensures AnswersSound(cfg, log + [r])
  {
    var log' := log + [r];
    assert log'[..|log| + 1] == log';
    forall k | 0 <= k < |log|
      ensures log'[k] == log[k] && log'[..k + 1] == log[..k + 1]
    {
    }
  }

  /** The answers a tick records are those of the checks remembered. */
  lemma StartRecorded(cfg: Settings, s: State)
    requires Own(cfg, s) && s.ctl.pc.Rested?
    ensures var r := RecordOf(cfg, s, Decide(cfg, s));
            r.start.answer.Some? ==> AtRestBy(cfg, s.hist.log + [r], r.start.answer.value, r.activation)
  {
    var r := RecordOf(cfg, s, Decide(cfg, s));
    if r.start.answer.Some? {
      AlikeKeeps(cfg, Published(cfg, s), s.hist.log + [r], r.start.answer.value, r.activation);
    }
  }

  lemma StandUpRecorded(cfg: Settings, s: State)
    requires Own(cfg, s) && s.ctl.pc.Rested?
    requires B.Chained(s.hist.log)
    requires |s.hist.log| > 0 ==> s.hist.log[|s.hist.log| - 1].activation <= s.hist.activation
    ensures var r := RecordOf(cfg, s, Decide(cfg, s));
            r.standUp.answer.Some? ==> StandUpAnswered(s.hist.log + [r], |s.hist.log|)
  {
    var r, log := RecordOf(cfg, s, Decide(cfg, s)), s.hist.log;
    if r.standUp.answer.Some? && r.standUp.answer.value < |log| {
      B.Monotone(log, r.standUp.answer.value, |log| - 1);
    }
  }

  /** A check in Passive stays one when the next tick is recorded. */
  lemma PassiveOutlasts(log: B.Log, r: Record, phase: Phase, check: Check)
    requires PassiveCheckSound(log, r.activation, r.before, check)
    ensures PassiveCheckSound(log + [r], r.activation, phase, check)
  {
  }

  lemma CommandingKeeps(cfg: Settings, s: State)
    requires Inv(cfg, s) && s.ctl.pc.Rested?
    ensures Own(cfg, Commanding(cfg, s, Decide(cfg, s)).(step := s.step + 1))
  {
    var r := Decide(cfg, s);
    var rec := RecordOf(cfg, s, r);
    var t := Commanding(cfg, s, r).(step := s.step + 1);
    if r.stage.atRest {
      FlagSurvives(cfg, s);
    }
    StartRecorded(cfg, s);
    StandUpRecorded(cfg, s);
    AnswersExtend(cfg, s.hist.log, rec);
    RestChecksOutlast(cfg, s, t);
    if s.svc.standUp.Cleared? {
      PassiveOutlasts(s.hist.log, rec, r.stage.phase, s.svc.standUp.check);
    }
    if s.hist.standUp.answer.Some? {
      PassiveOutlasts(s.hist.log, rec, r.stage.phase, s.hist.standUp.answer.value);
    }
  }

  /** A service call changes nothing but the flags, and what is known of its checks. */
  lemma CallKeeps(cfg: Settings, s: State, t: State)
    requires Own(cfg, s)
    requires t.ctl == s.ctl.(state := s.ctl.state.(calls := t.ctl.state.calls))
    requires t.hist == s.hist.(standUp := t.hist.standUp, start := t.hist.start)
    requires ChecksSound(cfg, t)
    ensures Own(cfg, t)
  {
    assert Published(cfg, t) == Published(cfg, s);
  }

  lemma StandUpKeeps(cfg: Settings, s: State)
    requires Own(cfg, s)
    ensures Own(cfg, StandUpStep(cfg, s).(step := s.step + 1))
  {
    var t := StandUpStep(cfg, s).(step := s.step + 1);
    assert Published(cfg, t) == Published(cfg, s);
    match s.svc.standUp { case Cleared(_) => case _ => }
    CallKeeps(cfg, s, t);
  }

  /** Storing the flag hands the call's check on to it. */
  lemma StoreKeeps(cfg: Settings, log: B.Log, activation: nat, pc: ServicePc, stores: Stores)
    requires StartChecks(cfg, log, activation, pc, stores) && pc.Cleared?
    ensures StartChecks(cfg, log, activation, NoCall, stores.Stored(pc.check, activation))
  {
  }

  lemma StartChecksKeep(cfg: Settings, s: State)
    requires FlagSound(cfg, s) && ChecksSound(cfg, s)
    ensures var t := StartStep(cfg, s);
            StartChecks(cfg, Published(cfg, s), s.hist.activation, t.svc.start, t.hist.start)
  {
    match s.svc.start {
      case NoCall =>
      case SawPhase =>
      case Cleared(_) => StoreKeeps(cfg, Published(cfg, s), s.hist.activation, s.svc.start, s.hist.start);
    }
  }

  lemma StartKeeps(cfg: Settings, s: State)
    requires Own(cfg, s)
    ensures Own(cfg, StartStep(cfg, s).(step := s.step + 1))
  {
    var t := StartStep(cfg, s).(step := s.step + 1);
    StartChecksKeep(cfg, s);
    assert Published(cfg, t) == Published(cfg, s);
    CallKeeps(cfg, s, t);
  }

  lemma ActivatingKeeps(cfg: Settings, s: State, a: ActivationInput)
    requires Inv(cfg, s) && s.ctl.pc.Stopping?
    ensures Own(cfg, Activating(cfg, s, a).(step := s.step + 1))
  {
    if a.succeeds {}
  }

  /** Steps that leave the stage, the records and the services alone. */
  lemma QuietKeeps(cfg: Settings, s: State, t: State)
    requires Own(cfg, s)
    requires t.ctl.state.stage == s.ctl.state.stage && t.svc == s.svc
    requires t.hist == s.hist.(finished := t.hist.finished, taken := t.hist.taken)
    requires (!t.ctl.pc.Rested? && !s.ctl.pc.Rested?) || t.ctl == s.ctl
    ensures Own(cfg, t)
  {
    assert Published(cfg, t) == Published(cfg, s);
  }

  lemma ValidatingKeeps(cfg: Settings, s: State)
    requires Own(cfg, s) && s.ctl.pc.Swapped?
    ensures Own(cfg, Validating(cfg, s).(step := s.step + 1))
  {
    assert Published(cfg, Validating(cfg, s)) == Published(cfg, s);
  }

  lemma WorkerKeeps(cfg: Settings, s: State, solver: Solver)
    requires Own(cfg, s)
    ensures Own(cfg, WorkerThreadStep(s, solver).(step := s.step + 1))
  {
    match s.worker { case Constructing => case Advancing => case ResetCheck => case _ => }
    QuietKeeps(cfg, s, WorkerThreadStep(s, solver).(step := s.step + 1));
  }

  lemma ControlKeeps(cfg: Settings, s: State)
    requires Inv(cfg, s) && Enabled(cfg, s, ControlStep)
    ensures Own(cfg, ControlThreadStep(cfg, s).(step := s.step + 1))
  {
    match s.ctl.pc {
      case Validated =>
        RestingFlag(cfg, s);
        RestingKeeps(cfg, s);
      case Rested => CommandingKeeps(cfg, s);
      case Swapped => ValidatingKeeps(cfg, s);
      case Supplied => if Swaps(s) {} QuietKeeps(cfg, s, Swapping(s).(step := s.step + 1));
      case Loaded => if Supplies(s.ctl) {} QuietKeeps(cfg, s, Feeding(s).(step := s.step + 1));
      case Fed => QuietKeeps(cfg, s, ControlThreadStep(cfg, s).(step := s.step + 1));
      case Seeded => QuietKeeps(cfg, s, ControlThreadStep(cfg, s).(step := s.step + 1));
      case Commanded => QuietKeeps(cfg, s, ControlThreadStep(cfg, s).(step := s.step + 1));
    }
  }

  predicate Quiet(e: Event) {
    e.BeginTick? || e.BeginStop? || e.EstimatorUpdate? || e.EstimatorActivate? || e.EstimatorDeactivate? || e.Shutdown?
  }

  lemma QuietEventKeeps(cfg: Settings, s: State, e: Event)
    requires Own(cfg, s) && Enabled(cfg, s, e) && Quiet(e)
    ensures Own(cfg, Next(cfg, s, e))
  {
    QuietKeeps(cfg, s, Next(cfg, s, e));
  }

  lemma StopKeeps(cfg: Settings, s: State, a: ActivationInput)
    requires Inv(cfg, s) && s.ctl.pc.Stopping?
    ensures Own(cfg, Next(cfg, s, FinishStop(a)))
  {
    if s.ctl.pc.activate {
      ActivatingKeeps(cfg, s, a);
    } else {
      QuietKeeps(cfg, s, Next(cfg, s, FinishStop(a)));
    }
  }

  lemma NextKeeps(cfg: Settings, s: State, e: Event)
    requires Inv(cfg, s) && Enabled(cfg, s, e)
    ensures Inv(cfg, Next(cfg, s, e))
  {
    B.NextKeeps(cfg, s, e);
    OwnKeeps(cfg, s, e);
  }

  lemma OwnKeeps(cfg: Settings, s: State, e: Event)
    requires Inv(cfg, s) && Enabled(cfg, s, e)
    ensures Own(cfg, Next(cfg, s, e))
  {
    match e {
      case FinishStop(a) => StopKeeps(cfg, s, a);
      case StandUpService => ServiceKeeps(cfg, s, e);
      case StartService => ServiceKeeps(cfg, s, e);
      case _ => if Quiet(e) { QuietEventKeeps(cfg, s, e); } else { ThreadKeeps(cfg, s, e); }
    }
  }

  lemma ThreadKeeps(cfg: Settings, s: State, e: Event)
    requires Inv(cfg, s) && Enabled(cfg, s, e) && (e.ControlStep? || e.WorkerStep?)
    ensures Own(cfg, Next(cfg, s, e))
  {
    if e.ControlStep? {
      ControlKeeps(cfg, s);
    } else {
      WorkerKeeps(cfg, s, e.solver);
    }
  }

  lemma ServiceKeeps(cfg: Settings, s: State, e: Event)
    requires Inv(cfg, s) && (e.StandUpService? || e.StartService?)
    ensures Own(cfg, Next(cfg, s, e))
  {
    if e.StandUpService? {
      StandUpKeeps(cfg, s);
    } else {
      StartKeeps(cfg, s);
    }
  }

  lemma {:induction false} InvHolds(cfg: Settings, s: State, events: seq<Event>)
    requires Inv(cfg, s) && Possible(cfg, s, events)
    ensures Inv(cfg, Run(cfg, s, events))
    decreases |events|
  {
    if events != [] {
      NextKeeps(cfg, s, events[0]);
      InvHolds(cfg, Next(cfg, s, events[0]), events[1..]);
    }
  }

  lemma ReachableInv(cfg: Settings, s: State)
    requires cfg.source.StateEstimator? && Reachable(cfg, s)
    ensures Inv(cfg, s)
  {
    var events :| Possible(cfg, START, events) && s == Run(cfg, START, events);
    InvHolds(cfg, START, events);
  }

  // ---- calls ----

  /** A start call that nothing interrupts. */
  function WholeStart(cfg: Settings, s: State): State {
    var a := StartStep(cfg, s);
    if a.svc.start.NoCall? then a
    else
      var b := StartStep(cfg, a);
      if b.svc.start.NoCall? then b else StartStep(cfg, b)
  }

  function WholeStandUp(cfg: Settings, s: State): State {
    var a := StandUpStep(cfg, s);
    if a.svc.standUp.NoCall? then a else StandUpStep(cfg, a)
  }

  /**
   A call that nothing interrupts raises its flag exactly if it may: a stand-up in Passive, a start
   in Settle with the trunk at rest. It changes nothing else, and ends.
   */
  lemma CallsAreGrantedExactlyWhenDue(cfg: Settings, s: State)
    requires s.svc.start.NoCall? && s.svc.standUp.NoCall?
    ensures var t, g := WholeStart(cfg, s), s.ctl.state.stage;
            && (t.ctl.state.calls.start <==> s.ctl.state.calls.start || (g.phase == Settle && g.atRest))
            && t.ctl == s.ctl.(state := s.ctl.state.(calls := s.ctl.state.calls.(start := t.ctl.state.calls.start)))
            && t.mem == s.mem && t.est == s.est && t.svc == s.svc && t.worker == s.worker
    ensures var t, g := WholeStandUp(cfg, s), s.ctl.state.stage;
            && (t.ctl.state.calls.standUp <==> s.ctl.state.calls.standUp || g.phase == Passive)
            && t.ctl == s.ctl.(state := s.ctl.state.(calls := s.ctl.state.calls.(standUp := t.ctl.state.calls.standUp)))
            && t.mem == s.mem && t.est == s.est && t.svc == s.svc && t.worker == s.worker
  {
  }

  // ---- what it means ----

  /** Whenever a service can load the flag as up, the phase is Settle and the last published verdict is a dwell. */
  lemma AtRestMeansDwelt(cfg: Settings, s: State)
    requires cfg.source.StateEstimator? && Reachable(cfg, s) && s.ctl.state.stage.atRest
    ensures s.ctl.state.stage.phase == Settle
    ensures AtRestBy(cfg, Published(cfg, s), |Published(cfg, s)|, s.hist.activation)
  {
    ReachableInv(cfg, s);
  }

  /**
   Whatever the interleaving, a start flag with an answer was checked in this activation's Settle,
   right after a tick by which the trunk had dwelt at rest, and a stand-up flag with an answer
   was checked in this activation's Passive.
   */
  lemma AnswersWereChecked(cfg: Settings, s: State, k: nat)
    requires cfg.source.StateEstimator? && Reachable(cfg, s) && k < |s.hist.log|
    ensures s.hist.log[k].start.answer.Some? ==> StartAnswered(cfg, s.hist.log, k)
    ensures s.hist.log[k].standUp.answer.Some? ==> StandUpAnswered(s.hist.log, k)
  {
    ReachableInv(cfg, s);
  }
}
