/**
 A request made before an activation can act after it. A service call that has passed its
 checks and not yet stored its flag is not stopped by the activation clearing the flag; this
 is the only way a bring-up without auto-start gets past a request it was not given.
 */
module LateRequests {
  import opened Basics
  import opened BringUpTypes
  import opened SolverProtocol
  import M = BringUpMachine
  import B = BringUpHistory
  import R = ServiceRequests
  import T = TickRuns

  /** The step activates the controller. */
  predicate Activates(s: State, e: Event) {
    s.ctl.pc.Stopping? && s.ctl.pc.activate && e.FinishStop? && e.activation.succeeds
  }

  /** The tick left Settle, or Passive, on request. */
  predicate Starts(r: Record, activation: nat) {
    r.activation == activation && r.before == Settle && r.after == Converge
  }

  predicate StandsUp(r: Record, activation: nat) {
    r.activation == activation && r.before == Passive && r.after == StandUp
  }

  predicate StartsAnswered(log: B.Log, activation: nat) {
    forall k :: 0 <= k < |log| && Starts(log[k], activation) ==> log[k].start.answer.Some?
  }

  predicate StandUpsAnswered(log: B.Log, activation: nat) {
    forall k :: 0 <= k < |log| && StandsUp(log[k], activation) ==> log[k].standUp.answer.Some?
  }

  /** However the run goes on, the activation of `s` starts only on a call that was checked in it. */
  ghost predicate OnlyAnsweredStarts(cfg: Settings, s: State) {
    forall t :: Leads(cfg, s, t) ==> StartsAnswered(t.hist.log, s.hist.activation)
  }

  ghost predicate OnlyAnsweredStandUps(cfg: Settings, s: State) {
    forall t :: Leads(cfg, s, t) ==> StandUpsAnswered(t.hist.log, s.hist.activation)
  }

  // ---- with no call in flight ----

  /** From activation `a` on: a store to the flag in `a` is of a call checked in it, and no call is older. */
  predicate Anchored(pc: ServicePc, stores: Stores, activation: nat, a: nat) {
    && a <= activation
    && (stores.last == Some(a) ==> stores.Seen(a).answer.Some?)
    && (pc.Cleared? ==> a <= pc.check.activation)
  }

  predicate StartsAnchored(s: State, a: nat) {
    Anchored(s.svc.start, s.hist.start, s.hist.activation, a) && StartsAnswered(s.hist.log, a)
  }

  predicate StandUpsAnchored(s: State, a: nat) {
    Anchored(s.svc.standUp, s.hist.standUp, s.hist.activation, a) && StandUpsAnswered(s.hist.log, a)
  }

  /** Nothing was recorded, and no flag stored, in an activation to come. */
  lemma FutureIsEmpty(cfg: Settings, s: State, a: nat)
    requires B.Own(cfg, s) && s.hist.activation < a
    ensures StartsAnswered(s.hist.log, a) && StandUpsAnswered(s.hist.log, a)
    ensures s.hist.start.last != Some(a) && s.hist.standUp.last != Some(a)
  {
    forall k | 0 <= k < |s.hist.log|
      ensures s.hist.log[k].activation < a
    {
      B.Monotone(s.hist.log, k, |s.hist.log| - 1);
    }
  }

  /** The record a control step appends is consistent with the flags it found. */
  lemma RecordIsCalled(cfg: Settings, s: State)
    requires cfg.source.StateEstimator? && !cfg.autoStart && B.Inv(cfg, s) && s.ctl.pc.Rested?
    ensures var r := RecordOf(cfg, s, Decide(cfg, s));
            && (Starts(r, s.hist.activation) ==> s.hist.start.last == Some(s.hist.activation))
            && (StandsUp(r, s.hist.activation) ==> s.hist.standUp.last == Some(s.hist.activation))
  {
    var r, log := RecordOf(cfg, s, Decide(cfg, s)), s.hist.log;
    B.RecordIsOk(cfg, s);
    B.SettlingKeeps(cfg, s);
    assert (log + [r])[|log|] == r;
  }

  /** What a step can do to the records and to one service's flag and call. */
  lemma StepFrame(cfg: Settings, s: State, e: Event)
    requires Enabled(cfg, s, e)
    ensures var t := Next(cfg, s, e);
            && s.hist.activation <= t.hist.activation
            && (!e.StartService? ==> t.svc.start == s.svc.start && t.hist.start == s.hist.start)
            && (!e.StandUpService? ==> t.svc.standUp == s.svc.standUp && t.hist.standUp == s.hist.standUp)
            && (if e.ControlStep? && s.ctl.pc.Rested?
                then t.hist.log == s.hist.log + [RecordOf(cfg, s, Decide(cfg, s))]
                else t.hist.log == s.hist.log)
  {
    match e {
      case ControlStep =>
        match s.ctl.pc { case Loaded => case Supplied => case _ => }
      case WorkerStep(_) => match s.worker { case Constructing => case Advancing => case ResetCheck => case _ => }
      case StartService => match s.svc.start { case NoCall => case SawPhase => case Cleared(_) => }
      case StandUpService => match s.svc.standUp { case Cleared(_) => case _ => }
      case _ =>
    }
  }

  /** What stays anchored from `s` to `t`. */
  predicate Keeps(s: State, t: State, a: nat) {
    && (StartsAnchored(s, a) ==> StartsAnchored(t, a))
    && (StandUpsAnchored(s, a) ==> StandUpsAnchored(t, a))
  }

  lemma CommandAnchored(cfg: Settings, s: State, a: nat)
    requires cfg.source.StateEstimator? && B.Inv(cfg, s) && !cfg.autoStart && s.ctl.pc.Rested?
    ensures Keeps(s, Next(cfg, s, ControlStep), a)
  {
    StepFrame(cfg, s, ControlStep);
    RecordIsCalled(cfg, s);
  }

  lemma CallAnchored(cfg: Settings, s: State, e: Event, a: nat)
    requires R.ChecksSound(cfg, s) && (e.StartService? || e.StandUpService?)
    ensures Keeps(s, Next(cfg, s, e), a)
  {
    StepFrame(cfg, s, e);
    if e.StartService? {
      match s.svc.start { case NoCall => case SawPhase => case Cleared(_) => }
    } else {
      match s.svc.standUp { case Cleared(_) => case _ => }
    }
  }

  lemma StayAnchored(cfg: Settings, s: State, e: Event, a: nat)
    requires R.Inv(cfg, s) && !cfg.autoStart && Enabled(cfg, s, e)
    ensures Keeps(s, Next(cfg, s, e), a)
  {
    if e.ControlStep? && s.ctl.pc.Rested? {
      CommandAnchored(cfg, s, a);
    } else if e.StartService? || e.StandUpService? {
      CallAnchored(cfg, s, e, a);
    } else {
      StepFrame(cfg, s, e);
    }
  }

  lemma {:induction false} StayAnswered(cfg: Settings, s: State, events: seq<Event>, a: nat)
    requires R.Inv(cfg, s) && !cfg.autoStart && Possible(cfg, s, events)
    ensures StartsAnchored(s, a) ==> StartsAnswered(Run(cfg, s, events).hist.log, a)
    ensures StandUpsAnchored(s, a) ==> StandUpsAnswered(Run(cfg, s, events).hist.log, a)
    decreases |events|
  {
    if events != [] {
      StayAnchored(cfg, s, events[0], a);
      R.NextKeeps(cfg, s, events[0]);
      StayAnswered(cfg, Next(cfg, s, events[0]), events[1..], a);
    }
  }

  // ---- with a call in flight ----

  /** The controller was just activated: it waits in Passive and no flag is up. */
  lemma JustActivated(cfg: Settings, s0: State, e: Event)
    requires cfg.source.StateEstimator? && Reachable(cfg, s0) && Enabled(cfg, s0, e) && Activates(s0, e)
    ensures var s := Next(cfg, s0, e);
            && R.Inv(cfg, s0) && R.Inv(cfg, s) && T.Waiting(cfg, s)
            && s.hist.activation == s0.hist.activation + 1
            && s.svc == s0.svc && s.hist.start == s0.hist.start && s.hist.standUp == s0.hist.standUp
            && s.hist.log == s0.hist.log && T.InPassive(s.ctl.state.stage)
  {
    R.ReachableInv(cfg, s0);
    R.NextKeeps(cfg, s0, e);
  }

  /** No start call passes its checks where even a still trunk does not count as at rest. */
  lemma CallNeedsLimits(cfg: Settings, s: State)
    requires R.Inv(cfg, s) && s.svc.start.Cleared? && !s.ctl.pc.Rested?
    ensures M.CanRest(cfg)
  {
    var log, check := s.hist.log, s.svc.start.check;
    assert R.AtRestBy(cfg, log, check.verdicts, check.activation);
    var j: nat :| B.DweltSince(cfg, log, j, check.verdicts - 1);
    assert B.Restful(log[..check.verdicts][j], check.activation);
  }

  /** A start call in flight stores its flag after the activation cleared it, and the next dwell starts the MPC. */
  lemma LateStart(cfg: Settings, s0: State, e: Event) returns (t: State)
    requires cfg.source.StateEstimator? && !cfg.autoStart && Reachable(cfg, s0)
    requires Enabled(cfg, s0, e) && Activates(s0, e) && s0.svc.start.Cleared?
    ensures Leads(cfg, Next(cfg, s0, e), t)
    ensures !StartsAnswered(t.hist.log, Next(cfg, s0, e).hist.activation)
  {
    JustActivated(cfg, s0, e);
    CallNeedsLimits(cfg, s0);
    t := StoreAndStart(cfg, Next(cfg, s0, e));
  }

  /** Just activated with a start call in flight: it stores, a stand-up call is made, and the ticks go on. */
  lemma StoreAndStart(cfg: Settings, s: State) returns (t: State)
    requires T.Waiting(cfg, s) && T.InPassive(s.ctl.state.stage) && M.CanRest(cfg)
    requires s.svc.start.Cleared? && s.svc.start.check.activation < s.hist.activation
    requires s.hist.start.answer.Some? ==> s.hist.start.answer.value.activation < s.hist.activation
    ensures Leads(cfg, s, t) && !StartsAnswered(t.hist.log, s.hist.activation)
  {
    LeadsToItself(cfg, s);
    LeadsNext(cfg, s, s, StartService);
    var s1 := Next(cfg, s, StartService);
    var s2 := T.StandUpCall(cfg, s, s1);
    var r;
    r, t := T.ToRequest(cfg, s, s2);
    var k := |r.hist.log|;
    assert t.hist.log[k] == RecordOf(cfg, r, Decide(cfg, r));
    assert Starts(t.hist.log[k], s.hist.activation) && t.hist.log[k].start.answer.None?;
  }

  /** The same for a stand-up call: the robot stands up in an activation in which nobody asked it to. */
  lemma LateStandUp(cfg: Settings, s0: State, e: Event) returns (t: State)
    requires cfg.source.StateEstimator? && !cfg.autoStart && Reachable(cfg, s0)
    requires Enabled(cfg, s0, e) && Activates(s0, e) && s0.svc.standUp.Cleared?
    ensures Leads(cfg, Next(cfg, s0, e), t)
    ensures !StandUpsAnswered(t.hist.log, Next(cfg, s0, e).hist.activation)
  {
    JustActivated(cfg, s0, e);
    var s := Next(cfg, s0, e);
    LeadsToItself(cfg, s);
    var s1 := T.StandUpCall(cfg, s, s);
    var r;
    r, t := T.PassiveTick(cfg, s, s1, s1.now);
    var k := |r.hist.log|;
    assert t.hist.log[k] == RecordOf(cfg, r, Decide(cfg, r));
    assert StandsUp(t.hist.log[k], s.hist.activation) && t.hist.log[k].standUp.answer.None?;
  }

  // ---- exactly when ----

  /**
   Without auto-start: however an activation goes on, it leaves Settle only on a start call that
   was checked in it, if and only if no start call had passed its checks and not yet stored its
   flag when the controller was activated.
   */
  lemma StartsAnsweredExactlyWhenNoneInFlight(cfg: Settings, s0: State, e: Event)
    requires cfg.source.StateEstimator? && !cfg.autoStart && Reachable(cfg, s0)
    requires Enabled(cfg, s0, e) && Activates(s0, e)
    ensures OnlyAnsweredStarts(cfg, Next(cfg, s0, e)) <==> !s0.svc.start.Cleared?
  {
    var s := Next(cfg, s0, e);
    JustActivated(cfg, s0, e);
    if s0.svc.start.Cleared? {
      var t := LateStart(cfg, s0, e);
      assert !StartsAnswered(t.hist.log, s.hist.activation);
    } else {
      FutureIsEmpty(cfg, s0, s.hist.activation);
      forall t | Leads(cfg, s, t)
        ensures StartsAnswered(t.hist.log, s.hist.activation)
      {
        var events :| Possible(cfg, s, events) && t == Run(cfg, s, events);
        StayAnswered(cfg, s, events, s.hist.activation);
      }
    }
  }

  /** The same for standing up out of Passive. */
  lemma StandUpsAnsweredExactlyWhenNoneInFlight(cfg: Settings, s0: State, e: Event)
    requires cfg.source.StateEstimator? && !cfg.autoStart && Reachable(cfg, s0)
    requires Enabled(cfg, s0, e) && Activates(s0, e)
    ensures OnlyAnsweredStandUps(cfg, Next(cfg, s0, e)) <==> !s0.svc.standUp.Cleared?
  {
    var s := Next(cfg, s0, e);
    JustActivated(cfg, s0, e);
    if s0.svc.standUp.Cleared? {
      var t := LateStandUp(cfg, s0, e);
      assert !StandUpsAnswered(t.hist.log, s.hist.activation);
    } else {
      FutureIsEmpty(cfg, s0, s.hist.activation);
      forall t | Leads(cfg, s, t)
        ensures StandUpsAnswered(t.hist.log, s.hist.activation)
      {
        var events :| Possible(cfg, s, events) && t == Run(cfg, s, events);
        StayAnswered(cfg, s, events, s.hist.activation);
      }
    }
  }

  // ---- it happens ----

  /**
   Whatever the settings, as long as some readings count as at rest, there is a run to an
   activation with a start call in flight: stand up, dwell, let the call load the phase and the
   flag, then deactivate and activate. The activation goes on to leave Settle with no call made
   in it.
   */
  lemma LateStartHappens(cfg: Settings) returns (s0: State, e: Event, t: State)
    requires cfg.source.StateEstimator? && !cfg.autoStart && M.CanRest(cfg)
    ensures Reachable(cfg, s0) && Enabled(cfg, s0, e) && Activates(s0, e)
    ensures Leads(cfg, Next(cfg, s0, e), t)
    ensures !StartsAnswered(t.hist.log, Next(cfg, s0, e).hist.activation)
  {
    LeadsToItself(cfg, START);
    var s1 := T.Activation(cfg, START, START);
    var s2 := T.StandUpCall(cfg, START, s1);
    var s3 := T.ToAtRest(cfg, START, s2);
    LeadsNext(cfg, START, s3, StartService);
    var s4 := Next(cfg, s3, StartService);
    LeadsNext(cfg, START, s4, StartService);
    var s5 := Next(cfg, s4, StartService);
    s0 := T.Stop(cfg, START, s5);
    e := T.ACTIVATE;
    t := LateStart(cfg, s0, e);
  }
}
