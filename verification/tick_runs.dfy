/** Runs of bring-up ticks that read the joints and the trunk, and neither estimate nor plan. */
module TickRuns {
  import opened Basics
  import opened BringUpTypes
  import opened SolverProtocol
  import M = BringUpMachine

  /** Rates that count as at rest, if any do. */
  ghost function CalmRates(cfg: Settings): (r: Rates)
    requires M.CanRest(cfg)
    ensures M.Calm(cfg, r)
  {
    var r :| M.Calm(cfg, r);
    r
  }

  /** Joints, an upright trunk at rest, no exports and no observation. */
  ghost function Unread(cfg: Settings, t: real): TickInput {
    var rates := if M.CanRest(cfg) then Some(CalmRates(cfg)) else None;
    TickInput(t, false, false, false, false, true, None, rates, true, true)
  }

  /** The settle filter has seen nothing but a trunk at rest. */
  ghost predicate Still(cfg: Settings, g: M.Stage) {
    g.phase == Settle && g.filter.Some? ==> M.CanRest(cfg) && g.filter.value == CalmRates(cfg)
  }

  /** Just activated. */
  predicate InPassive(g: M.Stage) {
    g == M.PASSIVE_STAGE.(filter := g.filter)
  }

  /** Between ticks, before the estimator is asked for, with no plan. */
  ghost predicate Waiting(cfg: Settings, s: State) {
    && cfg.source.StateEstimator? && Still(cfg, s.ctl.state.stage)
    && s.ctl.pc.Idle? && !s.mem.mpcReady && !s.ctl.state.plans.hasActive
    && (s.ctl.state.stage.phase == Passive || s.ctl.state.stage.phase == StandUp || s.ctl.state.stage.phase == Settle)
  }

  /** Nothing but the stage, the plan flag and whether there is an observation can differ. */
  predicate SameRest(s: State, t: State) {
    && t.mem == s.mem && t.est.filter == s.est.filter && t.est.active == s.est.active && t.worker == s.worker
    && t.ok == s.ok && t.svc == s.svc
    && t.ctl.state.calls == s.ctl.state.calls && !t.ctl.state.plans.hasActive
    && t.hist.activation == s.hist.activation && t.hist.standUp == s.hist.standUp && t.hist.start == s.hist.start
  }

  lemma ToSupplied(cfg: Settings, a: State, s: State, t: real) returns (r: State)
    requires Leads(cfg, a, s) && Waiting(cfg, s) && s.now <= t
    ensures Leads(cfg, a, r) && r.ctl.pc.Supplied? && r.now == t
    ensures r.ctl.tick.input == Unread(cfg, t) && !r.ctl.tick.solverReady
    ensures SameRest(s, r) && r.hist == s.hist && r.est == s.est
    ensures r.ctl.state.link == s.ctl.state.link && r.ctl.state.stage == s.ctl.state.stage
  {
    var s1 := Next(cfg, s, BeginTick(Unread(cfg, t)));
    LeadsNext(cfg, a, s, BeginTick(Unread(cfg, t)));
    assert !Supplies(s1.ctl);
    r := Next(cfg, s1, ControlStep);
    LeadsNext(cfg, a, s1, ControlStep);
  }

  lemma ToValidated(cfg: Settings, a: State, s: State, t: real) returns (r: State)
    requires Leads(cfg, a, s) && Waiting(cfg, s) && s.now <= t
    ensures Leads(cfg, a, r) && r.ctl.pc.Validated? && r.now == t && r.ctl.tick.input == Unread(cfg, t)
    ensures SameRest(s, r) && r.hist == s.hist && r.est == s.est
    ensures r.ctl.state.link == s.ctl.state.link && r.ctl.state.stage == s.ctl.state.stage
  {
    var s1 := ToSupplied(cfg, a, s, t);
    assert !Swaps(s1);
    var s2 := Next(cfg, s1, ControlStep);
    LeadsNext(cfg, a, s1, ControlStep);
    r := Next(cfg, s2, ControlStep);
    LeadsNext(cfg, a, s2, ControlStep);
  }

  /** The tick up to its verdict on rest. */
  lemma ToVerdict(cfg: Settings, a: State, s: State, t: real) returns (r: State)
    requires Leads(cfg, a, s) && Waiting(cfg, s) && s.now <= t
    ensures Leads(cfg, a, r) && r.ctl.pc.Rested? && r.now == t && r.ctl.tick.input == Unread(cfg, t)
    ensures SameRest(s, r) && r.hist == s.hist && r.est == s.est
    ensures r.ctl.state.link == s.ctl.state.link
    ensures r.ctl.state.stage == s.ctl.state.stage.(atRest := r.ctl.state.stage.atRest)
  {
    var s1 := ToValidated(cfg, a, s, t);
    r := Next(cfg, s1, ControlStep);
    LeadsNext(cfg, a, s1, ControlStep);
  }

  /** The rest of the tick: the command and the references. */
  lemma ToEnd(cfg: Settings, a: State, s: State, r: State) returns (u: State)
    requires cfg.source.StateEstimator? && Leads(cfg, a, r) && r.ctl.pc.Rested? && SameRest(s, r)
    requires r.ctl.state.stage.phase != Converge && r.ctl.state.stage.phase != Blend
    requires r.ctl.state.stage.phase != Locomotion && r.ctl.tick.input == Unread(cfg, r.now)
    ensures Leads(cfg, a, u) && u.ctl.pc.Idle? && u.now == r.now && SameRest(s, u)
    ensures u.ctl.state.stage == Decide(cfg, r).stage && u.ctl.state.link == Decide(cfg, r).link
    ensures u.hist.log == r.hist.log + [RecordOf(cfg, r, Decide(cfg, r))]
    ensures u.est.references == References(true, true, u.ctl.state.link.epoch)
  {
    M.BringUpIsLawful(cfg, r.ctl.state, r.ctl.tick.input, r.ctl.tick.observation);
    var s1 := Next(cfg, r, ControlStep);
    LeadsNext(cfg, a, r, ControlStep);
    u := Next(cfg, s1, ControlStep);
    LeadsNext(cfg, a, s1, ControlStep);
  }

  /** The whole tick: what the bring-up decided is done and recorded. */
  lemma Tick(cfg: Settings, a: State, s: State, t: real) returns (r: State, u: State)
    requires Leads(cfg, a, s) && Waiting(cfg, s) && s.now <= t
    ensures Leads(cfg, a, r) && r.ctl.pc.Rested? && r.ctl.tick.input == Unread(cfg, t)
    ensures SameRest(s, r) && r.hist == s.hist && r.est == s.est && r.ctl.state.link == s.ctl.state.link
    ensures r.ctl.state.stage == s.ctl.state.stage.(atRest := r.ctl.state.stage.atRest)
    ensures Leads(cfg, a, u) && u.ctl.pc.Idle? && u.now == t && SameRest(s, u)
    ensures u.ctl.state.stage == Decide(cfg, r).stage && u.ctl.state.link == Decide(cfg, r).link
    ensures u.hist.log == s.hist.log + [RecordOf(cfg, r, Decide(cfg, r))]
    ensures u.est.references == References(true, true, u.ctl.state.link.epoch)
  {
    r := ToVerdict(cfg, a, s, t);
    u := ToEnd(cfg, a, s, r);
  }

  /** A Passive tick that was asked to stand up. */
  lemma PassiveTick(cfg: Settings, a: State, s: State, t: real) returns (r: State, u: State)
    requires Leads(cfg, a, s) && Waiting(cfg, s) && s.now <= t
    requires s.ctl.state.stage.phase == Passive && (cfg.autoStart || s.ctl.state.calls.standUp)
    ensures Leads(cfg, a, u) && Waiting(cfg, u) && u.now == t && SameRest(s, u)
    ensures u.ctl.state.stage == M.Entered(StandUp, t) && u.ctl.state.link == s.ctl.state.link
    ensures r.hist == s.hist && u.hist.log == s.hist.log + [RecordOf(cfg, r, Decide(cfg, r))]
    ensures r.ctl.state.stage.phase == Passive && Decide(cfg, r).stage.phase == StandUp
  {
    r, u := Tick(cfg, a, s, t);
  }

  /** A StandUp tick at the end of the ramp. */
  lemma StandUpTick(cfg: Settings, a: State, s: State, t: real) returns (u: State)
    requires Leads(cfg, a, s) && Waiting(cfg, s) && s.now <= t
    requires s.ctl.state.stage.phase == StandUp && 0.0 <= s.ctl.state.stage.start
    requires t == s.ctl.state.stage.start + if cfg.standUpSeconds > 0.0 then cfg.standUpSeconds else 0.0
    ensures Leads(cfg, a, u) && Waiting(cfg, u) && u.now == t && SameRest(s, u)
    ensures u.ctl.state.stage == M.Entered(Settle, t) && u.ctl.state.link == s.ctl.state.link
  {
    var r;
    r, u := Tick(cfg, a, s, t);
    assert Progress(t - s.ctl.state.stage.start, cfg.standUpSeconds) == 1.0;
  }

  /** One call of the bring-up in Settle, with the trunk still. */
  lemma StillSettles(cfg: Settings, c: M.Control, t: real, o: Observation)
    requires M.CanRest(cfg) && c.stage.phase == Settle && Still(cfg, c.stage) && 0.0 <= t
    ensures var since := M.RestSince(c.stage.settledSince, t);
            var r := M.BringUp(cfg, c, Unread(cfg, t), o);
            if t - since >= cfg.settleSeconds && (cfg.autoStart || c.calls.start)
            then r.stage.phase == Converge && r.requested && r.link == M.RequestInitialization(c.link)
            else r.stage.phase == Settle && Still(cfg, r.stage) && r.stage.settledSince == since && !r.requested &&
                 r.link == c.link && r.stage.atRest == (t - since >= cfg.settleSeconds)
  {
    M.SettleOutcome(cfg, c, Unread(cfg, t), o);
  }

  /** The tick's verdict is the dwell of the timer; with a request it ends in Converge. */
  lemma SettleTick(cfg: Settings, a: State, s: State, t: real) returns (r: State, u: State)
    requires M.CanRest(cfg)
    requires Leads(cfg, a, s) && Waiting(cfg, s) && s.now <= t && 0.0 <= t
    requires s.ctl.state.stage.phase == Settle
    ensures Leads(cfg, a, r) && r.ctl.pc.Rested? && SameRest(s, r) && r.hist == s.hist && r.est == s.est
    ensures r.ctl.state.link == s.ctl.state.link && r.ctl.state.stage.phase == Settle
    ensures Leads(cfg, a, u) && u.ctl.pc.Idle? && SameRest(s, u)
    ensures u.hist.log == s.hist.log + [RecordOf(cfg, r, Decide(cfg, r))]
    ensures var since := M.RestSince(s.ctl.state.stage.settledSince, t);
            if t - since >= cfg.settleSeconds && (cfg.autoStart || s.ctl.state.calls.start)
            then Decide(cfg, r).stage.phase == Converge && Decide(cfg, r).requested &&
                 Decide(cfg, r).link == M.RequestInitialization(s.ctl.state.link) &&
                 u.ctl.state.link == Decide(cfg, r).link &&
                 u.est.references == References(true, true, u.ctl.state.link.epoch)
            else Waiting(cfg, u) && u.now == t && u.ctl.state.stage.phase == Settle &&
                 u.ctl.state.stage.settledSince == since && u.ctl.state.link == s.ctl.state.link &&
                 u.ctl.state.stage.atRest == (t - since >= cfg.settleSeconds)
  {
    r, u := Tick(cfg, a, s, t);
    StillSettles(cfg, r.ctl.state, t, r.ctl.tick.observation);
  }

  /** From Passive to the request, for any settings; the record of the last tick enters Converge. */
  lemma ToRequest(cfg: Settings, a: State, s: State) returns (r: State, u: State)
    requires M.CanRest(cfg)
    requires Leads(cfg, a, s) && Waiting(cfg, s) && InPassive(s.ctl.state.stage)
    requires cfg.autoStart || (s.ctl.state.calls.standUp && s.ctl.state.calls.start)
    ensures Leads(cfg, a, r) && r.ctl.pc.Rested? && SameRest(s, r) && r.est.filter == s.est.filter
    ensures r.ctl.state.link == s.ctl.state.link && r.ctl.state.stage.phase == Settle
    ensures Decide(cfg, r).requested && Decide(cfg, r).stage.phase == Converge
    ensures Decide(cfg, r).link == M.RequestInitialization(s.ctl.state.link)
    ensures Leads(cfg, a, u) && u.ctl.pc.Idle? && SameRest(s, u) && u.ctl.state.link == Decide(cfg, r).link
    ensures u.est.references == References(true, true, u.ctl.state.link.epoch)
    ensures u.hist.log == r.hist.log + [RecordOf(cfg, r, Decide(cfg, r))]
  {
    var t := if s.now < 0.0 then 0.0 else s.now;
    var _, s1 := PassiveTick(cfg, a, s, t);
    var t' := t + if cfg.standUpSeconds > 0.0 then cfg.standUpSeconds else 0.0;
    var s2 := StandUpTick(cfg, a, s1, t');
    r, u := SettleTick(cfg, a, s2, t');
    if 0.0 < cfg.settleSeconds {
      r, u := SettleTick(cfg, a, u, t' + cfg.settleSeconds);
    }
  }

  /** From Passive to a trunk found at rest in Settle, with no start request. */
  lemma ToAtRest(cfg: Settings, a: State, s: State) returns (u: State)
    requires M.CanRest(cfg)
    requires Leads(cfg, a, s) && Waiting(cfg, s) && InPassive(s.ctl.state.stage)
    requires !cfg.autoStart && s.ctl.state.calls.standUp && !s.ctl.state.calls.start
    ensures Leads(cfg, a, u) && Waiting(cfg, u) && SameRest(s, u) && u.ctl.state.link == s.ctl.state.link
    ensures u.ctl.state.stage.phase == Settle && u.ctl.state.stage.atRest && 0.0 <= u.now
    ensures 0.0 <= u.ctl.state.stage.settledSince && u.now - u.ctl.state.stage.settledSince >= cfg.settleSeconds
  {
    var t := if s.now < 0.0 then 0.0 else s.now;
    var r, s1 := PassiveTick(cfg, a, s, t);
    var t' := t + if cfg.standUpSeconds > 0.0 then cfg.standUpSeconds else 0.0;
    var s2 := StandUpTick(cfg, a, s1, t');
    r, u := SettleTick(cfg, a, s2, t');
    if 0.0 < cfg.settleSeconds {
      r, u := SettleTick(cfg, a, u, t' + cfg.settleSeconds);
    }
  }

  // ---- calls and activations ----

  /** The rest of a stand-up call, from wherever it is. */
  lemma StandUpCall(cfg: Settings, a: State, s: State) returns (t: State)
    requires Leads(cfg, a, s) && Waiting(cfg, s) && InPassive(s.ctl.state.stage)
    ensures Leads(cfg, a, t) && Waiting(cfg, t) && InPassive(t.ctl.state.stage)
    ensures t.ctl.state.calls == s.ctl.state.calls.(standUp := true)
    ensures t.hist.activation == s.hist.activation && t.hist.start == s.hist.start && t.svc.start == s.svc.start
    ensures t.est == s.est && t.worker == s.worker && t.ctl.state.link == s.ctl.state.link
    ensures s.svc.standUp.Cleared? ==> t.hist.standUp == s.hist.standUp.Stored(s.svc.standUp.check, s.hist.activation)
  {
    t := s;
    if !s.svc.standUp.Cleared? {
      LeadsNext(cfg, a, t, StandUpService);
      t := Next(cfg, t, StandUpService);
    }
    LeadsNext(cfg, a, t, StandUpService);
    t := Next(cfg, t, StandUpService);
  }

  const ACTIVATE := FinishStop(ActivationInput(NO_INPUT, true))

  /** Deactivation of a controller whose worker has nothing to do, up to the join. */
  lemma Stop(cfg: Settings, a: State, s: State) returns (t: State)
    requires cfg.source.StateEstimator?
    requires Leads(cfg, a, s) && BetweenTicks(s) && (s.worker.NoThread? || s.worker.WaitRequest?)
    ensures Leads(cfg, a, t) && Enabled(cfg, t, ACTIVATE) && t.ctl.pc == Stopping(true)
    ensures t.ctl.state == s.ctl.state && t.est == s.est && t.svc == s.svc && t.hist == s.hist && t.now == s.now
  {
    LeadsNext(cfg, a, s, BeginStop(true));
    t := Next(cfg, s, BeginStop(true));
    if s.worker.WaitRequest? {
      LeadsNext(cfg, a, t, WorkerStep(Throws(false)));
      t := Next(cfg, t, WorkerStep(Throws(false)));
      LeadsNext(cfg, a, t, WorkerStep(Throws(false)));
      t := Next(cfg, t, WorkerStep(Throws(false)));
    }
  }

  /** Deactivation, if need be, and activation. */
  lemma Activation(cfg: Settings, a: State, s: State) returns (t: State)
    requires cfg.source.StateEstimator?
    requires Leads(cfg, a, s) && BetweenTicks(s) && (s.worker.NoThread? || s.worker.WaitRequest?)
    ensures Leads(cfg, a, t) && Waiting(cfg, t) && t.worker.WaitRequest? && t.svc == s.svc && t.est == s.est
    ensures InPassive(t.ctl.state.stage) && t.ctl.state.calls == M.Calls(false, false)
    ensures t.ctl.state.link == s.ctl.state.link.(estimate := NO_ESTIMATE, drives := false) && t.now == s.now
  {
    var s1 := Stop(cfg, a, s);
    LeadsNext(cfg, a, s1, ACTIVATE);
    t := Next(cfg, s1, ACTIVATE);
  }

  /** A start call, from the first load to the store. */
  lemma StartCall(cfg: Settings, a: State, s: State) returns (t: State)
    requires Leads(cfg, a, s) && Waiting(cfg, s) && s.svc.start.NoCall?
    requires s.ctl.state.stage.phase == Settle && s.ctl.state.stage.atRest
    ensures Leads(cfg, a, t) && Waiting(cfg, t) && t.svc.start.NoCall?
    ensures t.ctl.state == s.ctl.state.(calls := s.ctl.state.calls.(start := true))
    ensures t.est == s.est && t.worker == s.worker && t.now == s.now
  {
    LeadsNext(cfg, a, s, StartService);
    var s1 := Next(cfg, s, StartService);
    LeadsNext(cfg, a, s1, StartService);
    var s2 := Next(cfg, s1, StartService);
    LeadsNext(cfg, a, s2, StartService);
    t := Next(cfg, s2, StartService);
  }

  /** A whole bring-up up to its request, with whatever calls the settings ask for. */
  lemma BringUpToRequest(cfg: Settings, a: State, s: State) returns (r: State, u: State)
    requires M.CanRest(cfg)
    requires Leads(cfg, a, s) && Waiting(cfg, s) && InPassive(s.ctl.state.stage)
    requires s.svc.start.NoCall? && !s.ctl.state.calls.start
    ensures Leads(cfg, a, r) && r.ctl.pc.Rested? && r.est.filter == s.est.filter
    ensures Decide(cfg, r).requested && Decide(cfg, r).link == M.RequestInitialization(s.ctl.state.link)
    ensures Leads(cfg, a, u) && u.ctl.pc.Idle? && u.svc.start.NoCall?
    ensures u.worker == s.worker && u.est.filter == s.est.filter && u.est.active == s.est.active
    ensures u.ctl.state.link == Decide(cfg, r).link
    ensures u.est.references == References(true, true, u.ctl.state.link.epoch)
  {
    if cfg.autoStart {
      r, u := ToRequest(cfg, a, s);
    } else {
      var s1 := StandUpCall(cfg, a, s);
      var s2 := ToAtRest(cfg, a, s1);
      var s3 := StartCall(cfg, a, s2);
      r, u := SettleTick(cfg, a, s3, s3.now);
    }
  }
}
