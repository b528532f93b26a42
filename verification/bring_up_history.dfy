/**
 Claims over whole runs, stated on the record of control ticks: the phase graph and the
 latched fault, the guard on excessive tilt, when commands may derive from a plan, the
 dwell at rest before Converge, and how often a warm-start reset is asked for.
 */
module BringUpHistory {
  import opened Basics
  import opened BringUpTypes
  import opened SolverProtocol
  import M = BringUpMachine
  import H = SolverHandOff

  type Log = seq<Record>

  // ---- one record ----

  /**
   The plan has two finite nodes or more around the tick's time plus the offset, and goes on for
   more than two control periods after that; a rate below one counts as one.
   */
  predicate Planned(cfg: Settings, r: Record) {
    && r.plan.Some?
    && |r.plan.value.times| >= 2
    && (var first, last := r.plan.value.times[0], r.plan.value.times[|r.plan.value.times| - 1];
        var t := r.input.time + cfg.policyTimeOffset;
        && first.Finite? && first.seconds <= t
        && last.Finite? && (last.seconds - t) * Rate(cfg) > 2.0)
  }

  function Rate(cfg: Settings): real {
    if cfg.updateRate == 0 then 1.0 else cfg.updateRate as real
  }

  /** The trunk was seen to lean beyond the limit in a phase that minds. */
  predicate Leans(cfg: Settings, p: Phase, input: TickInput) {
    p != Passive && p != Fault && input.tilt.Some? && cfg.tiltLimit < input.tilt.value
  }

  /** The tick was processed and either saw the tilt or walked without a usable plan. */
  predicate Faults(cfg: Settings, r: Record) {
    r.input.joints && (Leans(cfg, r.before, r.input) || (r.before == Locomotion && !r.ready))
  }

  /** A plan command needs a usable plan, and a reset is asked for at the edge or for a fresh plan. */
  predicate PlanOk(cfg: Settings, r: Record) {
    && (r.command.FromMpc() ==> r.ready)
    && (r.ready <==> r.fromHardware && Planned(cfg, r))
    && (r.reset <==> !r.ready && (r.updated || r.previousReady))
  }

  predicate PhaseOk(cfg: Settings, r: Record) {
    && (M.Edge(r.before, r.after) || r.after == Fault)
    && (r.before == Fault ==> r.after == Fault && r.command.Damp?)
    && (r.command.FromMpc() ==> r.before == Blend || r.before == Locomotion)
    && (r.input.joints && Leans(cfg, r.before, r.input) ==> r.command == Damp(MeasuredJoints))
    && (r.after == Fault <==> r.before == Fault || Faults(cfg, r))
  }

  /** Standing up takes the flag or auto-start, and an answered flag is up. */
  predicate CallOk(cfg: Settings, r: Record) {
    && (r.before == Passive && r.input.joints ==> (r.after == StandUp <==> cfg.autoStart || r.standUp.up))
    && (r.after == StandUp ==> r.before == StandUp || (r.before == Passive && r.input.joints))
    && (r.standUp.answer.Some? ==> r.standUp.up)
    && (r.start.answer.Some? ==> r.start.up)
  }

  predicate RecordOk(cfg: Settings, r: Record) {
    PlanOk(cfg, r) && (cfg.source.StateEstimator? ==> PhaseOk(cfg, r) && CallOk(cfg, r))
  }

  // ---- consecutive records ----

  predicate Linked(a: Record, b: Record) {
    && a.activation <= b.activation
    && a.input.time <= b.input.time
    && (a.activation == b.activation ==> b.before == a.after && b.previousReady == a.ready)
    && (a.activation != b.activation ==> b.before == Passive && !b.previousReady)
  }

  predicate Chained(log: Log) {
    forall k :: 0 < k < |log| ==> Linked(log[k - 1], log[k])
  }

  predicate AllOk(cfg: Settings, log: Log) {
    forall k :: 0 <= k < |log| ==> RecordOk(cfg, log[k])
  }

  // ---- dwell ----

  /** The tick was spent in Settle and, if it could read the joints, found the trunk at rest. */
  predicate Restful(r: Record, activation: nat) {
    r.activation == activation && r.before == Settle && (r.input.joints ==> r.rest)
  }

  /** Every tick from `j` on, in one activation, was restful, and `j` itself was processed. */
  predicate RestfulFrom(log: Log, j: nat, activation: nat) {
    && j < |log|
    && log[j].input.joints
    && forall m :: j <= m < |log| ==> Restful(log[m], activation)
  }

  predicate DweltSince(cfg: Settings, log: Log, j: nat, k: nat) {
    && j <= k < |log|
    && RestfulFrom(log[..k + 1], j, log[k].activation)
    && log[j].input.time >= 0.0
    && log[k].input.time - log[j].input.time >= cfg.settleSeconds
  }

  ghost predicate Dwelt(cfg: Settings, log: Log, k: nat)
    requires k < |log|
  {
    (cfg.autoStart || log[k].start.up) && exists j :: DweltSince(cfg, log, j, k)
  }

  /** A Settle tick that read the joints and was not tilted. */
  predicate SettleTick(cfg: Settings, r: Record) {
    r.before == Settle && r.input.joints && !Leans(cfg, Settle, r.input)
  }

  /** Such a tick ends in Converge exactly after a dwell; no other tick enters it. */
  ghost predicate AllDwelt(cfg: Settings, log: Log) {
    forall k :: 0 <= k < |log| ==>
      && (SettleTick(cfg, log[k]) ==> (log[k].after == Converge <==> Dwelt(cfg, log, k)))
      && (log[k].after == Converge ==> SettleTick(cfg, log[k]) || log[k].before == Converge)
  }

  // ---- the settle filter ----

  function Mixed(a: real, u: Axes, v: Axes): Axes {
    Axes((1.0 - a) * u.x + a * v.x, (1.0 - a) * u.y + a * v.y, (1.0 - a) * u.z + a * v.z)
  }

  /** The first reading as it is, and from then on the weighted mean of old and new. */
  function Smoothed(cfg: Settings, before: Option<Rates>, raw: Rates): Rates {
    match before
    case None => raw
    case Some(r) => Rates(Mixed(cfg.settleWeight, r.gyro, raw.gyro), Mixed(cfg.settleWeight, r.accel, raw.accel))
  }

  /** Turning slower than the limit, and an acceleration within the tolerance of 9.81. */
  predicate RestfulRates(cfg: Settings, before: Option<Rates>, input: TickInput) {
    && input.rates.Some?
    && (var now := Smoothed(cfg, before, input.rates.value);
        && cfg.norm(now.gyro) < cfg.settleGyroMax
        && 9.81 - cfg.settleAccelTolerance < cfg.norm(now.accel) < 9.81 + cfg.settleAccelTolerance)
  }

  /** The low-pass is that mean. */
  lemma FilterIsMean(cfg: Settings, before: Option<Rates>, raw: Rates)
    ensures M.Filtered(cfg, before, raw) == Smoothed(cfg, before, raw)
  {
    if before.Some? {
      TowardIsMixed(cfg.settleWeight, before.value.gyro, raw.gyro);
      TowardIsMixed(cfg.settleWeight, before.value.accel, raw.accel);
    } else {
      M.ConstantPasses(cfg, raw);
    }
  }

  lemma TowardIsMixed(a: real, u: Axes, v: Axes)
    ensures M.Toward(a, u, v) == Mixed(a, u, v)
  {
  }

  /** The low-pass over the rates read in the current visit to Settle, after these records. */
  function FilterAfter(cfg: Settings, log: Log): Option<Rates>
    decreases |log|
  {
    if log == [] || log[|log| - 1].before != Settle then None
    else
      var r, before := log[|log| - 1], FilterAfter(cfg, log[..|log| - 1]);
      if r.input.joints && r.input.rates.Some? then Some(Smoothed(cfg, before, r.input.rates.value)) else before
  }

  /** Each Settle tick's verdict is that of the filter. */
  ghost predicate AllFiltered(cfg: Settings, log: Log) {
    forall k :: 0 <= k < |log| && log[k].before == Settle ==>
      && (log[k].rest <==> RestfulRates(cfg, FilterAfter(cfg, log[..k]), log[k].input))
      && (log[k].rest ==> M.CanRest(cfg))
  }

  predicate FilterSound(cfg: Settings, g: M.Stage, log: Log) {
    g.phase == Settle ==> g.filter == FilterAfter(cfg, log)
  }

  // ---- invariants ----

  /** The flag the next record will call previous. */
  function PreviousReady(ctl: ControlThread): bool {
    if Judged(ctl.pc) then ctl.tick.previousReady else ctl.state.plans.ready
  }

  /** What the next record will look like, seen from the records so far. */
  predicate Pending(now: real, ctl: ControlThread, h: History) {
    && (if |h.log| > 0 && h.log[|h.log| - 1].activation == h.activation
        then ctl.state.stage.phase == h.log[|h.log| - 1].after && PreviousReady(ctl) == h.log[|h.log| - 1].ready
        else ctl.state.stage.phase == Passive && !PreviousReady(ctl))
    && (|h.log| > 0 ==>
          && h.log[|h.log| - 1].activation <= h.activation
          && h.log[|h.log| - 1].input.time <= now
          && (InTick(ctl.pc) ==> h.log[|h.log| - 1].input.time <= ctl.tick.input.time))
  }

  /** What this tick's steps have established so far. */
  predicate TickSound(cfg: Settings, now: real, ctl: ControlThread, m: Shared) {
    InTick(ctl.pc) ==>
      && ctl.tick.input.time <= now
      && ctl.tick.observation.time == ctl.tick.input.time
      && (ctl.pc.Swapped? && ctl.tick.updated ==> ctl.state.plans.hasActive)
      && (Judged(ctl.pc) ==>
            && (ctl.state.plans.ready <==>
                  ctl.state.plans.hasActive &&
                  M.Usable(cfg, ctl.state.seen.fromHardware, m.ActivePlan(), ctl.tick.observation))
            && (ctl.tick.reset <==> !ctl.state.plans.ready && (ctl.tick.updated || ctl.tick.previousReady)))
  }

  /** The timer holds the time of the first tick from which on the trunk has been at rest. */
  ghost predicate TimerSound(g: M.Stage, log: Log, activation: nat) {
    g.phase == Settle ==>
      && (g.settledSince >= 0.0 ==>
            exists j: nat :: RestfulFrom(log, j, activation) && log[j].input.time == g.settledSince)
      && (forall j: nat :: RestfulFrom(log, j, activation) && log[j].input.time >= 0.0 ==>
            0.0 <= g.settledSince <= log[j].input.time)
  }

  predicate FlagSound(up: bool, stores: Stores, activation: nat) {
    && (up <==> stores.last == Some(activation))
    && (stores.last.Some? ==> stores.last.value <= activation)
    && (stores.answer.Some? ==> stores.last.Some? && stores.answer.value.activation <= stores.last.value)
  }

  predicate CallSound(ctl: ControlThread, h: History) {
    && FlagSound(ctl.state.calls.standUp, h.standUp, h.activation)
    && FlagSound(ctl.state.calls.start, h.start, h.activation)
  }

  ghost predicate Settling(cfg: Settings, ctl: ControlThread, h: History) {
    && (cfg.source.StateEstimator? ==>
          TimerSound(ctl.state.stage, h.log, h.activation) && FilterSound(cfg, ctl.state.stage, h.log))
    && CallSound(ctl, h)
  }

  function CountResets(log: Log): nat
    decreases |log|
  {
    if log == [] then 0
    else CountResets(log[..|log| - 1]) + if log[|log| - 1].reset then 1 else 0
  }

  predicate Counted(ctl: ControlThread, h: History) {
    h.resets == CountResets(h.log) + if Judged(ctl.pc) && ctl.tick.reset then 1 else 0
  }

  ghost predicate LogSound(cfg: Settings, log: Log) {
    AllOk(cfg, log) && Chained(log) && (cfg.source.StateEstimator? ==> AllDwelt(cfg, log) && AllFiltered(cfg, log))
  }

  ghost predicate Own(cfg: Settings, s: State) {
    && LogSound(cfg, s.hist.log)
    && Pending(s.now, s.ctl, s.hist)
    && TickSound(cfg, s.now, s.ctl, s.mem)
    && Settling(cfg, s.ctl, s.hist)
    && Counted(s.ctl, s.hist)
  }

  ghost predicate Inv(cfg: Settings, s: State) {
    H.Inv(cfg, s) && Own(cfg, s)
  }

  // ---- a tick appends its record ----

  /** Two periods of margin, multiplied out. */
  lemma MarginMultiplies(rate: nat, t: real, last: real)
    ensures t + Margin(rate) < last <==> (last - t) * (if rate == 0 then 1.0 else rate as real) > 2.0
  {
    var r := if rate == 0 then 1.0 else rate as real;
    var m := Margin(rate);
    assert m * r == 2.0;
    if t + m < last {
      assert (last - t - m) * r > 0.0;
    } else {
      assert (t + m - last) * r >= 0.0;
    }
  }

  lemma PlanIsOk(cfg: Settings, s: State)
    requires TickSound(cfg, s.now, s.ctl, s.mem) && H.ControlSide(s.ctl, s.mem) && s.ctl.pc.Rested?
    ensures PlanOk(cfg, RecordOf(cfg, s, Decide(cfg, s)))
  {
    var plan, t := s.mem.ActivePlan(), s.ctl.tick.input.time + cfg.policyTimeOffset;
    if plan.Some? && |plan.value.times| > 0 && plan.value.times[|plan.value.times| - 1].Finite? {
      MarginMultiplies(cfg.updateRate, t, plan.value.times[|plan.value.times| - 1].seconds);
    }
    if cfg.source.StateEstimator? {
      M.BringUpIsLawful(cfg, s.ctl.state, s.ctl.tick.input, s.ctl.tick.observation);
    }
  }

  lemma PhaseIsOk(cfg: Settings, s: State)
    requires cfg.source.StateEstimator?
    ensures PhaseOk(cfg, RecordOf(cfg, s, Decide(cfg, s)))
  {
    M.BringUpIsLawful(cfg, s.ctl.state, s.ctl.tick.input, s.ctl.tick.observation);
    if s.ctl.state.stage.phase == Fault {
      FaultDamps(cfg, s.ctl.state, s.ctl.tick.input, s.ctl.tick.observation);
    }
  }

  lemma CallIsOk(cfg: Settings, s: State)
    requires cfg.source.StateEstimator? && CallSound(s.ctl, s.hist)
    ensures CallOk(cfg, RecordOf(cfg, s, Decide(cfg, s)))
  {
    M.BringUpIsLawful(cfg, s.ctl.state, s.ctl.tick.input, s.ctl.tick.observation);
  }

  lemma RecordIsOk(cfg: Settings, s: State)
    requires Inv(cfg, s) && s.ctl.pc.Rested?
    ensures RecordOk(cfg, RecordOf(cfg, s, Decide(cfg, s)))
  {
    PlanIsOk(cfg, s);
    if cfg.source.StateEstimator? {
      PhaseIsOk(cfg, s);
      CallIsOk(cfg, s);
    }
  }

  lemma FaultDamps(cfg: Settings, c: M.Control, input: TickInput, o: Observation)
    requires c.stage.phase == Fault
    ensures M.BringUp(cfg, c, input, o).command.Damp?
  {
    if input.joints {
      M.PhaseTickIsLawful(cfg, c.(stage := M.Guarded(cfg, c.stage, input)), input, o);
    }
  }

  /** A record that is not restful ends every dwell. */
  lemma Unrestful(log: Log, r: Record, activation: nat)
    requires !Restful(r, activation)
    ensures forall j: nat :: !RestfulFrom(log + [r], j, activation)
  {
    assert (log + [r])[|log|] == r;
  }

  /** A restful record that read no joints changes no dwell. */
  lemma Unprocessed(log: Log, r: Record, activation: nat)
    requires Restful(r, activation) && !r.input.joints
    ensures forall j: nat :: RestfulFrom(log + [r], j, activation) <==> RestfulFrom(log, j, activation)
  {
    var log' := log + [r];
    forall j: nat
      ensures RestfulFrom(log', j, activation) <==> RestfulFrom(log, j, activation)
    {
      if j < |log| {
        assert log'[j] == log[j];
        if RestfulFrom(log', j, activation) {
          forall m | j <= m < |log|
            ensures Restful(log[m], activation)
          {
            assert log'[m] == log[m];
          }
        }
      }
    }
  }

  /** A processed restful record extends every dwell and starts one. */
  lemma Processed(log: Log, r: Record, activation: nat)
    requires Restful(r, activation) && r.input.joints
    ensures forall j: nat :: RestfulFrom(log + [r], j, activation) <==> j == |log| || RestfulFrom(log, j, activation)
  {
    var log' := log + [r];
    forall j: nat
      ensures RestfulFrom(log', j, activation) <==> j == |log| || RestfulFrom(log, j, activation)
    {
      if j < |log| {
        assert log'[j] == log[j];
        if RestfulFrom(log', j, activation) {
          forall m | j <= m < |log|
            ensures Restful(log[m], activation)
          {
            assert log'[m] == log[m];
          }
        }
      }
    }
  }

  /** `since` is the time of the first tick of the current dwell, if there is one at a nonnegative time. */
  ghost predicate StartsAt(log: Log, activation: nat, since: real) {
    && (since >= 0.0 ==> exists j: nat :: RestfulFrom(log, j, activation) && log[j].input.time == since)
    && (forall j: nat :: RestfulFrom(log, j, activation) && log[j].input.time >= 0.0 ==>
          0.0 <= since <= log[j].input.time)
  }

  lemma TimerExtends(log: Log, r: Record, activation: nat, since: real)
    requires StartsAt(log, activation, since)
    requires Restful(r, activation) && r.input.joints
    requires forall j :: 0 <= j < |log| ==> log[j].input.time <= r.input.time
    ensures StartsAt(log + [r], activation, M.RestSince(since, r.input.time))
  {
    var log' := log + [r];
    Processed(log, r, activation);
    var since' := M.RestSince(since, r.input.time);
    if since >= 0.0 {
      var j: nat :| RestfulFrom(log, j, activation) && log[j].input.time == since;
      assert RestfulFrom(log', j, activation) && log'[j].input.time == since';
    } else {
      assert RestfulFrom(log', |log|, activation) && log'[|log|].input.time == since';
    }
    forall j: nat | RestfulFrom(log', j, activation) && log'[j].input.time >= 0.0
      ensures 0.0 <= since' <= log'[j].input.time
    {
      if j < |log| {
        assert log'[j] == log[j] && RestfulFrom(log, j, activation);
      }
    }
  }

  /** What the timer decides is whether there was a dwell. */
  lemma DwellDecided(cfg: Settings, log: Log, since: real, k: nat)
    requires |log| == k + 1
    requires StartsAt(log, log[k].activation, since)
    ensures since >= 0.0 && log[k].input.time - since >= cfg.settleSeconds
            <==> exists j :: DweltSince(cfg, log, j, k)
  {
    assert log[..k + 1] == log;
    if since >= 0.0 && log[k].input.time - since >= cfg.settleSeconds {
      var j: nat :| RestfulFrom(log, j, log[k].activation) && log[j].input.time == since;
      assert DweltSince(cfg, log, j, k);
    }
  }

  lemma {:induction false} Monotone(log: Log, i: nat, j: nat)
    requires Chained(log) && i <= j < |log|
    ensures log[i].activation <= log[j].activation && log[i].input.time <= log[j].input.time
  {
    if i < j {
      Monotone(log, i, j - 1);
      assert Linked(log[j - 1], log[j]);
    }
  }

  lemma PrefixKeepsDwelt(cfg: Settings, log: Log, r: Record)
    requires AllDwelt(cfg, log)
    requires SettleTick(cfg, r) ==> (r.after == Converge <==> Dwelt(cfg, log + [r], |log|))
    requires r.after == Converge ==> SettleTick(cfg, r) || r.before == Converge
    ensures AllDwelt(cfg, log + [r])
  {
    var log' := log + [r];
    forall k | 0 <= k < |log|
      ensures log'[k] == log[k] && (Dwelt(cfg, log', k) <==> Dwelt(cfg, log, k))
    {
      assert log'[..k + 1] == log[..k + 1];
      assert forall j :: DweltSince(cfg, log', j, k) <==> DweltSince(cfg, log, j, k);
    }
  }

  lemma UnrestfulIsNoDwell(cfg: Settings, log: Log, r: Record)
    requires !Restful(r, r.activation)
    ensures !Dwelt(cfg, log + [r], |log|)
  {
    Unrestful(log, r, r.activation);
    assert (log + [r])[..|log| + 1] == log + [r];
  }

  lemma UnprocessedKeepsTimer(log: Log, r: Record, activation: nat, since: real)
    requires StartsAt(log, activation, since) && Restful(r, activation) && !r.input.joints
    ensures StartsAt(log + [r], activation, since)
  {
    Unprocessed(log, r, activation);
    forall j: nat | RestfulFrom(log + [r], j, activation)
      ensures RestfulFrom(log, j, activation) && (log + [r])[j] == log[j]
    {
    }
    if since >= 0.0 {
      var j: nat :| RestfulFrom(log, j, activation) && log[j].input.time == since;
      assert RestfulFrom(log + [r], j, activation) && (log + [r])[j] == log[j];
    }
  }

  /** A tick that found rest moves the timer on, and the timer decides whether there was a dwell. */
  lemma RestfulTick(cfg: Settings, log: Log, r: Record, since: real)
    requires StartsAt(log, r.activation, since) && Restful(r, r.activation) && r.input.joints
    requires Chained(log) && (|log| > 0 ==> log[|log| - 1].input.time <= r.input.time)
    ensures var since' := M.RestSince(since, r.input.time);
            && StartsAt(log + [r], r.activation, since')
            && (since' >= 0.0 && r.input.time - since' >= cfg.settleSeconds
                <==> exists j :: DweltSince(cfg, log + [r], j, |log|))
  {
    forall j | 0 <= j < |log|
      ensures log[j].input.time <= r.input.time
    {
      Monotone(log, j, |log| - 1);
    }
    TimerExtends(log, r, r.activation, since);
    DwellDecided(cfg, log + [r], M.RestSince(since, r.input.time), |log|);
  }

  /** A Settle tick keeps the timer's meaning, and enters Converge exactly after a dwell. */
  lemma SettleTickKeeps(cfg: Settings, s: State)
    requires cfg.source.StateEstimator? && Own(cfg, s) && s.ctl.pc.Rested? && s.ctl.state.stage.phase == Settle
    ensures var r := Decide(cfg, s);
            var log' := s.hist.log + [RecordOf(cfg, s, r)];
            && TimerSound(r.stage, log', s.hist.activation)
            && AllDwelt(cfg, log')
  {
    var r := Decide(cfg, s);
    var rec := RecordOf(cfg, s, r);
    var c, input, log, a := s.ctl.state, s.ctl.tick.input, s.hist.log, s.hist.activation;
    M.SettleOutcome(cfg, c, input, s.ctl.tick.observation);
    assert StartsAt(log, a, c.stage.settledSince);
    if !Restful(rec, a) {
      Unrestful(log, rec, a);
      UnrestfulIsNoDwell(cfg, log, rec);
    } else if !input.joints {
      UnprocessedKeepsTimer(log, rec, a, c.stage.settledSince);
    } else {
      RestfulTick(cfg, log, rec, c.stage.settledSince);
    }
    PrefixKeepsDwelt(cfg, log, rec);
  }

  lemma SettlingKeeps(cfg: Settings, s: State)
    requires cfg.source.StateEstimator? && Own(cfg, s) && s.ctl.pc.Rested?
    ensures var r := Decide(cfg, s);
            var log' := s.hist.log + [RecordOf(cfg, s, r)];
            && TimerSound(r.stage, log', s.hist.activation)
            && AllDwelt(cfg, log')
  {
    var r := Decide(cfg, s);
    var rec := RecordOf(cfg, s, r);
    if s.ctl.state.stage.phase == Settle {
      SettleTickKeeps(cfg, s);
    } else {
      M.BringUpIsLawful(cfg, s.ctl.state, s.ctl.tick.input, s.ctl.tick.observation);
      Unrestful(s.hist.log, rec, s.hist.activation);
      if r.stage.phase == Settle {
        M.SettleStartsStopped(cfg, s.ctl.state, s.ctl.tick.input, s.ctl.tick.observation);
      }
      PrefixKeepsDwelt(cfg, s.hist.log, rec);
    }
  }

  lemma FilterKeeps(cfg: Settings, s: State)
    requires cfg.source.StateEstimator? && s.ctl.pc.Rested?
    requires FilterSound(cfg, s.ctl.state.stage, s.hist.log) && AllFiltered(cfg, s.hist.log)
    ensures var r := Decide(cfg, s);
            var log' := s.hist.log + [RecordOf(cfg, s, r)];
            FilterSound(cfg, r.stage, log') && AllFiltered(cfg, log')
  {
    var r, c, log := Decide(cfg, s), s.ctl.state, s.hist.log;
    var log' := log + [RecordOf(cfg, s, r)];
    assert log'[..|log|] == log;
    if s.ctl.tick.input.rates.Some? {
      FilterIsMean(cfg, c.stage.filter, s.ctl.tick.input.rates.value);
    }
    forall k | 0 <= k < |log|
      ensures log'[k] == log[k] && log'[..k] == log[..k]
    {
    }
    if c.stage.phase == Settle {
      M.SettleOutcome(cfg, c, s.ctl.tick.input, s.ctl.tick.observation);
    } else if r.stage.phase == Settle {
      M.SettleStartsStopped(cfg, c, s.ctl.tick.input, s.ctl.tick.observation);
    }
  }

  lemma AppendKeepsLog(cfg: Settings, log: Log, r: Record)
    requires AllOk(cfg, log) && Chained(log) && RecordOk(cfg, r)
    requires |log| > 0 ==> Linked(log[|log| - 1], r)
    ensures AllOk(cfg, log + [r]) && Chained(log + [r])
    ensures CountResets(log + [r]) == CountResets(log) + if r.reset then 1 else 0
  {
    assert (log + [r])[..|log|] == log;
  }

  lemma AppendIsChained(cfg: Settings, s: State)
    requires Own(cfg, s) && s.ctl.pc.Rested?
    ensures Chained(s.hist.log + [RecordOf(cfg, s, Decide(cfg, s))])
  {
  }

  lemma CommandingRecords(cfg: Settings, s: State)
    requires Inv(cfg, s) && s.ctl.pc.Rested?
    ensures var t := Commanding(cfg, s, Decide(cfg, s));
            LogSound(cfg, t.hist.log) && Settling(cfg, t.ctl, t.hist) && Counted(t.ctl, t.hist)
  {
    var r := Decide(cfg, s);
    RecordIsOk(cfg, s);
    AppendKeepsLog(cfg, s.hist.log, RecordOf(cfg, s, r));
    if cfg.source.StateEstimator? {
      SettlingKeeps(cfg, s);
      FilterKeeps(cfg, s);
    }
  }

  lemma CommandingKeeps(cfg: Settings, s: State)
    requires Inv(cfg, s) && s.ctl.pc.Rested?
    ensures Own(cfg, Commanding(cfg, s, Decide(cfg, s)).(step := s.step + 1))
  {
    CommandingRecords(cfg, s);
  }

  // ---- every other step leaves the records alone ----

  /** Steps of a tick that only move along. */
  lemma PassingKeeps(cfg: Settings, s: State, t: State)
    requires Own(cfg, s)
    requires t.ctl.state == s.ctl.state && t.ctl.tick == s.ctl.tick && t.hist == s.hist && t.now == s.now
    requires InTick(t.ctl.pc) ==> InTick(s.ctl.pc) && !t.ctl.pc.Swapped?
    requires !Judged(s.ctl.pc) && !Judged(t.ctl.pc)
    ensures Own(cfg, t)
  {
  }

  lemma SwappingKeeps(cfg: Settings, s: State)
    requires Own(cfg, s) && s.ctl.pc.Supplied?
    ensures Own(cfg, Swapping(s).(step := s.step + 1))
  {
    if Swaps(s) {
    } else {
    }
  }

  lemma ValidatingKeeps(cfg: Settings, s: State)
    requires Inv(cfg, s) && s.ctl.pc.Swapped?
    ensures Own(cfg, Validating(cfg, s).(step := s.step + 1))
  {
  }

  lemma RestingKeeps(cfg: Settings, s: State)
    requires Own(cfg, s) && s.ctl.pc.Validated?
    ensures Own(cfg, Resting(cfg, s).(step := s.step + 1))
  {
  }

  lemma PassingStepKeeps(cfg: Settings, s: State)
    requires Own(cfg, s) && (s.ctl.pc.Loaded? || s.ctl.pc.Fed? || s.ctl.pc.Seeded? || s.ctl.pc.Commanded?)
    ensures Own(cfg, ControlThreadStep(cfg, s).(step := s.step + 1))
  {
    PassingKeeps(cfg, s, ControlThreadStep(cfg, s).(step := s.step + 1));
  }

  lemma ControlKeeps(cfg: Settings, s: State)
    requires Inv(cfg, s) && Enabled(cfg, s, ControlStep)
    ensures Own(cfg, ControlThreadStep(cfg, s).(step := s.step + 1))
  {
    match s.ctl.pc {
      case Supplied => SwappingKeeps(cfg, s);
      case Swapped => ValidatingKeeps(cfg, s);
      case Validated => RestingKeeps(cfg, s);
      case Rested => CommandingKeeps(cfg, s);
      case _ => PassingStepKeeps(cfg, s);
    }
  }

  lemma WorkerKeeps(cfg: Settings, s: State, solver: Solver)
    requires Inv(cfg, s) && WorkerCanStep(s)
    ensures Own(cfg, WorkerThreadStep(s, solver).(step := s.step + 1))
  {
    var t := WorkerThreadStep(s, solver);
    assert t.ctl == s.ctl && t.hist == s.hist.(finished := t.hist.finished) && t.now == s.now
           && (s.mem.mpcReady ==> t.mem.ActivePlan() == s.mem.ActivePlan()) by {
      match s.worker { case Constructing => case Advancing => case ResetCheck => case _ => }
    }
  }

  lemma BeginningKeeps(cfg: Settings, s: State, input: TickInput)
    requires Own(cfg, s) && s.ctl.pc.Idle? && s.now <= input.time
    ensures Own(cfg, Beginning(cfg, s, input).(step := s.step + 1))
  {
  }

  lemma ActivatingKeeps(cfg: Settings, s: State, a: ActivationInput)
    requires Own(cfg, s) && s.ctl.pc.Stopping?
    ensures Own(cfg, Activating(cfg, s, a).(step := s.step + 1))
  {
    if a.succeeds {}
  }

  /** What a service call changes is the flags, and what is remembered of the start flag. */
  lemma CallsKeep(cfg: Settings, s: State, t: State)
    requires Own(cfg, s)
    requires t.now == s.now && t.mem == s.mem
    requires t.ctl == s.ctl.(state := s.ctl.state.(calls := t.ctl.state.calls))
    requires t.hist == s.hist.(standUp := t.hist.standUp, start := t.hist.start)
    requires CallSound(t.ctl, t.hist)
    ensures Own(cfg, t)
  {
  }

  lemma ServiceKeeps(cfg: Settings, s: State, e: Event)
    requires Own(cfg, s) && (e.StandUpService? || e.StartService?)
    ensures Own(cfg, Next(cfg, s, e))
  {
    if e.StandUpService? {
      match s.svc.standUp { case Cleared(_) => case _ => }
    } else {
      match s.svc.start { case NoCall => case SawPhase => case Cleared(_) => }
    }
    CallsKeep(cfg, s, Next(cfg, s, e));
  }

  /** Steps that touch neither the control state nor the records. */
  lemma QuietKeeps(cfg: Settings, s: State, t: State)
    requires Own(cfg, s)
    requires t.ctl.state == s.ctl.state && t.hist == s.hist && s.now <= t.now
    requires BetweenTicks(s) || s.ctl.pc.Stopping? || (t.ctl == s.ctl && t.mem == s.mem)
    requires BetweenTicks(s) || s.ctl.pc.Stopping? ==> !InTick(t.ctl.pc)
    ensures Own(cfg, t)
  {
  }

  lemma StopKeeps(cfg: Settings, s: State, a: ActivationInput)
    requires Own(cfg, s) && s.ctl.pc.Stopping?
    ensures Own(cfg, Next(cfg, s, FinishStop(a)))
  {
    if s.ctl.pc.activate {
      ActivatingKeeps(cfg, s, a);
    } else {
      QuietKeeps(cfg, s, Next(cfg, s, FinishStop(a)));
    }
  }

  lemma QuietEventKeeps(cfg: Settings, s: State, e: Event)
    requires Own(cfg, s) && Enabled(cfg, s, e)
    requires e.BeginStop? || e.EstimatorUpdate? || e.EstimatorActivate? || e.EstimatorDeactivate? || e.Shutdown?
    ensures Own(cfg, Next(cfg, s, e))
  {
    QuietKeeps(cfg, s, Next(cfg, s, e));
  }

  lemma OwnKeeps(cfg: Settings, s: State, e: Event)
    requires Inv(cfg, s) && Enabled(cfg, s, e)
    ensures Own(cfg, Next(cfg, s, e))
  {
    match e {
      case BeginTick(input) => BeginningKeeps(cfg, s, input);
      case ControlStep => ControlKeeps(cfg, s);
      case FinishStop(a) => StopKeeps(cfg, s, a);
      case WorkerStep(solver) => WorkerKeeps(cfg, s, solver);
      case StandUpService => ServiceKeeps(cfg, s, e);
      case StartService => ServiceKeeps(cfg, s, e);
      case _ => QuietEventKeeps(cfg, s, e);
    }
  }

  lemma NextKeeps(cfg: Settings, s: State, e: Event)
    requires Inv(cfg, s) && Enabled(cfg, s, e)
    ensures Inv(cfg, Next(cfg, s, e))
  {
    H.NextKeeps(cfg, s, e);
    OwnKeeps(cfg, s, e);
  }

  lemma {:induction false} InvHolds(cfg: Settings, s: State, events: seq<Event>)
    requires Inv(cfg, s) && Possible(cfg, s, events)
    ensures Inv(cfg, Run(cfg, s, events))
    decreases |events|
  {
    if events != [] {
      NextKeeps(cfg, s, events[0]);
      InvHolds(cfg, Next(cfg, s, events[0]), events[1..]);
    }
  }

  lemma ReachableInv(cfg: Settings, s: State)
    requires Reachable(cfg, s)
    ensures Inv(cfg, s)
  {
    var events :| Possible(cfg, START, events) && s == Run(cfg, START, events);
    InvHolds(cfg, START, events);
  }

  // ---- what it means ----

  /**
   Over every run: phases follow the coded graph; a processed tick that sees the trunk tilted
   beyond the limit outside Passive damps at the measured joints; a command derives from the
   plan only in Blend or Locomotion, with a plan of at least two nodes that covers the
   evaluation time with two control periods to spare; and Fault is entered exactly by a
   processed tick that sees the tilt or walks without a usable plan.
   */
  lemma BringUpIsSafe(cfg: Settings, s: State, k: nat)
    requires cfg.source.StateEstimator? && Reachable(cfg, s) && k < |s.hist.log|
    ensures var r := s.hist.log[k];
            && (M.Edge(r.before, r.after) || r.after == Fault)
            && (r.input.joints && Leans(cfg, r.before, r.input) ==> r.command == Damp(MeasuredJoints))
            && (r.command.FromMpc() ==> (r.before == Blend || r.before == Locomotion) && Planned(cfg, r))
            && (r.after == Fault <==> r.before == Fault || Faults(cfg, r))
  {
    ReachableInv(cfg, s);
  }

  /** With a ground-truth base, too, a command derives from the plan only if that covers the tick. */
  lemma PlansCoverCommands(cfg: Settings, s: State, k: nat)
    requires Reachable(cfg, s) && k < |s.hist.log|
    ensures s.hist.log[k].command.FromMpc() ==> Planned(cfg, s.hist.log[k])
  {
    ReachableInv(cfg, s);
  }

  lemma {:induction false} FaultStays(cfg: Settings, log: Log, i: nat, j: nat)
    requires cfg.source.StateEstimator? && AllOk(cfg, log) && Chained(log) && i < j < |log|
    requires log[i].after == Fault && log[i].activation == log[j].activation
    ensures log[j].before == Fault && log[j].after == Fault && log[j].command.Damp?
  {
    assert Linked(log[j - 1], log[j]) && RecordOk(cfg, log[j]);
    if i < j - 1 {
      Monotone(log, i, j - 1);
      FaultStays(cfg, log, i, j - 1);
    }
  }

  /** A fault is latched: every later tick of the same activation is spent in it, damping. */
  lemma FaultIsLatched(cfg: Settings, s: State, i: nat, j: nat)
    requires cfg.source.StateEstimator? && Reachable(cfg, s) && i < j < |s.hist.log|
    requires s.hist.log[i].after == Fault && s.hist.log[i].activation == s.hist.log[j].activation
    ensures s.hist.log[j].before == Fault && s.hist.log[j].after == Fault && s.hist.log[j].command.Damp?
  {
    ReachableInv(cfg, s);
    FaultStays(cfg, s.hist.log, i, j);
  }

  /** An activation starts in Passive. */
  lemma ActivationStartsPassive(cfg: Settings, s: State, j: nat)
    requires Reachable(cfg, s) && 0 < j < |s.hist.log|
    requires s.hist.log[j - 1].activation != s.hist.log[j].activation
    ensures s.hist.log[j].before == Passive
  {
    ReachableInv(cfg, s);
    assert Linked(s.hist.log[j - 1], s.hist.log[j]);
  }

  /**
   A processed, untilted Settle tick ends in Converge exactly when, from some tick of the same
   activation at least settleSeconds earlier up to now, every processed tick found the trunk
   at rest in Settle, and either auto-start is set or the start flag was stored in that
   activation. Converge is entered in no other way.
   */
  lemma ConvergeExactlyAfterDwell(cfg: Settings, s: State, k: nat)
    requires cfg.source.StateEstimator? && Reachable(cfg, s) && k < |s.hist.log|
    ensures SettleTick(cfg, s.hist.log[k]) ==> (s.hist.log[k].after == Converge <==> Dwelt(cfg, s.hist.log, k))
    ensures s.hist.log[k].after == Converge ==> s.hist.log[k].before == Converge || SettleTick(cfg, s.hist.log[k])
  {
    ReachableInv(cfg, s);
  }

  /** The verdict of every Settle tick is the low-pass over the rates read since Settle was entered. */
  lemma VerdictIsFiltered(cfg: Settings, s: State, k: nat)
    requires cfg.source.StateEstimator? && Reachable(cfg, s) && k < |s.hist.log| && s.hist.log[k].before == Settle
    ensures s.hist.log[k].rest <==> RestfulRates(cfg, FilterAfter(cfg, s.hist.log[..k]), s.hist.log[k].input)
  {
    ReachableInv(cfg, s);
  }

  /**
   A processed Passive tick stands up exactly when auto-start is set or the stand-up flag was
   stored in that activation; StandUp is entered in no other way.
   */
  lemma StandUpExactlyWhenCalled(cfg: Settings, s: State, k: nat)
    requires cfg.source.StateEstimator? && Reachable(cfg, s) && k < |s.hist.log|
    ensures var r := s.hist.log[k];
            && (r.before == Passive && r.input.joints ==> (r.after == StandUp <==> cfg.autoStart || r.standUp.up))
            && (r.after == StandUp ==> r.before == StandUp || (r.before == Passive && r.input.joints))
  {
    ReachableInv(cfg, s);
  }

  // ---- warm-start resets ----

  /** Records of fresh plans rejected, and of plans that stopped being usable without a fresh one. */
  function CountRejected(log: Log): nat
    decreases |log|
  {
    if log == [] then 0
    else CountRejected(log[..|log| - 1]) +
         if log[|log| - 1].updated && !log[|log| - 1].ready then 1 else 0
  }

  function CountExpired(log: Log): nat
    decreases |log|
  {
    if log == [] then 0
    else CountExpired(log[..|log| - 1]) +
         if !log[|log| - 1].updated && log[|log| - 1].previousReady && !log[|log| - 1].ready then 1 else 0
  }

  lemma {:induction false} CountsAgree(cfg: Settings, log: Log)
    requires AllOk(cfg, log)
    ensures CountResets(log) == CountRejected(log) + CountExpired(log)
    decreases |log|
  {
    if log != [] {
      assert RecordOk(cfg, log[|log| - 1]);
      CountsAgree(cfg, log[..|log| - 1]);
    }
  }

  /** Between ticks, the resets asked for are exactly the rejected fresh plans and the expired ones. */
  lemma ResetsAreAccounted(cfg: Settings, s: State)
    requires Reachable(cfg, s) && !Judged(s.ctl.pc)
    ensures s.hist.resets == CountRejected(s.hist.log) + CountExpired(s.hist.log)
  {
    ReachableInv(cfg, s);
    CountsAgree(cfg, s.hist.log);
  }

  /** Ticks of one activation that hold without a usable plan and without a fresh one. */
  predicate Holding(log: Log, i: nat, j: nat) {
    && i <= j <= |log|
    && forall k :: i <= k < j ==> !log[k].ready && !log[k].updated && log[k].activation == log[i].activation
  }

  lemma {:induction false} HoldingAsksOnce(cfg: Settings, log: Log, i: nat, j: nat)
    requires AllOk(cfg, log) && Chained(log) && Holding(log, i, j)
    ensures CountResets(log[..j]) - CountResets(log[..i]) == if i < j && log[i].previousReady then 1 else 0
    decreases j
  {
    if i < j {
      assert Holding(log, i, j - 1);
      HoldingAsksOnce(cfg, log, i, j - 1);
      assert log[..j][..j - 1] == log[..j - 1];
      assert RecordOk(cfg, log[j - 1]);
      if i < j - 1 {
        assert Linked(log[j - 2], log[j - 1]);
      }
    }
  }

  /** A stretch of hold ticks asks for at most one reset: at its first tick, if the plan had been usable before. */
  lemma ResetsAreNotRepeated(cfg: Settings, s: State, i: nat, j: nat)
    requires Reachable(cfg, s) && Holding(s.hist.log, i, j)
    ensures CountResets(s.hist.log[..j]) - CountResets(s.hist.log[..i])
         == if i < j && s.hist.log[i].previousReady then 1 else 0
  {
    ReachableInv(cfg, s);
    HoldingAsksOnce(cfg, s.hist.log, i, j);
  }
}
