/**
 Base-height conditioning around the invariant filter: per-contact ground anchors taken at
 touchdown, the height the stance contacts imply, its blend with the filter's height, and the
 offset held through flight. What the filter and kinematics compute are inputs of each tick.
 */
module AnchoredHeight {
  import opened Basics

  datatype Source = Inekf | Kinematic | Blend | Anchored

  datatype Settings = Settings(source: Source, weight: real, groundZ: real, threshold: real, holdThroughFlight: bool)

  /** The filter's height, and per contact its height relative to the base and whether it is in stance. */
  datatype Tick = Tick(filterHeight: real, relative: seq<real>, stance: seq<bool>)

  datatype State = State(anchors: seq<real>, wasInStance: seq<bool>, offset: real, offsetValid: bool)

  datatype Output = Output(kinematicValid: bool, kinematic: real, reported: real)

  predicate Sized(s: State, n: nat) {
    |s.anchors| == |s.wasInStance| == n
  }

  predicate Matches(t: Tick, n: nat) {
    |t.relative| == |t.stance| == n
  }

  // ---- one tick ----

  predicate Touchdown(s: State, t: Tick, c: nat)
    requires c < |s.wasInStance| && c < |t.stance|
  {
    t.stance[c] && !s.wasInStance[c]
  }

  /** A touchdown moves the anchor to where the filter puts the contact, if that is outside the deadband. */
  function AnchorAfter(k: Settings, s: State, t: Tick, c: nat): real
    requires c < |s.anchors| && c < |s.wasInStance| && c < |t.stance| && c < |t.relative|
  {
    var measured := t.filterHeight + t.relative[c];
    if k.source.Anchored? && Touchdown(s, t, c) && Abs(measured - s.anchors[c]) > k.threshold then measured
    else s.anchors[c]
  }

  function AnchorsAfter(k: Settings, s: State, t: Tick, n: nat): (anchors: seq<real>)
    requires Sized(s, n) && Matches(t, n)
    ensures |anchors| == n && forall c :: 0 <= c < n ==> anchors[c] == AnchorAfter(k, s, t, c)
  {
    seq(n, c requires 0 <= c < n => AnchorAfter(k, s, t, c))
  }

  function CountTo(stance: seq<bool>, n: nat): (count: nat)
    requires n <= |stance|
    ensures count <= n
  {
    if n == 0 then 0 else CountTo(stance, n - 1) + if stance[n - 1] then 1 else 0
  }

  /** Ground minus relative height, added up over the first `n` contacts that are in stance. */
  function SumTo(ground: seq<real>, relative: seq<real>, stance: seq<bool>, n: nat): real
    requires n <= |ground| && n <= |relative| && n <= |stance|
  {
    if n == 0 then 0.0
    else SumTo(ground, relative, stance, n - 1) + if stance[n - 1] then ground[n - 1] - relative[n - 1] else 0.0
  }

  function Ground(k: Settings, anchors: seq<real>): (ground: seq<real>)
    ensures |ground| == |anchors|
  {
    if k.source.Anchored? then anchors else seq(|anchors|, _ => k.groundZ)
  }

  /** What the stance contacts say the base height is. */
  function KinematicHeight(k: Settings, anchors: seq<real>, t: Tick, n: nat): real
    requires |anchors| == n && Matches(t, n) && CountTo(t.stance, n) > 0
  {
    SumTo(Ground(k, anchors), t.relative, t.stance, n) / (CountTo(t.stance, n) as real)
  }

  function Fused(k: Settings, filterHeight: real, kinematic: real): real {
    if k.source.Kinematic? then kinematic
    else (1.0 - Clamp(k.weight)) * filterHeight + Clamp(k.weight) * kinematic
  }

  function NextState(k: Settings, s: State, t: Tick, n: nat): (s': State)
    requires Sized(s, n) && Matches(t, n)
    ensures Sized(s', n)
  {
    if k.source.Inekf? then s
    else
      var anchors := AnchorsAfter(k, s, t, n);
      if CountTo(t.stance, n) > 0
      then State(anchors, t.stance, Fused(k, t.filterHeight, KinematicHeight(k, anchors, t, n)) - t.filterHeight, true)
      else State(anchors, t.stance, s.offset, s.offsetValid)
  }

  function Report(k: Settings, s: State, t: Tick, n: nat): Output
    requires Sized(s, n) && Matches(t, n)
  {
    if k.source.Inekf? then Output(false, 0.0, t.filterHeight)
    else if CountTo(t.stance, n) > 0 then
      var kinematic := KinematicHeight(k, AnchorsAfter(k, s, t, n), t, n);
      Output(true, kinematic, Fused(k, t.filterHeight, kinematic))
    else
      Output(false, 0.0, if k.holdThroughFlight && s.offsetValid then t.filterHeight + s.offset else t.filterHeight)
  }

  // ---- runs ----

  function Seeded(heights: seq<real>): (s: State)
    ensures Sized(s, |heights|)
  {
    State(heights, seq(|heights|, _ => false), 0.0, false)
  }

  predicate AllMatch(ticks: seq<Tick>, n: nat) {
    forall i :: 0 <= i < |ticks| ==> Matches(ticks[i], n)
  }

  /** The state after the first `i` ticks. */
  function StateAt(k: Settings, s: State, ticks: seq<Tick>, n: nat, i: nat): (s': State)
    requires Sized(s, n) && AllMatch(ticks, n) && i <= |ticks|
    ensures Sized(s', n)
  {
    if i == 0 then s else NextState(k, StateAt(k, s, ticks, n, i - 1), ticks[i - 1], n)
  }

  // ---- flat ground, exact kinematics ----

  /** True base height per tick; every stance contact stands at `ground`. */
  predicate ExactOn(ticks: seq<Tick>, truth: seq<real>, ground: real, n: nat)
    requires AllMatch(ticks, n)
  {
    && |truth| == |ticks|
    && forall i, c :: 0 <= i < |ticks| && 0 <= c < n && ticks[i].stance[c] ==> truth[i] + ticks[i].relative[c] == ground
  }

  function Error(t: Tick, truth: real): real {
    t.filterHeight - truth
  }

  /** The filter's height error is in the deadband, at every touchdown of tick `i`. */
  predicate LandsWithin(k: Settings, s: State, t: Tick, truth: real, n: nat)
    requires Sized(s, n) && Matches(t, n)
  {
    forall c :: 0 <= c < n && Touchdown(s, t, c) ==> Abs(Error(t, truth)) <= k.threshold || Error(t, truth) == 0.0
  }

  predicate Pinned(s: State, ground: real) {
    forall c :: 0 <= c < |s.anchors| ==> s.anchors[c] == ground
  }

  /** From anchors on the ground, one tick leaves them there exactly when it lands within the deadband. */
  lemma PinnedStep(k: Settings, s: State, t: Tick, truth: real, ground: real, n: nat)
    requires k.source.Anchored? && Sized(s, n) && Matches(t, n) && Pinned(s, ground)
    requires forall c :: 0 <= c < n && t.stance[c] ==> truth + t.relative[c] == ground
    ensures Pinned(NextState(k, s, t, n), ground) <==> LandsWithin(k, s, t, truth, n)
  {
    var s1 := NextState(k, s, t, n);
    forall c | 0 <= c < n
      ensures s1.anchors[c] == ground <==>
              (Touchdown(s, t, c) ==> Abs(Error(t, truth)) <= k.threshold || Error(t, truth) == 0.0)
    {
      assert s1.anchors[c] == AnchorAfter(k, s, t, c);
      if Touchdown(s, t, c) {
        assert t.filterHeight + t.relative[c] - ground == Error(t, truth);
      }
    }
  }

  /** Tick `i` of the run lands within the deadband. */
  predicate Quiet(k: Settings, s: State, ticks: seq<Tick>, truth: seq<real>, n: nat, i: nat)
    requires Sized(s, n) && AllMatch(ticks, n) && i < |ticks| == |truth|
  {
    LandsWithin(k, StateAt(k, s, ticks, n, i), ticks[i], truth[i], n)
  }

  /** After the first `i` ticks of the run every anchor is on the ground. */
  predicate PinnedAfter(k: Settings, s: State, ticks: seq<Tick>, ground: real, n: nat, i: nat)
    requires Sized(s, n) && AllMatch(ticks, n) && i <= |ticks|
  {
    Pinned(StateAt(k, s, ticks, n, i), ground)
  }

  lemma PinnedOneMore(k: Settings, s: State, ticks: seq<Tick>, truth: seq<real>, ground: real, n: nat, i: nat)
    requires k.source.Anchored? && Sized(s, n) && AllMatch(ticks, n) && i < |ticks|
    requires ExactOn(ticks, truth, ground, n) && PinnedAfter(k, s, ticks, ground, n, i)
    ensures PinnedAfter(k, s, ticks, ground, n, i + 1) <==> Quiet(k, s, ticks, truth, n, i)
  {
    PinnedStep(k, StateAt(k, s, ticks, n, i), ticks[i], truth[i], ground, n);
  }

  lemma {:induction false} QuietKeepsPinned(k: Settings, s: State, ticks: seq<Tick>, truth: seq<real>, ground: real,
      n: nat, m: nat)
    requires k.source.Anchored? && Sized(s, n) && AllMatch(ticks, n) && Pinned(s, ground) && m <= |ticks|
    requires ExactOn(ticks, truth, ground, n) && forall i :: 0 <= i < m ==> Quiet(k, s, ticks, truth, n, i)
    ensures PinnedAfter(k, s, ticks, ground, n, m)
  {
    if m > 0 {
      QuietKeepsPinned(k, s, ticks, truth, ground, n, m - 1);
      assert Quiet(k, s, ticks, truth, n, m - 1);
      PinnedOneMore(k, s, ticks, truth, ground, n, m - 1);
    }
  }

  /**
   Over a whole run on flat ground: no anchor ever moves if and only if the filter's height error
   is within the deadband at every touchdown.
   */
  lemma AnchorsStayExactly(k: Settings, s: State, ticks: seq<Tick>, truth: seq<real>, ground: real, n: nat)
    requires k.source.Anchored? && Sized(s, n) && AllMatch(ticks, n) && Pinned(s, ground)
    requires ExactOn(ticks, truth, ground, n)
    ensures (forall i :: 0 <= i <= |ticks| ==> PinnedAfter(k, s, ticks, ground, n, i)) <==>
            (forall i :: 0 <= i < |ticks| ==> Quiet(k, s, ticks, truth, n, i))
  {
    if forall i :: 0 <= i < |ticks| ==> Quiet(k, s, ticks, truth, n, i) {
      forall i | 0 <= i <= |ticks|
        ensures PinnedAfter(k, s, ticks, ground, n, i)
      {
        QuietKeepsPinned(k, s, ticks, truth, ground, n, i);
      }
    }
    if forall i :: 0 <= i <= |ticks| ==> PinnedAfter(k, s, ticks, ground, n, i) {
      forall i | 0 <= i < |ticks|
        ensures Quiet(k, s, ticks, truth, n, i)
      {
        assert PinnedAfter(k, s, ticks, ground, n, i) && PinnedAfter(k, s, ticks, ground, n, i + 1);
        PinnedOneMore(k, s, ticks, truth, ground, n, i);
      }
    }
  }

  lemma {:induction false} SumIsExact(ground: seq<real>, relative: seq<real>, stance: seq<bool>, n: nat, height: real)
    requires n <= |ground| && n <= |relative| && n <= |stance|
    requires forall c :: 0 <= c < n && stance[c] ==> ground[c] - relative[c] == height
    ensures SumTo(ground, relative, stance, n) == (CountTo(stance, n) as real) * height
  {
    if n > 0 {
      SumIsExact(ground, relative, stance, n - 1, height);
      if stance[n - 1] {
        assert (CountTo(stance, n) as real) * height == (CountTo(stance, n - 1) as real) * height + height;
      }
    }
  }

  lemma MeanIsExact(sum: real, count: real, height: real)
    requires count > 0.0 && sum == count * height
    ensures sum / count == height
  {
  }

  /** With the anchors on the ground, a stance tick's kinematic height is the true height. */
  lemma KinematicIsTrue(k: Settings, anchors: seq<real>, t: Tick, truth: real, ground: real, n: nat)
    requires k.source.Anchored? && |anchors| == n && Matches(t, n) && CountTo(t.stance, n) > 0
    requires forall c :: 0 <= c < n ==> anchors[c] == ground
    requires forall c :: 0 <= c < n && t.stance[c] ==> truth + t.relative[c] == ground
    ensures KinematicHeight(k, anchors, t, n) == truth
  {
    SumIsExact(anchors, t.relative, t.stance, n, truth);
    MeanIsExact(SumTo(anchors, t.relative, t.stance, n), CountTo(t.stance, n) as real, truth);
  }

  /** The blend of a height off by `e` with the true one is off by the rest of the weight. */
  lemma FusedError(k: Settings, filterHeight: real, truth: real)
    requires !k.source.Kinematic?
    ensures Fused(k, filterHeight, truth) - truth == (1.0 - Clamp(k.weight)) * (filterHeight - truth)
    ensures Fused(k, filterHeight, truth) - filterHeight == -(Clamp(k.weight) * (filterHeight - truth))
  {
    var w := Clamp(k.weight);
    assert (1.0 - w) * filterHeight + w * truth - truth == (1.0 - w) * (filterHeight - truth);
  }

  /** A stance tick that leaves the anchors on the ground. */
  lemma ErrorOnStance(k: Settings, s: State, t: Tick, truth: real, ground: real, n: nat)
    requires k.source.Anchored? && Sized(s, n) && Matches(t, n) && CountTo(t.stance, n) > 0
    requires forall c :: 0 <= c < n && t.stance[c] ==> truth + t.relative[c] == ground
    requires Pinned(NextState(k, s, t, n), ground)
    ensures var out := Report(k, s, t, n);
            && out.kinematicValid && out.kinematic == truth
            && out.reported - truth == (1.0 - Clamp(k.weight)) * Error(t, truth)
    ensures var s1 := NextState(k, s, t, n);
            s1.offsetValid && s1.offset == -(Clamp(k.weight) * Error(t, truth))
  {
    KinematicIsTrue(k, AnchorsAfter(k, s, t, n), t, truth, ground, n);
    FusedError(k, t.filterHeight, truth);
  }

  /**
   Whole run with quiet touchdowns: on every stance tick the kinematic height is true and the reported
   error is (1-w) times the filter's.
   */
  lemma ReportedErrorOnStance(k: Settings, s: State, ticks: seq<Tick>, truth: seq<real>, ground: real, n: nat, i: nat)
    requires k.source.Anchored? && Sized(s, n) && AllMatch(ticks, n) && Pinned(s, ground) && i < |ticks|
    requires ExactOn(ticks, truth, ground, n) && CountTo(ticks[i].stance, n) > 0
    requires forall j :: 0 <= j <= i ==> Quiet(k, s, ticks, truth, n, j)
    ensures var out := Report(k, StateAt(k, s, ticks, n, i), ticks[i], n);
            && out.kinematicValid && out.kinematic == truth[i]
            && out.reported - truth[i] == (1.0 - Clamp(k.weight)) * Error(ticks[i], truth[i])
    ensures StateAt(k, s, ticks, n, i + 1).offsetValid
    ensures StateAt(k, s, ticks, n, i + 1).offset == -(Clamp(k.weight) * Error(ticks[i], truth[i]))
  {
    QuietKeepsPinned(k, s, ticks, truth, ground, n, i + 1);
    var before := StateAt(k, s, ticks, n, i);
    assert StateAt(k, s, ticks, n, i + 1) == NextState(k, before, ticks[i], n);
    ErrorOnStance(k, before, ticks[i], truth[i], ground, n);
  }

  // ---- flight ----

  /** A stretch of ticks with no contact in stance leaves the offset of the last stance tick. */
  lemma {:induction false} FlightKeepsOffset(k: Settings, s: State, ticks: seq<Tick>, n: nat, i: nat, j: nat)
    requires !k.source.Inekf? && Sized(s, n) && AllMatch(ticks, n) && i <= j <= |ticks|
    requires forall m :: i <= m < j ==> CountTo(ticks[m].stance, n) == 0
    ensures StateAt(k, s, ticks, n, j).offset == StateAt(k, s, ticks, n, i).offset
    ensures StateAt(k, s, ticks, n, j).offsetValid == StateAt(k, s, ticks, n, i).offsetValid
    decreases j - i
  {
    if i < j {
      FlightKeepsOffset(k, s, ticks, n, i, j - 1);
      assert StateAt(k, s, ticks, n, j) == NextState(k, StateAt(k, s, ticks, n, j - 1), ticks[j - 1], n);
    }
  }

  /** With the hold enabled, reported minus filter is the same from the last stance tick through the flight. */
  lemma FlightIsContinuous(k: Settings, s: State, ticks: seq<Tick>, n: nat, last: nat, j: nat)
    requires !k.source.Inekf? && k.holdThroughFlight && Sized(s, n) && AllMatch(ticks, n) && last < j < |ticks|
    requires CountTo(ticks[last].stance, n) > 0
    requires forall m :: last < m <= j ==> CountTo(ticks[m].stance, n) == 0
    ensures Report(k, StateAt(k, s, ticks, n, j), ticks[j], n).reported - ticks[j].filterHeight
         == Report(k, StateAt(k, s, ticks, n, last), ticks[last], n).reported - ticks[last].filterHeight
  {
    FlightKeepsOffset(k, s, ticks, n, last + 1, j);
    assert StateAt(k, s, ticks, n, last + 1) == NextState(k, StateAt(k, s, ticks, n, last), ticks[last], n);
  }

  lemma FlightReport(k: Settings, s: State, t: Tick, n: nat)
    requires !k.source.Inekf? && k.holdThroughFlight && Sized(s, n) && Matches(t, n) && CountTo(t.stance, n) == 0
        && s.offsetValid
    ensures Report(k, s, t, n).reported == t.filterHeight + s.offset
  {
  }

  /** Through a flight after quiet touchdowns, the error is the filter's now less its weighted error at take-off. */
  lemma ReportedErrorInFlight(k: Settings, s: State, ticks: seq<Tick>, truth: seq<real>, ground: real, n: nat,
      last: nat, j: nat)
    requires k.source.Anchored? && k.holdThroughFlight && Sized(s, n) && AllMatch(ticks, n) && Pinned(s, ground)
    requires last < j < |ticks| && ExactOn(ticks, truth, ground, n) && CountTo(ticks[last].stance, n) > 0
    requires forall m :: last < m <= j ==> CountTo(ticks[m].stance, n) == 0
    requires forall i :: 0 <= i <= last ==> Quiet(k, s, ticks, truth, n, i)
    ensures Report(k, StateAt(k, s, ticks, n, j), ticks[j], n).reported - truth[j]
         == Error(ticks[j], truth[j]) - Clamp(k.weight) * Error(ticks[last], truth[last])
  {
    ReportedErrorOnStance(k, s, ticks, truth, ground, n, last);
    FlightKeepsOffset(k, s, ticks, n, last + 1, j);
    FlightReport(k, StateAt(k, s, ticks, n, j), ticks[j], n);
  }

  // ---- the other height sources ----

  /**
   On flat ground, with the ground plane where it is configured to be or not: without anchors the
   kinematic height is off by how far the plane is off, the kinematic source reports just that, and
   the blend its share of it and of the filter's error.
   */
  lemma PlaneSourceOnStance(k: Settings, s: State, t: Tick, truth: real, ground: real, n: nat)
    requires (k.source.Kinematic? || k.source.Blend?) && Sized(s, n) && Matches(t, n) && CountTo(t.stance, n) > 0
    requires forall c :: 0 <= c < n && t.stance[c] ==> truth + t.relative[c] == ground
    ensures var out := Report(k, s, t, n);
            && out.kinematicValid && out.kinematic - truth == k.groundZ - ground
            && (k.source.Kinematic? ==> out.reported == out.kinematic)
            && (k.source.Blend? ==>
                  out.reported - truth == Error(t, truth) + Clamp(k.weight) * (out.kinematic - t.filterHeight))
            && NextState(k, s, t, n).offset == out.reported - t.filterHeight
            && NextState(k, s, t, n).anchors == s.anchors
  {
    var height, plane := truth + (k.groundZ - ground), Ground(k, s.anchors);
    assert AnchorsAfter(k, s, t, n) == s.anchors;
    SumIsExact(plane, t.relative, t.stance, n, height);
    MeanIsExact(SumTo(plane, t.relative, t.stance, n), CountTo(t.stance, n) as real, height);
  }

  /** The filter's own source is reported as it is, and nothing is kept. */
  lemma FilterSourceIsUntouched(k: Settings, s: State, t: Tick, n: nat)
    requires k.source.Inekf? && Sized(s, n) && Matches(t, n)
    ensures Report(k, s, t, n) == Output(false, 0.0, t.filterHeight) && NextState(k, s, t, n) == s
  {
  }

  /** In flight without the hold, or before any stance, the filter's height is reported. */
  lemma FlightWithoutHold(k: Settings, s: State, t: Tick, n: nat)
    requires !k.source.Inekf? && Sized(s, n) && Matches(t, n) && CountTo(t.stance, n) == 0
    requires !k.holdThroughFlight || !s.offsetValid
    ensures Report(k, s, t, n) == Output(false, 0.0, t.filterHeight)
  {
  }

  /** From seeding up to the first stance the filter's height is reported, hold or no hold. */
  lemma NothingIsHeldBeforeStance(k: Settings, heights: seq<real>, ticks: seq<Tick>, n: nat, j: nat)
    requires !k.source.Inekf? && |heights| == n && AllMatch(ticks, n) && j < |ticks|
    requires forall m :: 0 <= m <= j ==> CountTo(ticks[m].stance, n) == 0
    ensures Report(k, StateAt(k, Seeded(heights), ticks, n, j), ticks[j], n) ==
            Output(false, 0.0, ticks[j].filterHeight)
  {
    FlightKeepsOffset(k, Seeded(heights), ticks, n, 0, j);
    FlightWithoutHold(k, StateAt(k, Seeded(heights), ticks, n, j), ticks[j], n);
  }

  // ---- any terrain ----

  /** Where each contact truly stands, tick by tick; a contact that stays in stance stays where it is. */
  predicate Stands(ticks: seq<Tick>, truth: seq<real>, footholds: seq<seq<real>>, n: nat)
    requires AllMatch(ticks, n)
  {
    && |truth| == |footholds| == |ticks|
    && (forall i :: 0 <= i < |ticks| ==> |footholds[i]| == n)
    && (forall i, c :: 0 <= i < |ticks| && 0 <= c < n && ticks[i].stance[c] ==>
          truth[i] + ticks[i].relative[c] == footholds[i][c])
    && (forall i, c {:trigger footholds[i][c]} ::
          0 < i < |ticks| && 0 <= c < n && ticks[i].stance[c] && ticks[i - 1].stance[c] ==>
          footholds[i][c] == footholds[i - 1][c])
  }

  /** At every touchdown of the run the filter's height error is at most `e`. */
  predicate LandsNear(k: Settings, s: State, ticks: seq<Tick>, truth: seq<real>, n: nat, e: real)
    requires Sized(s, n) && AllMatch(ticks, n) && |truth| == |ticks|
  {
    forall i, c :: 0 <= i < |ticks| && 0 <= c < n && Touchdown(StateAt(k, s, ticks, n, i), ticks[i], c) ==>
      Abs(Error(ticks[i], truth[i])) <= e
  }

  /** How far off its anchor a landing may be measured without moving it. */
  function Deadband(k: Settings): real {
    if k.threshold < 0.0 then 0.0 else k.threshold
  }

  lemma TouchdownBound(k: Settings, s: State, t: Tick, truth: real, foothold: real, n: nat, c: nat, e: real)
    requires k.source.Anchored? && Sized(s, n) && Matches(t, n) && c < n
    requires Touchdown(s, t, c) && truth + t.relative[c] == foothold && Abs(Error(t, truth)) <= e
    ensures Abs(AnchorAfter(k, s, t, c) - foothold) <= Deadband(k) + e
  {
    assert t.filterHeight + t.relative[c] - foothold == Error(t, truth);
  }

  lemma WasInStance(k: Settings, s: State, ticks: seq<Tick>, n: nat, i: nat)
    requires k.source.Anchored? && Sized(s, n) && AllMatch(ticks, n) && i <= |ticks|
    ensures StateAt(k, s, ticks, n, i).wasInStance == if i == 0 then s.wasInStance else ticks[i - 1].stance
  {
  }

  /**
   On any terrain: the anchor of a contact in stance is off by at most the deadband and the filter's
   error at landing.
   */
  lemma {:induction false} AnchorBound(k: Settings, heights: seq<real>, ticks: seq<Tick>, truth: seq<real>,
                                       footholds: seq<seq<real>>,
                                       n: nat, e: real, i: nat, c: nat)
    requires k.source.Anchored? && |heights| == n && AllMatch(ticks, n)
    requires Stands(ticks, truth, footholds, n) && LandsNear(k, Seeded(heights), ticks, truth, n, e)
    requires i < |ticks| && c < n && ticks[i].stance[c]
    ensures Abs(StateAt(k, Seeded(heights), ticks, n, i + 1).anchors[c] - footholds[i][c]) <= Deadband(k) + e
  {
    var s := Seeded(heights);
    var before := StateAt(k, s, ticks, n, i);
    assert StateAt(k, s, ticks, n, i + 1).anchors[c] == AnchorAfter(k, before, ticks[i], c);
    WasInStance(k, s, ticks, n, i);
    if Touchdown(before, ticks[i], c) {
      TouchdownBound(k, before, ticks[i], truth[i], footholds[i][c], n, c, e);
    } else {
      AnchorBound(k, heights, ticks, truth, footholds, n, e, i - 1, c);
      assert footholds[i][c] == footholds[i - 1][c];
    }
  }

  /** Every stance contact puts the base at `lo` or higher. */
  lemma {:induction false} SumAtLeast(ground: seq<real>, relative: seq<real>, stance: seq<bool>, n: nat, lo: real)
    requires n <= |ground| && n <= |relative| && n <= |stance|
    requires forall c :: 0 <= c < n && stance[c] ==> lo <= ground[c] - relative[c]
    ensures (CountTo(stance, n) as real) * lo <= SumTo(ground, relative, stance, n)
  {
    if n > 0 {
      SumAtLeast(ground, relative, stance, n - 1, lo);
      if stance[n - 1] {
        assert (CountTo(stance, n) as real) * lo == (CountTo(stance, n - 1) as real) * lo + lo;
      }
    }
  }

  lemma {:induction false} SumAtMost(ground: seq<real>, relative: seq<real>, stance: seq<bool>, n: nat, hi: real)
    requires n <= |ground| && n <= |relative| && n <= |stance|
    requires forall c :: 0 <= c < n && stance[c] ==> ground[c] - relative[c] <= hi
    ensures SumTo(ground, relative, stance, n) <= (CountTo(stance, n) as real) * hi
  {
    if n > 0 {
      SumAtMost(ground, relative, stance, n - 1, hi);
      if stance[n - 1] {
        assert (CountTo(stance, n) as real) * hi == (CountTo(stance, n - 1) as real) * hi + hi;
      }
    }
  }

  lemma MeanIsBetween(sum: real, count: real, lo: real, hi: real)
    requires count > 0.0 && count * lo <= sum <= count * hi
    ensures lo <= sum / count <= hi
  {
    assert count * lo / count == lo && count * hi / count == hi;
  }

  lemma HeightIsNear(k: Settings, anchors: seq<real>, t: Tick, n: nat, truth: real, b: real)
    requires k.source.Anchored? && |anchors| == n && Matches(t, n) && CountTo(t.stance, n) > 0
    requires forall c :: 0 <= c < n && t.stance[c] ==> truth - b <= anchors[c] - t.relative[c] <= truth + b
    ensures truth - b <= KinematicHeight(k, anchors, t, n) <= truth + b
  {
    SumAtLeast(anchors, t.relative, t.stance, n, truth - b);
    SumAtMost(anchors, t.relative, t.stance, n, truth + b);
    MeanIsBetween(SumTo(anchors, t.relative, t.stance, n), CountTo(t.stance, n) as real, truth - b, truth + b);
  }

  /**
   On any terrain, with the filter's error at most `e` at every touchdown, every stance tick's
   kinematic height is within the deadband plus `e` of the true height.
   */
  lemma KinematicBound(k: Settings, heights: seq<real>, ticks: seq<Tick>, truth: seq<real>, footholds: seq<seq<real>>,
                       n: nat, e: real, i: nat)
    requires k.source.Anchored? && |heights| == n && AllMatch(ticks, n)
    requires Stands(ticks, truth, footholds, n) && LandsNear(k, Seeded(heights), ticks, truth, n, e)
    requires i < |ticks| && CountTo(ticks[i].stance, n) > 0
    ensures var out := Report(k, StateAt(k, Seeded(heights), ticks, n, i), ticks[i], n);
            out.kinematicValid && Abs(out.kinematic - truth[i]) <= Deadband(k) + e
  {
    var s, t := Seeded(heights), ticks[i];
    var anchors := AnchorsAfter(k, StateAt(k, s, ticks, n, i), t, n);
    assert StateAt(k, s, ticks, n, i + 1).anchors == anchors;
    var b := Deadband(k) + e;
    forall c | 0 <= c < n && t.stance[c]
      ensures truth[i] - b <= anchors[c] - t.relative[c] <= truth[i] + b
    {
      AnchorBound(k, heights, ticks, truth, footholds, n, e, i, c);
    }
    HeightIsNear(k, anchors, t, n, truth[i], b);
  }

  // ---- seeding ----

  /** Heights of the contacts with the base at `height`. */
  function Raised(height: real, relative: seq<real>): (heights: seq<real>)
    ensures |heights| == |relative|
    ensures forall c :: 0 <= c < |relative| ==> heights[c] == height + relative[c]
  {
    seq(|relative|, c requires 0 <= c < |relative| => height + relative[c])
  }

  function Total(heights: seq<real>, n: nat): real
    requires n <= |heights|
  {
    if n == 0 then 0.0 else Total(heights, n - 1) + heights[n - 1]
  }

  lemma {:induction false} TotalRaised(height: real, relative: seq<real>, n: nat)
    requires n <= |relative|
    ensures Total(Raised(height, relative), n) == (n as real) * height + Total(relative, n)
  {
    if n > 0 {
      TotalRaised(height, relative, n - 1);
      assert (n as real) * height == ((n - 1) as real) * height + height;
    }
  }

  lemma {:induction false} TotalOfEqual(relative: seq<real>, n: nat, r: real)
    requires n <= |relative| && forall c :: 0 <= c < n ==> relative[c] == r
    ensures Total(relative, n) == (n as real) * r
  {
    if n > 0 {
      TotalOfEqual(relative, n - 1, r);
      assert (n as real) * r == ((n - 1) as real) * r + r;
    }
  }

  /** The height that stance seeding gives the base: the contacts' mean lands on the ground plane. */
  predicate SeedsOnGround(height: real, relative: seq<real>, groundZ: real) {
    Total(Raised(height, relative), |relative|) == (|relative| as real) * groundZ
  }

  /** When the contacts are level, every anchor is seeded exactly on the ground plane. */
  lemma LevelSeedIsPinned(height: real, relative: seq<real>, groundZ: real, r: real)
    requires relative != [] && SeedsOnGround(height, relative, groundZ)
    requires forall c :: 0 <= c < |relative| ==> relative[c] == r
    ensures Pinned(Seeded(Raised(height, relative)), groundZ)
  {
    TotalRaised(height, relative, |relative|);
    TotalOfEqual(relative, |relative|, r);
    var n := |relative| as real;
    assert n * height + n * r == n * (height + r);
    MeanIsExact(n * groundZ, n, height + r);
    MeanIsExact(n * groundZ, n, groundZ);
  }

  // ---- the object ----

  class Conditioner {
    const k: Settings
    const n: nat
    const anchors: array<real>
    const wasInStance: array<bool>
    var offset: real
    var offsetValid: bool
    var initialized: bool

    ghost predicate Valid() {
      anchors.Length == wasInStance.Length == n
    }

    ghost function Value(): (s: State)
      requires Valid()
      reads this, anchors, wasInStance
      ensures Sized(s, n)
    {
      State(anchors[..], wasInStance[..], offset, offsetValid)
    }

    constructor (k: Settings, n: nat)
      ensures Valid() && !initialized && fresh(anchors) && fresh(wasInStance) && this.k == k && this.n == n
    {
      this.k, this.n := k, n;
      anchors := new real[n](_ => k.groundZ);
      wasInStance := new bool[n](_ => false);
      offset, offsetValid, initialized := 0.0, false, false;
    }

    /** `initialize`, at this base height. */
    method Initialize(baseHeight: real, relative: seq<real>)
      requires Valid() && |relative| == n
      modifies this, anchors, wasInStance
      ensures initialized && Value() == Seeded(Raised(baseHeight, relative)).(offset := offset)
    {
      for c := 0 to n
        invariant forall i :: 0 <= i < c ==> anchors[i] == baseHeight + relative[i] && !wasInStance[i]
      {
        anchors[c] := baseHeight + relative[c];
        wasInStance[c] := false;
      }
      assert anchors[..] == Raised(baseHeight, relative);
      offsetValid := false;
      initialized := true;
    }

    /** `initializeFromStance`. */
    method InitializeFromStance(relative: seq<real>)
      requires Valid() && |relative| == n
      modifies this, anchors, wasInStance
      ensures initialized && !offsetValid
      ensures exists height ::
        Value() == Seeded(Raised(height, relative)).(offset := offset) && SeedsOnGround(height, relative, k.groundZ)
    {
      var sum := 0.0;
      for c := 0 to n
        invariant sum == (c as real) * k.groundZ - Total(relative, c)
      {
        assert ((c + 1) as real) * k.groundZ == (c as real) * k.groundZ + k.groundZ;
        sum := sum + (k.groundZ - relative[c]);
      }
      var height := if n == 0 then 0.0 else sum / (n as real);
      TotalRaised(height, relative, n);
      Initialize(height, relative);
      assert SeedsOnGround(height, relative, k.groundZ);
    }

    /** `kinematicBaseHeight`: one pass over the contacts moves the anchors and adds up the heights. */
    method KinematicBaseHeight(t: Tick) returns (valid: bool, height: real)
      requires Valid() && Matches(t, n)
      modifies anchors, wasInStance
      ensures anchors[..] == AnchorsAfter(k, old(Value()), t, n) && wasInStance[..] == t.stance
      ensures valid == (CountTo(t.stance, n) > 0)
      ensures valid ==> height == KinematicHeight(k, anchors[..], t, n)
    {
      var sum, count := 0.0, 0;
      ghost var before := Value();
      ghost var after := AnchorsAfter(k, before, t, n);
      for c := 0 to n
        invariant forall i :: 0 <= i < c ==> anchors[i] == after[i] && wasInStance[i] == t.stance[i]
        invariant forall i :: c <= i < n ==> anchors[i] == before.anchors[i] && wasInStance[i] == before.wasInStance[i]
        invariant sum == SumTo(Ground(k, after), t.relative, t.stance, c) && count == CountTo(t.stance, c)
      {
        var inStance := t.stance[c];
        if k.source.Anchored? && inStance && !wasInStance[c] {
          var measured := t.filterHeight + t.relative[c];
          if Abs(measured - anchors[c]) > k.threshold {
            anchors[c] := measured;
          }
        }
        wasInStance[c] := inStance;
        if inStance {
          var ground := if k.source.Anchored? then anchors[c] else k.groundZ;
          sum := sum + (ground - t.relative[c]);
          count := count + 1;
        }
      }
      assert anchors[..] == after && wasInStance[..] == t.stance;
      valid := count != 0;
      height := if valid then sum / (count as real) else 0.0;
    }

    /** The height conditioning of `updateImpl`; before `initialize` there is no estimate. */
    method Update(t: Tick) returns (valid: bool, out: Output)
      requires Valid() && Matches(t, n)
      modifies this, anchors, wasInStance
      ensures valid == old(initialized) && initialized == old(initialized)
      ensures valid ==> Value() == NextState(k, old(Value()), t, n) && out == Report(k, old(Value()), t, n)
      ensures !valid ==> Value() == old(Value())
    {
      out := Output(false, 0.0, t.filterHeight);
      valid := initialized;
      if !initialized || k.source.Inekf? {
        return;
      }
      var found, kinematic := KinematicBaseHeight(t);
      if found {
        var reported := kinematic;
        if !k.source.Kinematic? {
          var w := Clamp(k.weight);
          reported := (1.0 - w) * t.filterHeight + w * kinematic;
        }
        out := Output(true, kinematic, reported);
        offset, offsetValid := reported - t.filterHeight, true;
      } else if k.holdThroughFlight && offsetValid {
        out := Output(false, 0.0, t.filterHeight + offset);
      }
    }
  }
}
