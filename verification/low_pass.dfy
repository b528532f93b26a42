/** The variable-rate low-pass filter: its weight depends on the time since the last call. */
module LowPass {
  import opened Basics

  datatype State = State(y: seq<real>, last: real, initialized: bool)

  datatype Call = Call(x: seq<real>, time: real)

  function Mixed(alpha: real, x: seq<real>, y: seq<real>): (z: seq<real>)
    requires |x| == |y|
    ensures |z| == |y| && forall i :: 0 <= i < |z| ==> z[i] == alpha * x[i] + (1.0 - alpha) * y[i]
  {
    seq(|y|, i requires 0 <= i < |y| => alpha * x[i] + (1.0 - alpha) * y[i])
  }

  /** The first call, or one with time gone backwards, only restarts the clock. */
  predicate Restarts(s: State, time: real) {
    !s.initialized || time < s.last
  }

  /** How long the filter remembers: for ever with a break frequency of zero, else a time constant. */
  datatype Memory = Endless | Lasting(tau: real)

  /** A positive time constant; a negative break frequency gives a negative one. */
  predicate Fades(m: Memory) {
    m.Lasting? ==> m.tau > 0.0
  }

  /** The call divides by no zero. */
  predicate Defined(s: State, m: Memory, time: real) {
    Restarts(s, time) || m.Endless? || time - s.last + m.tau != 0.0
  }

  function Alpha(dt: real, tau: real): real
    requires dt + tau != 0.0
  {
    dt / (dt + tau)
  }

  function Step(s: State, m: Memory, c: Call): (t: State)
    requires Defined(s, m, c.time) && |c.x| == |s.y|
    ensures |t.y| == |s.y| && t.last == c.time && t.initialized
  {
    if Restarts(s, c.time) || m.Endless? then State(s.y, c.time, true)
    else State(Mixed(Alpha(c.time - s.last, m.tau), c.x, s.y), c.time, true)
  }

  predicate Sized(calls: seq<Call>, n: nat) {
    forall k :: 0 <= k < |calls| ==> |calls[k].x| == n
  }

  /** The state after the first `n` calls. */
  function After(s: State, m: Memory, calls: seq<Call>, n: nat): (t: State)
    requires Fades(m) && Sized(calls, |s.y|) && n <= |calls|
    ensures |t.y| == |s.y|
  {
    if n == 0 then s else Step(After(s, m, calls, n - 1), m, calls[n - 1])
  }

  lemma AlphaIsWeight(dt: real, tau: real)
    requires dt >= 0.0 && tau > 0.0
    ensures 0.0 <= Alpha(dt, tau) < 1.0
    ensures (dt + tau) * (1.0 - Alpha(dt, tau)) == tau
  {
    Fractional(dt, dt + tau);
  }

  lemma Fractional(a: real, b: real)
    requires 0.0 <= a < b
    ensures 0.0 <= a / b < 1.0 && b * (1.0 - a / b) == b - a
  {
    assert b / b == 1.0;
  }

  lemma NotNegative(a: real, b: real)
    requires a >= 0.0 && b >= 0.0
    ensures a * b >= 0.0
  {
  }

  lemma MixIsBetween(a: real, x: real, y: real, lo: real, hi: real)
    requires 0.0 <= a <= 1.0 && lo <= x <= hi && lo <= y <= hi
    ensures lo <= a * x + (1.0 - a) * y <= hi
  {
    NotNegative(a, x - lo);
    NotNegative(1.0 - a, y - lo);
    NotNegative(a, hi - x);
    NotNegative(1.0 - a, hi - y);
    assert a * x + (1.0 - a) * y - lo == a * (x - lo) + (1.0 - a) * (y - lo);
    assert hi - (a * x + (1.0 - a) * y) == a * (hi - x) + (1.0 - a) * (hi - y);
  }

  predicate InHull(v: seq<real>, i: nat, lo: real, hi: real)
    requires i < |v|
  {
    lo <= v[i] <= hi
  }

  /** For any call times, forwards or backwards: outputs stay between what the filter started with and was given. */
  lemma {:induction false} OutputsStayInHull(s: State, m: Memory, calls: seq<Call>, n: nat, i: nat, lo: real,
                                               hi: real)
    requires Fades(m) && Sized(calls, |s.y|) && n <= |calls| && i < |s.y|
    requires InHull(s.y, i, lo, hi) && forall k :: 0 <= k < n ==> InHull(calls[k].x, i, lo, hi)
    ensures InHull(After(s, m, calls, n).y, i, lo, hi)
  {
    if n > 0 {
      OutputsStayInHull(s, m, calls, n - 1, i, lo, hi);
      var before, c := After(s, m, calls, n - 1), calls[n - 1];
      if !Restarts(before, c.time) && m.Lasting? {
        var a := Alpha(c.time - before.last, m.tau);
        AlphaIsWeight(c.time - before.last, m.tau);
        assert InHull(c.x, i, lo, hi);
        MixIsBetween(a, c.x[i], before.y[i], lo, hi);
      }
    }
  }

  /** One call keeps every entry between what it was and what it is given, wherever it is defined. */
  ghost predicate KeepsHull(m: Memory) {
    forall s: State, c: Call, i: nat, lo: real, hi: real ::
      Defined(s, m, c.time) && |c.x| == |s.y| && i < |s.y| && InHull(s.y, i, lo, hi) && InHull(c.x, i, lo, hi) ==>
        InHull(Step(s, m, c).y, i, lo, hi)
  }

  /** With a negative time constant a call may step past its input: twice the way to it, after twice the constant. */
  lemma NegativeOvershoots(m: Memory)
    requires m.Lasting? && m.tau < 0.0
    ensures !KeepsHull(m)
  {
    var s, c := State([0.0], 0.0, true), Call([1.0], -2.0 * m.tau);
    assert Alpha(c.time, m.tau) == 2.0 by {
      Twice(m.tau);
    }
    assert InHull(s.y, 0, 0.0, 1.0) && InHull(c.x, 0, 0.0, 1.0) && !InHull(Step(s, m, c).y, 0, 0.0, 1.0);
  }

  lemma Twice(tau: real)
    requires tau != 0.0
    ensures (-2.0 * tau) / (-2.0 * tau + tau) == 2.0
  {
    assert -2.0 * tau + tau == -tau;
  }

  /** The exact condition: no call overshoots if and only if the break frequency is not negative. */
  lemma KeepsHullExactlyWhenFading(m: Memory)
    requires m.Lasting? ==> m.tau != 0.0
    ensures KeepsHull(m) <==> Fades(m)
  {
    if Fades(m) {
      forall s: State, c: Call, i: nat, lo: real, hi: real
        | Defined(s, m, c.time) && |c.x| == |s.y| && i < |s.y| && InHull(s.y, i, lo, hi) && InHull(c.x, i, lo, hi)
        ensures InHull(Step(s, m, c).y, i, lo, hi)
      {
        if !Restarts(s, c.time) && m.Lasting? {
          var dt := c.time - s.last;
          AlphaIsWeight(dt, m.tau);
          MixIsBetween(Alpha(dt, m.tau), c.x[i], s.y[i], lo, hi);
        }
      }
    } else {
      NegativeOvershoots(m);
    }
  }

  // ---- convergence ----

  /** Times do not go backwards from `from` on. */
  predicate Ordered(calls: seq<Call>, from: real) {
    && (forall k :: 0 <= k < |calls| ==> from <= calls[k].time)
    && (forall j, k :: 0 <= j <= k < |calls| ==> calls[j].time <= calls[k].time)
  }

  /** Each call multiplies the error by the weight it keeps: no overshoot, never larger. */
  lemma ErrorShrinks(a: real, x: real, y: real, tau: real, dt: real)
    requires dt >= 0.0 && tau > 0.0 && a == Alpha(dt, tau)
    ensures var z := a * x + (1.0 - a) * y;
            (dt + tau) * (z - x) == tau * (y - x)
  {
    AlphaIsWeight(dt, tau);
    assert a * x + (1.0 - a) * y - x == (1.0 - a) * (y - x);
    assert (dt + tau) * ((1.0 - a) * (y - x)) == ((dt + tau) * (1.0 - a)) * (y - x);
  }

  lemma AbsScales(w: real, e: real)
    requires w >= 0.0
    ensures Abs(w * e) == w * Abs(e)
  {
    if e < 0.0 {
      assert w * -e == -(w * e) && w * -e >= 0.0;
    } else {
      assert w * e >= 0.0;
    }
  }

  /** The bound for `t` elapsed carries over to `dt` more. */
  lemma BoundCarries(tau: real, t: real, dt: real, e0: real, e: real, e1: real)
    requires tau > 0.0 && t >= 0.0 && dt >= 0.0 && e >= 0.0 && e1 >= 0.0
    requires (tau + t) * e <= tau * e0 && (dt + tau) * e1 == tau * e
    ensures (tau + (t + dt)) * e1 <= tau * e0
  {
    KeptIsNoLarger(tau, dt, e, e1);
    assert t * e1 <= t * e;
    assert (tau + (t + dt)) * e1 == (dt + tau) * e1 + t * e1;
    assert (tau + t) * e == tau * e + t * e;
  }

  lemma QuotientNotNegative(p: real, d: real, q: real)
    requires d > 0.0 && p >= 0.0 && d * q == p
    ensures q >= 0.0
  {
    assert q == p / d;
  }

  lemma KeptIsNoLarger(tau: real, dt: real, e: real, e1: real)
    requires tau > 0.0 && dt >= 0.0 && e1 >= 0.0 && (dt + tau) * e1 == tau * e
    ensures e1 <= e
  {
    NotNegative(dt, e1);
    QuotientNotNegative(dt * e1, tau, e - e1);
  }

  /** The clock after the first `n` calls. */
  function Clock(from: real, calls: seq<Call>, n: nat): real
    requires n <= |calls|
  {
    if n == 0 then from else calls[n - 1].time
  }

  lemma {:induction false} ClockRuns(s: State, tau: real, calls: seq<Call>, n: nat)
    requires tau > 0.0 && s.initialized && Sized(calls, |s.y|) && n <= |calls| && Ordered(calls, s.last)
    ensures var t := After(s, Lasting(tau), calls, n);
            t.initialized && t.last == Clock(s.last, calls, n) >= s.last
    ensures n < |calls| ==> Clock(s.last, calls, n) <= calls[n].time
  {
    if n > 0 {
      ClockRuns(s, tau, calls, n - 1);
      assert After(s, Lasting(tau), calls, n) == Step(After(s, Lasting(tau), calls, n - 1), Lasting(tau), calls[n - 1]);
    }
  }

  /** An error `e` is at most tau / h of `e0`. */
  predicate Bounded(tau: real, h: real, e: real, e0: real) {
    h * e <= tau * e0
  }

  predicate Kept(tau: real, dt: real, e: real, e1: real) {
    (dt + tau) * e1 == tau * e
  }

  /** From entry `k` to the next, time does not go back and the error keeps its share. */
  predicate KeptAt(tau: real, times: seq<real>, errors: seq<real>, k: nat)
    requires k + 1 < |times| == |errors|
  {
    && times[k] <= times[k + 1] && errors[k] >= 0.0 && errors[k + 1] >= 0.0
    && Kept(tau, times[k + 1] - times[k], errors[k], errors[k + 1])
  }

  lemma OneMoreKept(tau: real, times: seq<real>, errors: seq<real>, k: nat)
    requires tau > 0.0 && k + 1 < |times| == |errors| && times[0] <= times[k] && KeptAt(tau, times, errors, k)
    requires Bounded(tau, tau + (times[k] - times[0]), errors[k], errors[0])
    ensures Bounded(tau, tau + (times[k + 1] - times[0]), errors[k + 1], errors[0])
  {
    BoundCarries(tau, times[k] - times[0], times[k + 1] - times[k], errors[0], errors[k], errors[k + 1]);
  }

  lemma {:induction false} SplitsAreBounded(tau: real, times: seq<real>, errors: seq<real>, n: nat)
    requires tau > 0.0 && n < |times| == |errors| && forall k :: 0 <= k < n ==> KeptAt(tau, times, errors, k)
    ensures times[0] <= times[n] && Bounded(tau, tau + (times[n] - times[0]), errors[n], errors[0])
  {
    if n > 0 {
      SplitsAreBounded(tau, times, errors, n - 1);
      assert KeptAt(tau, times, errors, n - 1);
      OneMoreKept(tau, times, errors, n - 1);
    }
  }

  lemma StepKeeps(s: State, t: State, tau: real, c: Call, i: nat, x: real)
    requires tau > 0.0 && s.initialized && |c.x| == |s.y| && i < |s.y| && c.x[i] == x && s.last <= c.time
    requires t == Step(s, Lasting(tau), c)
    ensures Kept(tau, c.time - s.last, Abs(s.y[i] - x), Abs(t.y[i] - x))
  {
    var dt := c.time - s.last;
    ErrorShrinks(Alpha(dt, tau), x, s.y[i], tau, dt);
    AbsScales(dt + tau, t.y[i] - x);
    AbsScales(tau, s.y[i] - x);
  }

  /** What one call leaves of the error, `dt` after the one before. */
  lemma RunKeeps(s: State, tau: real, calls: seq<Call>, i: nat, x: real, k: nat) returns (dt: real, e: real, e1: real)
    requires tau > 0.0 && s.initialized && Sized(calls, |s.y|) && k < |calls| && i < |s.y| && Ordered(calls, s.last)
    requires calls[k].x[i] == x
    ensures dt == Clock(s.last, calls, k + 1) - Clock(s.last, calls, k) >= 0.0
    ensures e == Abs(After(s, Lasting(tau), calls, k).y[i] - x)
    ensures e1 == Abs(After(s, Lasting(tau), calls, k + 1).y[i] - x)
    ensures Kept(tau, dt, e, e1)
  {
    ClockRuns(s, tau, calls, k);
    var before, after := After(s, Lasting(tau), calls, k), After(s, Lasting(tau), calls, k + 1);
    dt, e, e1 := calls[k].time - before.last, Abs(before.y[i] - x), Abs(after.y[i] - x);
    StepKeeps(before, after, tau, calls[k], i, x);
  }

  lemma KeptAppends(tau: real, times: seq<real>, errors: seq<real>, time: real, error: real, dt: real, e: real)
    requires |times| == |errors| >= 1 && forall k :: 0 <= k < |times| - 1 ==> KeptAt(tau, times, errors, k)
    requires dt == time - times[|times| - 1] && dt >= 0.0 && e == errors[|errors| - 1] && e >= 0.0 && error >= 0.0
    requires Kept(tau, dt, e, error)
    ensures forall k :: 0 <= k < |times| ==> KeptAt(tau, times + [time], errors + [error], k)
  {
    forall k | 0 <= k < |times|
      ensures KeptAt(tau, times + [time], errors + [error], k)
    {
      if k < |times| - 1 {
        assert KeptAt(tau, times, errors, k);
      }
    }
  }

  /** The times and errors of a run, one entry per call. */
  lemma {:induction false} ErrorPath(s: State, tau: real, calls: seq<Call>, n: nat, i: nat, x: real)
    returns (times: seq<real>, errors: seq<real>)
    requires tau > 0.0 && s.initialized && Sized(calls, |s.y|) && n <= |calls| && i < |s.y| && Ordered(calls, s.last)
    requires forall k :: 0 <= k < n ==> calls[k].x[i] == x
    ensures |times| == |errors| == n + 1 && forall k :: 0 <= k < n ==> KeptAt(tau, times, errors, k)
    ensures times[0] == s.last && times[n] == Clock(s.last, calls, n)
    ensures errors[0] == Abs(s.y[i] - x) && errors[n] == Abs(After(s, Lasting(tau), calls, n).y[i] - x)
  {
    if n == 0 {
      times, errors := [s.last], [Abs(s.y[i] - x)];
    } else {
      times, errors := ErrorPath(s, tau, calls, n - 1, i, x);
      var dt, e, error := RunKeeps(s, tau, calls, i, x, n - 1);
      KeptAppends(tau, times, errors, calls[n - 1].time, error, dt, e);
      times, errors := times + [calls[n - 1].time], errors + [error];
    }
  }

  /**
   With a constant input, however the elapsed time is split into calls, the error is at most
   tau / (tau + elapsed) of what it was.
   */
  lemma ErrorIsBounded(s: State, tau: real, calls: seq<Call>, n: nat, i: nat, x: real)
    requires tau > 0.0 && s.initialized && Sized(calls, |s.y|) && n <= |calls| && i < |s.y| && Ordered(calls, s.last)
    requires forall k :: 0 <= k < n ==> calls[k].x[i] == x
    ensures var e := Abs(After(s, Lasting(tau), calls, n).y[i] - x);
            Bounded(tau, tau + (Clock(s.last, calls, n) - s.last), e, Abs(s.y[i] - x))
  {
    var times, errors := ErrorPath(s, tau, calls, n, i, x);
    SplitsAreBounded(tau, times, errors, n);
  }

  /** A single call attains the bound, so no smaller one holds for every split. */
  lemma BoundIsAttained(s: State, tau: real, c: Call, i: nat)
    requires tau > 0.0 && s.initialized && |c.x| == |s.y| && i < |s.y| && s.last <= c.time
    ensures (tau + (c.time - s.last)) * Abs(Step(s, Lasting(tau), c).y[i] - c.x[i]) == tau * Abs(s.y[i] - c.x[i])
  {
    var dt := c.time - s.last;
    var z := Step(s, Lasting(tau), c).y[i];
    ErrorShrinks(Alpha(dt, tau), c.x[i], s.y[i], tau, dt);
    AbsScales(dt + tau, z - c.x[i]);
    AbsScales(tau, s.y[i] - c.x[i]);
  }

  // ---- the object ----

  class Filter {
    const memory: Memory
    var y: seq<real>
    var last: real
    var initialized: bool

    ghost function Value(): State
      reads this
    {
      State(y, last, initialized)
    }

    constructor (breakFrequency: real, twoPi: real, start: seq<real>)
      requires twoPi > 0.0
      ensures Value() == State(start, 0.0, false)
      ensures memory.Endless? <==> breakFrequency == 0.0
      ensures memory.Lasting? ==> memory.tau * (twoPi * breakFrequency) == 1.0
      ensures Fades(memory) <==> breakFrequency >= 0.0
    {
      var rate := twoPi * breakFrequency;
      memory := if rate == 0.0 then Endless else Lasting(1.0 / rate);
      y, last, initialized := start, 0.0, false;
      new;
      RateHasSign(twoPi, breakFrequency, rate);
    }

    method GetFilteredVector(x: seq<real>, time: real) returns (out: seq<real>)
      requires Defined(Value(), memory, time) && |x| == |y|
      modifies this
      ensures Value() == Step(old(Value()), memory, Call(x, time)) && out == y
    {
      if !initialized || time < last {
        initialized := true;
        last := time;
        return y;
      }
      var deltaTime := time - last;
      match memory {
        case Endless =>
        case Lasting(tau) => y := Mixed(deltaTime / (deltaTime + tau), x, y);
      }
      last := time;
      out := y;
    }

    method Reset(start: seq<real>)
      requires |start| == |y|
      modifies `y, `initialized
      ensures y == start && !initialized
    {
      y := start;
      initialized := false;
    }
  }

  lemma RateHasSign(twoPi: real, frequency: real, rate: real)
    requires twoPi > 0.0 && rate == twoPi * frequency
    ensures rate == 0.0 <==> frequency == 0.0
    ensures rate != 0.0 ==> (1.0 / rate) * rate == 1.0 && (1.0 / rate > 0.0 <==> frequency > 0.0)
  {
    if frequency > 0.0 {
      assert twoPi * frequency > 0.0;
    } else if frequency < 0.0 {
      assert twoPi * -frequency > 0.0;
    }
  }
}
