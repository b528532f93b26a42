/**
 Which calls of the recorders become samples: at most one a period, counted from the sample
 before, whatever the times of the calls.
 */
module DiagnosticsSampling {
  /** When the next sample is due; negative before the first. */
  datatype Gate = Gate(open: bool, next: real)

  predicate Takes(g: Gate, time: real) {
    g.open && !(g.next >= 0.0 && time < g.next)
  }

  /** The gate after a call at `time`. */
  function Called(g: Gate, period: real, time: real): Gate {
    if Takes(g, time) then g.(next := time + period) else g
  }

  /** The gate after the first `n` calls. */
  function After(g: Gate, period: real, times: seq<real>, n: nat): Gate
    requires n <= |times|
  {
    if n == 0 then g else Called(After(g, period, times, n - 1), period, times[n - 1])
  }

  /** Call `k` of the run is a sample. */
  predicate Sampled(g: Gate, period: real, times: seq<real>, k: nat)
    requires k < |times|
  {
    Takes(After(g, period, times, k), times[k])
  }

  function CountSamples(g: Gate, period: real, times: seq<real>, i: nat, j: nat): nat
    requires i <= j <= |times|
    decreases j - i
  {
    if i == j then 0
    else CountSamples(g, period, times, i, j - 1) + if Sampled(g, period, times, j - 1) then 1 else 0
  }

  /** `n` periods. */
  function Periods(n: nat, period: real): real {
    if n == 0 then 0.0 else Periods(n - 1, period) + period
  }

  lemma {:induction false} PeriodsArePositive(n: nat, period: real)
    requires period > 0.0
    ensures Periods(n, period) >= 0.0
  {
    if n > 0 {
      PeriodsArePositive(n - 1, period);
    }
  }

  /** From a sample on, the gate holds the time of the last sample, which is that many periods later. */
  lemma {:induction false} SamplesAdvance(g: Gate, period: real, times: seq<real>, i: nat, j: nat)
    requires i < j <= |times| && g.open && Sampled(g, period, times, i)
    requires period > 0.0 && times[i] >= 0.0
    ensures After(g, period, times, j).open
    ensures After(g, period, times, j).next >= times[i] + Periods(CountSamples(g, period, times, i, j), period)
    decreases j - i
  {
    if j == i + 1 {
      StaysOpen(g, period, times, i);
      assert CountSamples(g, period, times, i, i) == 0;
    } else {
      SamplesAdvance(g, period, times, i, j - 1);
      PeriodsArePositive(CountSamples(g, period, times, i, j - 1), period);
    }
  }

  lemma {:induction false} StaysOpen(g: Gate, period: real, times: seq<real>, n: nat)
    requires n <= |times|
    ensures After(g, period, times, n).open == g.open
  {
    if n > 0 {
      StaysOpen(g, period, times, n - 1);
    }
  }

  /**
   The rate is kept: between two samples, the first at a nonnegative time, lie at least as many
   periods as there are samples from the one to just before the other. Calls may come at any times.
   */
  lemma RateIsKept(g: Gate, period: real, times: seq<real>, i: nat, j: nat)
    requires i < j < |times| && period > 0.0 && times[i] >= 0.0
    requires Sampled(g, period, times, i) && Sampled(g, period, times, j)
    ensures times[j] >= times[i] + Periods(CountSamples(g, period, times, i, j), period)
  {
    StaysOpen(g, period, times, i);
    SamplesAdvance(g, period, times, i, j);
    PeriodsArePositive(CountSamples(g, period, times, i, j), period);
  }

  /** Nothing later than a period after the last sample is skipped, so a late call does not make the next one later. */
  lemma {:induction false} LateCallsAreSampled(g: Gate, period: real, times: seq<real>, i: nat, j: nat)
    requires i < j < |times| && Sampled(g, period, times, i)
    requires forall k :: i < k < j ==> !Sampled(g, period, times, k)
    requires times[j] >= times[i] + period
    ensures Sampled(g, period, times, j)
  {
    StaysOpen(g, period, times, i);
    NothingChanges(g, period, times, i, j);
  }

  lemma {:induction false} NothingChanges(g: Gate, period: real, times: seq<real>, i: nat, j: nat)
    requires i < j <= |times| && Sampled(g, period, times, i)
    requires forall k :: i < k < j ==> !Sampled(g, period, times, k)
    ensures After(g, period, times, j) == Gate(g.open, times[i] + period)
    decreases j - i
  {
    StaysOpen(g, period, times, i);
    if i + 1 < j {
      NothingChanges(g, period, times, i, j - 1);
      assert !Sampled(g, period, times, j - 1);
    }
  }

  /** The part of a recorder that decides whether a call becomes a row. */
  class Sampler {
    const enabled: bool
    const rate: real
    var open: bool
    var next: real

    function Value(): Gate
      reads this
    {
      Gate(enabled && open, next)
    }

    function Period(): (p: real)
      ensures p > 0.0 && (rate >= 1.0 ==> p * rate == 1.0)
    {
      1.0 / (if rate < 1.0 then 1.0 else rate)
    }

    constructor (enabled: bool, rate: real)
      ensures this.enabled == enabled && this.rate == rate && !open
    {
      this.enabled, this.rate := enabled, rate;
      open, next := false, -1.0;
    }

    /** `start`: the log is opened and the first call is a sample. */
    method Start()
      modifies this
      ensures Value() == (if enabled then Gate(true, -1.0) else old(Value()))
    {
      if !enabled {
        return;
      }
      open, next := true, -1.0;
    }

    method Stop()
      modifies this
      ensures Value() == old(Value()).(open := false)
    {
      open := false;
    }

    /** The head of `recordState` and of `recordCost`. */
    method Due(time: real) returns (due: bool)
      modifies this
      ensures due == Takes(old(Value()), time) && Value() == Called(old(Value()), Period(), time)
    {
      if !enabled || !open {
        return false;
      }
      var period := Period();
      if next >= 0.0 && time < next {
        return false;
      }
      next := time + period;
      due := true;
    }
  }
}
