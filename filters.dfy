/** The smoothing filters of the tracking exercises: a sliding-window moving
    average, single and double exponential smoothing, a low-pass filter object
    and the One Euro filter built from two of them. Each filter keeps its own
    state (a buffer of recent measurements or "previous value" cells) and
    answers one measurement at a time. */
module Filters {
  import opened Wrappers
  import opened Vectors

  // ---------------------------------------------------------------------
  // Moving average

  /** The buffer after one call: the measurement is pushed at the end and, if
      the buffer is then longer than the window, the oldest entry is dropped
      (once). The window is a real, as the slider hands it over. */
  function Window(buffer: seq<Vec3>, x: Vec3, windowSize: real): (r: seq<Vec3>)
    ensures |r| == if (|buffer| + 1) as real > windowSize then |buffer| else |buffer| + 1
    ensures r == (buffer + [x])[|buffer| + 1 - |r|..]
    ensures |r| > 0 ==> r[|r| - 1] == x
  {
    var pushed := buffer + [x];
    if |pushed| as real > windowSize then pushed[1..] else pushed
  }

  /** The buffer after feeding `xs` one by one into an empty one. */
  function Feed(xs: seq<Vec3>, windowSize: real): seq<Vec3>
    decreases |xs|
  {
    if xs == [] then [] else Window(Feed(xs[..|xs| - 1], windowSize), xs[|xs| - 1], windowSize)
  }

  /** With a fixed window of at least one, the buffer never outgrows the
      window and holds the most recent inputs, oldest first: all of them
      while they fit, and otherwise as many as the window holds. */
  lemma {:induction false} FeedKeepsLatest(xs: seq<Vec3>, windowSize: real)
    requires windowSize >= 1.0
    ensures LatestFitting(xs, Feed(xs, windowSize), windowSize)
    ensures xs != [] ==> |Feed(xs, windowSize)| > 0
    decreases |xs|
  {
    if xs != [] {
      FeedKeepsLatest(xs[..|xs| - 1], windowSize);
      WindowKeepsLatest(xs, Feed(xs[..|xs| - 1], windowSize), windowSize);
    }
  }

  /** `buffer` is the longest suffix of `xs` that fits the window. */
  predicate LatestFitting(xs: seq<Vec3>, buffer: seq<Vec3>, windowSize: real) {
    |buffer| <= |xs|
    && |buffer| as real <= windowSize
    && (|buffer| == |xs| || (|buffer| + 1) as real > windowSize)
    && buffer == xs[|xs| - |buffer|..]
  }

  /** One call keeps the buffer the longest fitting suffix. */
  lemma WindowKeepsLatest(xs: seq<Vec3>, buffer: seq<Vec3>, windowSize: real)
    requires windowSize >= 1.0 && |xs| > 0 && LatestFitting(xs[..|xs| - 1], buffer, windowSize)
    ensures LatestFitting(xs, Window(buffer, xs[|xs| - 1], windowSize), windowSize)
    ensures |Window(buffer, xs[|xs| - 1], windowSize)| > 0
  {
    var init, x := xs[..|xs| - 1], xs[|xs| - 1];
    var k := |init| - |buffer|;
    assert buffer == init[k..];
    if (|buffer| + 1) as real > windowSize {
      ShiftedSuffix(xs, buffer, k);
    } else {
      assert |buffer| == |init| && k == 0;
      assert buffer + [x] == xs;
    }
  }

  lemma ShiftedSuffix(xs: seq<Vec3>, buffer: seq<Vec3>, k: nat)
    requires 0 < |buffer| && k + |buffer| + 1 == |xs| && buffer == xs[..|xs| - 1][k..]
    ensures (buffer + [xs[|xs| - 1]])[1..] == xs[k + 1..]
  {
  }

  /** `movingAverageDetections`, the buffer of the moving average. */
  class MovingAverage {
    var detections: seq<Vec3>

    constructor ()
      ensures detections == []
    {
      detections := [];
    }

    /** `applyMovingAverage(x, windowSize)`: updates the buffer and returns
        the mean of what it now holds. An empty buffer (window below one on
        the first call) would divide by zero and is excluded. */
    method Apply(x: Vec3, windowSize: real) returns (average: Vec3)
      requires |detections| > 0 || windowSize >= 1.0
      modifies this
      ensures detections == Window(old(detections), x, windowSize)
      ensures |detections| > 0 && average == Mean(detections)
    {
      detections := detections + [x];
      if |detections| as real > windowSize {
        detections := detections[1..];
      }
      var sum := Zero;
      var i := 0;
      while i < |detections|
        invariant 0 <= i <= |detections|
        invariant sum == Sum(detections[..i])
      {
        assert detections[..i + 1][..i] == detections[..i];
        sum := Add(sum, detections[i]);
        i := i + 1;
      }
      assert detections[..i] == detections;
      average := Scale(sum, 1.0 / (|detections| as real));
    }
  }

  /** The moving average of measurements from a box lies in the box, and a
      buffer of one repeated measurement averages to that measurement. */
  lemma AverageInBox(buffer: seq<Vec3>, x: Vec3, windowSize: real, lo: Vec3, hi: Vec3)
    requires |buffer| > 0 || windowSize >= 1.0
    requires AllInBox(buffer, lo, hi) && InBox(x, lo, hi)
    ensures |Window(buffer, x, windowSize)| > 0
    ensures InBox(Mean(Window(buffer, x, windowSize)), lo, hi)
  {
    var r := Window(buffer, x, windowSize);
    var pushed := buffer + [x];
    assert AllInBox(pushed, lo, hi) by {
      forall i | 0 <= i < |pushed| ensures InBox(pushed[i], lo, hi) {
        if i < |buffer| { assert pushed[i] == buffer[i]; }
      }
    }
    assert AllInBox(r, lo, hi) by {
      forall i | 0 <= i < |r| ensures InBox(r[i], lo, hi) {
        assert r[i] == pushed[|buffer| + 1 - |r| + i];
      }
    }
    MeanInBox(r, lo, hi);
  }

  // ---------------------------------------------------------------------
  // Single exponential smoothing and the low-pass filter

  /** One smoothing step with state `prev`: the first measurement is taken
      as it is; afterwards the previous value moves toward the measurement by
      the fraction `alpha`. Both the single exponential smoothing and the
      low-pass filter object follow this rule and store the result. */
  function Smoothed(prev: Option<Vec3>, x: Vec3, alpha: real): Vec3 {
    if prev.None? then x else Lerp(prev.value, x, alpha)
  }

  /** The first measurement is returned as it is; with `alpha == 1` every
      measurement is; with `alpha == 0` the previous value is kept; an input
      equal to the previous value is a fixed point. */
  lemma SmoothedCases(prev: Option<Vec3>, x: Vec3, alpha: real)
    ensures prev.None? ==> Smoothed(prev, x, alpha) == x
    ensures alpha == 1.0 ==> Smoothed(prev, x, alpha) == x
    ensures prev.Some? && alpha == 0.0 ==> Smoothed(prev, x, alpha) == prev.value
    ensures prev == Some(x) ==> Smoothed(prev, x, alpha) == x
  {
  }

  /** The smallest and the largest corner of the box two points span. */
  function Lower(u: Vec3, v: Vec3): Vec3 {
    Vec3(if u.x <= v.x then u.x else v.x, if u.y <= v.y then u.y else v.y, if u.z <= v.z then u.z else v.z)
  }

  function Upper(u: Vec3, v: Vec3): Vec3 {
    Vec3(if u.x <= v.x then v.x else u.x, if u.y <= v.y then v.y else u.y, if u.z <= v.z then v.z else u.z)
  }

  /** With `0 <= alpha <= 1` a smoothed value lies, on every axis, between
      the previous value and the measurement. */
  lemma SmoothedBetween(prev: Vec3, x: Vec3, alpha: real)
    requires 0.0 <= alpha <= 1.0
    ensures InBox(Smoothed(Some(prev), x, alpha), Lower(prev, x), Upper(prev, x))
  {
    LerpInBox(prev, x, alpha, Lower(prev, x), Upper(prev, x));
  }

  /** The state after smoothing the measurements `xs` one by one. */
  function SmoothAll(prev: Option<Vec3>, xs: seq<Vec3>, alpha: real): Option<Vec3>
    decreases |xs|
  {
    if xs == [] then prev else Some(Smoothed(SmoothAll(prev, xs[..|xs| - 1], alpha), xs[|xs| - 1], alpha))
  }

  /** Smoothing never leaves a box that holds the start value and every
      measurement, when `0 <= alpha <= 1`. */
  lemma {:induction false} SmoothAllInBox(prev: Option<Vec3>, xs: seq<Vec3>, alpha: real, lo: Vec3, hi: Vec3)
    requires 0.0 <= alpha <= 1.0
    requires prev.Some? ==> InBox(prev.value, lo, hi)
    requires AllInBox(xs, lo, hi)
    ensures var r := SmoothAll(prev, xs, alpha); r.Some? ==> InBox(r.value, lo, hi)
    ensures xs != [] ==> SmoothAll(prev, xs, alpha).Some?
    decreases |xs|
  {
    if xs != [] {
      var init := xs[..|xs| - 1];
      assert AllInBox(init, lo, hi) by {
        forall i | 0 <= i < |init| ensures InBox(init[i], lo, hi) {
          assert init[i] == xs[i];
        }
      }
      SmoothAllInBox(prev, init, alpha, lo, hi);
      var p := SmoothAll(prev, init, alpha);
      assert InBox(xs[|xs| - 1], lo, hi);
      if p.Some? {
        LerpInBox(p.value, xs[|xs| - 1], alpha, lo, hi);
      }
    }
  }

  /** `lastSEPositionVector`, the state of the single exponential smoothing. */
  class SingleExponential {
    var last: Option<Vec3>

    constructor ()
      ensures last == None
    {
      last := None;
    }

    /** `applySingleExponentialSmoothing(x, alpha)`: returns the smoothed
        value and records it as the new previous value. */
    method Apply(x: Vec3, alpha: real) returns (smoothed: Vec3)
      modifies this
      ensures smoothed == Smoothed(old(last), x, alpha)
      ensures last == Some(smoothed)
    {
      if last.None? {
        last := Some(x);
        return x;
      }
      smoothed := Lerp(last.value, x, alpha);
      last := Some(smoothed);
    }
  }

  /** `LowPassFilter`: the same rule held in an object's `prev` field. */
  class LowPassFilter {
    var prev: Option<Vec3>

    constructor ()
      ensures prev == None
    {
      prev := None;
    }

    /** `update(measurement, alpha)`: afterwards `prev` is the value just
        returned. */
    method Update(measurement: Vec3, alpha: real) returns (smoothed: Vec3)
      modifies this
      ensures smoothed == Smoothed(old(prev), measurement, alpha)
      ensures prev == Some(smoothed)
    {
      if prev.None? {
        prev := Some(measurement);
        return measurement;
      }
      smoothed := Lerp(prev.value, measurement, alpha);
      prev := Some(smoothed);
    }
  }

  // ---------------------------------------------------------------------
  // Double exponential smoothing

  /** `lastDEPositionVector` and `lastDEVelocityVector`. */
  datatype Trend = Trend(position: Option<Vec3>, velocity: Option<Vec3>)

  /** One double exponential step: the new state and the returned value.
      The first call records the measurement. The second one also starts the
      trend as the difference to the first measurement. Every later call
      predicts `position + velocity`, moves that toward the measurement by
      `alpha`, stores it as the position and then moves the velocity by
      `beta` toward the difference between the stored position and itself. */
  function DoubleSmoothed(s: Trend, x: Vec3, alpha: real, beta: real): (Trend, Vec3) {
    if s.position.None? then (s.(position := Some(x)), x)
    else
      var velocity := if s.velocity.None? then Sub(x, s.position.value) else s.velocity.value;
      var smoothed := Lerp(Add(s.position.value, velocity), x, alpha);
      var newPosition := smoothed;
      (Trend(Some(newPosition), Some(Lerp(velocity, Sub(smoothed, newPosition), beta))), smoothed)
  }

  /** The first call returns its input; the second one returns its input
      too, since the fresh trend leads exactly to it. */
  lemma DoubleFirstCalls(s: Trend, x: Vec3, alpha: real, beta: real)
    ensures s.position.None? ==> DoubleSmoothed(s, x, alpha, beta).1 == x
    ensures s.position.None? ==> DoubleSmoothed(s, x, alpha, beta).0.position == Some(x)
    ensures s.position.Some? && s.velocity.None? ==> DoubleSmoothed(s, x, alpha, beta).1 == x
  {
    if s.position.Some? && s.velocity.None? {
      var p := s.position.value;
      assert Add(p, Sub(x, p)) == x;
    }
  }

  /** Once there is a previous position, the result is the prediction
      `position + velocity` lerped toward the measurement, the stored
      position is that result, and the velocity only shrinks by the factor
      `1 - beta`: the stored position is overwritten before the velocity is
      updated, so the difference it is pulled toward is always zero and the
      measurement never reaches the trend. */
  lemma DoubleLaterCalls(s: Trend, x: Vec3, alpha: real, beta: real)
    requires s.position.Some?
    ensures var v := if s.velocity.None? then Sub(x, s.position.value) else s.velocity.value;
      var r := DoubleSmoothed(s, x, alpha, beta);
      r.1 == Lerp(Add(s.position.value, v), x, alpha)
      && r.0.position == Some(r.1)
      && r.0.velocity == Some(Scale(v, 1.0 - beta))
  {
    var v := if s.velocity.None? then Sub(x, s.position.value) else s.velocity.value;
    DecayAxis(v.x, beta);
    DecayAxis(v.y, beta);
    DecayAxis(v.z, beta);
  }

  lemma DecayAxis(v: real, beta: real)
    ensures v + (0.0 - v) * beta == v * (1.0 - beta)
  {
  }

  /** Two different measurements after the second call leave the same trend. */
  lemma DoubleTrendIgnoresInput(s: Trend, x1: Vec3, x2: Vec3, alpha: real, beta: real)
    requires s.position.Some? && s.velocity.Some?
    ensures DoubleSmoothed(s, x1, alpha, beta).0.velocity == DoubleSmoothed(s, x2, alpha, beta).0.velocity
  {
    DoubleLaterCalls(s, x1, alpha, beta);
    DoubleLaterCalls(s, x2, alpha, beta);
  }

  /** The state of `applyDoubleExponentialSmoothing`. */
  class DoubleExponential {
    var lastPosition: Option<Vec3>
    var lastVelocity: Option<Vec3>

    constructor ()
      ensures lastPosition == None && lastVelocity == None
    {
      lastPosition, lastVelocity := None, None;
    }

    /** `applyDoubleExponentialSmoothing(x, alpha, beta)`. */
    method Apply(x: Vec3, alpha: real, beta: real) returns (smoothed: Vec3)
      modifies this
      ensures (Trend(lastPosition, lastVelocity), smoothed)
              == DoubleSmoothed(Trend(old(lastPosition), old(lastVelocity)), x, alpha, beta)
    {
      if lastPosition.None? {
        lastPosition := Some(x);
        return x;
      }
      if lastVelocity.None? {
        lastVelocity := Some(Sub(x, lastPosition.value));
      }
      smoothed := Lerp(Add(lastPosition.value, lastVelocity.value), x, alpha);
      lastPosition := Some(smoothed);
      var smoothedVelocity := Lerp(lastVelocity.value, Sub(smoothed, lastPosition.value), beta);
      lastVelocity := Some(smoothedVelocity);
    }
  }

  // ---------------------------------------------------------------------
  // The One Euro filter

  /** `alpha(dCutoff, rate)`: the smoothing factor of a low-pass filter with
      cutoff frequency `dCutoff` sampled at `rate`, from the time constant
      `tau = 1 / (2 pi dCutoff)` and the period `te = 1 / rate`. The constant
      pi is a parameter. */
  function Alpha(dCutoff: real, rate: real, pi: real): (r: real)
    requires dCutoff > 0.0 && rate > 0.0 && pi > 0.0
    ensures 0.0 < r < 1.0
  {
    var tau := 1.0 / (2.0 * pi * dCutoff);
    var te := 1.0 / rate;
    PositiveRatio(tau, te);
    InverseBelowOne(1.0 + tau / te);
    1.0 / (1.0 + tau / te)
  }

  lemma PositiveRatio(a: real, b: real)
    requires a > 0.0 && b > 0.0
    ensures a / b > 0.0
  {
  }

  lemma InverseBelowOne(d: real)
    requires d > 1.0
    ensures 0.0 < 1.0 / d < 1.0
  {
  }

  /** The closed form: `alpha = c / (c + rate)` with `c = 2 pi dCutoff`. */
  lemma AlphaClosedForm(dCutoff: real, rate: real, pi: real)
    requires dCutoff > 0.0 && rate > 0.0 && pi > 0.0
    ensures var c := 2.0 * pi * dCutoff; Alpha(dCutoff, rate, pi) == c / (c + rate)
  {
    var c := 2.0 * pi * dCutoff;
    assert c > 0.0;
    var tau, te := 1.0 / c, 1.0 / rate;
    assert tau / te == rate / c;
    assert 1.0 + tau / te == (c + rate) / c;
  }

  /** A higher cutoff gives a larger alpha, that is, less smoothing; this is
      how the One Euro filter follows fast motion. */
  lemma AlphaGrowsWithCutoff(c1: real, c2: real, rate: real, pi: real)
    requires 0.0 < c1 < c2 && rate > 0.0 && pi > 0.0
    ensures Alpha(c1, rate, pi) < Alpha(c2, rate, pi)
  {
    AlphaClosedForm(c1, rate, pi);
    AlphaClosedForm(c2, rate, pi);
    var k1, k2 := 2.0 * pi * c1, 2.0 * pi * c2;
    assert 0.0 < k1 < k2;
    FractionGrows(k1, k2, rate);
  }

  lemma FractionGrows(k1: real, k2: real, rate: real)
    requires 0.0 < k1 < k2 && rate > 0.0
    ensures k1 / (k1 + rate) < k2 / (k2 + rate)
  {
    Complement(k1, rate);
    Complement(k2, rate);
    DivideByLarger(rate, k1 + rate, k2 + rate);
  }

  lemma Complement(k: real, rate: real)
    requires k > 0.0 && rate > 0.0
    ensures k / (k + rate) == 1.0 - rate / (k + rate)
  {
    var d := k + rate;
    var q1, q2 := k / d, rate / d;
    DivTimes(k, d);
    DivTimes(rate, d);
    AddEqual(q1 * d, q2 * d, k, rate);
    FactorOut(q1, q2, d);
    CancelFactor(q1 + q2, 1.0, d);
  }

  lemma DivTimes(a: real, d: real)
    requires d != 0.0
    ensures (a / d) * d == a
  {
  }

  lemma AddEqual(a: real, b: real, c: real, e: real)
    requires a == c && b == e
    ensures a + b == c + e
  {
  }

  lemma FactorOut(a: real, b: real, d: real)
    ensures a * d + b * d == (a + b) * d
  {
  }

  lemma CancelFactor(a: real, b: real, d: real)
    requires d != 0.0 && a * d == b * d
    ensures a == b
  {
    assert (a - b) * d == 0.0;
  }

  lemma DivideByLarger(a: real, d1: real, d2: real)
    requires a > 0.0 && 0.0 < d1 < d2
    ensures a / d2 < a / d1
  {
    var q1, q2 := a / d1, a / d2;
    assert q1 * d1 == a;
    assert q2 * d2 == a;
    assert q2 > 0.0;
    assert q2 * d1 < q2 * d2;
  }

  /** The cutoff frequencies of the One Euro filter. */
  const DerivativeCutoff: real := 1.0
  const MinCutoff: real := 1.0

  /** The sampling rate used before two clock readings exist. */
  const InitialRate: real := 60.0

  /** `prevT`, `dX` and the two low-pass filters `xFilter` (of the
      measurement) and `dxFilter` (of its change). The clock reading, the
      constant pi and the vector length are parameters. */
  class OneEuro {
    var prevT: real
    var dX: Option<Vec3>
    const xFilter: LowPassFilter
    const dxFilter: LowPassFilter

    /** The filters are two objects, and after a clock reading has been
        kept the measurement filter holds a value. */
    ghost predicate Valid()
      reads this, xFilter
    {
      xFilter != dxFilter && (prevT != 0.0 ==> xFilter.prev.Some?)
    }

    constructor ()
      ensures Valid() && prevT == 0.0 && dX == None
      ensures xFilter.prev == None && dxFilter.prev == None
      ensures fresh(xFilter) && fresh(dxFilter)
    {
      prevT, dX := 0.0, None;
      xFilter := new LowPassFilter();
      dxFilter := new LowPassFilter();
    }

    /** `updateOneEuro(measurement, params)` at clock time `now` (milliseconds).
        The first call (`prevT == 0`) takes the rate as 60 and a zero change;
        later calls take the rate from the time since the previous call and
        the change from the previous filtered value. The change is smoothed
        with the fixed cutoff; its length raises the cutoff of the measurement
        filter by the factor `beta`. */
    method Update(measurement: Vec3, beta: real, now: real, pi: real, length: Vec3 -> real) returns (r: Vec3)
      requires Valid() && pi > 0.0 && beta >= 0.0
      requires prevT == 0.0 || now > prevT
      requires forall v :: length(v) >= 0.0
      modifies this, xFilter, dxFilter
      ensures Valid() && prevT == now
      ensures dX == Some(Change(old(prevT), measurement, old(xFilter.prev)))
      ensures dxFilter.prev == Some(Smoothed(old(dxFilter.prev), dX.value, ChangeAlpha(old(prevT), now, pi)))
      ensures r == Smoothed(old(xFilter.prev), measurement,
                            Alpha(MinCutoff + beta * length(dxFilter.prev.value), Rate(old(prevT), now), pi))
      ensures xFilter.prev == Some(r)
    {
      // the first-call and later-call branches are those of the three
      // functions below
      var rate := Rate(prevT, now);
      var alpha1 := ChangeAlpha(prevT, now, pi);
      dX := Some(Change(prevT, measurement, xFilter.prev));
      prevT := now;
      var edx := dxFilter.Update(dX.value, alpha1);
      var cutoff := MinCutoff + beta * length(edx);
      Cutoff(beta, length(edx));
      var alpha := Alpha(cutoff, rate, pi);
      r := xFilter.Update(measurement, alpha);
      assert dxFilter.prev.value == edx;
      assert MinCutoff + beta * length(dxFilter.prev.value) == cutoff;
    }
  }

  /** The sampling rate: 60 before the first clock reading is kept,
      afterwards one over the seconds since the previous call. */
  function Rate(prevT: real, now: real): (r: real)
    requires prevT == 0.0 || now > prevT
    ensures r > 0.0
  {
    if prevT == 0.0 then InitialRate
    else
      PositiveRatio(now - prevT, 1000.0);
      PositiveRatio(1.0, (now - prevT) / 1000.0);
      1.0 / ((now - prevT) / 1000.0)
  }

  /** The alpha of the change filter: 0 on the first call, so the change
      filter starts from the zero change; afterwards the fixed cutoff. */
  function ChangeAlpha(prevT: real, now: real, pi: real): (r: real)
    requires prevT == 0.0 || now > prevT
    requires pi > 0.0
    ensures 0.0 <= r < 1.0
  {
    if prevT == 0.0 then 0.0 else Alpha(DerivativeCutoff, Rate(prevT, now), pi)
  }

  /** The change between the measurement and the previous filtered value;
      zero on the first call. */
  function Change(prevT: real, measurement: Vec3, prev: Option<Vec3>): Vec3
    requires prevT != 0.0 ==> prev.Some?
  {
    if prevT == 0.0 then Zero else Sub(measurement, prev.value)
  }

  lemma Cutoff(beta: real, len: real)
    requires beta >= 0.0 && len >= 0.0
    ensures MinCutoff + beta * len > 0.0
  {
  }

  /** The One Euro output lies between the previous filtered value and the
      measurement: it is a smoothing step with an alpha strictly inside
      (0, 1). */
  lemma OneEuroBetween(prev: Vec3, measurement: Vec3, cutoff: real, rate: real, pi: real)
    requires cutoff > 0.0 && rate > 0.0 && pi > 0.0
    ensures InBox(Smoothed(Some(prev), measurement, Alpha(cutoff, rate, pi)), Lower(prev, measurement), Upper(prev, measurement))
  {
    SmoothedBetween(prev, measurement, Alpha(cutoff, rate, pi));
  }

  // ---------------------------------------------------------------------
  // The exported update functions

  /** The GUI values the update functions read. */
  datatype Params = Params(samples: real, seAlpha: real, deAlpha: real, deBeta: real)

  /** The state of the exercise module: one instance of every filter. */
  class Tasks {
    const movingAverage: MovingAverage
    const single: SingleExponential
    const double: DoubleExponential
    const oneEuro: OneEuro

    constructor ()
      ensures movingAverage.detections == [] && single.last == None
      ensures double.lastPosition == None && double.lastVelocity == None
      ensures oneEuro.Valid() && oneEuro.prevT == 0.0
      ensures fresh(movingAverage) && fresh(single) && fresh(double) && fresh(oneEuro)
    {
      movingAverage := new MovingAverage();
      single := new SingleExponential();
      double := new DoubleExponential();
      oneEuro := new OneEuro();
    }

    /** `updateMovingAverage`: the moving average over `params.Samples`. */
    method UpdateMovingAverage(measurement: Vec3, params: Params) returns (smoothing: Vec3)
      requires |movingAverage.detections| > 0 || params.samples >= 1.0
      modifies movingAverage
      ensures movingAverage.detections == Window(old(movingAverage.detections), measurement, params.samples)
      ensures |movingAverage.detections| > 0 && smoothing == Mean(movingAverage.detections)
    {
      smoothing := movingAverage.Apply(measurement, params.samples);
    }

    /** `updateSingleExponential`: smoothing with `params.SEAlpha`. */
    method UpdateSingleExponential(measurement: Vec3, params: Params) returns (smoothing: Vec3)
      modifies single
      ensures smoothing == Smoothed(old(single.last), measurement, params.seAlpha)
      ensures single.last == Some(smoothing)
    {
      smoothing := single.Apply(measurement, params.seAlpha);
    }

    /** `updateDoubleExponential`: smoothing with `params.DEAlpha` and
        `params.DEBeta`. */
    method UpdateDoubleExponential(measurement: Vec3, params: Params) returns (smoothing: Vec3)
      modifies double
      ensures (Trend(double.lastPosition, double.lastVelocity), smoothing)
              == DoubleSmoothed(Trend(old(double.lastPosition), old(double.lastVelocity)), measurement, params.deAlpha, params.deBeta)
    {
      smoothing := double.Apply(measurement, params.deAlpha, params.deBeta);
    }
  }
}
