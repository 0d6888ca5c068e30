/**
 * Frequency axes for a sweep of RSSI readings, over exact reals (the tools use
 * floats; rounding is not modelled), and the points a chart or CSV pairs them into.
 */
module Axis {

  /** `[start + i * step for i in range(n)]`. */
  function StepAxis(start: real, step: real, n: nat): (freqs: seq<real>)
    ensures |freqs| == n
  {
    seq(n, i requires 0 <= i < n => start + (i as real) * step)
  }

  /** `numpy.linspace(start, stop, n)`: `n` evenly spaced values from `start` to
    * `stop` inclusive, `start + i * ((stop - start) / (n - 1))`; a single value
    * is `start`. */
  function Linspace(start: real, stop: real, n: nat): (freqs: seq<real>)
    ensures |freqs| == n
  {
    if n == 0 then []
    else if n == 1 then [start]
    else
      var q := LinspaceStep(start, stop, n);
      seq(n, i requires 0 <= i < n => start + (i as real) * q)
  }

  /** The distance between neighbouring linspace values. */
  function LinspaceStep(start: real, stop: real, n: nat): real
    requires n >= 2
  {
    (stop - start) / ((n - 1) as real)
  }

  /** A step axis advances by exactly `step` from one reading to the next. */
  lemma StepAxisSpacing(start: real, step: real, n: nat)
    ensures forall i :: 0 <= i < n - 1 ==>
      StepAxis(start, step, n)[i + 1] - StepAxis(start, step, n)[i] == step
  {
    var f := StepAxis(start, step, n);
    forall i | 0 <= i < n - 1
      ensures f[i + 1] - f[i] == step
    {
      var k := i as real;
      NextMultiple(k, step);
      assert f[i + 1] == start + (k + 1.0) * step;
    }
  }

  /** With a positive step the axis is strictly increasing, so no frequency repeats. */
  lemma StepAxisIncreasing(start: real, step: real, n: nat)
    requires step > 0.0
    ensures forall i, j :: 0 <= i < j < n ==> StepAxis(start, step, n)[i] < StepAxis(start, step, n)[j]
  {
    var f := StepAxis(start, step, n);
    forall i, j | 0 <= i < j < n
      ensures f[i] < f[j]
    {
      var a, b := i as real, j as real;
      PositiveProduct(b - a, step);
      Distribute(b, a, step);
    }
  }

  /** The first and last entries of a linspace axis are `start` and `stop`. */
  lemma LinspaceEndpoints(start: real, stop: real, n: nat)
    ensures n >= 1 ==> Linspace(start, stop, n)[0] == start
    ensures n >= 2 ==> Linspace(start, stop, n)[n - 1] == stop
  {
    if n >= 2 {
      var d := (n - 1) as real;
      var q := LinspaceStep(start, stop, n);
      var f := Linspace(start, stop, n);
      assert f[0] == start + 0.0 * q;
      assert f[n - 1] == start + d * q;
      DivideBack(stop - start, d);
    }
  }

  /** Consecutive linspace entries are `(stop - start) / (n - 1)` apart. */
  lemma LinspaceSpacing(start: real, stop: real, n: nat)
    requires n >= 2
    ensures forall i :: 0 <= i < n - 1 ==>
      Linspace(start, stop, n)[i + 1] - Linspace(start, stop, n)[i] == (stop - start) / ((n - 1) as real)
  {
    var f := Linspace(start, stop, n);
    var q := LinspaceStep(start, stop, n);
    forall i | 0 <= i < n - 1
      ensures f[i + 1] - f[i] == q
    {
      var k := i as real;
      NextMultiple(k, q);
      assert f[i + 1] == start + (k + 1.0) * q;
    }
  }

  /** Every linspace entry lies in `[start, stop]` when `start <= stop`. */
  lemma LinspaceWithin(start: real, stop: real, n: nat)
    requires start <= stop
    ensures forall i :: 0 <= i < n ==> start <= Linspace(start, stop, n)[i] <= stop
  {
    var f := Linspace(start, stop, n);
    if n >= 2 {
      var d := (n - 1) as real;
      var q := LinspaceStep(start, stop, n);
      DivideBack(stop - start, d);
      NonNegativeQuotient(stop - start, d);
      forall i | 0 <= i < n
        ensures start <= f[i] <= stop
      {
        var k := i as real;
        assert f[i] == start + k * q;
        NonNegativeProduct(k, q);
        NonNegativeProduct(d - k, q);
        Distribute(d, k, q);
      }
    }
  }

  /** A step axis whose step spans the range in `n - 1` steps is the linspace
    * axis of that range: the two constructions the GUIs use agree exactly then. */
  lemma StepAxisIsLinspace(start: real, stop: real, step: real, n: nat)
    requires n >= 2 && step * ((n - 1) as real) == stop - start
    ensures StepAxis(start, step, n) == Linspace(start, stop, n)
  {
    var d := (n - 1) as real;
    CancelDivision(step, d);
    assert LinspaceStep(start, stop, n) == step;
  }

  lemma NonNegativeProduct(a: real, b: real)
    requires a >= 0.0 && b >= 0.0
    ensures a * b >= 0.0
  {
  }

  lemma PositiveProduct(a: real, b: real)
    requires a > 0.0 && b > 0.0
    ensures a * b > 0.0
  {
  }

  lemma NonNegativeQuotient(a: real, d: real)
    requires a >= 0.0 && d > 0.0
    ensures a / d >= 0.0
  {
  }

  lemma Distribute(a: real, b: real, c: real)
    ensures (a - b) * c == a * c - b * c
  {
  }

  lemma NextMultiple(k: real, c: real)
    ensures (k + 1.0) * c == k * c + c
  {
  }

  lemma DivideBack(a: real, d: real)
    requires d != 0.0
    ensures d * (a / d) == a
  {
  }

  lemma CancelDivision(a: real, d: real)
    requires d != 0.0
    ensures a * d / d == a
  {
  }

  /** One plotted or exported point: a frequency and the reading taken there. */
  datatype Point = Point(freq: real, rssi: int)

  /** Python's `zip(freqs, values)`: pairs in order, as many as the shorter list. */
  function Pairs(freqs: seq<real>, values: seq<int>): (points: seq<Point>)
    ensures |points| == if |freqs| < |values| then |freqs| else |values|
  {
    var n := if |freqs| < |values| then |freqs| else |values|;
    seq(n, i requires 0 <= i < n => Point(freqs[i], values[i]))
  }

  /** The points of one sweep on a linspace axis: one per reading, readings in
    * order, running from `start` to `stop`. */
  lemma LinspacePoints(start: real, stop: real, values: seq<int>)
    ensures |Pairs(Linspace(start, stop, |values|), values)| == |values|
    ensures forall i :: 0 <= i < |values| ==> Pairs(Linspace(start, stop, |values|), values)[i].rssi == values[i]
    ensures |values| >= 1 ==> Pairs(Linspace(start, stop, |values|), values)[0].freq == start
    ensures |values| >= 2 ==> Pairs(Linspace(start, stop, |values|), values)[|values| - 1].freq == stop
  {
    LinspaceEndpoints(start, stop, |values|);
  }
}
