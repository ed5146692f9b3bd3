/** percentile of the load test: linear interpolation between samples, over exact reals. */
module Percentile {
  ghost predicate Sorted(data: seq<real>) { forall i, j :: 0 <= i <= j < |data| ==> data[i] <= data[j] }

  // The position p percent of the way from the first sample to the last.
  function Position(n: nat, p: int): real
    requires n > 0
  {
    (n - 1) as real * (p as real / 100.0)
  }

  // int(k) for k >= 0.
  function Whole(k: real): int { k.Floor }

  // The value at a position between samples.
  function At(data: seq<real>, k: real): real
    requires data != [] && 0.0 <= k <= (|data| - 1) as real
  {
    var f := Whole(k);
    var c := f + 1;
    if f == c || c >= |data| then data[f] else data[f] * (c as real - k) + data[c] * (k - f as real)
  }

  lemma PositionInRange(n: nat, p: int)
    requires n > 0 && 0 <= p <= 100
    ensures 0.0 <= Position(n, p) <= (n - 1) as real
    ensures Position(n, 0) == 0.0 && Position(n, 100) == (n - 1) as real
  {
    var q := p as real / 100.0;
    var m := (n - 1) as real;
    assert 0.0 <= q <= 1.0;
    Scale(m, 0.0, q);
    Scale(m, q, 1.0);
  }

  lemma Scale(m: real, x: real, y: real)
    requires 0.0 <= m && x <= y
    ensures m * x <= m * y
  {
    assert m * (y - x) >= 0.0;
    assert m * y - m * x == m * (y - x);
  }

  function Percentile(data: seq<real>, p: int): real
    requires data != [] && 0 <= p <= 100
  {
    PositionInRange(|data|, p);
    At(data, Position(|data|, p))
  }

  /** The value lies between the two samples around its position, and on a sample it is that sample. */
  lemma Between(data: seq<real>, k: real)
    requires data != [] && Sorted(data) && 0.0 <= k <= (|data| - 1) as real
    ensures var f := Whole(k);
            && 0 <= f < |data|
            && data[f] <= At(data, k) <= data[if f + 1 < |data| then f + 1 else f]
            && (k == f as real ==> At(data, k) == data[f])
  {
    var f := Whole(k);
    if f + 1 < |data| {
      var a, b, t := data[f], data[f + 1], k - f as real;
      assert 0.0 <= t < 1.0 && a <= b;
      assert (f + 1) as real - k == 1.0 - t;
      Interpolates(a, b, t);
    }
  }

  function Rise(a: real, b: real, t: real): real { (b - a) * t }

  lemma RiseMonotone(a: real, b: real, t: real, u: real)
    requires a <= b && t <= u
    ensures Rise(a, b, t) <= Rise(a, b, u)
  {
    Scale(b - a, t, u);
  }

  lemma MixIsRise(a: real, b: real, t: real)
    ensures a * (1.0 - t) + b * t == a + Rise(a, b, t)
  {
    assert a * (1.0 - t) == a - a * t;
    assert (b - a) * t == b * t - a * t;
  }

  lemma Interpolates(a: real, b: real, t: real)
    requires a <= b && 0.0 <= t <= 1.0
    ensures a <= a * (1.0 - t) + b * t <= b
  {
    MixIsRise(a, b, t);
    RiseMonotone(a, b, 0.0, t);
    RiseMonotone(a, b, t, 1.0);
    assert Rise(a, b, 0.0) == 0.0 && Rise(a, b, 1.0) == b - a;
  }

  // Between two neighbouring samples the value is linear in the position.
  lemma AtIsLinear(data: seq<real>, f: nat, k: real)
    requires Sorted(data) && 0.0 <= k && Whole(k) == f && f + 1 < |data|
    ensures k <= (|data| - 1) as real
    ensures At(data, k) == data[f] + Rise(data[f], data[f + 1], k - f as real)
  {
    var a, b, t := data[f], data[f + 1], k - f as real;
    assert (f + 1) as real - k == 1.0 - t;
    assert At(data, k) == a * (1.0 - t) + b * t;
    MixIsRise(a, b, t);
  }

  lemma SegmentMonotone(data: seq<real>, k: real, l: real)
    requires data != [] && Sorted(data) && 0.0 <= k <= l && Whole(k) == Whole(l) && Whole(k) + 1 < |data|
    ensures k <= l <= (|data| - 1) as real
    ensures At(data, k) <= At(data, l)
  {
    var f := Whole(k);
    AtIsLinear(data, f, k);
    AtIsLinear(data, f, l);
    RiseMonotone(data[f], data[f + 1], k - f as real, l - f as real);
  }

  /** The value never falls as the position moves right, across the samples as well as between them. */
  lemma Monotone(data: seq<real>, k: real, l: real)
    requires data != [] && Sorted(data) && 0.0 <= k <= l <= (|data| - 1) as real
    ensures At(data, k) <= At(data, l)
  {
    var f, g := Whole(k), Whole(l);
    Between(data, k);
    Between(data, l);
    if f < g {
      assert data[f + 1] <= data[g];
    } else if f + 1 < |data| {
      SegmentMonotone(data, k, l);
    }
  }

  /** For every non-empty sorted list of latencies: p = 0 and p = 100 give the least and the greatest, every percentile
      lies between them, and percentiles never fall as p grows. */
  lemma PercentileIsMonotone(data: seq<real>, p: int, q: int)
    requires data != [] && Sorted(data) && 0 <= p <= q <= 100
    ensures Percentile(data, 0) == data[0] && Percentile(data, 100) == data[|data| - 1]
    ensures data[0] <= Percentile(data, p) <= Percentile(data, q) <= data[|data| - 1]
  {
    var n := |data|;
    PositionInRange(n, p);
    PositionInRange(n, q);
    Scale((n - 1) as real, p as real / 100.0, q as real / 100.0);
    Between(data, 0.0);
    Between(data, (n - 1) as real);
    Monotone(data, 0.0, Position(n, p));
    Monotone(data, Position(n, p), Position(n, q));
    Monotone(data, Position(n, q), (n - 1) as real);
  }

  /** In terms of the samples: the result lies between those on either side of (n - 1) * p / 100. */
  lemma PercentileIsBetweenNeighbours(data: seq<real>, p: int)
    requires data != [] && Sorted(data) && 0 <= p <= 100
    ensures var f := ((|data| - 1) * p) / 100;
            && 0 <= f < |data|
            && data[f] <= Percentile(data, p) <= data[if f + 1 < |data| then f + 1 else f]
            && (((|data| - 1) * p) % 100 == 0 ==> Percentile(data, p) == data[f])
  {
    var n, x := |data|, (|data| - 1) * p;
    PositionInRange(n, p);
    Between(data, Position(n, p));
    var f := x / 100;
    assert x == 100 * f + x % 100;
    assert Position(n, p) == x as real / 100.0;
    assert Whole(Position(n, p)) == f;
  }

  /** The interpolation, exactly, sorted or not: with (n - 1) * p = 100 f + r, the result is the sample f, and r
      hundredths of the way to the next one when there is a next one. */
  lemma PercentileInterpolates(data: seq<real>, p: int)
    requires data != [] && 0 <= p <= 100
    ensures var x := (|data| - 1) * p;
            var f, r := x / 100, x % 100;
            && 0 <= f < |data| && (f == |data| - 1 ==> r == 0)
            && Percentile(data, p) ==
               if f == |data| - 1 then data[f] else data[f] + (data[f + 1] - data[f]) * (r as real / 100.0)
  {
    var n, x := |data|, (|data| - 1) * p;
    var f, r := x / 100, x % 100;
    var k := Position(n, p);
    PositionInRange(n, p);
    assert x == 100 * f + r && x <= 100 * (n - 1);
    assert k == x as real / 100.0 == f as real + r as real / 100.0;
    assert Whole(k) == f;
    if f < n - 1 {
      assert (f + 1) as real - k == 1.0 - r as real / 100.0;
      MixIsRise(data[f], data[f + 1], r as real / 100.0);
    }
  }
}
