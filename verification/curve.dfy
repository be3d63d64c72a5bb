/** The track: a closed Catmull-Rom spline through a list of control points,
    evaluated at a parameter that wraps around modulo 1, with
    finite-difference tangent and curvature and a sampled length. */
module Curve {
  import opened Vectors

  /** The finite-difference step used when none is given. */
  const DefaultDelta: real := 0.001

  /** The number of chords used for the length when none is given. */
  const DefaultSamples: int := 1000

  /** The tangent returned when two samples coincide. */
  const FallbackTangent: Vec3 := Vec3(1.0, 0.0, 0.0)

  /** `catmull_rom_point`: the uniform Catmull-Rom cubic through `p1` (at
      t = 0) and `p2` (at t = 1), shaped by the neighbours `p0` and `p3`. */
  function CatmullRomPoint(p0: Vec3, p1: Vec3, p2: Vec3, p3: Vec3, t: real): (r: Vec3)
    ensures t == 0.0 ==> r == p1
    ensures t == 1.0 ==> r == p2
  {
    var t2 := t * t;
    var t3 := t2 * t;
    Scale(0.5, Add(Add(Add(Scale(2.0, p1),
                           Scale(t, Add(Neg(p0), p2))),
                       Scale(t2, Sub(Add(Sub(Scale(2.0, p0), Scale(5.0, p1)), Scale(4.0, p2)), p3))),
                   Scale(t3, Add(Sub(Add(Neg(p0), Scale(3.0, p1)), Scale(3.0, p2)), p3))))
  }

  /** Where a parameter falls on a track of `count` segments: the segment
      index and the parameter inside that segment. */
  datatype Segment = Segment(index: int, local: real)

  function Min(a: int, b: int): int {
    if a <= b then a else b
  }

  /** The segment arithmetic of `get_point`: the parameter is wrapped into
      [0, 1), scaled by the segment count, truncated to an index and the
      index clamped to the last segment. The index is always in range, the
      local parameter in [0, 1), and together they give back the scaled
      parameter, so the clamp never changes anything. */
  function SegmentOf(count: int, t: real): (s: Segment)
    requires 1 <= count
    ensures 0 <= s.index < count
    ensures 0.0 <= s.local < 1.0
    ensures s.index as real + s.local == Frac(t) * count as real
  {
    var scaled := Frac(t) * count as real;
    BelowCount(Frac(t), count as real);
    var index := Trunc(scaled);
    var local := scaled - index as real;
    Segment(Min(index, count - 1), local)
  }

  lemma BelowCount(f: real, n: real)
    requires 0.0 <= f < 1.0 && 1.0 <= n
    ensures 0.0 <= f * n < n
  {
    if 0.0 < f {
      MulPos(f, n);
      MulPos(1.0 - f, n);
    }
  }

  /** The inverse of `SegmentOf`: a point given by a segment index and a
      local parameter in [0, 1) is found again in that segment. */
  lemma SegmentOfInverse(count: int, k: int, u: real)
    requires 1 <= count && 0 <= k < count && 0.0 <= u < 1.0
    ensures SegmentOf(count, (k as real + u) / count as real) == Segment(k, u)
  {
    var n, x := count as real, k as real + u;
    var t := x / n;
    UnitQuotient(x, n, t);
    assert Frac(t) == t by {
      assert t.Floor == 0;
    }
    assert Trunc(x) == k;
  }

  lemma UnitQuotient(x: real, n: real, t: real)
    requires 0.0 <= x < n && t == x / n
    ensures 0.0 <= t < 1.0 && t * n == x
  {
  }

  /** Parameters with the same fractional part fall at the same place. */
  lemma SegmentOfFrac(count: int, t1: real, t2: real)
    requires 1 <= count && Frac(t1) == Frac(t2)
    ensures SegmentOf(count, t1) == SegmentOf(count, t2)
  {
  }

  /** The control list with its first three points appended, so that every
      segment of the closed track has four consecutive points. */
  function Extended(pts: seq<Vec3>): (e: seq<Vec3>)
    requires 3 <= |pts|
    ensures |e| == |pts| + 3
    ensures forall j | 0 <= j < |e| :: e[j] == pts[j % |pts|]
  {
    pts + pts[..3]
  }

  /** The point at local parameter `s.local` of segment `s.index`. */
  function SegmentPoint(pts: seq<Vec3>, s: Segment): Vec3
    requires 4 <= |pts| && 0 <= s.index < |pts|
  {
    var e := Extended(pts);
    var i := s.index;
    CatmullRomPoint(e[i], e[i + 1], e[i + 2], e[i + 3], s.local)
  }

  /** `get_point`: with fewer than four control points the first one, for
      every parameter; otherwise the spline of the extended list, whose
      segment count equals the number of control points. */
  function GetPoint(pts: seq<Vec3>, t: real): (r: Vec3)
    requires |pts| > 0
    ensures |pts| < 4 ==> r == pts[0]
  {
    if |pts| < 4 then pts[0]
    else
      var segCount := |Extended(pts)| - 3;
      SegmentPoint(pts, SegmentOf(segCount, t))
  }

  /** Inside segment `k` the track is that segment's cubic. */
  lemma GetPointInSegment(pts: seq<Vec3>, k: int, u: real)
    requires 4 <= |pts| && 0 <= k < |pts| && 0.0 <= u < 1.0
    ensures GetPoint(pts, (k as real + u) / |pts| as real) == SegmentPoint(pts, Segment(k, u))
  {
    SegmentOfInverse(|pts|, k, u);
  }

  /** The track passes through the control points: parameter k / n is the
      control point k + 1 (the first segment runs from the second point). */
  lemma GetPointAtKnot(pts: seq<Vec3>, k: int)
    requires 4 <= |pts| && 0 <= k < |pts|
    ensures GetPoint(pts, k as real / |pts| as real) == pts[(k + 1) % |pts|]
  {
    GetPointInSegment(pts, k, 0.0);
    assert (k as real + 0.0) / |pts| as real == k as real / |pts| as real;
  }

  /** Consecutive segments meet: the end of segment i is the start of
      segment i + 1, and the end of the last segment is the start of the
      track, which closes the loop. */
  lemma SegmentsJoin(pts: seq<Vec3>, i: int)
    requires 4 <= |pts| && 0 <= i < |pts|
    ensures i + 1 < |pts| ==> SegmentPoint(pts, Segment(i, 1.0)) == SegmentPoint(pts, Segment(i + 1, 0.0))
    ensures i + 1 == |pts| ==> SegmentPoint(pts, Segment(i, 1.0)) == GetPoint(pts, 0.0)
  {
    var e := Extended(pts);
    if i + 1 == |pts| {
      assert e[i + 2] == pts[1];
      assert SegmentOf(|pts|, 0.0) == Segment(0, 0.0) by {
        SegmentOfInverse(|pts|, 0, 0.0);
      }
    }
  }

  /** Parameters with the same fractional part give the same point. */
  lemma GetPointFrac(pts: seq<Vec3>, t1: real, t2: real)
    requires |pts| > 0 && Frac(t1) == Frac(t2)
    ensures GetPoint(pts, t1) == GetPoint(pts, t2)
  {
    if 4 <= |pts| {
      SegmentOfFrac(|pts|, t1, t2);
    }
  }

  /** The track repeats with period 1, and wrapping the parameter first
      changes nothing. */
  lemma GetPointPeriodic(pts: seq<Vec3>, t: real)
    requires |pts| > 0
    ensures GetPoint(pts, t + 1.0) == GetPoint(pts, t)
    ensures GetPoint(pts, Frac(t)) == GetPoint(pts, t)
  {
    FracShift(t);
    FracIdempotent(t);
    GetPointFrac(pts, t + 1.0, t);
    GetPointFrac(pts, Frac(t), t);
  }

  /** `get_tangent`: the normalised forward difference between the points
      at t and at (t + delta) mod 1, or the x axis when the two coincide. */
  function GetTangent(sqrt: real -> real, pts: seq<Vec3>, t: real, delta: real): (r: Vec3)
    requires IsSqrt(sqrt) && |pts| > 0
    ensures Dot(r, r) == 1.0
    ensures GetPoint(pts, t) == GetPoint(pts, Frac(t + delta)) ==> r == FallbackTangent
  {
    var p1 := GetPoint(pts, t);
    var p2 := GetPoint(pts, Frac(t + delta));
    var tangent := Sub(p2, p1);
    var length := Norm(sqrt, tangent);
    if length == 0.0 then
      FallbackTangentUnit();
      FallbackTangent
    else
      UnitDirection(sqrt, tangent);
      Div(tangent, length)
  }

  lemma FallbackTangentUnit()
    ensures Dot(FallbackTangent, FallbackTangent) == 1.0
  {
  }

  /** When the two samples differ, the tangent points from the first to the
      second: it is parallel to their difference with a positive projection. */
  lemma TangentDirection(sqrt: real -> real, pts: seq<Vec3>, t: real, delta: real)
    requires IsSqrt(sqrt) && |pts| > 0
    requires GetPoint(pts, t) != GetPoint(pts, Frac(t + delta))
    ensures var d := Sub(GetPoint(pts, Frac(t + delta)), GetPoint(pts, t));
      Cross(GetTangent(sqrt, pts, t, delta), d) == Zero && 0.0 < Dot(GetTangent(sqrt, pts, t, delta), d)
  {
    var d := Sub(GetPoint(pts, Frac(t + delta)), GetPoint(pts, t));
    assert d != Zero;
    UnitDirection(sqrt, d);
  }

  /** The first forward difference (p2 - p1) / delta. */
  function FirstDifference(p1: Vec3, p2: Vec3, delta: real): Vec3
    requires delta != 0.0
  {
    Div(Sub(p2, p1), delta)
  }

  /** The second forward difference (p3 - 2 p2 + p1) / delta^2. */
  function SecondDifference(p1: Vec3, p2: Vec3, p3: Vec3, delta: real): Vec3
    requires delta != 0.0
  {
    MulNonzero(delta, delta);
    Div(Add(Sub(p3, Scale(2.0, p2)), p1), delta * delta)
  }

  /** The differences vanish exactly where the samples say so: the first
      when the first two samples coincide, their cross product when the
      three samples lie on a line. */
  lemma DifferencesVanish(p1: Vec3, p2: Vec3, p3: Vec3, delta: real)
    requires delta != 0.0
    ensures FirstDifference(p1, p2, delta) == Zero <==> p1 == p2
    ensures Cross(FirstDifference(p1, p2, delta), SecondDifference(p1, p2, p3, delta)) == Zero
        <==> Cross(Sub(p2, p1), Sub(p3, p2)) == Zero
  {
    var a, b := Sub(p2, p1), Sub(p3, p2);
    MulNonzero(delta, delta);
    var c1, c2 := 1.0 / delta, 1.0 / (delta * delta);
    DivIsScale(a, delta);
    ScaleZeroIff(c1, a);
    assert a == Zero <==> p1 == p2;
    assert Add(Sub(p3, Scale(2.0, p2)), p1) == Sub(b, a);
    DivIsScale(Sub(b, a), delta * delta);
    CrossScale(c1, a, c2, Sub(b, a));
    CrossSubSelf(a, b);
    MulNonzero(c1, c2);
    ScaleZeroIff(c1 * c2, Cross(a, b));
  }

  /** The curvature formula |v1 x v2| / |v1|^3 on a first and a second
      derivative, with 0 for a zero first derivative. It is non-negative and
      zero exactly when the derivatives are parallel. */
  function CurvatureOf(sqrt: real -> real, v1: Vec3, v2: Vec3): (r: real)
    requires IsSqrt(sqrt)
    ensures 0.0 <= r
    ensures r == 0.0 <==> v1 == Zero || Cross(v1, v2) == Zero
  {
    var crossMag := Norm(sqrt, Cross(v1, v2));
    var speed := Norm(sqrt, v1);
    if speed == 0.0 then
      0.0
    else
      CubePos(speed);
      QuotientSign(crossMag, speed * speed * speed);
      crossMag / (speed * speed * speed)
  }

  /** `get_curvature`: the curvature formula on forward differences over
      the samples at t, t + delta and t + 2 delta (each wrapped into [0, 1)).
      It is zero exactly when the first two samples coincide or the three
      samples lie on one line. */
  function GetCurvature(sqrt: real -> real, pts: seq<Vec3>, t: real, delta: real): (r: real)
    requires IsSqrt(sqrt) && |pts| > 0 && delta != 0.0
    ensures 0.0 <= r
    ensures r == 0.0 <==>
      var p1, p2, p3 := GetPoint(pts, t), GetPoint(pts, Frac(t + delta)), GetPoint(pts, Frac(t + 2.0 * delta));
      p1 == p2 || Cross(Sub(p2, p1), Sub(p3, p2)) == Zero
  {
    var p1 := GetPoint(pts, t);
    var p2 := GetPoint(pts, Frac(t + delta));
    var p3 := GetPoint(pts, Frac(t + 2.0 * delta));
    DifferencesVanish(p1, p2, p3, delta);
    CurvatureOf(sqrt, FirstDifference(p1, p2, delta), SecondDifference(p1, p2, p3, delta))
  }

  /** The length of the chord between samples k - 1 and k of `samples`
      equally spaced parameters. */
  function Chord(sqrt: real -> real, pts: seq<Vec3>, samples: int, k: int): (r: real)
    requires IsSqrt(sqrt) && |pts| > 0 && 0 < samples
    ensures 0.0 <= r
  {
    Norm(sqrt, Sub(Sample(pts, samples, k), Sample(pts, samples, k - 1)))
  }

  /** Sample k of `samples` equally spaced parameters. */
  function Sample(pts: seq<Vec3>, samples: int, k: int): Vec3
    requires |pts| > 0 && 0 < samples
  {
    GetPoint(pts, k as real / samples as real)
  }

  /** The sum of the first `k` chords. */
  function ChordSum(sqrt: real -> real, pts: seq<Vec3>, samples: int, k: int): (r: real)
    requires IsSqrt(sqrt) && |pts| > 0 && 0 < samples && 0 <= k
    ensures 0.0 <= r
    ensures 0 < k ==> Chord(sqrt, pts, samples, k) <= r
  {
    if k == 0 then 0.0 else ChordSum(sqrt, pts, samples, k - 1) + Chord(sqrt, pts, samples, k)
  }

  /** The last sample is the first one again: the chords close the loop. */
  lemma SamplesClose(pts: seq<Vec3>, samples: int)
    requires |pts| > 0 && 0 < samples
    ensures GetPoint(pts, samples as real / samples as real) == GetPoint(pts, 0.0)
  {
    DivSelf(samples as real);
    FracShift(0.0);
    GetPointFrac(pts, samples as real / samples as real, 0.0);
  }

  lemma DivSelf(n: real)
    requires n != 0.0
    ensures n / n == 1.0
  {
  }

  lemma SampleZero(pts: seq<Vec3>, samples: int)
    requires |pts| > 0 && 0 < samples
    ensures Sample(pts, samples, 0) == GetPoint(pts, 0.0)
  {
    assert 0 as real / samples as real == 0.0;
  }

  /** One loop step of the length walk adds chord `i` to the sum. */
  lemma ChordStep(sqrt: real -> real, pts: seq<Vec3>, samples: int, i: int, total: real, prev: Vec3, curr: Vec3)
    requires IsSqrt(sqrt) && |pts| > 0 && 0 < samples && 1 <= i
    requires total == ChordSum(sqrt, pts, samples, i - 1)
    requires prev == Sample(pts, samples, i - 1) && curr == GetPoint(pts, i as real / samples as real)
    ensures curr == Sample(pts, samples, i)
    ensures total + Norm(sqrt, Sub(curr, prev)) == ChordSum(sqrt, pts, samples, i)
  {
  }

  /** `get_total_length`: walks the samples 1 .. samples, adding the chord
      from the previous sample each time. The result is the chord sum, and
      0 when there are no samples. */
  method GetTotalLength(sqrt: real -> real, pts: seq<Vec3>, samples: int) returns (total: real)
    requires IsSqrt(sqrt) && |pts| > 0
    ensures samples <= 0 ==> total == 0.0
    ensures 0 < samples ==> total == ChordSum(sqrt, pts, samples, samples)
  {
    total := 0.0;
    var prev := GetPoint(pts, 0.0);
    if 0 < samples {
      SampleZero(pts, samples);
    }
    var i := 1;
    while i <= samples
      invariant 1 <= i
      invariant samples <= 0 ==> i == 1 && total == 0.0
      invariant 0 < samples ==> i <= samples + 1
      invariant 0 < samples ==> total == ChordSum(sqrt, pts, samples, i - 1)
      invariant 0 < samples ==> prev == Sample(pts, samples, i - 1)
    {
      var t := i as real / samples as real;
      var curr := GetPoint(pts, t);
      ChordStep(sqrt, pts, samples, i, total, prev, curr);
      total := total + Norm(sqrt, Sub(curr, prev));
      prev := curr;
      i := i + 1;
    }
  }
}
