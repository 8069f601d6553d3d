/** The native track mesh builder (track_mesh.cpp): cumulative arc lengths along a
  * polyline, resampling at a fixed arc-length spacing, tangents by finite
  * differences, and a triangle strip of two vertices per sample.
  *
  * glm::length is sqrt(dot(v, v)); here it is `Length`, the same value over the
  * reals. std::vector out-parameters are returned as values. */
module MeshBuilder {
  import opened Geometry

  /** Floats per vertex: x, y, z, u, v. */
  const Stride: nat := 5
  /** glm::normalize returns the zero vector at or below this length. */
  const NormalizeEpsilon: real := 0.000001
  /** resample appends the last point when its last sample is farther than this. */
  const EndTolerance: real := 0.001
  /** The shortest segment length resample divides by. */
  const MinSegmentLength: real := 0.0001

  /** TrackMesh: interleaved vertex floats, triangle indices and the stride. */
  datatype TrackMesh = TrackMesh(vertices: seq<real>, indices: seq<nat>, stride: nat)

  /** TrackGeometry: what the physics needs from the built track. */
  datatype TrackGeometry = TrackGeometry(samples: seq<Vec2>, tangents: seq<Vec2>, width: real, totalLength: real)

  // ---------------------------------------------------------------------------
  // buildCumulativeDistances

  /** The arc length from the first point to each point of the polyline. */
  function Cumulative(points: seq<Vec2>, m: Math): (r: seq<real>)
    ensures |r| == |points|
    ensures |points| > 0 ==> r[0] == 0.0
  {
    if |points| <= 1 then seq(|points|, _ => 0.0)
    else
      var prefix := Cumulative(points[..|points| - 1], m);
      prefix + [prefix[|prefix| - 1] + Distance(points[|points| - 2], points[|points| - 1], m)]
  }

  /** Each arc length is the previous one plus the length of the segment between. */
  lemma {:induction false} CumulativeStep(points: seq<Vec2>, m: Math, i: nat)
    requires 0 < i < |points|
    ensures Cumulative(points, m)[i] == Cumulative(points, m)[i - 1] + Distance(points[i - 1], points[i], m)
  {
    var prefix := points[..|points| - 1];
    if i < |points| - 1 {
      CumulativeStep(prefix, m, i);
      assert prefix[i] == points[i] && prefix[i - 1] == points[i - 1];
    }
  }

  /** Arc lengths never decrease along the polyline. */
  lemma CumulativeMonotone(points: seq<Vec2>, m: Math)
    requires Lawful(m)
    ensures forall i, j :: 0 <= i <= j < |points| ==> Cumulative(points, m)[i] <= Cumulative(points, m)[j]
  {
    var c := Cumulative(points, m);
    forall i, j | 0 <= i <= j < |points|
      ensures c[i] <= c[j]
    {
      MonotoneFrom(points, m, i, j);
    }
  }

  lemma {:induction false} MonotoneFrom(points: seq<Vec2>, m: Math, i: nat, j: nat)
    requires Lawful(m) && i <= j < |points|
    ensures Cumulative(points, m)[i] <= Cumulative(points, m)[j]
    decreases j - i
  {
    if i < j {
      MonotoneFrom(points, m, i, j - 1);
      CumulativeStep(points, m, j);
      var d := points[j - 1].Minus(points[j]);
      assert HypotLaw(m, d.x, d.y);
    }
  }

  /** buildCumulativeDistances: a zero-filled vector, then one running sum per point. */
  method BuildCumulativeDistances(points: seq<Vec2>, m: Math) returns (cumulative: seq<real>)
    ensures cumulative == Cumulative(points, m)
  {
    ghost var spec := Cumulative(points, m);
    var buffer := new real[|points|](_ => 0.0);
    var i := 1;
    while i < |points|
      invariant 1 <= i && (|points| > 0 ==> i <= |points|)
      invariant forall k :: 0 <= k < i && k < |points| ==> buffer[k] == spec[k]
    {
      CumulativeStep(points, m, i);
      buffer[i] := buffer[i - 1] + Distance(points[i - 1], points[i], m);
      i := i + 1;
    }
    cumulative := buffer[..];
  }

  // ---------------------------------------------------------------------------
  // resample

  /** std::lower_bound: the first position whose value is not below `target`. On a
    * non-decreasing sequence, which is the only kind it is given, this is exactly
    * the position the binary search returns (LowerBoundIsFirst). */
  function LowerBound(values: seq<real>, target: real): (r: nat)
    ensures r <= |values|
  {
    if values == [] || target <= values[0] then 0 else 1 + LowerBound(values[1..], target)
  }

  /** Every value before the lower bound is below the target, and the value at it is not. */
  lemma {:induction false} LowerBoundIsFirst(values: seq<real>, target: real)
    ensures forall k :: 0 <= k < LowerBound(values, target) ==> values[k] < target
    ensures LowerBound(values, target) < |values| ==> target <= values[LowerBound(values, target)]
  {
    if values != [] && values[0] < target {
      LowerBoundIsFirst(values[1..], target);
      forall k | 1 <= k < LowerBound(values, target)
        ensures values[k] < target
      {
        assert values[k] == values[1..][k - 1];
      }
    }
  }

  /** The segment resample interpolates on for `target`: the point before the lower
    * bound, clamped to the first point. */
  function SegmentIndex(cumulative: seq<real>, target: real): nat {
    var lb := LowerBound(cumulative, target);
    if lb == 0 then 0 else lb - 1
  }

  /** The point at arc length `target`, linearly between points[index] and the next
    * point, dividing by the segment length but never by less than 1e-4. */
  function SampleAt(points: seq<Vec2>, cumulative: seq<real>, target: real): Vec2
    requires |points| >= 2 && |cumulative| == |points|
  {
    var index := SegmentIndex(cumulative, target);
    var nextIndex := if index + 1 < |points| - 1 then index + 1 else |points| - 1;
    var segmentLength := Max(cumulative[nextIndex] - cumulative[index], MinSegmentLength);
    var factor := (target - cumulative[index]) / segmentLength;
    points[index].Plus(points[nextIndex].Minus(points[index]).Times(factor))
  }

  /** The target of the i-th intermediate sample: i steps of `spacing` along the track
    * (TargetIsProduct: spacing * i). */
  function Target(spacing: real, i: nat): real {
    if i == 0 then 0.0 else Target(spacing, i - 1) + spacing
  }

  lemma {:induction false} TargetIsProduct(spacing: real, i: nat)
    ensures Target(spacing, i) == spacing * i as real
  {
    if i > 0 {
      TargetIsProduct(spacing, i - 1);
    }
  }

  /** The arc lengths of the intermediate samples i, i+1, ..., up to `count` or to
    * the first target at or past the total length, whichever comes first. */
  function Targets(spacing: real, total: real, i: nat, count: int): (r: seq<real>)
    ensures |r| <= if count < i then 0 else count - i + 1
    decreases count - i + 1
  {
    if count < i || Target(spacing, i) >= total then []
    else [Target(spacing, i)] + Targets(spacing, total, i + 1, count)
  }

  /** The points at the given arc lengths. */
  function SamplesAt(points: seq<Vec2>, cumulative: seq<real>, targets: seq<real>): (r: seq<Vec2>)
    requires |points| >= 2 && |cumulative| == |points|
    ensures |r| == |targets|
  {
    if targets == [] then []
    else SamplesAt(points, cumulative, targets[..|targets| - 1]) + [SampleAt(points, cumulative, targets[|targets| - 1])]
  }

  /** The first point followed by the intermediate samples up to floor(total / spacing). */
  function SampledBody(points: seq<Vec2>, cumulative: seq<real>, spacing: real, total: real): seq<Vec2>
    requires |points| >= 2 && |cumulative| == |points| && 0.0 < spacing
  {
    [points[0]] + SamplesAt(points, cumulative, Targets(spacing, total, 1, Trunc(total / spacing)))
  }

  /** The last point appended to `body` when body ends more than 1e-3 away from it. */
  function WithEnd(body: seq<Vec2>, last: Vec2, m: Math): seq<Vec2>
    requires body != []
  {
    if Distance(body[|body| - 1], last, m) > EndTolerance then body + [last] else body
  }

  /** The resampled polyline: the input itself when it has fewer than two points, the
    * spacing is not positive or the total length is below half the spacing;
    * otherwise the first point, the intermediate samples, and the last point when the
    * last sample is more than 1e-3 away from it. */
  function Resampled(points: seq<Vec2>, spacing: real, m: Math): seq<Vec2> {
    if |points| < 2 || spacing <= 0.0 then points
    else
      var cumulative := Cumulative(points, m);
      var total := cumulative[|cumulative| - 1];
      if total < spacing * 0.5 then points
      else WithEnd(SampledBody(points, cumulative, spacing, total), points[|points| - 1], m)
  }

  /** The interpolation inside resample's loop: lower bound, clamped segment, factor. */
  method InterpolateAt(points: seq<Vec2>, cumulative: seq<real>, target: real) returns (sample: Vec2)
    requires |points| >= 2 && |cumulative| == |points|
    ensures sample == SampleAt(points, cumulative, target)
  {
    var lb: int := LowerBound(cumulative, target);
    var index := if lb - 1 < 0 then 0 else lb - 1;
    var nextIndex := if |points| - 1 < index + 1 then |points| - 1 else index + 1;
    var segmentStart := cumulative[index];
    var segmentEnd := cumulative[nextIndex];
    var segmentLength := Max(segmentEnd - segmentStart, MinSegmentLength);
    var factor := (target - segmentStart) / segmentLength;
    sample := points[index].Plus(points[nextIndex].Minus(points[index]).Times(factor));
  }

  /** resample's loop over i = 1..sampleCount, which stops at the first target at or
    * past the total length. */
  method SampleLoop(points: seq<Vec2>, cumulative: seq<real>, spacing: real, totalLength: real) returns (result: seq<Vec2>)
    requires |points| >= 2 && |cumulative| == |points| && 0.0 < spacing
    ensures result == SampledBody(points, cumulative, spacing, totalLength)
  {
    result := [points[0]];
    var sampleCount := Trunc(totalLength / spacing);
    ghost var done: seq<real> := [];
    var i := 1;
    while i <= sampleCount
      invariant 1 <= i
      invariant done + Targets(spacing, totalLength, i, sampleCount) == Targets(spacing, totalLength, 1, sampleCount)
      invariant result == [points[0]] + SamplesAt(points, cumulative, done)
      decreases sampleCount - i
    {
      var target := spacing * i as real;
      TargetIsProduct(spacing, i);
      if target >= totalLength {
        break;
      }
      var sample := InterpolateAt(points, cumulative, target);
      assert (done + [target])[..|done|] == done;
      done := done + [target];
      result := result + [sample];
      i := i + 1;
    }
    assert Targets(spacing, totalLength, i, sampleCount) == [];
    assert done == Targets(spacing, totalLength, 1, Trunc(totalLength / spacing));
  }

  /** resample: guards, arc lengths, the sampling loop, then the end point. */
  method Resample(points: seq<Vec2>, spacing: real, m: Math) returns (result: seq<Vec2>)
    ensures result == Resampled(points, spacing, m)
  {
    if |points| < 2 || spacing <= 0.0 {
      return points;
    }
    var cumulative := BuildCumulativeDistances(points, m);
    var totalLength := cumulative[|cumulative| - 1];
    if totalLength < spacing * 0.5 {
      return points;
    }
    result := SampleLoop(points, cumulative, spacing, totalLength);
    if Distance(result[|result| - 1], points[|points| - 1], m) > EndTolerance {
      result := result + [points[|points| - 1]];
    }
  }

  /** What resample promises: short or degenerate input comes back unchanged; the
    * result starts with the first point and ends at the last point or within 1e-3 of
    * it; and it holds at most floor(total / spacing) + 2 points. */
  lemma ResampleEnds(points: seq<Vec2>, spacing: real, m: Math)
    ensures |points| < 2 || spacing <= 0.0 ==> Resampled(points, spacing, m) == points
    ensures 2 <= |points| && 0.0 < spacing && Cumulative(points, m)[|points| - 1] < spacing * 0.5 ==>
      Resampled(points, spacing, m) == points
    ensures points != [] ==> Resampled(points, spacing, m) != [] && Resampled(points, spacing, m)[0] == points[0]
    ensures points != [] ==>
      var r := Resampled(points, spacing, m);
      r[|r| - 1] == points[|points| - 1] || Distance(r[|r| - 1], points[|points| - 1], m) <= EndTolerance
    ensures 2 <= |points| && 0.0 < spacing ==>
      var total := Cumulative(points, m)[|points| - 1];
      spacing * 0.5 <= total ==> |Resampled(points, spacing, m)| <= Trunc(total / spacing) + 2
  {
  }

  /** An open polyline, whose ends are more than 1e-3 apart, keeps at least two points. */
  lemma ResampleKeepsTwo(points: seq<Vec2>, spacing: real, m: Math)
    requires 2 <= |points| && Distance(points[0], points[|points| - 1], m) > EndTolerance
    ensures 2 <= |Resampled(points, spacing, m)|
  {
    if 0.0 < spacing {
      var cumulative := Cumulative(points, m);
      var total := cumulative[|cumulative| - 1];
      if spacing * 0.5 <= total {
        var body := SampledBody(points, cumulative, spacing, total);
        if |body| == 1 {
          assert body[0] == points[0];
        }
      }
    }
  }

  /** Target k of the list is spacing * (i + k), and below the total length: the
    * samples are taken in order along the track. */
  lemma {:induction false} TargetAt(spacing: real, total: real, i: nat, count: int, k: nat)
    requires k < |Targets(spacing, total, i, count)|
    ensures Targets(spacing, total, i, count)[k] == Target(spacing, i + k) < total
    decreases k
  {
    if 0 < k {
      TargetAt(spacing, total, i + 1, count, k - 1);
      assert i + 1 + (k - 1) == i + k;
    }
  }

  /** Sample k is the point at target k. */
  lemma {:induction false} SampleAtTarget(points: seq<Vec2>, cumulative: seq<real>, targets: seq<real>, k: nat)
    requires |points| >= 2 && |cumulative| == |points| && k < |targets|
    ensures SamplesAt(points, cumulative, targets)[k] == SampleAt(points, cumulative, targets[k])
  {
    if k < |targets| - 1 {
      SampleAtTarget(points, cumulative, targets[..|targets| - 1], k);
    }
  }

  /** A sample taken strictly inside the polyline's arc length lies on one segment:
    * at factor f in (0, 1] from points[j] towards points[j+1], where j is the segment
    * whose arc-length range holds the target. */
  lemma SampleOnSegment(points: seq<Vec2>, target: real, m: Math) returns (f: real)
    requires |points| >= 2
    requires 0.0 < target < Cumulative(points, m)[|points| - 1]
    ensures var cumulative := Cumulative(points, m);
      var j := SegmentIndex(cumulative, target);
      && j + 1 < |points|
      && cumulative[j] < target <= cumulative[j + 1]
      && 0.0 < f <= 1.0
      && SampleAt(points, cumulative, target) == points[j].Plus(points[j + 1].Minus(points[j]).Times(f))
  {
    var cumulative := Cumulative(points, m);
    var lb := LowerBound(cumulative, target);
    LowerBoundIsFirst(cumulative, target);
    assert 0 < lb < |points|;
    var j := lb - 1;
    assert SegmentIndex(cumulative, target) == j;
    var segmentLength := Max(cumulative[j + 1] - cumulative[j], MinSegmentLength);
    f := (target - cumulative[j]) / segmentLength;
    FactorInUnit(target - cumulative[j], cumulative[j + 1] - cumulative[j], segmentLength, f);
  }

  lemma FactorInUnit(offset: real, length: real, divisor: real, f: real)
    requires 0.0 < offset <= length && divisor == Max(length, MinSegmentLength) && f == offset / divisor
    ensures 0.0 < f <= 1.0
  {
  }

  // ---------------------------------------------------------------------------
  // computeTangent

  /** glm::normalize: the zero vector for lengths up to 1e-6, else v / |v|. */
  function Normalize(v: Vec2, m: Math): Vec2 {
    var len := Length(v, m);
    if len <= NormalizeEpsilon then Vec2(0.0, 0.0) else Vec2(v.x / len, v.y / len)
  }

  /** A normalised vector is the zero vector or has length 1 and points the same way. */
  lemma NormalizeUnitOrZero(v: Vec2, m: Math)
    requires Lawful(m)
    ensures Length(v, m) <= NormalizeEpsilon ==> Normalize(v, m) == Vec2(0.0, 0.0)
    ensures NormalizeEpsilon < Length(v, m) ==>
      SqLength(Normalize(v, m)) == 1.0 && Normalize(v, m) == v.Times(1.0 / Length(v, m))
  {
    var len := Length(v, m);
    if NormalizeEpsilon < len {
      UnitByHypot(m, v.x, v.y);
    }
  }

  /** computeTangent: (1, 0) for fewer than two samples; otherwise the normalised
    * forward difference at the start, backward difference at the end and central
    * difference inside. */
  function ComputeTangent(samples: seq<Vec2>, index: nat, m: Math): Vec2
    requires |samples| >= 2 ==> index < |samples|
  {
    if |samples| < 2 then Vec2(1.0, 0.0)
    else if index == 0 then Normalize(samples[1].Minus(samples[0]), m)
    else if index == |samples| - 1 then Normalize(samples[index].Minus(samples[index - 1]), m)
    else Normalize(samples[index + 1].Minus(samples[index - 1]), m)
  }

  /** The three difference cases are one rule: the direction from the previous to the
    * next sample, each index clamped into range. */
  lemma TangentBetweenNeighbours(samples: seq<Vec2>, index: nat, m: Math)
    requires 2 <= |samples| && index < |samples|
    ensures var before := if index == 0 then 0 else index - 1;
      var after := if index + 1 < |samples| then index + 1 else |samples| - 1;
      ComputeTangent(samples, index, m) == Normalize(samples[after].Minus(samples[before]), m)
  {
  }

  /** The tangents of the first k samples. */
  function Tangents(samples: seq<Vec2>, k: nat, m: Math): (r: seq<Vec2>)
    requires k <= |samples|
    ensures |r| == k
  {
    if k == 0 then [] else Tangents(samples, k - 1, m) + [ComputeTangent(samples, k - 1, m)]
  }

  /** Entry i of the tangents is the tangent of sample i. */
  lemma {:induction false} TangentsAt(samples: seq<Vec2>, k: nat, m: Math, i: nat)
    requires k <= |samples| && i < k
    ensures Tangents(samples, k, m)[i] == ComputeTangent(samples, i, m)
  {
    if i < k - 1 {
      TangentsAt(samples, k - 1, m, i);
    }
  }

  /** Every tangent is a unit vector, the zero vector (two coincident neighbours) or,
    * for fewer than two samples, (1, 0). */
  lemma TangentUnitOrZero(samples: seq<Vec2>, index: nat, m: Math)
    requires Lawful(m) && (|samples| >= 2 ==> index < |samples|)
    ensures var t := ComputeTangent(samples, index, m);
      SqLength(t) == 1.0 || t == Vec2(0.0, 0.0)
  {
    if 2 <= |samples| {
      var before := if index == 0 then 0 else index - 1;
      var after := if index + 1 < |samples| then index + 1 else |samples| - 1;
      TangentBetweenNeighbours(samples, index, m);
      NormalizeUnitOrZero(samples[after].Minus(samples[before]), m);
    }
  }

  // ---------------------------------------------------------------------------
  // buildTrackMesh

  /** The resampling spacing for a track of the given width. */
  function MeshSpacing(width: real): real { Max(width * 0.25, 1.0) }

  /** The factor from arc length to the texture's v coordinate. */
  function UvScale(width: real): real { 1.0 / Max(width, 1.0) }

  /** The unit normal of a sample: its tangent turned a quarter turn, normalised. */
  function SampleNormal(samples: seq<Vec2>, i: nat, m: Math): Vec2
    requires i < |samples|
  {
    var tangent := ComputeTangent(samples, i, m);
    Normalize(Vec2(-tangent.y, tangent.x), m)
  }

  function LeftEdge(samples: seq<Vec2>, i: nat, width: real, m: Math): Vec2
    requires i < |samples|
  {
    samples[i].Plus(SampleNormal(samples, i, m).Times(width * 0.5))
  }

  function RightEdge(samples: seq<Vec2>, i: nat, width: real, m: Math): Vec2
    requires i < |samples|
  {
    samples[i].Minus(SampleNormal(samples, i, m).Times(width * 0.5))
  }

  /** The ten floats of one sample: the left vertex (x, 0, z, u = 0, v) and the right
    * vertex (x, 0, z, u = 1, v). */
  function VertexPair(left: Vec2, right: Vec2, v: real): seq<real> {
    [left.x, 0.0, left.y, 0.0, v, right.x, 0.0, right.y, 1.0, v]
  }

  /** The ten floats of sample i, with v the arc length times the uv scale. */
  function Block(samples: seq<Vec2>, cumulative: seq<real>, i: nat, width: real, m: Math): seq<real>
    requires i < |samples| && |cumulative| == |samples|
  {
    VertexPair(LeftEdge(samples, i, width, m), RightEdge(samples, i, width, m), cumulative[i] * UvScale(width))
  }

  /** The vertex floats of the first k samples. */
  function Vertices(samples: seq<Vec2>, cumulative: seq<real>, width: real, m: Math, k: nat): (r: seq<real>)
    requires k <= |samples| && |cumulative| == |samples|
    ensures |r| == 10 * k
  {
    if k == 0 then [] else Vertices(samples, cumulative, width, m, k - 1) + Block(samples, cumulative, k - 1, width, m)
  }

  /** The two triangles joining sample j to sample j+1. */
  function Quad(j: nat): seq<nat> {
    var base := 2 * j;
    [base, base + 1, base + 2, base + 1, base + 3, base + 2]
  }

  /** The indices of the first q quads; every one refers to the first q+1 samples. */
  function Indices(q: nat): (r: seq<nat>)
    ensures |r| == 6 * q
  {
    if q == 0 then [] else Indices(q - 1) + Quad(q - 1)
  }

  /** Every index of the first q quads refers to one of the first q+1 samples. */
  lemma {:induction false} IndicesBounded(q: nat)
    ensures forall k :: 0 <= k < |Indices(q)| ==> Indices(q)[k] < 2 * q + 2
  {
    if q > 0 {
      IndicesBounded(q - 1);
      var r := Indices(q);
      forall k | 0 <= k < |r|
        ensures r[k] < 2 * q + 2
      {
        if k < 6 * (q - 1) {
          assert r[k] == Indices(q - 1)[k];
        } else {
          assert r[k] == Quad(q - 1)[k - 6 * (q - 1)];
        }
      }
    }
  }

  /** A successfully built mesh and geometry. */
  datatype Built = Built(mesh: TrackMesh, geometry: TrackGeometry)

  /** buildTrackMesh: fails for fewer than two centreline points, a width that is not
    * positive, or fewer than two samples after resampling. */
  function BuiltMesh(centerline: seq<Vec2>, width: real, m: Math): Option<Built> {
    if |centerline| < 2 || width <= 0.0 then None
    else
      var samples := Resampled(centerline, MeshSpacing(width), m);
      var cumulative := Cumulative(samples, m);
      if |samples| < 2 then None
      else
        var tangents := Tangents(samples, |samples|, m);
        Some(Built(
          TrackMesh(Vertices(samples, cumulative, width, m, |samples|), Indices(|samples| - 1), Stride),
          TrackGeometry(samples, tangents, width, cumulative[|samples| - 1])))
  }

  /** The body of buildTrackMesh's loop for sample i: its tangent, then its normal,
    * its left and right edge points and the ten floats of its two vertices. */
  method SampleVertices(samples: seq<Vec2>, cumulative: seq<real>, i: nat, width: real, m: Math)
    returns (tangent: Vec2, block: seq<real>)
    requires i < |samples| && |cumulative| == |samples|
    ensures tangent == ComputeTangent(samples, i, m)
    ensures block == Block(samples, cumulative, i, width, m)
  {
    var halfWidth := width * 0.5;
    var uvScale := 1.0 / Max(width, 1.0);
    tangent := ComputeTangent(samples, i, m);
    var normal := Vec2(-tangent.y, tangent.x);
    normal := Normalize(normal, m);
    assert normal == SampleNormal(samples, i, m);
    var center := samples[i];
    var left := center.Plus(normal.Times(halfWidth));
    var right := center.Minus(normal.Times(halfWidth));
    assert left == LeftEdge(samples, i, width, m) && right == RightEdge(samples, i, width, m);
    var v := cumulative[i] * uvScale;
    assert v == cumulative[i] * UvScale(width);
    block := [left.x, 0.0, left.y, 0.0, v, right.x, 0.0, right.y, 1.0, v];
  }

  /** One iteration of buildTrackMesh's loop: store sample i's tangent and push its
    * two vertices. */
  method EmitSample(samples: seq<Vec2>, cumulative: seq<real>, i: nat, width: real, m: Math,
                    tangents: seq<Vec2>, vertices: seq<real>)
    returns (tangents': seq<Vec2>, vertices': seq<real>)
    requires i < |samples| && |cumulative| == |samples| && |tangents| == |samples|
    requires tangents[..i] == Tangents(samples, i, m)
    requires vertices == Vertices(samples, cumulative, width, m, i)
    ensures |tangents'| == |samples| && tangents'[..i + 1] == Tangents(samples, i + 1, m)
    ensures vertices' == Vertices(samples, cumulative, width, m, i + 1)
  {
    var tangent, block := SampleVertices(samples, cumulative, i, width, m);
    tangents' := tangents[i := tangent];
    assert tangents'[..i + 1] == tangents[..i] + [tangent];
    vertices' := vertices + block;
  }

  /** The six indices buildTrackMesh pushes for the two triangles between sample i and
    * sample i+1. */
  method PushQuad(indices: seq<nat>, i: nat) returns (r: seq<nat>)
    requires indices == Indices(i)
    ensures r == Indices(i + 1)
  {
    var base: nat := i * 2;
    r := indices + [base, base + 1, base + 2, base + 1, base + 3, base + 2];
  }

  /** buildTrackMesh's loop: ten vertex floats per sample and six indices per pair of
    * consecutive samples, with each sample's tangent stored on the way. */
  method EmitStrip(samples: seq<Vec2>, cumulative: seq<real>, width: real, m: Math)
    returns (vertices: seq<real>, indices: seq<nat>, tangents: seq<Vec2>)
    requires 2 <= |samples| && |cumulative| == |samples|
    ensures vertices == Vertices(samples, cumulative, width, m, |samples|)
    ensures indices == Indices(|samples| - 1)
    ensures tangents == Tangents(samples, |samples|, m)
  {
    var n := |samples|;
    tangents := seq(n, _ => Vec2(0.0, 0.0));
    vertices := [];
    indices := [];
    ghost var quads: nat := 0;
    for i := 0 to n
      invariant |tangents| == n
      invariant tangents[..i] == Tangents(samples, i, m)
      invariant vertices == Vertices(samples, cumulative, width, m, i)
      invariant indices == Indices(quads)
      invariant quads == if i < n then i else n - 1
    {
      tangents, vertices := EmitSample(samples, cumulative, i, width, m, tangents, vertices);
      if i + 1 < n {
        indices := PushQuad(indices, i);
        quads := quads + 1;
      }
    }
  }

  /** buildTrackMesh: on failure the output mesh and geometry are left as they were;
    * on success they are replaced by the built ones. */
  method BuildTrackMesh(centerline: seq<Vec2>, width: real, mesh: TrackMesh, geometry: TrackGeometry, m: Math)
    returns (ok: bool, outMesh: TrackMesh, outGeometry: TrackGeometry)
    ensures ok <==> BuiltMesh(centerline, width, m).Some?
    ensures ok ==> Built(outMesh, outGeometry) == BuiltMesh(centerline, width, m).value
    ensures !ok ==> outMesh == mesh && outGeometry == geometry
  {
    if |centerline| < 2 || width <= 0.0 {
      return false, mesh, geometry;
    }
    var spacing := Max(width * 0.25, 1.0);
    var samples := Resample(centerline, spacing, m);
    var cumulative := BuildCumulativeDistances(samples, m);
    if |samples| < 2 {
      return false, mesh, geometry;
    }
    var vertices, indices, tangents := EmitStrip(samples, cumulative, width, m);
    outMesh := TrackMesh(vertices, indices, Stride);
    outGeometry := TrackGeometry(samples, tangents, width, cumulative[|samples| - 1]);
    ok := true;
  }

  /** The shape of a built mesh with n samples: 10n vertex floats at stride 5, 6(n-1)
    * indices all below 2n, n tangents, and the total length is the last arc length. */
  lemma BuiltShape(centerline: seq<Vec2>, width: real, m: Math)
    requires BuiltMesh(centerline, width, m).Some?
    ensures var built := BuiltMesh(centerline, width, m).value;
      var n := |built.geometry.samples|;
      && 2 <= n && 2 <= |centerline| && 0.0 < width
      && built.mesh.stride == Stride
      && |built.mesh.vertices| == 10 * n
      && |built.mesh.indices| == 6 * (n - 1)
      && (forall k :: 0 <= k < |built.mesh.indices| ==> built.mesh.indices[k] < 2 * n)
      && |built.geometry.tangents| == n
      && built.geometry.width == width
      && built.geometry.totalLength == Cumulative(built.geometry.samples, m)[n - 1]
  {
    var built := BuiltMesh(centerline, width, m).value;
    IndicesBounded(|built.geometry.samples| - 1);
  }

  /** buildTrackMesh succeeds on every open centreline of at least two points with a
    * positive width, and its first sample is the centreline's first point. */
  lemma BuildSucceeds(centerline: seq<Vec2>, width: real, m: Math)
    requires 2 <= |centerline| && 0.0 < width
    requires Distance(centerline[0], centerline[|centerline| - 1], m) > EndTolerance
    ensures BuiltMesh(centerline, width, m).Some?
    ensures BuiltMesh(centerline, width, m).value.geometry.samples[0] == centerline[0]
  {
    ResampleKeepsTwo(centerline, MeshSpacing(width), m);
    ResampleEnds(centerline, MeshSpacing(width), m);
  }

  /** Sample i's ten floats sit at positions 10i .. 10i+9 of the vertex array. */
  lemma {:induction false} VertexLayout(samples: seq<Vec2>, cumulative: seq<real>, width: real, m: Math, k: nat, i: nat)
    requires k <= |samples| && |cumulative| == |samples| && i < k
    ensures Vertices(samples, cumulative, width, m, k)[10 * i .. 10 * i + 10] == Block(samples, cumulative, i, width, m)
  {
    var prefix := Vertices(samples, cumulative, width, m, k - 1);
    if i < k - 1 {
      VertexLayout(samples, cumulative, width, m, k - 1, i);
      assert Vertices(samples, cumulative, width, m, k)[10 * i .. 10 * i + 10] == prefix[10 * i .. 10 * i + 10];
    } else {
      assert Vertices(samples, cumulative, width, m, k)[10 * i .. 10 * i + 10] == Block(samples, cumulative, i, width, m);
    }
  }

  /** In the vertex array, sample i's left vertex has u = 0 and its right vertex
    * u = 1, both lie on the ground plane (y = 0), share v = arc length * uv scale, and
    * their x and z are the left and right edge points. */
  lemma VertexFields(samples: seq<Vec2>, cumulative: seq<real>, width: real, m: Math, k: nat, i: nat)
    requires k <= |samples| && |cumulative| == |samples| && i < k
    ensures var vs := Vertices(samples, cumulative, width, m, k);
      var left, right := LeftEdge(samples, i, width, m), RightEdge(samples, i, width, m);
      var v := cumulative[i] * UvScale(width);
      && vs[10 * i] == left.x && vs[10 * i + 2] == left.y
      && vs[10 * i + 5] == right.x && vs[10 * i + 7] == right.y
      && vs[10 * i + 1] == 0.0 && vs[10 * i + 6] == 0.0
      && vs[10 * i + 3] == 0.0 && vs[10 * i + 8] == 1.0
      && vs[10 * i + 4] == v && vs[10 * i + 9] == v
  {
    VertexLayout(samples, cumulative, width, m, k, i);
    var vs := Vertices(samples, cumulative, width, m, k);
    var left, right := LeftEdge(samples, i, width, m), RightEdge(samples, i, width, m);
    var v := cumulative[i] * UvScale(width);
    PairFields(vs, 10 * i, left, right, v);
  }

  /** The fields of a vertex pair laid out at `at`. */
  lemma PairFields(vs: seq<real>, at: nat, left: Vec2, right: Vec2, v: real)
    requires at + 10 <= |vs| && vs[at .. at + 10] == VertexPair(left, right, v)
    ensures vs[at] == left.x && vs[at + 2] == left.y && vs[at + 5] == right.x && vs[at + 7] == right.y
    ensures vs[at + 1] == 0.0 && vs[at + 6] == 0.0 && vs[at + 3] == 0.0 && vs[at + 8] == 1.0
    ensures vs[at + 4] == v && vs[at + 9] == v
  {
    var pair := vs[at .. at + 10];
    assert pair[0] == vs[at] && pair[1] == vs[at + 1] && pair[2] == vs[at + 2] && pair[3] == vs[at + 3] && pair[4] == vs[at + 4];
    assert pair[5] == vs[at + 5] && pair[6] == vs[at + 6] && pair[7] == vs[at + 7] && pair[8] == vs[at + 8] && pair[9] == vs[at + 9];
  }

  /** The left and right vertices of a sample are mirror images through the sample,
    * and lie width/2 from it whenever the tangent is not degenerate. */
  lemma EdgesAroundSample(samples: seq<Vec2>, i: nat, width: real, m: Math)
    requires Lawful(m) && i < |samples| && 0.0 < width
    ensures var left, right := LeftEdge(samples, i, width, m), RightEdge(samples, i, width, m);
      && (left.x + right.x) * 0.5 == samples[i].x && (left.y + right.y) * 0.5 == samples[i].y
      && (SampleNormal(samples, i, m) != Vec2(0.0, 0.0) ==>
            Distance(left, samples[i], m) == width * 0.5 && Distance(right, samples[i], m) == width * 0.5)
  {
    var normal := SampleNormal(samples, i, m);
    var tangent := ComputeTangent(samples, i, m);
    NormalizeUnitOrZero(Vec2(-tangent.y, tangent.x), m);
    if normal != Vec2(0.0, 0.0) {
      var left, right := LeftEdge(samples, i, width, m), RightEdge(samples, i, width, m);
      assert left.Minus(samples[i]) == normal.Times(width * 0.5);
      UnitTimes(m, normal, width * 0.5);
      assert right.Minus(samples[i]) == normal.Times(-(width * 0.5));
      UnitTimes(m, normal, -(width * 0.5));
    }
  }
}
