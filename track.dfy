/** TrackGenerator: random closed tracks made of a Catmull-Rom centreline through
  * 8 to 12 control points around the screen centre, with pairs of cones placed
  * along it at a fixed arc-length spacing. */
module Track {
  import opened Geometry

  const MinControlPoints: nat := 8
  const MaxControlPoints: nat := 12
  const SamplesPerSegment: nat := 22

  /** java.lang.Math.PI. */
  const Pi: real := 3.141592653589793

  /** The immutable result of one generation (the android.graphics.Path built from
    * the centreline is not part of this model). */
  datatype TrackData = TrackData(
    centerline: seq<Vec2>,
    leftCones: seq<Vec2>,
    rightCones: seq<Vec2>,
    trackWidth: real)

  // ---------------------------------------------------------------------------
  // Dimensions

  /** The track is 22% of the shorter screen side wide. */
  function TrackWidth(minDimen: real): (w: real)
    ensures 0.0 <= minDimen ==> 0.0 <= w <= minDimen
    ensures 0.0 < minDimen ==> 0.0 < w
  {
    minDimen * 0.22
  }

  /** Cones are placed 0.9 track widths apart. */
  function ConeSpacing(trackWidth: real): (s: real)
    ensures 0.0 < trackWidth ==> 0.0 < s < trackWidth
    ensures trackWidth == 0.0 ==> s == 0.0
  {
    trackWidth * 0.9
  }

  /** The centre coordinate along a screen side of `size` pixels, size / 2f. */
  function Mid(size: int): real { size as real / 2.0 }

  /** Half the track width: how far each cone sits from the centreline. */
  function HalfWidth(trackWidth: real): real { trackWidth / 2.0 }

  // ---------------------------------------------------------------------------
  // Collections.sort on the drawn angles

  predicate SortedAsc(s: seq<real>) {
    forall i, j :: 0 <= i < j < |s| ==> s[i] <= s[j]
  }

  /** Inserts x before the first element not smaller than it. */
  function Insert(x: real, s: seq<real>): (r: seq<real>)
    ensures |r| == |s| + 1
    ensures r[0] == x || (s != [] && r[0] == s[0])
  {
    if s == [] then [x]
    else if x <= s[0] then [x] + s
    else [s[0]] + Insert(x, s[1..])
  }

  /** Inserting adds exactly x to the elements. */
  lemma {:induction false} InsertPermutes(x: real, s: seq<real>)
    ensures multiset(Insert(x, s)) == multiset(s) + multiset{x}
  {
    if s != [] && x > s[0] {
      InsertPermutes(x, s[1..]);
      assert s == [s[0]] + s[1..];
    }
  }

  /** Inserting into a sorted sequence keeps it sorted. */
  lemma {:induction false} InsertSorted(x: real, s: seq<real>)
    requires SortedAsc(s)
    ensures SortedAsc(Insert(x, s))
  {
    if s != [] && x > s[0] {
      InsertSorted(x, s[1..]);
      var rest := Insert(x, s[1..]);
      assert s[0] <= rest[0];
      SortedCons(s[0], rest);
    } else if s != [] {
      SortedCons(x, s);
    }
  }

  lemma SortedCons(a: real, r: seq<real>)
    requires SortedAsc(r) && (r != [] ==> a <= r[0])
    ensures SortedAsc([a] + r)
  {
    var s := [a] + r;
    forall i, j | 0 <= i < j < |s|
      ensures s[i] <= s[j]
    {
      if i == 0 {
        assert s[j] == r[j - 1];
        assert r[0] <= r[j - 1];
      } else {
        assert s[i] == r[i - 1] && s[j] == r[j - 1];
      }
    }
  }

  /** The ascending order Collections.sort produces for finite floats (insertion
    * sort, one element at a time from the back). */
  function SortAscending(s: seq<real>): (r: seq<real>)
    ensures |r| == |s|
  {
    if s == [] then []
    else Insert(s[|s| - 1], SortAscending(s[..|s| - 1]))
  }

  /** Sorting gives an ascending permutation of its input. */
  lemma {:induction false} SortAscendingCorrect(s: seq<real>)
    ensures SortedAsc(SortAscending(s))
    ensures multiset(SortAscending(s)) == multiset(s)
  {
    if s != [] {
      var init := s[..|s| - 1];
      SortAscendingCorrect(init);
      InsertSorted(s[|s| - 1], SortAscending(init));
      InsertPermutes(s[|s| - 1], SortAscending(init));
      assert s == init + [s[|s| - 1]];
    }
  }

  // ---------------------------------------------------------------------------
  // Control points

  /** Random.nextFloat() values lie in [0, 1). */
  predicate UnitDraws(draws: seq<real>) {
    forall i :: 0 <= i < |draws| ==> 0.0 <= draws[i] < 1.0
  }

  /** The number of control points for a draw of Random.nextInt(5). */
  function ControlPointCount(countDraw: int): (n: nat)
    requires 0 <= countDraw < MaxControlPoints - MinControlPoints + 1
    ensures MinControlPoints <= n <= MaxControlPoints
  {
    countDraw + MinControlPoints
  }

  /** How many nextFloat() draws createControlPoints consumes: one angle per point,
    * then a radius and a wobble per point. */
  function DrawsNeeded(count: nat): nat { 3 * count }

  /** The angles drawn first, one per control point, each nextFloat() * 2 * pi. */
  function DrawnAngles(count: nat, draws: seq<real>): seq<real>
    requires |draws| >= count
  {
    seq(count, i requires 0 <= i < count => draws[i] * Pi * 2.0)
  }

  /** The angles in the order the points are built: sorted ascending. */
  function ControlAngles(count: nat, draws: seq<real>): seq<real>
    requires |draws| >= count
  {
    SortAscending(DrawnAngles(count, draws))
  }

  /** Base radius between 0.28 and 0.45 of the shorter side. */
  function Radius(minDimen: real, radiusDraw: real): real {
    minDimen * 0.28 + radiusDraw * (minDimen * 0.45 - minDimen * 0.28)
  }

  /** A wobble of at most 2% of the shorter side either way. */
  function Wobble(minDimen: real, wobbleDraw: real): real {
    (wobbleDraw - 0.5) * minDimen * 0.04
  }

  /** The point at `angle`, radius + wobble away from the centre. */
  function ControlPoint(cx: real, cy: real, minDimen: real, angle: real, radiusDraw: real, wobbleDraw: real, m: Math): Vec2 {
    var offset := Radius(minDimen, radiusDraw) + Wobble(minDimen, wobbleDraw);
    Vec2(cx + m.cos(angle) * offset, cy + m.sin(angle) * offset)
  }

  /** One point per angle; the j-th takes its radius draw from rw[2 j] and its
    * wobble draw from rw[2 j + 1]. */
  function PlacePoints(cx: real, cy: real, minDimen: real, angles: seq<real>, rw: seq<real>, m: Math): seq<Vec2>
    requires |rw| >= 2 * |angles|
  {
    seq(|angles|, j requires 0 <= j < |angles| =>
      ControlPoint(cx, cy, minDimen, angles[j], rw[2 * j], rw[2 * j + 1], m))
  }

  /** The control points createControlPoints returns for the given draws: the sorted
    * angles, placed with the draws that follow the angle draws. */
  function ControlPoints(cx: real, cy: real, minDimen: real, count: nat, draws: seq<real>, m: Math): seq<Vec2>
    requires |draws| >= DrawsNeeded(count)
  {
    PlacePoints(cx, cy, minDimen, ControlAngles(count, draws), draws[count..], m)
  }

  /** createControlPoints: draws count angles, sorts them and places one point per angle. */
  method CreateControlPoints(cx: real, cy: real, minDimen: real, countDraw: int, draws: seq<real>, m: Math)
    returns (points: seq<Vec2>)
    requires 0 <= countDraw < MaxControlPoints - MinControlPoints + 1
    requires |draws| >= DrawsNeeded(ControlPointCount(countDraw))
    ensures points == ControlPoints(cx, cy, minDimen, ControlPointCount(countDraw), draws, m)
    ensures MinControlPoints <= |points| <= MaxControlPoints
  {
    var count := ControlPointCount(countDraw);
    var angles: seq<real> := [];
    var i := 0;
    while i < count
      invariant 0 <= i <= count
      invariant angles == DrawnAngles(count, draws)[..i]
    {
      angles := angles + [draws[i] * Pi * 2.0];
      i := i + 1;
    }
    assert angles == DrawnAngles(count, draws);
    angles := SortAscending(angles);
    ghost var rw := draws[count..];
    points := [];
    var j := 0;
    while j < count
      invariant 0 <= j <= count
      invariant points == PlacePoints(cx, cy, minDimen, angles, rw, m)[..j]
    {
      var radius := minDimen * 0.28 + draws[count + 2 * j] * (minDimen * 0.45 - minDimen * 0.28);
      var wobble := (draws[count + 2 * j + 1] - 0.5) * minDimen * 0.04;
      var x := cx + m.cos(angles[j]) * (radius + wobble);
      var y := cy + m.sin(angles[j]) * (radius + wobble);
      assert Vec2(x, y) == ControlPoint(cx, cy, minDimen, angles[j], rw[2 * j], rw[2 * j + 1], m);
      points := points + [Vec2(x, y)];
      j := j + 1;
    }
  }

  /** The angles are sorted, are a permutation of the drawn ones, and lie in [0, 2 pi). */
  lemma ControlAnglesSortedInRange(count: nat, draws: seq<real>)
    requires |draws| >= count && UnitDraws(draws)
    ensures SortedAsc(ControlAngles(count, draws))
    ensures multiset(ControlAngles(count, draws)) == multiset(DrawnAngles(count, draws))
    ensures forall j :: 0 <= j < count ==> 0.0 <= ControlAngles(count, draws)[j] < 2.0 * Pi
  {
    var drawn := DrawnAngles(count, draws);
    var sorted := ControlAngles(count, draws);
    SortAscendingCorrect(drawn);
    forall j | 0 <= j < count
      ensures 0.0 <= sorted[j] < 2.0 * Pi
    {
      assert sorted[j] in multiset(drawn);
      var i :| 0 <= i < count && drawn[i] == sorted[j];
    }
  }

  /** The base radius lies between 0.28 and 0.45 of the shorter side. */
  lemma RadiusBounds(minDimen: real, radiusDraw: real)
    requires 0.0 <= minDimen && 0.0 <= radiusDraw < 1.0
    ensures minDimen * 0.28 <= Radius(minDimen, radiusDraw) <= minDimen * 0.45
  {
    MulLeLeft(minDimen, 0.0, radiusDraw);
    MulLeLeft(minDimen, radiusDraw, 1.0);
    assert Radius(minDimen, radiusDraw) == minDimen * 0.28 + (minDimen * radiusDraw) * 0.17;
  }

  /** The wobble is at most 0.02 of the shorter side either way. */
  lemma WobbleBounds(minDimen: real, wobbleDraw: real)
    requires 0.0 <= minDimen && 0.0 <= wobbleDraw < 1.0
    ensures -(minDimen * 0.02) <= Wobble(minDimen, wobbleDraw) <= minDimen * 0.02
  {
    MulLeLeft(minDimen, 0.0, wobbleDraw);
    MulLeLeft(minDimen, wobbleDraw, 1.0);
    assert Wobble(minDimen, wobbleDraw) == (minDimen * wobbleDraw) * 0.04 - minDimen * 0.02;
  }

  /** Every control point lies at distance radius + wobble from the centre, which is
    * between 0.26 and 0.47 of the shorter side. */
  lemma ControlPointsAroundCentre(cx: real, cy: real, minDimen: real, angles: seq<real>, rw: seq<real>, m: Math, j: nat)
    requires Lawful(m) && 0.0 <= minDimen && UnitDraws(rw)
    requires |rw| >= 2 * |angles| && j < |angles|
    ensures var offset := Radius(minDimen, rw[2 * j]) + Wobble(minDimen, rw[2 * j + 1]);
            && SqDist(PlacePoints(cx, cy, minDimen, angles, rw, m)[j], Vec2(cx, cy)) == Sq(offset)
            && minDimen * 0.26 <= offset <= minDimen * 0.47
  {
    var angle := angles[j];
    var rd, wd := rw[2 * j], rw[2 * j + 1];
    var offset := Radius(minDimen, rd) + Wobble(minDimen, wd);
    var p := ControlPoint(cx, cy, minDimen, angle, rd, wd, m);
    assert CircleLaw(m, angle);
    OnCircle(cx, cy, m.cos(angle), m.sin(angle), offset, p);
    RadiusBounds(minDimen, rd);
    WobbleBounds(minDimen, wd);
  }

  /** A point c + (cos, sin) * offset with cos^2 + sin^2 = 1 is offset away from c. */
  lemma OnCircle(cx: real, cy: real, c: real, s: real, offset: real, p: Vec2)
    requires Sq(c) + Sq(s) == 1.0
    requires p == Vec2(cx + c * offset, cy + s * offset)
    ensures SqDist(p, Vec2(cx, cy)) == Sq(offset)
  {
    var d := p.Minus(Vec2(cx, cy));
    assert d == Vec2(c, s).Times(offset);
    SqLengthScale(Vec2(c, s), offset);
  }

  // ---------------------------------------------------------------------------
  // Centreline

  /** The Catmull-Rom blend of one coordinate at parameter t. */
  function Blend(a: real, b: real, c: real, d: real, t: real): real {
    0.5 * ((2.0 * b) + (-a + c) * t
      + (2.0 * a - 5.0 * b + 4.0 * c - d) * (t * t)
      + (-a + 3.0 * b - 3.0 * c + d) * (t * t * t))
  }

  /** catmullRom: the curve through p1 (at t = 0) and p2 (at t = 1). */
  function CatmullRom(p0: Vec2, p1: Vec2, p2: Vec2, p3: Vec2, t: real): (r: Vec2)
    ensures t == 0.0 ==> r == p1
    ensures t == 1.0 ==> r == p2
    ensures p0 == p1 == p2 == p3 ==> r == p1
  {
    Vec2(Blend(p0.x, p1.x, p2.x, p3.x, t), Blend(p0.y, p1.y, p2.y, p3.y, t))
  }

  /** Sample k of the closed centreline: segment k / 22 blends the control points
    * before, at, after and two after it (indices taken cyclically), at t = (k % 22) / 22. */
  function CenterlineSample(cps: seq<Vec2>, k: nat): Vec2
    requires k < SamplesPerSegment * |cps|
  {
    var n := |cps|;
    var i := k / SamplesPerSegment;
    var step := k % SamplesPerSegment;
    CatmullRom(cps[(i - 1 + n) % n], cps[i], cps[(i + 1) % n], cps[(i + 2) % n],
      step as real / SamplesPerSegment as real)
  }

  function Centerline(cps: seq<Vec2>): seq<Vec2> {
    seq(SamplesPerSegment * |cps|, k requires 0 <= k < SamplesPerSegment * |cps| => CenterlineSample(cps, k))
  }

  /** createCenterline: 22 samples per control point, segment by segment. */
  method CreateCenterline(cps: seq<Vec2>) returns (output: seq<Vec2>)
    ensures output == Centerline(cps)
    ensures |output| == SamplesPerSegment * |cps|
  {
    output := [];
    var n := |cps|;
    var i := 0;
    while i < n
      invariant 0 <= i <= n
      invariant |output| == SamplesPerSegment * i
      invariant forall k :: 0 <= k < |output| ==> output[k] == CenterlineSample(cps, k)
    {
      var p0 := cps[(i - 1 + n) % n];
      var p1 := cps[i];
      var p2 := cps[(i + 1) % n];
      var p3 := cps[(i + 2) % n];
      var step := 0;
      while step < SamplesPerSegment
        invariant 0 <= step <= SamplesPerSegment
        invariant |output| == SamplesPerSegment * i + step
        invariant forall k :: 0 <= k < |output| ==> output[k] == CenterlineSample(cps, k)
      {
        var t := step as real / SamplesPerSegment as real;
        SampleIndex(i, step);
        output := output + [CatmullRom(p0, p1, p2, p3, t)];
        step := step + 1;
      }
      i := i + 1;
    }
  }

  lemma SampleIndex(i: nat, step: nat)
    requires step < SamplesPerSegment
    ensures (SamplesPerSegment * i + step) / SamplesPerSegment == i
    ensures (SamplesPerSegment * i + step) % SamplesPerSegment == step
  {
  }

  /** The centreline passes through every control point: sample 22 i is point i. */
  lemma CenterlineThroughControlPoints(cps: seq<Vec2>, i: nat)
    requires i < |cps|
    ensures Centerline(cps)[SamplesPerSegment * i] == cps[i]
  {
    SampleIndex(i, 0);
  }

  /** Each segment ends (t = 1) where the next one starts, the last one at sample 0:
    * the curve is closed. */
  lemma CenterlineSegmentsJoin(cps: seq<Vec2>, i: nat)
    requires i < |cps|
    ensures var n := |cps|;
            CatmullRom(cps[(i - 1 + n) % n], cps[i], cps[(i + 1) % n], cps[(i + 2) % n], 1.0)
              == Centerline(cps)[SamplesPerSegment * ((i + 1) % n)]
  {
    CenterlineThroughControlPoints(cps, (i + 1) % |cps|);
  }

  /** Control points that all coincide give a centreline made of that one point. */
  lemma CenterlineOfOnePoint(cps: seq<Vec2>, p: Vec2)
    requires forall i :: 0 <= i < |cps| ==> cps[i] == p
    ensures forall k :: 0 <= k < |Centerline(cps)| ==> Centerline(cps)[k] == p
  {
  }

  // ---------------------------------------------------------------------------
  // Cone placement

  /** One cone pair placed by the walk: `ratio` of the way from `anchor` (the walk's
    * previous point) towards `end` (centreline point `index % |centreline|`), which
    * is `advance` along that segment. */
  datatype Placement = Placement(anchor: Vec2, end: Vec2, index: nat, ratio: real, advance: real) {
    function Direction(): Vec2 { end.Minus(anchor) }
    function Centre(): Vec2 { anchor.Plus(Direction().Times(ratio)) }
  }

  /** The unit normal to the left of direction d (tangent (tx, ty) gives (-ty, tx)). */
  function LeftNormal(d: Vec2, m: Math): Vec2 {
    var len := m.hypot(d.x, d.y);
    if len == 0.0 then Vec2(0.0, 0.0) else Vec2(-(d.y / len), d.x / len)
  }

  function LeftCone(pl: Placement, halfWidth: real, m: Math): Vec2 {
    pl.Centre().Plus(LeftNormal(pl.Direction(), m).Times(halfWidth))
  }

  function RightCone(pl: Placement, halfWidth: real, m: Math): Vec2 {
    pl.Centre().Minus(LeftNormal(pl.Direction(), m).Times(halfWidth))
  }

  function LeftCones(pls: seq<Placement>, halfWidth: real, m: Math): seq<Vec2> {
    seq(|pls|, k requires 0 <= k < |pls| => LeftCone(pls[k], halfWidth, m))
  }

  function RightCones(pls: seq<Placement>, halfWidth: real, m: Math): seq<Vec2> {
    seq(|pls|, k requires 0 <= k < |pls| => RightCone(pls[k], halfWidth, m))
  }

  /** A placement made on a non-degenerate segment ending at a centreline point,
    * strictly past the anchor and at most at the end, `advance` away from the anchor. */
  ghost predicate PlacedOn(pl: Placement, centerline: seq<Vec2>, spacing: real, m: Math) {
    && 1 <= pl.index <= |centerline|
    && pl.end == centerline[pl.index % |centerline|]
    && 0.0 < Length(pl.Direction(), m)
    && 0.0 < pl.ratio <= 1.0
    && 0.0 < pl.advance <= spacing
    && Distance(pl.Centre(), pl.anchor, m) == pl.advance
  }

  /** Where the walk continued from: a centreline point, or the previous cone pair's
    * centre, in which case the cone is a full spacing further on. */
  ghost predicate Chained(pls: seq<Placement>, centerline: seq<Vec2>, spacing: real) {
    forall k {:trigger pls[k]} :: 0 <= k < |pls| ==>
      pls[k].anchor in centerline ||
      (k > 0 && pls[k].anchor == pls[k - 1].Centre() && pls[k].advance == spacing)
  }

  predicate AllSame(s: seq<Vec2>) {
    forall i :: 0 <= i < |s| ==> s[i] == s[0]
  }

  /** The two cones of a pair sit symmetrically about the pair's centre, a unit normal
    * times halfWidth to either side, so they are 2 * halfWidth apart. */
  lemma ConePairAcross(pl: Placement, halfWidth: real, m: Math)
    requires Lawful(m) && 0.0 < Length(pl.Direction(), m)
    ensures SqLength(LeftNormal(pl.Direction(), m)) == 1.0
    ensures LeftCone(pl, halfWidth, m).Minus(RightCone(pl, halfWidth, m))
              == LeftNormal(pl.Direction(), m).Times(2.0 * halfWidth)
    ensures LeftCone(pl, halfWidth, m).Plus(RightCone(pl, halfWidth, m)) == pl.Centre().Times(2.0)
    ensures SqDist(LeftCone(pl, halfWidth, m), RightCone(pl, halfWidth, m)) == Sq(2.0 * halfWidth)
  {
    var d := pl.Direction();
    var n := LeftNormal(d, m);
    var len := m.hypot(d.x, d.y);
    UnitByHypot(m, d.x, d.y);
    assert Sq(-(d.y / len)) == Sq(d.y / len);
    assert SqLength(n) == 1.0;
    SqLengthScale(n, 2.0 * halfWidth);
  }

  /** One step of the inner loop: the cone lands spacing - accumulated along the
    * segment, strictly inside it or at its end, and what is left of the segment is
    * shorter by exactly that much. */
  lemma AdvanceAlong(m: Math, previous: Vec2, current: Vec2, accumulated: real, spacing: real)
    requires Lawful(m)
    requires 0.0 <= accumulated < spacing <= accumulated + Length(current.Minus(previous), m)
    ensures var d := current.Minus(previous);
            var len := Length(d, m);
            var ratio := (spacing - accumulated) / len;
            var p := previous.Plus(d.Times(ratio));
            && 0.0 < len
            && 0.0 < ratio <= 1.0
            && Distance(p, previous, m) == spacing - accumulated
            && Length(current.Minus(p), m) == len - (spacing - accumulated)
  {
    var d := current.Minus(previous);
    var len := Length(d, m);
    var ratio := (spacing - accumulated) / len;
    var p := previous.Plus(d.Times(ratio));
    FractionOf(spacing - accumulated, len);
    assert p.Minus(previous) == d.Times(ratio);
    ScaledLength(m, d, ratio);
    assert current.Minus(p) == d.Times(1.0 - ratio);
    ScaledLength(m, d, 1.0 - ratio);
    ShorterBy(ratio, len, spacing - accumulated);
  }

  lemma FractionOf(a: real, len: real)
    requires 0.0 < a <= len
    ensures 0.0 < a / len <= 1.0
    ensures (a / len) * len == a
  {
  }

  lemma ShorterBy(ratio: real, len: real, a: real)
    requires ratio * len == a
    ensures (1.0 - ratio) * len == len - a
  {
  }

  /** Length(d * k) == k * Length(d) for k >= 0. */
  lemma ScaledLength(m: Math, d: Vec2, k: real)
    requires Lawful(m) && 0.0 <= k
    ensures Length(d.Times(k), m) == k * Length(d, m)
  {
    HypotScale(m, d.x, d.y, k);
    var h := Length(d, m);
    assert d.Times(k) == Vec2(d.x * k, d.y * k);
    assert Length(d.Times(k), m) == m.hypot(d.x * k, d.y * k);
    assert Length(d.Times(k), m) == k * h;
  }

  /** What the inner loop knows about the pair it has just placed at (px, py) with
    * normal (nx, ny), and about the part of the segment still ahead of it. */
  ghost predicate Emitted(m: Math, pl: Placement, px: real, py: real, nx: real, ny: real, halfWidth: real, remaining: real) {
    && pl.Centre() == Vec2(px, py)
    && LeftCone(pl, halfWidth, m) == Vec2(px + nx * halfWidth, py + ny * halfWidth)
    && RightCone(pl, halfWidth, m) == Vec2(px - nx * halfWidth, py - ny * halfWidth)
    && 0.0 < Length(pl.Direction(), m)
    && 0.0 < pl.ratio <= 1.0
    && Distance(pl.Centre(), pl.anchor, m) == pl.advance
    && m.hypot(pl.end.x - px, pl.end.y - py) == remaining
  }

  /** The pair the inner loop emits, computed the way populateConePositions does: the
    * ratio, p, tangent and normal from dx, dy and the segment length. */
  lemma EmittedPair(m: Math, previous: Vec2, current: Vec2, dx: real, dy: real, len: real,
                    index: nat, accumulated: real, spacing: real, halfWidth: real,
                    ratio: real, px: real, py: real, nx: real, ny: real)
    requires Lawful(m)
    requires dx == current.x - previous.x && dy == current.y - previous.y && len == m.hypot(dx, dy)
    requires 0.0 <= accumulated < spacing <= accumulated + len
    requires ratio == (spacing - accumulated) / len
    requires px == previous.x + ratio * dx && py == previous.y + ratio * dy
    requires nx == -(dy / len) && ny == dx / len
    ensures Emitted(m, Placement(previous, current, index, ratio, spacing - accumulated), px, py, nx, ny,
                    halfWidth, len - (spacing - accumulated))
  {
    AdvanceAlong(m, previous, current, accumulated, spacing);
    var d := current.Minus(previous);
    assert d == Vec2(dx, dy);
  }

  lemma ConesAppend(pls: seq<Placement>, pl: Placement, halfWidth: real, m: Math)
    ensures LeftCones(pls + [pl], halfWidth, m) == LeftCones(pls, halfWidth, m) + [LeftCone(pl, halfWidth, m)]
    ensures RightCones(pls + [pl], halfWidth, m) == RightCones(pls, halfWidth, m) + [RightCone(pl, halfWidth, m)]
  {
  }

  /** Everything the walk has established about the pairs placed so far, all of them
    * on segments up to centreline index `bound`. */
  ghost predicate Walked(pls: seq<Placement>, centerline: seq<Vec2>, spacing: real, m: Math, bound: nat) {
    && (forall k :: 0 <= k < |pls| ==> PlacedOn(pls[k], centerline, spacing, m))
    && Chained(pls, centerline, spacing)
    && (forall i, j :: 0 <= i < j < |pls| ==> pls[i].index <= pls[j].index)
    && (forall k :: 0 <= k < |pls| ==> pls[k].index <= bound)
  }

  lemma WalkedAppend(pls: seq<Placement>, pl: Placement, centerline: seq<Vec2>, spacing: real, m: Math, bound: nat)
    requires Walked(pls, centerline, spacing, m, bound)
    requires PlacedOn(pl, centerline, spacing, m) && pl.index == bound
    requires pl.anchor in centerline || (pls != [] && pl.anchor == pls[|pls| - 1].Centre() && pl.advance == spacing)
    ensures Walked(pls + [pl], centerline, spacing, m, bound)
  {
    var r := pls + [pl];
    forall k | 0 <= k < |r|
      ensures r[k].anchor in centerline || (k > 0 && r[k].anchor == r[k - 1].Centre() && r[k].advance == spacing)
    {
      if k < |pls| {
        assert r[k] == pls[k];
        if k > 0 {
          assert r[k - 1] == pls[k - 1];
        }
      } else {
        assert r[k] == pl;
        if pl.anchor !in centerline {
          assert r[k - 1] == pls[|pls| - 1];
        }
      }
    }
  }

  /** The inner loop's measure drops by one per cone. */
  lemma OneSpacingLess(before: real, after: real, spacing: real)
    requires 0.0 < spacing && after == before - spacing
    ensures (after / spacing).Floor == (before / spacing).Floor - 1
  {
    var q := before / spacing;
    assert before == q * spacing;
    assert after == (q - 1.0) * spacing;
    QuotientOf(after, spacing, q - 1.0);
  }

  lemma QuotientOf(x: real, s: real, q: real)
    requires s != 0.0 && x == q * s
    ensures x / s == q
  {
  }

  lemma MulLtRight(a: real, b: real, c: real)
    requires 0.0 < c && a < b
    ensures a * c < b * c
  {
    assert b * c - a * c == (b - a) * c;
  }

  /** The inner loop's invariant: where it stands on the segment towards `current`, and
    * everything established about the pairs placed so far. */
  ghost predicate SegmentState(m: Math, centerline: seq<Vec2>, spacing: real, halfWidth: real, index: nat,
                               current: Vec2, previous: Vec2, dx: real, dy: real, segmentLength: real, accumulated: real,
                               left: seq<Vec2>, right: seq<Vec2>, placements: seq<Placement>) {
    && 0.0 <= accumulated < spacing && 0.0 <= segmentLength
    && dx == current.x - previous.x && dy == current.y - previous.y
    && segmentLength == m.hypot(dx, dy)
    && (previous in centerline || (placements != [] && previous == placements[|placements| - 1].Centre() && accumulated == 0.0))
    && left == LeftCones(placements, halfWidth, m)
    && right == RightCones(placements, halfWidth, m)
    && Walked(placements, centerline, spacing, m, index)
  }

  /** One turn of the inner loop keeps its invariant, and what is left of the segment
    * shrinks by exactly the distance to the new pair. */
  lemma PairStep(m: Math, centerline: seq<Vec2>, spacing: real, halfWidth: real, index: nat,
                 current: Vec2, previous: Vec2, dx: real, dy: real, len: real, accumulated: real,
                 left: seq<Vec2>, right: seq<Vec2>, placements: seq<Placement>,
                 ratio: real, px: real, py: real, nx: real, ny: real, newLen: real)
    requires Lawful(m)
    requires 1 <= index <= |centerline| && current == centerline[index % |centerline|]
    requires SegmentState(m, centerline, spacing, halfWidth, index, current, previous, dx, dy, len, accumulated,
                          left, right, placements)
    requires spacing <= accumulated + len
    requires ratio == (spacing - accumulated) / len
    requires px == previous.x + ratio * dx && py == previous.y + ratio * dy
    requires nx == -(dy / len) && ny == dx / len
    requires newLen == m.hypot(current.x - px, current.y - py)
    ensures SegmentState(m, centerline, spacing, halfWidth, index, current, Vec2(px, py),
                         current.x - px, current.y - py, newLen, 0.0,
                         left + [Vec2(px + nx * halfWidth, py + ny * halfWidth)],
                         right + [Vec2(px - nx * halfWidth, py - ny * halfWidth)],
                         placements + [Placement(previous, current, index, ratio, spacing - accumulated)])
    ensures newLen == len - (spacing - accumulated)
  {
    var pl := Placement(previous, current, index, ratio, spacing - accumulated);
    EmittedPair(m, previous, current, dx, dy, len, index, accumulated, spacing, halfWidth, ratio, px, py, nx, ny);
    ConesAppend(placements, pl, halfWidth, m);
    WalkedAppend(placements, pl, centerline, spacing, m, index);
    assert HypotLaw(m, current.x - px, current.y - py);
    assert (placements + [pl])[|placements|] == pl;
  }

  /** The inner loop of populateConePositions on one segment previous -> current
    * (centreline point index % total): while the accumulated length plus what is left
    * of the segment reaches the spacing, place a pair and continue from it. */
  method PlaceAlongSegment(centerline: seq<Vec2>, spacing: real, halfWidth: real, m: Math, index: nat,
                           current: Vec2, previous0: Vec2, accumulated0: real, dx0: real, dy0: real, segmentLength0: real,
                           left0: seq<Vec2>, right0: seq<Vec2>, ghost placements0: seq<Placement>)
    returns (accumulated: real, segmentLength: real, left: seq<Vec2>, right: seq<Vec2>, ghost placements: seq<Placement>)
    requires Lawful(m) && 0.0 < spacing
    requires 1 <= index <= |centerline| && current == centerline[index % |centerline|]
    requires SegmentState(m, centerline, spacing, halfWidth, index, current, previous0, dx0, dy0, segmentLength0, accumulated0,
                          left0, right0, placements0)
    ensures 0.0 <= accumulated && 0.0 <= segmentLength && accumulated + segmentLength < spacing
    ensures left == LeftCones(placements, halfWidth, m) && right == RightCones(placements, halfWidth, m)
    ensures Walked(placements, centerline, spacing, m, index)
    ensures placements == placements0 + AlongSegment(m, spacing, index, current, previous0, accumulated0).placed
    ensures accumulated + segmentLength == AlongSegment(m, spacing, index, current, previous0, accumulated0).leftover
  {
    accumulated, segmentLength, left, right, placements := accumulated0, segmentLength0, left0, right0, placements0;
    var previous, dx, dy := previous0, dx0, dy0;
    ghost var target := AlongSegment(m, spacing, index, current, previous0, accumulated0);
    while accumulated + segmentLength >= spacing
      invariant SegmentState(m, centerline, spacing, halfWidth, index, current, previous, dx, dy, segmentLength, accumulated,
                             left, right, placements)
      invariant Remaining(m, spacing, index, current, previous, accumulated, placements, placements0 + target.placed, target.leftover)
      decreases ((accumulated + segmentLength) / spacing).Floor
    {
      AtLeastOneSpacing(accumulated + segmentLength, spacing);
      var distanceToNext := spacing - accumulated;
      var ratio := distanceToNext / segmentLength;
      var px := previous.x + ratio * dx;
      var py := previous.y + ratio * dy;

      var tangentX := dx / segmentLength;
      var tangentY := dy / segmentLength;
      var normalX := -tangentY;
      var normalY := tangentX;
      var nextLength := m.hypot(current.x - px, current.y - py);

      ghost var pl := Placement(previous, current, index, ratio, distanceToNext);
      RemainingStep(m, spacing, index, current, previous, dx, dy, segmentLength, accumulated, ratio, px, py,
                    placements, placements0 + target.placed, target.leftover);
      PairStep(m, centerline, spacing, halfWidth, index, current, previous, dx, dy, segmentLength, accumulated,
               left, right, placements, ratio, px, py, normalX, normalY, nextLength);
      OneSpacingLess(accumulated + segmentLength, nextLength, spacing);
      left := left + [Vec2(px + normalX * halfWidth, py + normalY * halfWidth)];
      right := right + [Vec2(px - normalX * halfWidth, py - normalY * halfWidth)];
      placements := placements + [pl];

      previous := Vec2(px, py);
      dx := current.x - previous.x;
      dy := current.y - previous.y;
      segmentLength := nextLength;
      accumulated := 0.0;
    }
    RemainingAtEnd(m, spacing, index, current, previous, accumulated, placements, placements0 + target.placed, target.leftover);
  }

  lemma AtLeastOneSpacing(x: real, s: real)
    requires 0.0 < s <= x
    ensures 1 <= (x / s).Floor
  {
    assert 1.0 <= x / s;
  }

  /** The inner loop's bookkeeping against AlongSegment: the pairs placed so far plus
    * what the walk of the rest of the segment places are the segment's pairs. */
  ghost predicate Remaining(m: Math, spacing: real, index: nat, current: Vec2, previous: Vec2, accumulated: real,
                            placements: seq<Placement>, total: seq<Placement>, leftover: real)
    requires Lawful(m) && 0.0 <= accumulated < spacing
  {
    var rest := AlongSegment(m, spacing, index, current, previous, accumulated);
    placements + rest.placed == total && rest.leftover == leftover
  }

  lemma RemainingStep(m: Math, spacing: real, index: nat, current: Vec2, previous: Vec2, dx: real, dy: real, len: real,
                      accumulated: real, ratio: real, px: real, py: real,
                      placements: seq<Placement>, total: seq<Placement>, leftover: real)
    requires Lawful(m) && 0.0 <= accumulated < spacing
    requires dx == current.x - previous.x && dy == current.y - previous.y && len == m.hypot(dx, dy)
    requires spacing <= accumulated + len
    requires ratio == (spacing - accumulated) / len
    requires px == previous.x + ratio * dx && py == previous.y + ratio * dy
    requires Remaining(m, spacing, index, current, previous, accumulated, placements, total, leftover)
    ensures Remaining(m, spacing, index, current, Vec2(px, py), 0.0,
                      placements + [Placement(previous, current, index, ratio, spacing - accumulated)], total, leftover)
  {
    var pl := Placement(previous, current, index, ratio, spacing - accumulated);
    assert len == Distance(current, previous, m);
    assert pl.Centre() == Vec2(px, py);
    AlongSegmentStep(m, spacing, index, current, previous, accumulated, pl);
    var rest := AlongSegment(m, spacing, index, current, Vec2(px, py), 0.0);
    assert (placements + [pl]) + rest.placed == placements + ([pl] + rest.placed);
  }

  lemma RemainingAtEnd(m: Math, spacing: real, index: nat, current: Vec2, previous: Vec2, accumulated: real,
                       placements: seq<Placement>, total: seq<Placement>, leftover: real)
    requires Lawful(m) && 0.0 <= accumulated < spacing
    requires accumulated + Distance(current, previous, m) < spacing
    requires Remaining(m, spacing, index, current, previous, accumulated, placements, total, leftover)
    ensures placements == total && accumulated + Distance(current, previous, m) == leftover
  {
  }

  /** One pair placed: the rest of the segment is walked from it with nothing accumulated. */
  lemma AlongSegmentStep(m: Math, spacing: real, index: nat, current: Vec2, previous: Vec2, accumulated: real, pl: Placement)
    requires Lawful(m) && 0.0 <= accumulated < spacing <= accumulated + Distance(current, previous, m)
    requires pl == Placement(previous, current, index, (spacing - accumulated) / Distance(current, previous, m), spacing - accumulated)
    ensures var rest := AlongSegment(m, spacing, index, current, pl.Centre(), 0.0);
            AlongSegment(m, spacing, index, current, previous, accumulated) == SegmentWalk([pl] + rest.placed, rest.leftover)
  {
  }

  /** Everything the walk guarantees about its placements. */
  ghost predicate ConeWalk(walked: seq<Placement>, centerline: seq<Vec2>, spacing: real, m: Math) {
    && (forall k :: 0 <= k < |walked| ==> PlacedOn(walked[k], centerline, spacing, m))
    && Chained(walked, centerline, spacing)
  }

  /** The outer loop's invariant, before the segment ending at centreline[index % total]. */
  ghost predicate WalkState(m: Math, centerline: seq<Vec2>, spacing: real, halfWidth: real, index: nat,
                            previous: Vec2, accumulated: real,
                            left: seq<Vec2>, right: seq<Vec2>, placements: seq<Placement>) {
    && 1 <= index
    && 0.0 <= accumulated && (0.0 < spacing ==> accumulated < spacing)
    && (spacing <= 0.0 ==> placements == [] && accumulated == 0.0)
    && (previous in centerline || (placements != [] && previous == placements[|placements| - 1].Centre() && accumulated == 0.0))
    && left == LeftCones(placements, halfWidth, m)
    && right == RightCones(placements, halfWidth, m)
    && Walked(placements, centerline, spacing, m, index - 1)
  }

  /** A walk whose placements lie on segments up to one bound lies within any larger one. */
  lemma WalkedWithin(pls: seq<Placement>, centerline: seq<Vec2>, spacing: real, m: Math, bound: nat, larger: nat)
    requires Walked(pls, centerline, spacing, m, bound) && bound <= larger
    ensures Walked(pls, centerline, spacing, m, larger)
  {
  }

  /** Segments shorter than this are skipped by the walk. */
  const MinSegmentLength: real := 0.001

  /** What the walk does on one segment: the pairs it places there, and the arc
    * length walked since the last pair when it reaches the segment's end. */
  datatype SegmentWalk = SegmentWalk(placed: seq<Placement>, leftover: real)

  /** n spacings of length s, laid end to end. */
  function Spaced(n: nat, s: real): real {
    if n == 0 then 0.0 else Spaced(n - 1, s) + s
  }

  lemma {:induction false} SpacedIsProduct(n: nat, s: real)
    ensures Spaced(n, s) == n as real * s
  {
    if n > 0 {
      SpacedIsProduct(n - 1, s);
      assert n as real * s == (n - 1) as real * s + s;
    }
  }

  lemma {:induction false} SpacedAdd(a: nat, b: nat, s: real)
    ensures Spaced(a + b, s) == Spaced(a, s) + Spaced(b, s)
  {
    if b > 0 {
      SpacedAdd(a, b - 1, s);
    }
  }

  /** The inner loop of populateConePositions on the segment previous -> current:
    * `accumulated` is the arc length walked since the last pair. Whenever a full
    * spacing is reached before `current`, a pair is placed there and the walk goes on
    * from it with nothing accumulated. Every pair is one spacing of arc length past
    * the one before it, the first one `spacing - accumulated` into the segment. */
  ghost function AlongSegment(m: Math, spacing: real, index: nat, current: Vec2, previous: Vec2, accumulated: real)
    : (r: SegmentWalk)
    requires Lawful(m) && 0.0 <= accumulated < spacing
    ensures 0.0 <= r.leftover < spacing
    ensures Spaced(|r.placed|, spacing) + r.leftover == accumulated + Distance(current, previous, m)
    decreases ((accumulated + Distance(current, previous, m)) / spacing).Floor
  {
    var len := Distance(current, previous, m);
    assert HypotLaw(m, current.x - previous.x, current.y - previous.y);
    if accumulated + len < spacing then SegmentWalk([], accumulated + len)
    else
      var pl := Placement(previous, current, index, (spacing - accumulated) / len, spacing - accumulated);
      AdvanceAlong(m, previous, current, accumulated, spacing);
      OneSpacingLess(accumulated + len, Distance(current, pl.Centre(), m), spacing);
      var rest := AlongSegment(m, spacing, index, current, pl.Centre(), 0.0);
      SegmentWalk([pl] + rest.placed, rest.leftover)
  }

  /** On one segment the first pair is `spacing - accumulated` past the segment's start
    * (completing the spacing begun on earlier segments), and every later pair is a
    * full spacing past the one before it, along the same segment. */
  lemma {:induction false} SegmentSpacing(m: Math, spacing: real, index: nat, current: Vec2, previous: Vec2, accumulated: real)
    requires Lawful(m) && 0.0 <= accumulated < spacing
    ensures var r := AlongSegment(m, spacing, index, current, previous, accumulated);
      && (r.placed != [] ==> r.placed[0].anchor == previous && r.placed[0].advance == spacing - accumulated)
      && (forall k :: 0 < k < |r.placed| ==>
            r.placed[k].anchor == r.placed[k - 1].Centre() && r.placed[k].advance == spacing)
      && (forall k :: 0 <= k < |r.placed| ==> r.placed[k].end == current && r.placed[k].index == index)
    decreases ((accumulated + Distance(current, previous, m)) / spacing).Floor
  {
    var len := Distance(current, previous, m);
    assert HypotLaw(m, current.x - previous.x, current.y - previous.y);
    if accumulated + len >= spacing {
      var pl := Placement(previous, current, index, (spacing - accumulated) / len, spacing - accumulated);
      AdvanceAlong(m, previous, current, accumulated, spacing);
      OneSpacingLess(accumulated + len, Distance(current, pl.Centre(), m), spacing);
      SegmentSpacing(m, spacing, index, current, pl.Centre(), 0.0);
      var rest := AlongSegment(m, spacing, index, current, pl.Centre(), 0.0);
      var r := AlongSegment(m, spacing, index, current, previous, accumulated);
      assert r.placed == [pl] + rest.placed;
      forall k | 0 < k < |r.placed|
        ensures r.placed[k].anchor == r.placed[k - 1].Centre() && r.placed[k].advance == spacing
      {
        assert r.placed[k] == rest.placed[k - 1];
        if k > 1 {
          assert r.placed[k - 1] == rest.placed[k - 2];
        }
      }
    }
  }

  /** The length of the polyline the walk follows from centreline index `index` on,
    * starting at `previous` and closing back to point 0: segments shorter than
    * MinSegmentLength are skipped and do not move `previous`. */
  function PathLength(centerline: seq<Vec2>, m: Math, index: nat, previous: Vec2): real
    requires centerline != [] && 1 <= index
    decreases |centerline| + 1 - index
  {
    if index > |centerline| then 0.0
    else
      var current := centerline[index % |centerline|];
      var len := Distance(current, previous, m);
      if len < MinSegmentLength then PathLength(centerline, m, index + 1, previous)
      else len + PathLength(centerline, m, index + 1, current)
  }

  /** The outer loop of populateConePositions from centreline index `index` on. */
  ghost function WalkFrom(centerline: seq<Vec2>, spacing: real, m: Math, index: nat, previous: Vec2, accumulated: real)
    : (r: SegmentWalk)
    requires Lawful(m) && centerline != [] && 1 <= index && 0.0 <= accumulated < spacing
    ensures 0.0 <= r.leftover < spacing
    decreases |centerline| + 1 - index
  {
    if index > |centerline| then SegmentWalk([], accumulated)
    else
      var current := centerline[index % |centerline|];
      if Distance(current, previous, m) < MinSegmentLength then
        WalkFrom(centerline, spacing, m, index + 1, previous, accumulated)
      else
        var here := AlongSegment(m, spacing, index, current, previous, accumulated);
        var rest := WalkFrom(centerline, spacing, m, index + 1, current, here.leftover);
        SegmentWalk(here.placed + rest.placed, rest.leftover)
  }

  /** From centreline index `index` on, the pairs placed and the arc length left over
    * account for all of the walked length: one pair per full spacing. */
  lemma {:induction false} WalkCount(centerline: seq<Vec2>, spacing: real, m: Math, index: nat, previous: Vec2, accumulated: real)
    requires Lawful(m) && centerline != [] && 1 <= index && 0.0 <= accumulated < spacing
    ensures var r := WalkFrom(centerline, spacing, m, index, previous, accumulated);
            Spaced(|r.placed|, spacing) + r.leftover == accumulated + PathLength(centerline, m, index, previous)
    decreases |centerline| + 1 - index
  {
    var r := WalkFrom(centerline, spacing, m, index, previous, accumulated);
    var path := PathLength(centerline, m, index, previous);
    if index > |centerline| {
      assert r.placed == [] && r.leftover == accumulated && path == 0.0;
    } else {
      var current := centerline[index % |centerline|];
      var len := Distance(current, previous, m);
      if len < MinSegmentLength {
        assert r == WalkFrom(centerline, spacing, m, index + 1, previous, accumulated);
        assert path == PathLength(centerline, m, index + 1, previous);
        WalkCount(centerline, spacing, m, index + 1, previous, accumulated);
      } else {
        var here := AlongSegment(m, spacing, index, current, previous, accumulated);
        var rest := WalkFrom(centerline, spacing, m, index + 1, current, here.leftover);
        var restPath := PathLength(centerline, m, index + 1, current);
        assert r == SegmentWalk(here.placed + rest.placed, rest.leftover);
        assert path == len + restPath;
        WalkCount(centerline, spacing, m, index + 1, current, here.leftover);
        CountsAdd(|here.placed|, |rest.placed|, spacing, accumulated, len, here.leftover, restPath, rest.leftover);
      }
    }
  }

  /** Pairs and leftovers of two consecutive stretches add up. */
  lemma CountsAdd(a: nat, b: nat, s: real, accumulated: real, len: real, middle: real, path: real, leftover: real)
    requires Spaced(a, s) + middle == accumulated + len
    requires Spaced(b, s) + leftover == middle + path
    ensures Spaced(a + b, s) + leftover == accumulated + (len + path)
  {
    SpacedAdd(a, b, s);
  }

  /** The pairs populateConePositions places before its rotation. (A non-positive
    * spacing is only admitted for a centreline of one repeated point, which places
    * nothing.) */
  ghost function Walk(centerline: seq<Vec2>, spacing: real, m: Math): seq<Placement>
    requires Lawful(m)
  {
    if centerline == [] || spacing <= 0.0 then []
    else WalkFrom(centerline, spacing, m, 1, centerline[0], 0.0).placed
  }

  lemma PositiveFactor(a: real, s: real)
    requires 0.0 < s && 0.0 < a * s
    ensures 0.0 < a
  {
  }

  /** n * s <= x < (n + 1) * s makes n the floor of x / s. */
  lemma FloorOf(n: nat, s: real, x: real, rest: real)
    requires 0.0 < s && 0.0 <= rest < s && n as real * s + rest == x
    ensures (x / s).Floor == n
  {
    var f := rest / s;
    assert f * s == rest;
    assert x / s == n as real + f;
    assert (1.0 - f) * s == s - rest;
    PositiveFactor(1.0 - f, s);
  }

  /** The walk places one pair per full spacing of walked arc length: with L the
    * length of the polyline it follows, it places exactly floor(L / spacing) pairs,
    * so no stretch of a spacing is left without a pair and none gets two. */
  lemma ConeCount(centerline: seq<Vec2>, spacing: real, m: Math)
    requires Lawful(m) && centerline != [] && 0.0 < spacing
    ensures |Walk(centerline, spacing, m)| == (PathLength(centerline, m, 1, centerline[0]) / spacing).Floor
  {
    var r := WalkFrom(centerline, spacing, m, 1, centerline[0], 0.0);
    WalkCount(centerline, spacing, m, 1, centerline[0], 0.0);
    SpacedIsProduct(|r.placed|, spacing);
    FloorOf(|r.placed|, spacing, PathLength(centerline, m, 1, centerline[0]), r.leftover);
  }

  /** The walk of populateConePositions before the rotation: it visits the segments
    * previous -> centreline[index % total] for index = 1 .. total (so it closes the
    * loop), skips segments shorter than 1e-3 without moving `previous`, and places
    * pairs along the others (PlaceAlongSegment). */
  method WalkCones(centerline: seq<Vec2>, trackWidth: real, spacing: real, m: Math)
    returns (left: seq<Vec2>, right: seq<Vec2>, ghost placements: seq<Placement>)
    requires Lawful(m)
    requires 0.0 < spacing || AllSame(centerline)
    ensures left == LeftCones(placements, HalfWidth(trackWidth), m)
    ensures right == RightCones(placements, HalfWidth(trackWidth), m)
    ensures centerline == [] ==> placements == []
    ensures ConeWalk(placements, centerline, spacing, m)
    ensures forall i, j :: 0 <= i < j < |placements| ==> placements[i].index <= placements[j].index
    ensures placements == Walk(centerline, spacing, m)
    ensures centerline != [] && 0.0 < spacing ==>
              |left| == |right| == (PathLength(centerline, m, 1, centerline[0]) / spacing).Floor
  {
    left, right, placements := [], [], [];
    if centerline == [] {
      return;
    }
    var halfWidth := HalfWidth(trackWidth);
    var accumulated := 0.0;
    var previous := centerline[0];
    var total := |centerline|;
    var index := 1;
    while index <= total
      invariant index <= total + 1
      invariant WalkState(m, centerline, spacing, halfWidth, index, previous, accumulated, left, right, placements)
      invariant WalkRest(centerline, spacing, m, index, previous, accumulated, placements)
    {
      previous, accumulated, left, right, placements :=
        WalkSegment(centerline, spacing, halfWidth, m, index, previous, accumulated, left, right, placements);
      index := index + 1;
    }
    if 0.0 < spacing {
      WalkFromEnd(centerline, spacing, m, index, previous, accumulated);
      ConeCount(centerline, spacing, m);
    }
  }

  /** One turn of the outer loop: the segment previous -> centreline[index % total] is
    * skipped when shorter than MinSegmentLength, and otherwise walked
    * (PlaceAlongSegment), after which the walk continues from its end. */
  method WalkSegment(centerline: seq<Vec2>, spacing: real, halfWidth: real, m: Math, index: nat,
                     previous0: Vec2, accumulated0: real, left0: seq<Vec2>, right0: seq<Vec2>, ghost placements0: seq<Placement>)
    returns (previous: Vec2, accumulated: real, left: seq<Vec2>, right: seq<Vec2>, ghost placements: seq<Placement>)
    requires Lawful(m) && 1 <= index <= |centerline|
    requires 0.0 < spacing || AllSame(centerline)
    requires WalkState(m, centerline, spacing, halfWidth, index, previous0, accumulated0, left0, right0, placements0)
    requires WalkRest(centerline, spacing, m, index, previous0, accumulated0, placements0)
    ensures WalkState(m, centerline, spacing, halfWidth, index + 1, previous, accumulated, left, right, placements)
    ensures WalkRest(centerline, spacing, m, index + 1, previous, accumulated, placements)
  {
    previous, accumulated, left, right, placements := previous0, accumulated0, left0, right0, placements0;
    var total := |centerline|;
    var current := centerline[index % total];
    var dx := current.x - previous.x;
    var dy := current.y - previous.y;
    var segmentLength := m.hypot(dx, dy);
    assert HypotLaw(m, dx, dy);
    if segmentLength < MinSegmentLength {
      WalkRestSkip(centerline, spacing, m, index, previous, accumulated, placements);
      WalkedWithin(placements, centerline, spacing, m, index - 1, index);
      return;
    }
    if spacing <= 0.0 {
      assert false;
    }
    WalkedWithin(placements, centerline, spacing, m, index - 1, index);
    accumulated, segmentLength, left, right, placements :=
      PlaceAlongSegment(centerline, spacing, halfWidth, m, index, current, previous, accumulated, dx, dy, segmentLength,
                        left, right, placements);
    accumulated := accumulated + segmentLength;
    WalkRestSegment(centerline, spacing, m, index, previous0, accumulated0, placements0, placements, accumulated);
    previous := current;
  }

  /** The outer loop's bookkeeping against Walk: the pairs placed so far plus what the
    * walk from `index` on places are the whole walk's pairs. */
  ghost predicate WalkRest(centerline: seq<Vec2>, spacing: real, m: Math, index: nat, previous: Vec2, accumulated: real,
                           placements: seq<Placement>)
    requires Lawful(m) && centerline != [] && 1 <= index && 0.0 <= accumulated && (0.0 < spacing ==> accumulated < spacing)
  {
    0.0 < spacing ==> Walk(centerline, spacing, m) == placements + WalkFrom(centerline, spacing, m, index, previous, accumulated).placed
  }

  lemma WalkRestSkip(centerline: seq<Vec2>, spacing: real, m: Math, index: nat, previous: Vec2, accumulated: real,
                     placements: seq<Placement>)
    requires Lawful(m) && centerline != [] && 1 <= index <= |centerline|
    requires 0.0 <= accumulated && (0.0 < spacing ==> accumulated < spacing)
    requires Distance(centerline[index % |centerline|], previous, m) < MinSegmentLength
    requires WalkRest(centerline, spacing, m, index, previous, accumulated, placements)
    ensures WalkRest(centerline, spacing, m, index + 1, previous, accumulated, placements)
  {
    if 0.0 < spacing {
      WalkFromSkip(centerline, spacing, m, index, previous, accumulated);
    }
  }

  lemma WalkRestSegment(centerline: seq<Vec2>, spacing: real, m: Math, index: nat, previous: Vec2, accumulated: real,
                        placements: seq<Placement>, placements': seq<Placement>, accumulated': real)
    requires Lawful(m) && centerline != [] && 1 <= index <= |centerline| && 0.0 <= accumulated < spacing
    requires MinSegmentLength <= Distance(centerline[index % |centerline|], previous, m)
    requires WalkRest(centerline, spacing, m, index, previous, accumulated, placements)
    requires var here := AlongSegment(m, spacing, index, centerline[index % |centerline|], previous, accumulated);
             placements' == placements + here.placed && accumulated' == here.leftover
    ensures 0.0 <= accumulated' < spacing
    ensures WalkRest(centerline, spacing, m, index + 1, centerline[index % |centerline|], accumulated', placements')
  {
    WalkFromSegment(centerline, spacing, m, index, previous, accumulated);
    var here := AlongSegment(m, spacing, index, centerline[index % |centerline|], previous, accumulated);
    var rest := WalkFrom(centerline, spacing, m, index + 1, centerline[index % |centerline|], accumulated');
    assert placements + (here.placed + rest.placed) == (placements + here.placed) + rest.placed;
  }

  lemma WalkFromEnd(centerline: seq<Vec2>, spacing: real, m: Math, index: nat, previous: Vec2, accumulated: real)
    requires Lawful(m) && centerline != [] && |centerline| < index && 0.0 <= accumulated < spacing
    ensures WalkFrom(centerline, spacing, m, index, previous, accumulated).placed == []
  {
  }

  /** A segment shorter than MinSegmentLength is skipped: `previous` stays put. */
  lemma WalkFromSkip(centerline: seq<Vec2>, spacing: real, m: Math, index: nat, previous: Vec2, accumulated: real)
    requires Lawful(m) && centerline != [] && 1 <= index <= |centerline| && 0.0 <= accumulated < spacing
    requires Distance(centerline[index % |centerline|], previous, m) < MinSegmentLength
    ensures WalkFrom(centerline, spacing, m, index, previous, accumulated)
            == WalkFrom(centerline, spacing, m, index + 1, previous, accumulated)
  {
  }

  /** A longer segment is walked (AlongSegment) and the walk goes on from its end. */
  lemma WalkFromSegment(centerline: seq<Vec2>, spacing: real, m: Math, index: nat, previous: Vec2, accumulated: real)
    requires Lawful(m) && centerline != [] && 1 <= index <= |centerline| && 0.0 <= accumulated < spacing
    requires MinSegmentLength <= Distance(centerline[index % |centerline|], previous, m)
    ensures var current := centerline[index % |centerline|];
            var here := AlongSegment(m, spacing, index, current, previous, accumulated);
            WalkFrom(centerline, spacing, m, index, previous, accumulated).placed
              == here.placed + WalkFrom(centerline, spacing, m, index + 1, current, here.leftover).placed
  {
  }

  // ---------------------------------------------------------------------------
  // Post-processing: start with the lowest cone on screen

  /** Euclidean division has a unique remainder. */
  lemma ModUnique(a: int, n: int, q: int, r: int)
    requires 0 < n && 0 <= r < n && a == q * n + r
    ensures a % n == r
  {
    var q' := a / n;
    var r' := a % n;
    assert (q - q') * n == r' - r;
    SmallMultiple(q - q', n);
  }

  /** The only multiple of n strictly between -n and n is zero. */
  lemma SmallMultiple(k: int, n: int)
    requires 0 < n && -n < k * n < n
    ensures k == 0
  {
    if k >= 1 {
      AtLeastOnce(k, n);
      assert false;
    } else if k <= -1 {
      AtLeastOnce(-k, n);
      assert false;
    }
  }

  lemma AtLeastOnce(k: int, n: int)
    requires 1 <= k && 0 < n
    ensures n <= k * n
  {
    assert k * n == (k - 1) * n + n;
    NonNegProduct(k - 1, n);
  }

  lemma NonNegProduct(a: int, b: int)
    requires 0 <= a && 0 <= b
    ensures 0 <= a * b
  {
  }

  /** Collections.rotate(list, distance): the element at index i moves to index
    * (i + distance) mod size; the list is cut once and its two parts swapped. */
  function Rotate<T>(s: seq<T>, distance: int): (r: seq<T>)
    ensures |r| == |s|
  {
    if |s| == 0 then s
    else
      var cut := |s| - distance % |s|;
      s[cut..] + s[..cut]
  }

  /** The element now at j came from (j - distance) mod size. */
  lemma RotateIndex<T>(s: seq<T>, distance: int, j: int)
    requires 0 <= j < |s|
    ensures Rotate(s, distance)[j] == s[(j - distance) % |s|]
  {
    var n := |s|;
    var shift := distance % n;
    var q := distance / n;
    assert distance == q * n + shift;
    if j < shift {
      ModUnique(j - distance, n, -q - 1, j - shift + n);
    } else {
      ModUnique(j - distance, n, -q, j - shift);
    }
  }

  /** Rotation only reorders. */
  lemma RotatePermutes<T>(s: seq<T>, distance: int)
    ensures multiset(Rotate(s, distance)) == multiset(s)
  {
    if |s| > 0 {
      var cut := |s| - distance % |s|;
      var front, back := s[..cut], s[cut..];
      assert s == front + back;
      assert multiset(s) == multiset(front) + multiset(back);
      assert Rotate(s, distance) == back + front;
    }
  }

  /** rotateLists: a no-op unless 0 < pivot < size, otherwise Collections.rotate by
    * size - pivot, which brings the element at pivot to the front. */
  function RotateLists<T>(points: seq<T>, pivot: int): (r: seq<T>)
    ensures |r| == |points|
    ensures pivot <= 0 || pivot >= |points| ==> r == points
  {
    if pivot <= 0 || pivot >= |points| then points
    else Rotate(points, |points| - pivot)
  }

  /** After rotateLists the element at j is the one that was pivot places further on,
    * wrapping round the end of the list. */
  lemma RotateListsIndex<T>(points: seq<T>, pivot: int, j: int)
    requires 0 <= j < |points|
    ensures 0 <= pivot && j + pivot < |points| ==> RotateLists(points, pivot)[j] == points[j + pivot]
    ensures 0 <= pivot < |points| <= j + pivot ==> RotateLists(points, pivot)[j] == points[j + pivot - |points|]
    ensures pivot < 0 || pivot >= |points| ==> RotateLists(points, pivot)[j] == points[j]
  {
    var n := |points|;
    if 0 < pivot < n {
      ModUnique(n - pivot, n, 0, n - pivot);
      assert RotateLists(points, pivot) == points[pivot..] + points[..pivot];
    }
  }

  /** rotateLists keeps every cone, with its multiplicity. */
  lemma RotateListsPermutes<T>(points: seq<T>, pivot: int)
    ensures multiset(RotateLists(points, pivot)) == multiset(points)
  {
    var r := RotateLists(points, pivot);
    if 0 < pivot < |points| {
      var d := |points| - pivot;
      RotatePermutes(points, d);
      assert r == Rotate(points, d);
    } else {
      assert r == points;
    }
  }

  /** The first index of the largest y, scanning from the front and moving on only for
    * a strictly larger y. */
  function HighestIndex(points: seq<Vec2>): (r: nat)
    requires points != []
    ensures r < |points|
    ensures forall i :: 0 <= i < |points| ==> points[i].y <= points[r].y
    ensures forall i :: 0 <= i < r ==> points[i].y < points[r].y
  {
    if |points| == 1 then 0
    else
      var r := HighestIndex(points[..|points| - 1]);
      if points[|points| - 1].y > points[r].y then |points| - 1 else r
  }

  /** The loop that finds the pivot: the first cone with the largest y. */
  method FirstMaxYIndex(points: seq<Vec2>) returns (pivot: nat)
    requires points != []
    ensures pivot == HighestIndex(points)
    ensures pivot < |points|
    ensures forall i :: 0 <= i < |points| ==> points[i].y <= points[pivot].y
    ensures forall i :: 0 <= i < pivot ==> points[i].y < points[pivot].y
  {
    pivot := 0;
    var i := 1;
    while i < |points|
      invariant 1 <= i <= |points|
      invariant pivot == HighestIndex(points[..i])
    {
      assert points[..i + 1][..i] == points[..i];
      if points[i].y > points[pivot].y {
        pivot := i;
      }
      i := i + 1;
    }
    assert points[..i] == points;
  }

  /** Every cone pair of a walk straddles the centreline a full track width apart. */
  lemma PairsAcross(walked: seq<Placement>, centerline: seq<Vec2>, spacing: real, halfWidth: real, width: real, m: Math)
    requires Lawful(m) && width == 2.0 * halfWidth
    requires ConeWalk(walked, centerline, spacing, m)
    ensures forall k :: 0 <= k < |walked| ==>
              SqDist(LeftCones(walked, halfWidth, m)[k], RightCones(walked, halfWidth, m)[k]) == Sq(width)
  {
    forall k | 0 <= k < |walked|
      ensures SqDist(LeftCones(walked, halfWidth, m)[k], RightCones(walked, halfWidth, m)[k]) == Sq(width)
    {
      assert PlacedOn(walked[k], centerline, spacing, m);
      ConePairAcross(walked[k], halfWidth, m);
    }
  }

  /** Rotating two parallel lists by the same pivot keeps their pairs together. */
  lemma RotatedPairs(left: seq<Vec2>, right: seq<Vec2>, pivot: int, gap: real)
    requires |left| == |right|
    requires forall k :: 0 <= k < |left| ==> SqDist(left[k], right[k]) == gap
    ensures forall k :: 0 <= k < |left| ==> SqDist(RotateLists(left, pivot)[k], RotateLists(right, pivot)[k]) == gap
  {
    forall k | 0 <= k < |left|
      ensures SqDist(RotateLists(left, pivot)[k], RotateLists(right, pivot)[k]) == gap
    {
      RotateListsIndex(left, pivot, k);
      RotateListsIndex(right, pivot, k);
    }
  }

  /** Rotating by the first highest point brings a highest point to the front. */
  lemma RotatedHighestFirst(points: seq<Vec2>, pivot: nat)
    requires pivot < |points|
    requires forall i :: 0 <= i < |points| ==> points[i].y <= points[pivot].y
    ensures RotateLists(points, pivot)[0] == points[pivot]
    ensures forall i :: 0 <= i < |points| ==> RotateLists(points, pivot)[i].y <= RotateLists(points, pivot)[0].y
  {
    var n := |points|;
    var r := RotateLists(points, pivot);
    RotateListsIndex(points, pivot, 0);
    forall i | 0 <= i < n
      ensures r[i].y <= r[0].y
    {
      RotateListsIndex(points, pivot, i);
    }
  }

  /** The two lists populateConePositions fills: the walk's pairs, both rotated so
    * that the first left cone with the largest y comes first. */
  ghost function ConeLists(centerline: seq<Vec2>, trackWidth: real, spacing: real, m: Math): (seq<Vec2>, seq<Vec2>)
    requires Lawful(m)
  {
    var walked := Walk(centerline, spacing, m);
    var left := LeftCones(walked, HalfWidth(trackWidth), m);
    var right := RightCones(walked, HalfWidth(trackWidth), m);
    if left == [] then (left, right)
    else (RotateLists(left, HighestIndex(left)), RotateLists(right, HighestIndex(left)))
  }

  /** populateConePositions: the walk, then both lists rotated by the same pivot so
    * that the left cone with the largest y (the first such) comes first. */
  method PopulateConePositions(centerline: seq<Vec2>, trackWidth: real, spacing: real, m: Math)
    returns (left: seq<Vec2>, right: seq<Vec2>, ghost walked: seq<Placement>, ghost unrotated: seq<Vec2>, ghost pivot: nat)
    requires Lawful(m)
    requires 0.0 < spacing || AllSame(centerline)
    ensures |left| == |right| == |walked|
    ensures centerline == [] ==> left == [] && right == []
    ensures ConeWalk(walked, centerline, spacing, m)
    ensures unrotated == LeftCones(walked, HalfWidth(trackWidth), m)
    ensures left == RotateLists(unrotated, pivot)
    ensures right == RotateLists(RightCones(walked, HalfWidth(trackWidth), m), pivot)
    ensures left != [] ==> pivot < |left| && left[0] == unrotated[pivot]
    ensures left == [] ==> pivot == 0
    ensures forall i :: 0 <= i < |left| ==> left[i].y <= left[0].y
    ensures forall i :: 0 <= i < pivot <= |unrotated| ==> unrotated[i].y < left[0].y
    ensures forall k :: 0 <= k < |left| ==> SqDist(left[k], right[k]) == Sq(trackWidth)
    ensures walked == Walk(centerline, spacing, m)
    ensures (left, right) == ConeLists(centerline, trackWidth, spacing, m)
    ensures centerline != [] && 0.0 < spacing ==> |left| == (PathLength(centerline, m, 1, centerline[0]) / spacing).Floor
  {
    var l, r;
    l, r, walked := WalkCones(centerline, trackWidth, spacing, m);
    PairsAcross(walked, centerline, spacing, HalfWidth(trackWidth), trackWidth, m);
    unrotated := l;
    left, right, pivot := RotateHighestFirst(l, r, Sq(trackWidth));
  }

  /** The rotation step of populateConePositions: both lists turned by the index of
    * the first left cone with the largest y, keeping the pairs across the track. */
  method RotateHighestFirst(l: seq<Vec2>, r: seq<Vec2>, ghost gap: real)
    returns (left: seq<Vec2>, right: seq<Vec2>, ghost pivot: nat)
    requires |l| == |r|
    requires forall k :: 0 <= k < |l| ==> SqDist(l[k], r[k]) == gap
    ensures |left| == |right| == |l|
    ensures l == [] ==> pivot == 0 && left == [] && right == []
    ensures l != [] ==> pivot == HighestIndex(l) && pivot < |l| && left[0] == l[pivot]
    ensures left == RotateLists(l, pivot) && right == RotateLists(r, pivot)
    ensures forall i :: 0 <= i < |left| ==> left[i].y <= left[0].y
    ensures forall i :: 0 <= i < pivot <= |l| ==> l[i].y < left[0].y
    ensures forall k :: 0 <= k < |left| ==> SqDist(left[k], right[k]) == gap
  {
    left, right, pivot := l, r, 0;
    if l != [] {
      var p := FirstMaxYIndex(l);
      pivot := p;
      RotatedHighestFirst(l, p);
      RotatedPairs(l, r, p, gap);
      left := RotateLists(l, p);
      right := RotateLists(r, p);
    }
  }

  // ---------------------------------------------------------------------------
  // generate

  /** Control points that all sit at the centre (a zero-sized screen). */
  lemma ZeroSizeControlPoints(cx: real, cy: real, angles: seq<real>, rw: seq<real>, m: Math)
    requires |rw| >= 2 * |angles|
    ensures forall j :: 0 <= j < |angles| ==> PlacePoints(cx, cy, 0.0, angles, rw, m)[j] == Vec2(cx, cy)
  {
  }

  /** On a zero-sized screen the whole centreline collapses onto the centre. */
  lemma ZeroSizeCenterline(cx: real, cy: real, count: nat, draws: seq<real>, m: Math)
    requires |draws| >= DrawsNeeded(count)
    ensures AllSame(Centerline(ControlPoints(cx, cy, 0.0, count, draws, m)))
  {
    var cps := ControlPoints(cx, cy, 0.0, count, draws, m);
    ZeroSizeControlPoints(cx, cy, ControlAngles(count, draws), draws[count..], m);
    CenterlineOfOnePoint(cps, Vec2(cx, cy));
  }

  /** The track generate(width, height) builds from the given draws: the centreline
    * through the control points, and the cone lists of a walk at 90% of the track
    * width, a track 22% of the shorter side wide. */
  ghost function GeneratedTrack(width: int, height: int, countDraw: int, draws: seq<real>, m: Math): TrackData
    requires 0 <= countDraw < MaxControlPoints - MinControlPoints + 1
    requires |draws| >= DrawsNeeded(ControlPointCount(countDraw))
    requires Lawful(m)
  {
    TrackAround(Mid(width), Mid(height), Min(width as real, height as real), ControlPointCount(countDraw), draws, m)
  }

  /** The track around centre (cx, cy) on a screen whose shorter side is minDimen. */
  ghost function TrackAround(cx: real, cy: real, minDimen: real, count: nat, draws: seq<real>, m: Math): TrackData
    requires |draws| >= DrawsNeeded(count)
    requires Lawful(m)
  {
    ConedTrack(Centerline(ControlPoints(cx, cy, minDimen, count, draws, m)), TrackWidth(minDimen), m)
  }

  /** A centreline with the cones of a track `trackWidth` wide placed along it. */
  ghost function ConedTrack(centerline: seq<Vec2>, trackWidth: real, m: Math): TrackData
    requires Lawful(m)
  {
    var cones := ConeLists(centerline, trackWidth, ConeSpacing(trackWidth), m);
    TrackData(centerline, cones.0, cones.1, trackWidth)
  }

  /** On a screen of positive size the generated track has one left and one right
    * cone per full spacing of walked centreline. */
  lemma GeneratedConeCount(width: int, height: int, countDraw: int, draws: seq<real>, m: Math)
    requires 0 < width && 0 < height
    requires 0 <= countDraw < MaxControlPoints - MinControlPoints + 1
    requires |draws| >= DrawsNeeded(ControlPointCount(countDraw))
    requires Lawful(m)
    ensures var track := GeneratedTrack(width, height, countDraw, draws, m);
      && |track.centerline| == SamplesPerSegment * ControlPointCount(countDraw)
      && |track.leftCones| == |track.rightCones|
          == (PathLength(track.centerline, m, 1, track.centerline[0]) / ConeSpacing(track.trackWidth)).Floor
      && (track.leftCones != [] <==> ConeSpacing(track.trackWidth) <= PathLength(track.centerline, m, 1, track.centerline[0]))
  {
    var track := GeneratedTrack(width, height, countDraw, draws, m);
    var spacing := ConeSpacing(track.trackWidth);
    assert 0.0 < spacing;
    assert |track.centerline| == SamplesPerSegment * ControlPointCount(countDraw);
    ConeCount(track.centerline, spacing, m);
    FloorAtLeastOne(PathLength(track.centerline, m, 1, track.centerline[0]), spacing);
  }

  /** A positive whole number of spacings is at least one spacing. */
  lemma FloorAtLeastOne(x: real, s: real)
    requires 0.0 < s && 0 <= (x / s).Floor
    ensures 1 <= (x / s).Floor <==> s <= x
  {
    if s <= x {
      assert 1.0 <= x / s;
    } else {
      assert x / s < 1.0;
    }
  }

  /** A 1000 x 750 screen gives a 165-wide track with cones 148.5 apart; there is a
    * cone pair for every 148.5 of walked centreline, so there are cones exactly when
    * the walk is at least 148.5 long. */
  lemma ExampleTrack(countDraw: int, draws: seq<real>, m: Math)
    requires 0 <= countDraw < MaxControlPoints - MinControlPoints + 1
    requires |draws| >= DrawsNeeded(ControlPointCount(countDraw))
    requires Lawful(m)
    ensures var track := GeneratedTrack(1000, 750, countDraw, draws, m);
      var walked := PathLength(track.centerline, m, 1, track.centerline[0]);
      && track.trackWidth == 165.0
      && ConeSpacing(track.trackWidth) == 148.5
      && |track.leftCones| == |track.rightCones| == (walked / ConeSpacing(track.trackWidth)).Floor
      && (track.leftCones != [] <==> 148.5 <= walked)
  {
    GeneratedConeCount(1000, 750, countDraw, draws, m);
  }

  /** A walk along a centreline that never leaves its starting point skips every
    * segment and places nothing. */
  lemma {:induction false} WalkFromStill(centerline: seq<Vec2>, spacing: real, m: Math, index: nat, p: Vec2, accumulated: real)
    requires Lawful(m) && centerline != [] && 1 <= index && 0.0 <= accumulated < spacing
    requires forall k :: 0 <= k < |centerline| ==> centerline[k] == p
    ensures WalkFrom(centerline, spacing, m, index, p, accumulated).placed == []
    decreases |centerline| + 1 - index
  {
    if index <= |centerline| {
      assert centerline[index % |centerline|] == p;
      HypotZeroIff(m, 0.0, 0.0);
      assert Distance(p, p, m) == 0.0;
      WalkFromStill(centerline, spacing, m, index + 1, p, accumulated);
    }
  }

  /** Sorting a sequence whose elements are all x gives a sequence whose elements are all x. */
  lemma SortUniform(s: seq<real>, x: real)
    requires forall i :: 0 <= i < |s| ==> s[i] == x
    ensures forall j :: 0 <= j < |s| ==> SortAscending(s)[j] == x
  {
    SortAscendingCorrect(s);
    forall j | 0 <= j < |s|
      ensures SortAscending(s)[j] == x
    {
      assert SortAscending(s)[j] in multiset(s);
    }
  }

  /** A centreline that is one point over and over carries no cones. */
  lemma StillTrack(centerline: seq<Vec2>, trackWidth: real, m: Math, p: Vec2)
    requires Lawful(m)
    requires forall k :: 0 <= k < |centerline| ==> centerline[k] == p
    ensures ConedTrack(centerline, trackWidth, m).leftCones == []
    ensures ConedTrack(centerline, trackWidth, m).rightCones == []
  {
    var spacing := ConeSpacing(trackWidth);
    if centerline != [] && 0.0 < spacing {
      WalkFromStill(centerline, spacing, m, 1, p, 0.0);
    }
    assert Walk(centerline, spacing, m) == [];
  }

  /** When every draw is the same, every angle is the same, every control point lands
    * in the same place and the centreline is that one point over and over. */
  lemma CoincidentCenterline(cx: real, cy: real, minDimen: real, count: nat, draws: seq<real>, m: Math)
    requires 0 < count && |draws| >= DrawsNeeded(count)
    requires forall i :: 0 <= i < |draws| ==> draws[i] == draws[0]
    ensures var centerline := Centerline(ControlPoints(cx, cy, minDimen, count, draws, m));
      forall k :: 0 <= k < |centerline| ==>
        centerline[k] == ControlPoint(cx, cy, minDimen, draws[0] * Pi * 2.0, draws[0], draws[0], m)
  {
    var angles := ControlAngles(count, draws);
    var cps := ControlPoints(cx, cy, minDimen, count, draws, m);
    var p := ControlPoint(cx, cy, minDimen, draws[0] * Pi * 2.0, draws[0], draws[0], m);
    SortUniform(DrawnAngles(count, draws), draws[0] * Pi * 2.0);
    forall j | 0 <= j < |cps|
      ensures cps[j] == p
    {
      var rw := draws[count..];
      assert cps[j] == ControlPoint(cx, cy, minDimen, angles[j], rw[2 * j], rw[2 * j + 1], m);
      assert rw[2 * j] == draws[0] && rw[2 * j + 1] == draws[0];
    }
    CenterlineOfOnePoint(cps, p);
  }

  /** When every draw is the same, the track built around any centre has no cones:
    * its centreline is one point over and over. */
  lemma CoincidentCones(cx: real, cy: real, minDimen: real, count: nat, draws: seq<real>, m: Math)
    requires Lawful(m)
    requires 0 < count && |draws| >= DrawsNeeded(count)
    requires forall i :: 0 <= i < |draws| ==> draws[i] == draws[0]
    ensures TrackAround(cx, cy, minDimen, count, draws, m).leftCones == []
    ensures TrackAround(cx, cy, minDimen, count, draws, m).rightCones == []
  {
    CoincidentCenterline(cx, cy, minDimen, count, draws, m);
    StillTrack(Centerline(ControlPoints(cx, cy, minDimen, count, draws, m)), TrackWidth(minDimen), m,
               ControlPoint(cx, cy, minDimen, draws[0] * Pi * 2.0, draws[0], draws[0], m));
  }

  /** Generate with every draw the same places no cones at all, whatever the screen size. */
  lemma CoincidentDraws(width: int, height: int, countDraw: int, draws: seq<real>, m: Math)
    requires 0 <= countDraw < MaxControlPoints - MinControlPoints + 1
    requires |draws| >= DrawsNeeded(ControlPointCount(countDraw))
    requires Lawful(m)
    requires forall i :: 0 <= i < |draws| ==> draws[i] == draws[0]
    ensures GeneratedTrack(width, height, countDraw, draws, m).leftCones == []
    ensures GeneratedTrack(width, height, countDraw, draws, m).rightCones == []
  {
    CoincidentCones(Mid(width), Mid(height), Min(width as real, height as real), ControlPointCount(countDraw), draws, m);
  }

  /** generate(width, height): control points, centreline, cones. Negative sizes are
    * excluded: the cone walk then never ends. */
  method Generate(width: int, height: int, countDraw: int, draws: seq<real>, m: Math) returns (track: TrackData)
    requires 0 <= width && 0 <= height
    requires 0 <= countDraw < MaxControlPoints - MinControlPoints + 1
    requires |draws| >= DrawsNeeded(ControlPointCount(countDraw)) && UnitDraws(draws)
    requires Lawful(m)
    ensures track.centerline == Centerline(ControlPoints(Mid(width), Mid(height),
              Min(width as real, height as real), ControlPointCount(countDraw), draws, m))
    ensures track.trackWidth == TrackWidth(Min(width as real, height as real))
    ensures |track.centerline| == SamplesPerSegment * ControlPointCount(countDraw)
    ensures |track.leftCones| == |track.rightCones|
    ensures forall k :: 0 <= k < |track.leftCones| ==> SqDist(track.leftCones[k], track.rightCones[k]) == Sq(track.trackWidth)
    ensures forall i :: 0 <= i < |track.leftCones| ==> track.leftCones[i].y <= track.leftCones[0].y
    ensures track == GeneratedTrack(width, height, countDraw, draws, m)
    ensures 0 < width && 0 < height ==>
      |track.leftCones| == (PathLength(track.centerline, m, 1, track.centerline[0]) / ConeSpacing(track.trackWidth)).Floor
  {
    var minDimen := Min(width as real, height as real);
    var cx := Mid(width);
    var cy := Mid(height);
    var controlPoints := CreateControlPoints(cx, cy, minDimen, countDraw, draws, m);
    var centerline := CreateCenterline(controlPoints);

    var trackWidth := TrackWidth(minDimen);
    var coneSpacing := ConeSpacing(trackWidth);

    assert 0.0 < coneSpacing || AllSame(centerline) by {
      if minDimen == 0.0 {
        ZeroSizeCenterline(cx, cy, ControlPointCount(countDraw), draws, m);
      }
    }
    var leftCones, rightCones, walked, unrotated, pivot := PopulateConePositions(centerline, trackWidth, coneSpacing, m);
    track := TrackData(centerline, leftCones, rightCones, trackWidth);
    assert track == ConedTrack(centerline, trackWidth, m);
  }
}
