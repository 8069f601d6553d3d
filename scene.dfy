/** The 3D preview's course normalisation and orbit camera (Map3DRenderer, without
  * the GL drawing). The renderer owns copies of the blue and yellow cone lists, which
  * normalisation moves and rescales in place, and the camera state that the orbit and
  * zoom gestures update and every frame reads. */
module Scene {
  import opened Geometry
  import opened Markers

  const DefaultCameraDistance: real := 30.0
  const MinCameraDistance: real := 10.0
  const MaxCameraDistance: real := 90.0
  const MinCameraPitch: real := 10.0
  const MaxCameraPitch: real := 80.0
  const GroundMargin: real := 12.0
  const MaxNormalisedRadius: real := 40.0
  const MinSceneRadius: real := 15.0
  const InitialYaw: real := 45.0
  const InitialPitch: real := 40.0
  const FullTurn: real := 360.0
  /** Float.MAX_VALUE, the sentinel the bounding-box search starts from. */
  const FloatMax: real := 340282346638528859811704183484516925440.0

  datatype Axis = X | Y

  function Coord(p: Vec2, axis: Axis): real {
    if axis == X then p.x else p.y
  }

  /** Which of the two cone lists an operation works on. */
  datatype Side = Blue | Yellow

  function Select(c: MapPoints, side: Side): seq<Vec2> {
    if side == Blue then c.blue else c.yellow
  }

  function Replace(c: MapPoints, side: Side, points: seq<Vec2>): MapPoints {
    if side == Blue then c.(blue := points) else c.(yellow := points)
  }

  // ---------------------------------------------------------------------------
  // Specification functions

  /** updateMin: the running minimum of one coordinate, starting from `start`. */
  function FoldMin(points: seq<Vec2>, axis: Axis, start: real): real {
    if points == [] then start
    else Min(FoldMin(points[..|points| - 1], axis, start), Coord(points[|points| - 1], axis))
  }

  /** updateMax: the running maximum of one coordinate, starting from `start`. */
  function FoldMax(points: seq<Vec2>, axis: Axis, start: real): real {
    if points == [] then start
    else Max(FoldMax(points[..|points| - 1], axis, start), Coord(points[|points| - 1], axis))
  }

  /** The largest distance from the origin, and 0 for no points. */
  function RadiusMax(points: seq<Vec2>, m: Math): real {
    if points == [] then 0.0
    else Max(RadiusMax(points[..|points| - 1], m), Length(points[|points| - 1], m))
  }

  /** Every point moved by minus `centre`. */
  function Translated(points: seq<Vec2>, centre: Vec2): seq<Vec2> {
    seq(|points|, i requires 0 <= i < |points| => points[i].Minus(centre))
  }

  /** Every point multiplied by `scale`. */
  function Scaled(points: seq<Vec2>, scale: real): seq<Vec2> {
    seq(|points|, i requires 0 <= i < |points| => points[i].Times(scale))
  }

  /** Both lists moved by minus `centre`. */
  function TranslatedCourse(c: MapPoints, centre: Vec2): MapPoints {
    MapPoints(Translated(c.blue, centre), Translated(c.yellow, centre))
  }

  /** Both lists multiplied by `scale`. */
  function ScaledCourse(c: MapPoints, scale: real): MapPoints {
    MapPoints(Scaled(c.blue, scale), Scaled(c.yellow, scale))
  }

  /** The bounding box bounds as normaliseCourse computes them: blue first, then
    * yellow, from the Float.MAX_VALUE sentinels. */
  function Lo(c: MapPoints, axis: Axis): real {
    FoldMin(c.yellow, axis, FoldMin(c.blue, axis, FloatMax))
  }

  function Hi(c: MapPoints, axis: Axis): real {
    FoldMax(c.yellow, axis, FoldMax(c.blue, axis, -FloatMax))
  }

  /** normaliseCourse gets past both of its early returns. */
  predicate BoxFound(c: MapPoints) {
    !(c.blue == [] && c.yellow == [])
    && Lo(c, X) != FloatMax && Lo(c, Y) != FloatMax
    && Hi(c, X) != -FloatMax && Hi(c, Y) != -FloatMax
  }

  function BoxCentre(c: MapPoints): Vec2 {
    Vec2((Lo(c, X) + Hi(c, X)) * 0.5, (Lo(c, Y) + Hi(c, Y)) * 0.5)
  }

  /** What normaliseCourse leaves in the two lists. */
  function Normalised(c: MapPoints, m: Math): MapPoints {
    if c.blue == [] && c.yellow == [] then c
    else if !BoxFound(c) then c
    else
      var moved := TranslatedCourse(c, BoxCentre(c));
      var maxRadius := Max(RadiusMax(moved.blue, m), RadiusMax(moved.yellow, m));
      if maxRadius <= 0.0 then moved
      else if maxRadius > MaxNormalisedRadius then ScaledCourse(moved, MaxNormalisedRadius / maxRadius)
      else moved
  }

  /** What computeSceneRadius stores: the farthest cone plus the ground margin, and
    * never less than 15. */
  function SceneRadius(c: MapPoints, m: Math): real {
    Max(MinSceneRadius, Max(RadiusMax(c.blue, m), RadiusMax(c.yellow, m)) + GroundMargin)
  }

  // ---------------------------------------------------------------------------
  // Properties of the fold functions

  lemma {:induction false} FoldMinBounds(points: seq<Vec2>, axis: Axis, start: real)
    ensures FoldMin(points, axis, start) <= start
    ensures forall i :: 0 <= i < |points| ==> FoldMin(points, axis, start) <= Coord(points[i], axis)
    ensures FoldMin(points, axis, start) == start
            || exists i :: 0 <= i < |points| && FoldMin(points, axis, start) == Coord(points[i], axis)
    decreases |points|
  {
    if points != [] {
      var init := points[..|points| - 1];
      FoldMinBounds(init, axis, start);
      assert forall i :: 0 <= i < |init| ==> init[i] == points[i];
    }
  }

  lemma {:induction false} FoldMaxBounds(points: seq<Vec2>, axis: Axis, start: real)
    ensures start <= FoldMax(points, axis, start)
    ensures forall i :: 0 <= i < |points| ==> Coord(points[i], axis) <= FoldMax(points, axis, start)
    ensures FoldMax(points, axis, start) == start
            || exists i :: 0 <= i < |points| && FoldMax(points, axis, start) == Coord(points[i], axis)
    decreases |points|
  {
    if points != [] {
      var init := points[..|points| - 1];
      FoldMaxBounds(init, axis, start);
      assert forall i :: 0 <= i < |init| ==> init[i] == points[i];
    }
  }

  /** recenter's result is the distance of the farthest point, or 0 for no points. */
  lemma {:induction false} RadiusMaxBounds(points: seq<Vec2>, m: Math)
    ensures 0.0 <= RadiusMax(points, m)
    ensures forall i :: 0 <= i < |points| ==> Length(points[i], m) <= RadiusMax(points, m)
    ensures RadiusMax(points, m) == 0.0
            || exists i :: 0 <= i < |points| && RadiusMax(points, m) == Length(points[i], m)
    decreases |points|
  {
    if points != [] {
      var init := points[..|points| - 1];
      RadiusMaxBounds(init, m);
      assert forall i :: 0 <= i < |init| ==> init[i] == points[i];
    }
  }

  // ---------------------------------------------------------------------------
  // Properties of normaliseCourse

  /** Every coordinate of both lists lies in [lo, hi] along `axis`. */
  predicate Bounded(c: MapPoints, axis: Axis, lo: real, hi: real) {
    && (forall i :: 0 <= i < |c.blue| ==> lo <= Coord(c.blue[i], axis) <= hi)
    && (forall j :: 0 <= j < |c.yellow| ==> lo <= Coord(c.yellow[j], axis) <= hi)
  }

  /** Some cone of either list has coordinate `v` along `axis`. */
  predicate Attains(c: MapPoints, axis: Axis, v: real) {
    || (exists i :: 0 <= i < |c.blue| && Coord(c.blue[i], axis) == v)
    || (exists j :: 0 <= j < |c.yellow| && Coord(c.yellow[j], axis) == v)
  }

  /** The bounding box of both lists along `axis` is exactly [lo, hi]. */
  predicate Spans(c: MapPoints, axis: Axis, lo: real, hi: real) {
    Bounded(c, axis, lo, hi) && Attains(c, axis, lo) && Attains(c, axis, hi)
  }

  /** `after` is `before` moved by minus `centre` and then multiplied by `scale`. */
  predicate MovedBy(before: seq<Vec2>, after: seq<Vec2>, centre: Vec2, scale: real) {
    |after| == |before| && forall i :: 0 <= i < |before| ==> after[i] == before[i].Minus(centre).Times(scale)
  }

  /** Once the sentinels are gone, the two bounds are the extreme coordinates of the
    * cones of both lists. */
  lemma BoxIsTight(c: MapPoints, axis: Axis)
    requires Lo(c, axis) != FloatMax && Hi(c, axis) != -FloatMax
    ensures Bounded(c, axis, Lo(c, axis), Hi(c, axis))
    ensures Attains(c, axis, Lo(c, axis)) && Attains(c, axis, Hi(c, axis))
  {
    var blueLo, blueHi := FoldMin(c.blue, axis, FloatMax), FoldMax(c.blue, axis, -FloatMax);
    FoldMinBounds(c.blue, axis, FloatMax);
    FoldMinBounds(c.yellow, axis, blueLo);
    FoldMaxBounds(c.blue, axis, -FloatMax);
    FoldMaxBounds(c.yellow, axis, blueHi);
  }

  /** Translation moves every coordinate by the centre's coordinate. */
  lemma TranslatedSpan(c: MapPoints, centre: Vec2, axis: Axis, lo: real, hi: real)
    requires Spans(c, axis, lo, hi)
    ensures Spans(TranslatedCourse(c, centre), axis, lo - Coord(centre, axis), hi - Coord(centre, axis))
  {
    var d, k := TranslatedCourse(c, centre), Coord(centre, axis);
    assert forall i :: 0 <= i < |d.blue| ==> Coord(d.blue[i], axis) == Coord(c.blue[i], axis) - k;
    assert forall j :: 0 <= j < |d.yellow| ==> Coord(d.yellow[j], axis) == Coord(c.yellow[j], axis) - k;
  }

  /** Scaling a point multiplies each of its coordinates. */
  lemma ScaledCoord(p: Vec2, scale: real, axis: Axis)
    ensures Coord(p.Times(scale), axis) == Coord(p, axis) * scale
  {
  }

  /** Scaling by a positive factor keeps a coordinate between the scaled bounds. */
  lemma ScaledBetween(p: Vec2, scale: real, axis: Axis, lo: real, hi: real)
    requires 0.0 < scale && lo <= Coord(p, axis) <= hi
    ensures lo * scale <= Coord(p.Times(scale), axis) <= hi * scale
  {
    ScaledCoord(p, scale, axis);
    MulLeLeft(scale, lo, Coord(p, axis));
    MulLeLeft(scale, Coord(p, axis), hi);
  }

  lemma ScaledBounded(c: MapPoints, scale: real, axis: Axis, lo: real, hi: real)
    requires 0.0 < scale && Bounded(c, axis, lo, hi)
    ensures Bounded(ScaledCourse(c, scale), axis, lo * scale, hi * scale)
  {
    var d := ScaledCourse(c, scale);
    forall i | 0 <= i < |d.blue|
      ensures lo * scale <= Coord(d.blue[i], axis) <= hi * scale
    {
      ScaledBetween(c.blue[i], scale, axis, lo, hi);
    }
    forall j | 0 <= j < |d.yellow|
      ensures lo * scale <= Coord(d.yellow[j], axis) <= hi * scale
    {
      ScaledBetween(c.yellow[j], scale, axis, lo, hi);
    }
  }

  lemma ScaledAttains(c: MapPoints, scale: real, axis: Axis, v: real)
    requires Attains(c, axis, v)
    ensures Attains(ScaledCourse(c, scale), axis, v * scale)
  {
    var d := ScaledCourse(c, scale);
    if exists i :: 0 <= i < |c.blue| && Coord(c.blue[i], axis) == v {
      var i :| 0 <= i < |c.blue| && Coord(c.blue[i], axis) == v;
      ScaledCoord(c.blue[i], scale, axis);
      assert Coord(d.blue[i], axis) == v * scale;
    } else {
      var j :| 0 <= j < |c.yellow| && Coord(c.yellow[j], axis) == v;
      ScaledCoord(c.yellow[j], scale, axis);
      assert Coord(d.yellow[j], axis) == v * scale;
    }
  }

  /** Scaling by a positive factor carries a tight span along. */
  lemma ScaledSpan(c: MapPoints, scale: real, axis: Axis, lo: real, hi: real)
    requires 0.0 < scale && Spans(c, axis, lo, hi)
    ensures Spans(ScaledCourse(c, scale), axis, lo * scale, hi * scale)
  {
    ScaledBounded(c, scale, axis, lo, hi);
    ScaledAttains(c, scale, axis, lo);
    ScaledAttains(c, scale, axis, hi);
  }

  /** The bounding box along `axis` is centred on the origin: its two ends, each
    * reached by some cone, add up to 0. */
  ghost predicate Centred(c: MapPoints, axis: Axis) {
    exists lo, hi :: Spans(c, axis, lo, hi) && lo + hi == 0.0
  }

  /** Moving by the midpoint of a tight span centres it. */
  lemma CentredByTranslation(c: MapPoints, centre: Vec2, axis: Axis, lo: real, hi: real)
    requires Spans(c, axis, lo, hi) && Coord(centre, axis) == (lo + hi) * 0.5
    ensures Centred(TranslatedCourse(c, centre), axis)
  {
    TranslatedSpan(c, centre, axis, lo, hi);
    assert (lo - Coord(centre, axis)) + (hi - Coord(centre, axis)) == 0.0;
  }

  /** Scaling by a positive factor keeps a centred course centred. */
  lemma CentredAfterScaling(c: MapPoints, scale: real, axis: Axis)
    requires 0.0 < scale && Centred(c, axis)
    ensures Centred(ScaledCourse(c, scale), axis)
  {
    var lo, hi :| Spans(c, axis, lo, hi) && lo + hi == 0.0;
    ScaledSpan(c, scale, axis, lo, hi);
    OppositeScaled(lo, hi, scale);
  }

  lemma OppositeScaled(lo: real, hi: real, scale: real)
    requires lo + hi == 0.0
    ensures lo * scale + hi * scale == 0.0
  {
    assert lo * scale + hi * scale == (lo + hi) * scale;
  }

  /** The single factor normaliseCourse multiplies both lists by: 40 over the largest
    * radius when that exceeds 40, and 1 otherwise. */
  function NormaliseScale(c: MapPoints, m: Math): real {
    var moved := TranslatedCourse(c, BoxCentre(c));
    var maxRadius := Max(RadiusMax(moved.blue, m), RadiusMax(moved.yellow, m));
    if maxRadius > MaxNormalisedRadius then MaxNormalisedRadius / maxRadius else 1.0
  }

  /** 40 over a radius beyond 40 is a factor that shrinks. */
  lemma ShrinkFactor(maxRadius: real, scale: real)
    requires maxRadius > MaxNormalisedRadius && scale == MaxNormalisedRadius / maxRadius
    ensures 0.0 < scale < 1.0 && scale * maxRadius == MaxNormalisedRadius
  {
  }

  /** normaliseCourse moves both lists by the same centre and multiplies them by the
    * same factor, which is 1 unless it shrinks the course. */
  lemma NormaliseUniform(c: MapPoints, m: Math)
    requires BoxFound(c)
    ensures 0.0 < NormaliseScale(c, m) <= 1.0
    ensures MovedBy(c.blue, Normalised(c, m).blue, BoxCentre(c), NormaliseScale(c, m))
    ensures MovedBy(c.yellow, Normalised(c, m).yellow, BoxCentre(c), NormaliseScale(c, m))
  {
  }

  /** Moving both lists by minus the box centre centres the box on both axes. */
  lemma TranslationCentres(c: MapPoints)
    requires BoxFound(c)
    ensures Centred(TranslatedCourse(c, BoxCentre(c)), X) && Centred(TranslatedCourse(c, BoxCentre(c)), Y)
  {
    BoxIsTight(c, X);
    BoxIsTight(c, Y);
    CentreIsMidpoint(c, X);
    CentreIsMidpoint(c, Y);
    CentredByTranslation(c, BoxCentre(c), X, Lo(c, X), Hi(c, X));
    CentredByTranslation(c, BoxCentre(c), Y, Lo(c, Y), Hi(c, Y));
  }

  /** After normaliseCourse the bounding box is centred on the origin on both axes:
    * its lower and upper bounds add up to 0. */
  lemma NormaliseCentres(c: MapPoints, m: Math)
    requires BoxFound(c)
    ensures Centred(Normalised(c, m), X) && Centred(Normalised(c, m), Y)
  {
    var moved := TranslatedCourse(c, BoxCentre(c));
    TranslationCentres(c);
    var maxRadius := Max(RadiusMax(moved.blue, m), RadiusMax(moved.yellow, m));
    if maxRadius > MaxNormalisedRadius {
      var scale := MaxNormalisedRadius / maxRadius;
      ShrinkFactor(maxRadius, scale);
      assert Normalised(c, m) == ScaledCourse(moved, scale);
      CentredAfterScaling(moved, scale, X);
      CentredAfterScaling(moved, scale, Y);
    } else {
      assert Normalised(c, m) == moved;
    }
  }

  /** The centre's coordinate along either axis is the middle of the box. */
  lemma CentreIsMidpoint(c: MapPoints, axis: Axis)
    ensures Coord(BoxCentre(c), axis) == (Lo(c, axis) + Hi(c, axis)) * 0.5
  {
    if axis == X {
      assert Coord(BoxCentre(c), X) == (Lo(c, X) + Hi(c, X)) * 0.5;
    } else {
      assert Coord(BoxCentre(c), Y) == (Lo(c, Y) + Hi(c, Y)) * 0.5;
    }
  }

  /** After normaliseCourse no cone is farther than 40 from the origin. */
  lemma NormaliseWithinRadius(c: MapPoints, m: Math)
    requires Lawful(m) && BoxFound(c)
    ensures forall i :: 0 <= i < |Normalised(c, m).blue| ==> Length(Normalised(c, m).blue[i], m) <= MaxNormalisedRadius
    ensures forall j :: 0 <= j < |Normalised(c, m).yellow| ==> Length(Normalised(c, m).yellow[j], m) <= MaxNormalisedRadius
  {
    var moved := TranslatedCourse(c, BoxCentre(c));
    var maxRadius := Max(RadiusMax(moved.blue, m), RadiusMax(moved.yellow, m));
    RadiusMaxBounds(moved.blue, m);
    RadiusMaxBounds(moved.yellow, m);
    Within(moved.blue, RadiusMax(moved.blue, m), maxRadius, m);
    Within(moved.yellow, RadiusMax(moved.yellow, m), maxRadius, m);
    if maxRadius > MaxNormalisedRadius {
      var scale := MaxNormalisedRadius / maxRadius;
      ShrinkFactor(maxRadius, scale);
      assert Normalised(c, m) == ScaledCourse(moved, scale);
      ScaledWithin(moved.blue, scale, maxRadius, MaxNormalisedRadius, m);
      ScaledWithin(moved.yellow, scale, maxRadius, MaxNormalisedRadius, m);
    } else {
      assert Normalised(c, m) == moved;
      Within(moved.blue, maxRadius, MaxNormalisedRadius, m);
      Within(moved.yellow, maxRadius, MaxNormalisedRadius, m);
    }
  }

  /** Multiplying points within radius `r` by `k >= 0` leaves them within `k * r`. */
  lemma ScaledWithin(points: seq<Vec2>, k: real, r: real, bound: real, m: Math)
    requires Lawful(m) && 0.0 <= k && k * r <= bound
    requires forall i :: 0 <= i < |points| ==> Length(points[i], m) <= r
    ensures forall i :: 0 <= i < |Scaled(points, k)| ==> Length(Scaled(points, k)[i], m) <= bound
  {
    forall i | 0 <= i < |points|
      ensures Length(Scaled(points, k)[i], m) <= bound
    {
      HypotScaleBound(m, points[i], k, r);
    }
  }

  /** Points within radius `r` are within any bound at least `r`. */
  lemma Within(points: seq<Vec2>, r: real, bound: real, m: Math)
    requires r <= bound
    requires forall i :: 0 <= i < |points| ==> Length(points[i], m) <= r
    ensures forall i :: 0 <= i < |points| ==> Length(points[i], m) <= bound
  {
  }

  /** Once the box centre and the largest radius after moving are known, the
    * normalised course is the moved course, scaled down when that radius exceeds 40. */
  lemma NormalisedBy(c: MapPoints, m: Math, centre: Vec2, maxRadius: real)
    requires BoxFound(c) && centre == BoxCentre(c)
    requires maxRadius == Max(RadiusMax(Translated(c.blue, centre), m), RadiusMax(Translated(c.yellow, centre), m))
    ensures maxRadius <= MaxNormalisedRadius ==> Normalised(c, m) == TranslatedCourse(c, centre)
    ensures maxRadius > MaxNormalisedRadius ==>
      Normalised(c, m) == ScaledCourse(TranslatedCourse(c, centre), MaxNormalisedRadius / maxRadius)
  {
  }

  /** normaliseCourse keeps both lists' sizes, and changes nothing when both lists are
    * empty or no bounding box was found. */
  lemma NormaliseKeepsSizes(c: MapPoints, m: Math)
    ensures |Normalised(c, m).blue| == |c.blue| && |Normalised(c, m).yellow| == |c.yellow|
    ensures !BoxFound(c) ==> Normalised(c, m) == c
    ensures c.blue == [] && c.yellow == [] ==> Normalised(c, m) == c
  {
  }

  /** sceneRadius is at least 15 and leaves a margin of 12 around every cone. */
  lemma SceneRadiusBounds(c: MapPoints, m: Math)
    ensures MinSceneRadius <= SceneRadius(c, m)
    ensures forall i :: 0 <= i < |c.blue| ==> Length(c.blue[i], m) + GroundMargin <= SceneRadius(c, m)
    ensures forall j :: 0 <= j < |c.yellow| ==> Length(c.yellow[j], m) + GroundMargin <= SceneRadius(c, m)
  {
    RadiusMaxBounds(c.blue, m);
    RadiusMaxBounds(c.yellow, m);
  }

  // ---------------------------------------------------------------------------
  // The bounding-box loops

  /** updateMin: the smallest coordinate of the points along `axis`, or `currentMin`
    * if that is smaller. */
  method UpdateMin(points: seq<Vec2>, axis: Axis, currentMin: real) returns (low: real)
    ensures low == FoldMin(points, axis, currentMin)
  {
    low := currentMin;
    for i := 0 to |points|
      invariant low == FoldMin(points[..i], axis, currentMin)
    {
      assert points[..i + 1][..i] == points[..i];
      low := Min(low, Coord(points[i], axis));
    }
    assert points[..|points|] == points;
  }

  /** updateMax: the largest coordinate of the points along `axis`, or `currentMax`
    * if that is larger. */
  method UpdateMax(points: seq<Vec2>, axis: Axis, currentMax: real) returns (high: real)
    ensures high == FoldMax(points, axis, currentMax)
  {
    high := currentMax;
    for i := 0 to |points|
      invariant high == FoldMax(points[..i], axis, currentMax)
    {
      assert points[..i + 1][..i] == points[..i];
      high := Max(high, Coord(points[i], axis));
    }
    assert points[..|points|] == points;
  }

  /** One turn of recenter's loop: the i-th point is moved, and the running maximum
    * takes in its new distance. */
  lemma TranslateStep(original: seq<Vec2>, i: nat, centre: Vec2, m: Math)
    requires i < |original|
    ensures (Translated(original[..i], centre) + original[i..])[i := original[i].Minus(centre)]
            == Translated(original[..i + 1], centre) + original[i + 1..]
    ensures RadiusMax(Translated(original[..i + 1], centre), m)
            == Max(RadiusMax(Translated(original[..i], centre), m), Length(original[i].Minus(centre), m))
  {
    assert Translated(original[..i + 1], centre)[..i] == Translated(original[..i], centre);
  }

  /** One turn of scalePoints' loop. */
  lemma ScaleStep(original: seq<Vec2>, i: nat, scale: real)
    requires i < |original|
    ensures (Scaled(original[..i], scale) + original[i..])[i := original[i].Times(scale)]
            == Scaled(original[..i + 1], scale) + original[i + 1..]
  {
  }

  // ---------------------------------------------------------------------------
  // The camera

  /** The values onDrawFrame reads under the camera lock. */
  datatype Camera = Camera(yaw: real, pitch: real, distance: real)

  datatype Vec3 = Vec3(x: real, y: real, z: real)

  /** Math.toRadians. */
  function Radians(degrees: real): real {
    degrees * Track.Pi / 180.0
  }

  /** The eye position onDrawFrame derives from a snapshot: on a sphere of radius
    * `distance` around the origin, `pitch` above the ground and turned by `yaw`. */
  function Eye(camera: Camera, m: Math): Vec3 {
    var yawRad, pitchRad := Radians(camera.yaw), Radians(camera.pitch);
    var cosPitch := m.cos(pitchRad);
    Vec3(camera.distance * m.sin(yawRad) * cosPitch,
         camera.distance * m.cos(yawRad) * cosPitch,
         camera.distance * m.sin(pitchRad))
  }

  /** The eye is exactly `distance` away from the origin it looks at. */
  lemma EyeOnSphere(camera: Camera, m: Math)
    requires Lawful(m)
    ensures var eye := Eye(camera, m); Sq(eye.x) + Sq(eye.y) + Sq(eye.z) == Sq(camera.distance)
  {
    var yawRad, pitchRad := Radians(camera.yaw), Radians(camera.pitch);
    var d, cp, sp := camera.distance, m.cos(pitchRad), m.sin(pitchRad);
    var sy, cy := m.sin(yawRad), m.cos(yawRad);
    assert CircleLaw(m, yawRad) && CircleLaw(m, pitchRad);
    SqOfProduct(d * sy, cp);
    SqOfProduct(d, sy);
    SqOfProduct(d * cy, cp);
    SqOfProduct(d, cy);
    SqOfProduct(d, sp);
    SqOfProduct(d, cp);
    assert Sq(d * sy * cp) + Sq(d * cy * cp) == Sq(d) * Sq(cp) * (Sq(sy) + Sq(cy));
    assert Sq(d * sy * cp) + Sq(d * cy * cp) == Sq(d) * Sq(cp);
    assert Sq(d) * Sq(cp) + Sq(d) * Sq(sp) == Sq(d) * (Sq(cp) + Sq(sp));
  }

  /** Java's float remainder `a % 360`: the sign follows the dividend, and the
    * magnitude stays below a full turn. */
  function YawRemainder(a: real): (r: real)
    ensures -FullTurn < r < FullTurn
    ensures 0.0 <= a ==> 0.0 <= r
    ensures a <= 0.0 ==> r <= 0.0
    ensures -FullTurn < a < FullTurn ==> r == a
  {
    a - Trunc(a / FullTurn) as real * FullTurn
  }

  /** The remainder ignores whole turns on the side of the dividend's sign. */
  lemma YawRemainderPeriodic(a: real)
    ensures 0.0 <= a ==> YawRemainder(a + FullTurn) == YawRemainder(a)
    ensures a <= 0.0 ==> YawRemainder(a - FullTurn) == YawRemainder(a)
  {
    var n := Trunc(a / FullTurn);
    assert (a + FullTurn) / FullTurn == a / FullTurn + 1.0;
    assert (a - FullTurn) / FullTurn == a / FullTurn - 1.0;
    if 0.0 <= a {
      assert Trunc((a + FullTurn) / FullTurn) == n + 1;
    }
    if a <= 0.0 {
      assert Trunc((a - FullTurn) / FullTurn) == n - 1;
    }
  }

  /** applyZoom's new distance: the scale factor is first held to [0.2, 5], and the
    * quotient is held to [10, 90]. */
  function ZoomedDistance(distance: real, scaleFactor: real): (r: real)
    ensures MinCameraDistance <= r <= MaxCameraDistance
  {
    var safeScale := Max(0.2, Min(scaleFactor, 5.0));
    Clamp(distance / safeScale, MinCameraDistance, MaxCameraDistance)
  }

  /** Pinches beyond the factor bounds act like the bounds themselves. */
  lemma ZoomSaturates(distance: real, scaleFactor: real)
    ensures scaleFactor <= 0.2 ==> ZoomedDistance(distance, scaleFactor) == ZoomedDistance(distance, 0.2)
    ensures 5.0 <= scaleFactor ==> ZoomedDistance(distance, scaleFactor) == ZoomedDistance(distance, 5.0)
  {
  }

  /** Zooming by a factor and then by its inverse comes back to the same distance when
    * neither step hits a bound. */
  lemma ZoomUndo(distance: real, scaleFactor: real)
    requires 0.2 <= scaleFactor <= 5.0 && 0.2 <= 1.0 / scaleFactor <= 5.0
    requires MinCameraDistance <= distance <= MaxCameraDistance
    requires MinCameraDistance <= distance / scaleFactor <= MaxCameraDistance
    ensures ZoomedDistance(ZoomedDistance(distance, scaleFactor), 1.0 / scaleFactor) == distance
  {
    var once := ZoomedDistance(distance, scaleFactor);
    assert once == distance / scaleFactor;
    assert once / (1.0 / scaleFactor) == distance;
  }

  // ---------------------------------------------------------------------------
  // The renderer

  class Map3DRenderer {
    var blue: seq<Vec2>
    var yellow: seq<Vec2>
    var yaw: real
    var pitch: real
    var distance: real
    var sceneRadius: real
    const m: Math

    function Course(): MapPoints
      reads this
    {
      MapPoints(blue, yellow)
    }

    function Points(side: Side): seq<Vec2>
      reads this
    {
      Select(Course(), side)
    }

    /** The camera snapshot onDrawFrame takes. */
    function Snapshot(): Camera
      reads this
    {
      Camera(yaw, pitch, distance)
    }

    /** The camera stays in its ranges. */
    predicate Valid()
      reads this
    {
      && -FullTurn < yaw < FullTurn
      && MinCameraPitch <= pitch <= MaxCameraPitch
      && MinCameraDistance <= distance <= MaxCameraDistance
      && MinSceneRadius <= sceneRadius
    }

    /** Builds the renderer over a copy of the marker lists (the demo course when none
      * is given), normalised, with the initial orbit. */
    constructor (mapPoints: Option<MapPoints>, m: Math)
      ensures this.m == m
      ensures Course() == Normalised(if mapPoints.Some? then mapPoints.value else DemoCourse(), m)
      ensures sceneRadius == SceneRadius(Course(), m)
      ensures yaw == InitialYaw && pitch == InitialPitch
      ensures distance == Clamp(Max(DefaultCameraDistance, sceneRadius * 1.2), MinCameraDistance, MaxCameraDistance)
      ensures DefaultCameraDistance <= distance
      ensures Valid()
    {
      this.m := m;
      blue := [];
      yellow := [];
      yaw := InitialYaw;
      pitch := InitialPitch;
      distance := 0.0;
      sceneRadius := 0.0;
      new;
      var safePoints := if mapPoints.Some? then mapPoints.value else DemoCourse();
      CopyPoints(Blue, safePoints.blue);
      CopyPoints(Yellow, safePoints.yellow);
      NormaliseCourse();
      ComputeSceneRadius();
      SceneRadiusBounds(Course(), m);
      distance := Clamp(Max(DefaultCameraDistance, sceneRadius * 1.2), MinCameraDistance, MaxCameraDistance);
    }

    /** copyPoints: the list is cleared and then holds a copy of each source point,
      * in order. */
    method CopyPoints(side: Side, source: seq<Vec2>)
      modifies this
      ensures Course() == Replace(old(Course()), side, source)
      ensures Snapshot() == old(Snapshot()) && sceneRadius == old(sceneRadius)
    {
      SetPoints(side, []);
      for i := 0 to |source|
        invariant Course() == Replace(old(Course()), side, source[..i])
        invariant Snapshot() == old(Snapshot()) && sceneRadius == old(sceneRadius)
      {
        var point := Vec2(source[i].x, source[i].y);
        SetPoints(side, Points(side) + [point]);
        assert source[..i + 1] == source[..i] + [point];
      }
      assert source[..|source|] == source;
    }

    /** Stores a new value of one list. */
    method SetPoints(side: Side, points: seq<Vec2>)
      modifies this
      ensures Course() == Replace(old(Course()), side, points)
      ensures Snapshot() == old(Snapshot()) && sceneRadius == old(sceneRadius)
    {
      if side == Blue {
        blue := points;
      } else {
        yellow := points;
      }
    }

    /** normaliseCourse: centres the bounding box of both lists on the origin and
      * shrinks the course uniformly when a cone is farther than 40 away. */
    method NormaliseCourse()
      modifies this
      ensures Course() == Normalised(old(Course()), m)
      ensures Snapshot() == old(Snapshot()) && sceneRadius == old(sceneRadius)
    {
      if blue == [] && yellow == [] {
        return;
      }
      ghost var before := Course();
      var minX := FloatMax;
      var minY := FloatMax;
      var maxX := -FloatMax;
      var maxY := -FloatMax;

      minX := UpdateMin(blue, X, minX);
      minX := UpdateMin(yellow, X, minX);
      maxX := UpdateMax(blue, X, maxX);
      maxX := UpdateMax(yellow, X, maxX);
      minY := UpdateMin(blue, Y, minY);
      minY := UpdateMin(yellow, Y, minY);
      maxY := UpdateMax(blue, Y, maxY);
      maxY := UpdateMax(yellow, Y, maxY);

      if minX == FloatMax || minY == FloatMax || maxX == -FloatMax || maxY == -FloatMax {
        return;
      }
      var centre := Vec2((minX + maxX) * 0.5, (minY + maxY) * 0.5);
      assert centre == BoxCentre(before);

      var maxRadius := Recenter(Blue, centre);
      var yellowRadius := Recenter(Yellow, centre);
      maxRadius := Max(maxRadius, yellowRadius);
      NormalisedBy(before, m, centre, maxRadius);

      if maxRadius <= 0.0 {
        return;
      }
      if maxRadius > MaxNormalisedRadius {
        var scale := MaxNormalisedRadius / maxRadius;
        ScalePoints(Blue, scale);
        ScalePoints(Yellow, scale);
      }
    }

    /** recenter: moves every point of one list by minus `centre` and returns the
      * largest distance from the origin afterwards. */
    method Recenter(side: Side, centre: Vec2) returns (maxRadius: real)
      modifies this
      ensures Course() == Replace(old(Course()), side, Translated(old(Points(side)), centre))
      ensures Snapshot() == old(Snapshot()) && sceneRadius == old(sceneRadius)
      ensures maxRadius == RadiusMax(Points(side), m)
    {
      ghost var original := Points(side);
      maxRadius := 0.0;
      var i := 0;
      while i < |Points(side)|
        invariant |Points(side)| == |original| && 0 <= i <= |original|
        invariant Course() == Replace(old(Course()), side, Translated(original[..i], centre) + original[i..])
        invariant maxRadius == RadiusMax(Translated(original[..i], centre), m)
        invariant Snapshot() == old(Snapshot()) && sceneRadius == old(sceneRadius)
      {
        var point := Points(side)[i].Minus(centre);
        TranslateStep(original, i, centre, m);
        SetPoints(side, Points(side)[i := point]);
        maxRadius := Max(maxRadius, Length(point, m));
        i := i + 1;
      }
      assert original[..i] == original;
    }

    /** scalePoints: multiplies every point of one list by `scale`. */
    method ScalePoints(side: Side, scale: real)
      modifies this
      ensures Course() == Replace(old(Course()), side, Scaled(old(Points(side)), scale))
      ensures Snapshot() == old(Snapshot()) && sceneRadius == old(sceneRadius)
    {
      ghost var original := Points(side);
      var i := 0;
      while i < |Points(side)|
        invariant |Points(side)| == |original| && 0 <= i <= |original|
        invariant Course() == Replace(old(Course()), side, Scaled(original[..i], scale) + original[i..])
        invariant Snapshot() == old(Snapshot()) && sceneRadius == old(sceneRadius)
      {
        var point := Points(side)[i].Times(scale);
        ScaleStep(original, i, scale);
        SetPoints(side, Points(side)[i := point]);
        i := i + 1;
      }
      assert original[..i] == original;
    }

    /** computeSceneRadius: the farthest cone of both lists plus the margin, at
      * least 15. */
    method ComputeSceneRadius()
      modifies this
      ensures sceneRadius == SceneRadius(Course(), m)
      ensures Course() == old(Course()) && Snapshot() == old(Snapshot())
    {
      var maxDistance := 0.0;
      for i := 0 to |blue|
        invariant maxDistance == RadiusMax(blue[..i], m)
      {
        assert blue[..i + 1][..i] == blue[..i];
        maxDistance := Max(maxDistance, Length(blue[i], m));
      }
      assert blue[..|blue|] == blue;
      RadiusMaxBounds(blue, m);
      for j := 0 to |yellow|
        invariant maxDistance == Max(RadiusMax(blue, m), RadiusMax(yellow[..j], m))
      {
        assert yellow[..j + 1][..j] == yellow[..j];
        maxDistance := Max(maxDistance, Length(yellow[j], m));
      }
      assert yellow[..|yellow|] == yellow;
      sceneRadius := Max(MinSceneRadius, maxDistance + GroundMargin);
    }

    /** applyOrbitDelta: turns the yaw (remainder of a full turn, sign kept) and
      * tilts the pitch within [10, 80]. */
    method ApplyOrbitDelta(deltaYaw: real, deltaPitch: real)
      modifies this
      ensures yaw == YawRemainder(old(yaw) + deltaYaw)
      ensures pitch == Clamp(old(pitch) + deltaPitch, MinCameraPitch, MaxCameraPitch)
      ensures distance == old(distance) && sceneRadius == old(sceneRadius) && Course() == old(Course())
      ensures old(Valid()) ==> Valid()
    {
      yaw := YawRemainder(yaw + deltaYaw);
      pitch := Clamp(pitch + deltaPitch, MinCameraPitch, MaxCameraPitch);
    }

    /** applyZoom: divides the distance by the held scale factor, within [10, 90]. */
    method ApplyZoom(scaleFactor: real)
      modifies this
      ensures distance == ZoomedDistance(old(distance), scaleFactor)
      ensures yaw == old(yaw) && pitch == old(pitch)
      ensures sceneRadius == old(sceneRadius) && Course() == old(Course())
      ensures old(Valid()) ==> Valid()
    {
      var safeScale := Max(0.2, Min(scaleFactor, 5.0));
      var newDistance := distance / safeScale;
      distance := Clamp(newDistance, MinCameraDistance, MaxCameraDistance);
    }
  }
}
