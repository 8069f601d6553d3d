/** The native preview renderer (renderer.cpp) without its OpenGL calls: touch input,
  * the viewport size, the fixed-step physics accumulator, loading a track from the
  * flat buffer handed over by the Java side, and the physics update that drives the
  * car and keeps it on the track. The mutex only makes each call atomic; the camera
  * and all drawing are left out. */
module Native {
  import opened Geometry
  import opened Vehicle
  import opened MeshBuilder
  import Activity

  /** The fixed physics step, 1/60 s. */
  const PhysicsStep: real := 1.0 / 60.0
  /** render never advances the simulation by more than this per frame. */
  const MaxFrameDelta: real := 0.25
  /** MotionEvent actions that release the controls. */
  const ActionUp: int := 1
  const ActionCancel: int := 3
  /** The nearest-sample search looks this many samples back and (one less) ahead. */
  const SearchBehind: nat := 5
  const SearchAhead: nat := 6
  /** The car may stray from the nearest sample by this fraction of the track width. */
  const OffsetFraction: real := 0.45
  /** Offsets and tangents at or below this length count as zero. */
  const MinVectorLength: real := 0.0001
  /** std::numeric_limits<float>::max(), the search's initial best distance. */
  const FloatMax: real := 340282346638528859811704183484516925440.0

  // ---------------------------------------------------------------------------
  // onTouch

  /** The driver's three inputs. */
  datatype Inputs = Inputs(steer: real, throttle: real, brake: real)

  /** The inputs after a touch event: all zero when the finger is lifted or the gesture
    * is cancelled; otherwise steering from x and throttle or brake from y, both
    * clamped to [-1, 1]. */
  function TouchInputs(action: int, x: real, y: real): Inputs {
    if action == ActionUp || action == ActionCancel then Inputs(0.0, 0.0, 0.0)
    else
      var steer, drive := Clamp(x, -1.0, 1.0), Clamp(y, -1.0, 1.0);
      if drive >= 0.0 then Inputs(steer, drive, 0.0) else Inputs(steer, 0.0, -drive)
  }

  /** Releasing zeroes everything; otherwise steering is in [-1, 1], throttle and brake
    * are in [0, 1], at most one of them is non-zero, and their difference is the
    * clamped y. */
  lemma TouchRanges(action: int, x: real, y: real)
    ensures action == ActionUp || action == ActionCancel ==> TouchInputs(action, x, y) == Inputs(0.0, 0.0, 0.0)
    ensures action != ActionUp && action != ActionCancel ==>
      var inputs := TouchInputs(action, x, y);
      && inputs.steer == Clamp(x, -1.0, 1.0)
      && 0.0 <= inputs.throttle <= 1.0 && 0.0 <= inputs.brake <= 1.0
      && (inputs.throttle == 0.0 || inputs.brake == 0.0)
      && inputs.throttle - inputs.brake == Clamp(y, -1.0, 1.0)
  {
  }

  // ---------------------------------------------------------------------------
  // loadTrack

  /** Appending one (x, y) pair to an even-length buffer appends one point. */
  lemma {:induction false} PairsSnoc(buffer: seq<real>, x: real, y: real)
    requires |buffer| % 2 == 0
    ensures Activity.Pairs(buffer + [x, y]) == Activity.Pairs(buffer) + [Vec2(x, y)]
    decreases |buffer|
  {
    if buffer == [] {
      assert Activity.Pairs([x, y]) == [Vec2(x, y)] + Activity.Pairs([x, y][2..]);
    } else {
      assert (buffer + [x, y])[2..] == buffer[2..] + [x, y];
      PairsSnoc(buffer[2..], x, y);
    }
  }

  /** loadTrack's loop: the first `count` (x, y) pairs of the buffer as points. */
  method Unpack(xy: seq<real>, count: nat) returns (points: seq<Vec2>)
    requires 2 * count <= |xy|
    ensures points == Activity.Pairs(xy[..2 * count])
  {
    points := [];
    var i := 0;
    while i < count
      invariant i <= count
      invariant points == Activity.Pairs(xy[..2 * i])
    {
      assert xy[..2 * i + 2] == xy[..2 * i] + [xy[2 * i], xy[2 * i + 1]];
      PairsSnoc(xy[..2 * i], xy[2 * i], xy[2 * i + 1]);
      points := points + [Vec2(xy[i * 2], xy[i * 2 + 1])];
      i := i + 1;
    }
  }

  /** The hand-off loses nothing: unpacking the buffer the Java side flattens from a
    * centreline gives back that centreline. */
  lemma HandOffRoundTrip(centerline: seq<Vec2>)
    ensures Activity.Interleaved(centerline)[..2 * |centerline|] == Activity.Interleaved(centerline)
    ensures Activity.Pairs(Activity.Interleaved(centerline)[..2 * |centerline|]) == centerline
  {
    Activity.PairsOfInterleaved(centerline);
  }

  /** The direction the car starts in: the first tangent, else the first segment, else
    * the x axis, whichever first is longer than 1e-4. */
  function StartDirection(geometry: TrackGeometry, m: Math): Vec2
    requires geometry.tangents != [] && geometry.samples != []
  {
    var tangent := geometry.tangents[0];
    var tangent := if Length(tangent, m) < MinVectorLength && |geometry.samples| > 1
      then geometry.samples[1].Minus(geometry.samples[0]) else tangent;
    if Length(tangent, m) < MinVectorLength then Vec2(1.0, 0.0) else tangent
  }

  /** The car a loaded track starts with: a default car on the first sample, heading
    * along the start direction. */
  function StartCar(geometry: TrackGeometry, m: Math): Car {
    if geometry.samples == [] || geometry.tangents == [] then DefaultCar
    else
      var direction := StartDirection(geometry, m);
      DefaultCar.(pos := geometry.samples[0], heading := m.atan2(direction.y, direction.x))
  }

  /** loadTrack's placement of the car on a freshly built track. */
  method PlaceCar(geometry: TrackGeometry, m: Math) returns (car: Car)
    ensures car == StartCar(geometry, m)
    ensures car.wheelbase == DefaultCar.wheelbase
  {
    car := DefaultCar;
    if geometry.samples != [] && geometry.tangents != [] {
      car := car.(pos := geometry.samples[0]);
      var tangent := geometry.tangents[0];
      if Length(tangent, m) < MinVectorLength && |geometry.samples| > 1 {
        tangent := geometry.samples[1].Minus(geometry.samples[0]);
      }
      if Length(tangent, m) < MinVectorLength {
        tangent := Vec2(1.0, 0.0);
      }
      car := car.(heading := m.atan2(tangent.y, tangent.x));
    }
  }

  /** loadTrack's call of buildTrackMesh into an empty mesh and geometry. A track that
    * builds has samples to search and a positive width. */
  method BuildTrack(centerline: seq<Vec2>, width: real, m: Math) returns (built: Option<Built>)
    ensures built == BuiltMesh(centerline, width, m)
    ensures built.Some? ==> 2 <= |built.value.geometry.samples| && 0.0 < built.value.geometry.width
  {
    var ok, mesh, geometry := BuildTrackMesh(centerline, width, TrackMesh([], [], Stride), TrackGeometry([], [], 0.0, 0.0), m);
    if !ok {
      return None;
    }
    BuiltShape(centerline, width, m);
    built := Some(Built(mesh, geometry));
  }

  /** The start direction is never degenerate: it is at least 1e-4 long, and it is the
    * first tangent whenever that one is. */
  lemma StartDirectionLong(geometry: TrackGeometry, m: Math)
    requires Lawful(m) && geometry.tangents != [] && geometry.samples != []
    ensures MinVectorLength <= Length(StartDirection(geometry, m), m)
    ensures MinVectorLength <= Length(geometry.tangents[0], m) ==> StartDirection(geometry, m) == geometry.tangents[0]
  {
    assert HypotLaw(m, 1.0, 0.0);
    SquareRootUnique(m.hypot(1.0, 0.0), 1.0);
  }

  // ---------------------------------------------------------------------------
  // updatePhysics

  /** The car with the driver's inputs applied: half the steering input as the wheel
    * angle, throttle and brake as given. */
  function Driven(car: Car, inputs: Inputs): Car {
    car.(steer := inputs.steer * 0.5, throttle := inputs.throttle, brake := inputs.brake)
  }

  /** The first sample the search looks at. */
  function SearchStart(last: nat): nat {
    if last > SearchBehind then last - SearchBehind else 0
  }

  /** One past the last sample the search looks at. */
  function SearchEnd(count: nat, last: nat): nat {
    if last + SearchAhead < count then last + SearchAhead else count
  }

  /** `best` is what the windowed search returns: inside the window, no farther from
    * `pos` than any sample in it, strictly nearer than every sample before it, and the
    * previous nearest sample when no distance is below the initial FloatMax. */
  predicate IsNearest(samples: seq<Vec2>, pos: Vec2, last: nat, best: nat, m: Math) {
    var start, end := SearchStart(last), SearchEnd(|samples|, last);
    && start <= best < end
    && (forall j :: start <= j < end ==> Min(Distance(pos, samples[best], m), FloatMax) <= Distance(pos, samples[j], m))
    && (Distance(pos, samples[best], m) < FloatMax ==>
          forall j :: start <= j < best ==> Distance(pos, samples[best], m) < Distance(pos, samples[j], m))
    && (FloatMax <= Distance(pos, samples[best], m) ==> best == last)
  }

  /** The search result is determined: at most one index is the nearest sample. */
  lemma NearestUnique(samples: seq<Vec2>, pos: Vec2, last: nat, a: nat, b: nat, m: Math)
    requires IsNearest(samples, pos, last, a, m) && IsNearest(samples, pos, last, b, m)
    ensures a == b
  {
    var da, db := Distance(pos, samples[a], m), Distance(pos, samples[b], m);
    if da < FloatMax && db < FloatMax {
      assert a <= b && b <= a;
    }
  }

  /** updatePhysics' search for the sample nearest to `pos`, from five samples before
    * the previous nearest one to five after it, keeping the first strict minimum. */
  method NearestSample(samples: seq<Vec2>, pos: Vec2, last: nat, m: Math) returns (bestIndex: nat)
    requires last < |samples|
    ensures IsNearest(samples, pos, last, bestIndex, m)
    ensures bestIndex < |samples|
  {
    bestIndex := last;
    var bestDistance := FloatMax;
    var searchStart := if bestIndex > SearchBehind then bestIndex - SearchBehind else 0;
    var searchEnd := if |samples| < bestIndex + SearchAhead then |samples| else bestIndex + SearchAhead;
    assert searchEnd == SearchEnd(|samples|, last);
    var i := searchStart;
    while i < searchEnd
      invariant searchStart <= i <= searchEnd
      invariant bestDistance <= FloatMax
      invariant forall j :: searchStart <= j < i ==> bestDistance <= Distance(pos, samples[j], m)
      invariant bestDistance < FloatMax ==>
        && searchStart <= bestIndex < i && bestDistance == Distance(pos, samples[bestIndex], m)
        && forall j :: searchStart <= j < bestIndex ==> bestDistance < Distance(pos, samples[j], m)
      invariant bestDistance == FloatMax ==> bestIndex == last
    {
      var distance := Distance(pos, samples[i], m);
      if distance < bestDistance {
        bestDistance := distance;
        bestIndex := i;
      }
      i := i + 1;
    }
  }

  /** The car's position pulled back towards the nearest sample: when it is more than
    * 0.45 track widths (and more than 1e-4) away, it is moved along the same offset to
    * exactly that distance. */
  function Pulled(pos: Vec2, nearest: Vec2, width: real, m: Math): Vec2 {
    var offset := pos.Minus(nearest);
    var offsetLength := Length(offset, m);
    var maxOffset := width * OffsetFraction;
    if offsetLength > maxOffset && offsetLength > MinVectorLength
    then nearest.Plus(offset.Times(maxOffset / offsetLength))
    else pos
  }

  /** A car too far from the nearest sample ends exactly 0.45 widths from it, on the
    * same side: its offset is scaled by a factor in [0, 1). A car close enough stays
    * where it is. Either way it ends no farther than max(0.45 width, 1e-4). */
  lemma PullBack(pos: Vec2, nearest: Vec2, width: real, m: Math)
    requires Lawful(m) && 0.0 <= width
    ensures var d := Distance(pos, nearest, m);
      d > width * OffsetFraction && d > MinVectorLength ==>
        && Distance(Pulled(pos, nearest, width, m), nearest, m) == width * OffsetFraction
        && exists k :: 0.0 <= k < 1.0 && Pulled(pos, nearest, width, m).Minus(nearest) == pos.Minus(nearest).Times(k)
    ensures var d := Distance(pos, nearest, m);
      !(d > width * OffsetFraction && d > MinVectorLength) ==> Pulled(pos, nearest, width, m) == pos
    ensures Distance(Pulled(pos, nearest, width, m), nearest, m) <= Max(width * OffsetFraction, MinVectorLength)
  {
    var offset := pos.Minus(nearest);
    var len := Length(offset, m);
    var maxOffset := width * OffsetFraction;
    if len > maxOffset && len > MinVectorLength {
      var k := maxOffset / len;
      assert k * len == maxOffset;
      if 1.0 <= k {
        MulLeLeft(len, 1.0, k);
      }
      assert 0.0 <= k < 1.0;
      var moved := Pulled(pos, nearest, width, m);
      assert moved.Minus(nearest) == offset.Times(k);
      LengthScaled(m, offset, k);
      assert k * len == maxOffset;
    }
  }

  // ---------------------------------------------------------------------------
  // The renderer

  /** Renderer: the state behind the JNI entry points. */
  class Renderer {
    var initialized: bool
    var viewportWidth: int
    var viewportHeight: int
    var mesh: TrackMesh
    var geometry: TrackGeometry
    var meshDirty: bool
    var car: Car
    var lastNearestSample: nat
    var steerInput: real
    var throttleInput: real
    var brakeInput: real
    var physicsAccumulator: real
    const m: Math

    function Controls(): Inputs
      reads this
    {
      Inputs(steerInput, throttleInput, brakeInput)
    }

    /** The previous nearest sample indexes the loaded samples, the car keeps its
      * wheelbase and a loaded track has a positive width. */
    ghost predicate Consistent()
      reads this
    {
      && Lawful(m)
      && car.wheelbase == DefaultCar.wheelbase
      && (geometry.samples != [] ==> lastNearestSample < |geometry.samples| && 0.0 < geometry.width)
    }

    /** Between frames, besides, the accumulator holds less than one physics step. */
    ghost predicate Valid()
      reads this
    {
      Consistent() && physicsAccumulator < PhysicsStep
    }

    /** The renderer's default member values. */
    constructor (m: Math)
      requires Lawful(m)
      ensures this.m == m
      ensures !initialized && viewportWidth == 0 && viewportHeight == 0
      ensures mesh == TrackMesh([], [], Stride) && geometry == TrackGeometry([], [], 0.0, 0.0) && !meshDirty
      ensures car == DefaultCar && lastNearestSample == 0
      ensures Controls() == Inputs(0.0, 0.0, 0.0) && physicsAccumulator == 0.0
      ensures Valid()
    {
      this.m := m;
      initialized := false;
      viewportWidth, viewportHeight := 0, 0;
      mesh := TrackMesh([], [], Stride);
      geometry := TrackGeometry([], [], 0.0, 0.0);
      meshDirty := false;
      car := DefaultCar;
      lastNearestSample := 0;
      steerInput, throttleInput, brakeInput := 0.0, 0.0, 0.0;
      physicsAccumulator := 0.0;
    }

    /** init: nothing happens when already initialised; otherwise the renderer becomes
      * initialised, with an empty accumulator, exactly when its shaders compile and
      * link (`shadersReady`, the outcome of the GL calls). */
    method Init(shadersReady: bool)
      requires Valid()
      modifies this
      ensures Valid()
      ensures old(initialized) ==> unchanged(this)
      ensures !old(initialized) ==> initialized == shadersReady
      ensures !old(initialized) && shadersReady ==> physicsAccumulator == 0.0
      ensures !old(initialized) && !shadersReady ==> physicsAccumulator == old(physicsAccumulator)
      ensures viewportWidth == old(viewportWidth) && viewportHeight == old(viewportHeight)
      ensures mesh == old(mesh) && geometry == old(geometry) && meshDirty == old(meshDirty)
      ensures car == old(car) && lastNearestSample == old(lastNearestSample) && Controls() == old(Controls())
    {
      if initialized {
        return;
      }
      if !shadersReady {
        return;
      }
      initialized := true;
      physicsAccumulator := 0.0;
    }

    /** resize: the viewport is at least one pixel each way. */
    method Resize(width: int, height: int)
      requires Valid()
      modifies this
      ensures Valid()
      ensures viewportWidth == (if width >= 1 then width else 1) && 1 <= viewportWidth
      ensures viewportHeight == (if height >= 1 then height else 1) && 1 <= viewportHeight
      ensures initialized == old(initialized) && physicsAccumulator == old(physicsAccumulator)
      ensures mesh == old(mesh) && geometry == old(geometry) && meshDirty == old(meshDirty)
      ensures car == old(car) && lastNearestSample == old(lastNearestSample) && Controls() == old(Controls())
    {
      viewportWidth := if width >= 1 then width else 1;
      viewportHeight := if height >= 1 then height else 1;
    }

    /** onTouch: the inputs become TouchInputs(action, x, y); nothing else changes. */
    method OnTouch(action: int, x: real, y: real)
      requires Valid()
      modifies this
      ensures Valid()
      ensures Controls() == TouchInputs(action, x, y)
      ensures initialized == old(initialized) && physicsAccumulator == old(physicsAccumulator)
      ensures viewportWidth == old(viewportWidth) && viewportHeight == old(viewportHeight)
      ensures mesh == old(mesh) && geometry == old(geometry) && meshDirty == old(meshDirty)
      ensures car == old(car) && lastNearestSample == old(lastNearestSample)
    {
      if action == ActionUp || action == ActionCancel {
        steerInput := 0.0;
        throttleInput := 0.0;
        brakeInput := 0.0;
        return;
      }
      var steer := Clamp(x, -1.0, 1.0);
      var drive := Clamp(y, -1.0, 1.0);
      steerInput := steer;
      if drive >= 0.0 {
        throttleInput := drive;
        brakeInput := 0.0;
      } else {
        throttleInput := 0.0;
        brakeInput := -drive;
      }
    }

    /** loadTrack: a missing buffer or fewer than two points, or a centreline the mesh
      * builder rejects, changes nothing. Otherwise the built mesh and geometry replace
      * the old ones, the mesh is marked for upload, the car restarts on the first
      * sample, the inputs are released and the search restarts at sample 0. The JNI
      * bridge guarantees the buffer holds 2 * count floats. */
    method LoadTrack(xy: Option<seq<real>>, count: int, width: real)
      requires Valid()
      requires xy.Some? && 0 <= count ==> 2 * count <= |xy.value|
      modifies this
      ensures Valid()
      ensures xy.None? || count < 2 ==> unchanged(this)
      ensures xy.Some? && 2 <= count ==>
        var built := BuiltMesh(Activity.Pairs(xy.value[..2 * count]), width, m);
        && (built.None? ==> unchanged(this))
        && (built.Some? ==>
              && mesh == built.value.mesh && geometry == built.value.geometry && meshDirty
              && car == StartCar(geometry, m)
              && Controls() == Inputs(0.0, 0.0, 0.0) && lastNearestSample == 0
              && initialized == old(initialized) && physicsAccumulator == old(physicsAccumulator)
              && viewportWidth == old(viewportWidth) && viewportHeight == old(viewportHeight))
    {
      if xy.None? || count < 2 {
        return;
      }
      var points := Unpack(xy.value, count);
      var built := BuildTrack(points, width, m);
      if built.None? {
        return;
      }
      Install(built.value);
    }

    /** The successful end of loadTrack: the new mesh and geometry replace the old
      * ones and the car, inputs and search restart. */
    method Install(built: Built)
      requires Valid()
      requires 2 <= |built.geometry.samples| && 0.0 < built.geometry.width
      modifies this
      ensures Valid()
      ensures mesh == built.mesh && geometry == built.geometry && meshDirty
      ensures car == StartCar(geometry, m)
      ensures Controls() == Inputs(0.0, 0.0, 0.0) && lastNearestSample == 0
      ensures initialized == old(initialized) && physicsAccumulator == old(physicsAccumulator)
      ensures viewportWidth == old(viewportWidth) && viewportHeight == old(viewportHeight)
    {
      mesh := built.mesh;
      geometry := built.geometry;
      meshDirty := true;
      car := PlaceCar(geometry, m);
      steerInput := 0.0;
      throttleInput := 0.0;
      brakeInput := 0.0;
      lastNearestSample := 0;
    }

    /** updatePhysics: the driver's inputs go to the car, the car takes one step, and
      * on a loaded track the nearest sample is searched around the previous one and a
      * car that strayed too far is pulled back towards it. */
    method UpdatePhysics(dt: real)
      requires Consistent()
      modifies this
      ensures Consistent()
      ensures var moved := Stepped(Driven(old(car), old(Controls())), dt, m);
        && (geometry.samples == [] ==> car == moved && lastNearestSample == old(lastNearestSample))
        && (geometry.samples != [] ==>
              && IsNearest(geometry.samples, moved.pos, old(lastNearestSample), lastNearestSample, m)
              && car == moved.(pos := Pulled(moved.pos, geometry.samples[lastNearestSample], geometry.width, m)))
      ensures initialized == old(initialized) && physicsAccumulator == old(physicsAccumulator)
      ensures viewportWidth == old(viewportWidth) && viewportHeight == old(viewportHeight)
      ensures mesh == old(mesh) && geometry == old(geometry) && meshDirty == old(meshDirty)
      ensures Controls() == old(Controls())
    {
      car := car.(steer := steerInput * 0.5, throttle := throttleInput, brake := brakeInput);
      car := Step(car, dt, m);
      if geometry.samples != [] {
        var bestIndex := NearestSample(geometry.samples, car.pos, lastNearestSample, m);
        lastNearestSample := bestIndex;
        var nearest := geometry.samples[bestIndex];
        var offset := car.pos.Minus(nearest);
        var offsetLength := Length(offset, m);
        var maxOffset := geometry.width * OffsetFraction;
        if offsetLength > maxOffset && offsetLength > MinVectorLength {
          offset := offset.Times(maxOffset / offsetLength);
          car := car.(pos := nearest.Plus(offset));
        }
      }
    }

    /** render's simulation part: nothing happens before init; otherwise the frame's
      * delta, capped at 0.25 s, is added to the accumulator, whole physics steps are
      * taken while it holds one, and a dirty mesh is uploaded. `steps` counts the
      * physics steps taken. */
    method Render(delta: real) returns (ghost steps: nat)
      requires Valid()
      modifies this
      ensures Valid()
      ensures !old(initialized) ==> unchanged(this) && steps == 0
      ensures old(initialized) ==>
        var total := old(physicsAccumulator) + Min(delta, MaxFrameDelta);
        && physicsAccumulator == total - steps as real * PhysicsStep
        && physicsAccumulator < PhysicsStep
        && (0.0 <= total ==> 0.0 <= physicsAccumulator && steps == (total / PhysicsStep).Floor)
        && (total < PhysicsStep ==> steps == 0)
      ensures initialized == old(initialized) && Controls() == old(Controls())
      ensures mesh == old(mesh) && geometry == old(geometry)
      ensures old(initialized) && mesh.vertices != [] && mesh.indices != [] ==> !meshDirty
      ensures !(mesh.vertices != [] && mesh.indices != []) ==> meshDirty == old(meshDirty)
    {
      steps := 0;
      if !initialized {
        return;
      }
      var frameDelta := Min(delta, MaxFrameDelta);
      physicsAccumulator := physicsAccumulator + frameDelta;
      ghost var total := physicsAccumulator;
      while physicsAccumulator >= PhysicsStep
        invariant Consistent()
        invariant initialized && Controls() == old(Controls())
        invariant mesh == old(mesh) && geometry == old(geometry) && meshDirty == old(meshDirty)
        invariant physicsAccumulator == total - steps as real * PhysicsStep
        invariant 0.0 <= total ==> 0.0 <= physicsAccumulator
        invariant total < PhysicsStep ==> steps == 0
        decreases (physicsAccumulator / PhysicsStep).Floor
      {
        UpdatePhysics(PhysicsStep);
        physicsAccumulator := physicsAccumulator - PhysicsStep;
        steps := steps + 1;
      }
      if 0.0 <= total {
        StepsAreWhole(total, physicsAccumulator, steps);
      }
      if meshDirty && mesh.vertices != [] && mesh.indices != [] {
        meshDirty := false;
      }
    }
  }

  /** When a non-negative total is left in [0, 1/60) after taking whole steps of 1/60,
    * the number of steps is the total divided by the step, rounded down. */
  lemma StepsAreWhole(total: real, left: real, steps: nat)
    requires 0.0 <= left < PhysicsStep && left == total - steps as real * PhysicsStep
    ensures steps == (total / PhysicsStep).Floor
  {
    assert total / PhysicsStep == steps as real + left / PhysicsStep;
    assert 0.0 <= left / PhysicsStep < 1.0;
  }
}
