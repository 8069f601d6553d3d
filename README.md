# RacingSim track pipeline, verified in Dafny

RacingSim is an Android app that generates random closed race tracks and previews
them in 3D. This project models the logic behind that pipeline and proves what it
guarantees:

- **Track generation** (`Track`, track/TrackGenerator.java). The generator draws
  8 to 12 control points around the screen centre, with sorted angles. It samples a
  closed Catmull-Rom centreline, 22 points per segment with cyclic neighbours. It
  then walks the closed polyline and places a pair of left/right cones each time
  the distance walked reaches the spacing, so there is one pair per whole spacing
  of walked length (segments shorter than 0.001 are skipped). Finally it rotates
  both cone lists so that the cone lowest on screen (largest y) comes first.
- **Course normalisation and the orbit camera** (`Scene`, gl/Map3DRenderer.java).
  The class `Scene.Map3DRenderer` holds the blue/yellow cone lists and the camera
  fields. Its methods do the following:
  - copy the lists;
  - centre the bounding box on the origin;
  - shrink the course uniformly so that no cone is farther than 40;
  - compute the scene radius;
  - apply clamped orbit and zoom gestures.
- **The native track mesh** (`MeshBuilder`, cpp/track_mesh.cpp). It computes
  cumulative arc lengths and resamples the centreline at a fixed spacing. It then
  computes tangents and emits a triangle strip of stride-5 vertices with 32-bit
  indices.
- **Procedural meshes** (`Shapes`, gl/GeometryFactory.java). These are the striped
  cone, the cylinder, the ground square and the textured billboard quad. Each is a
  vertex list of 9 (or 5) floats per vertex, with 16-bit indices.
- **The marker set and its JSON form** (`Markers`, model/MapPoints.java and
  model/DefaultMapPointsProvider.java). This covers copying, encoding and decoding
  over an abstract JSON tree, the demo slalom course, and the provider that turns
  a generated track into markers.
- **Activity glue** (`Activity`, MainActivity.java). This covers:
  - flattening the centreline for the native preview;
  - refusing a preview without a usable track;
  - the bitmap-size fallback;
  - the request counter that discards stale results, a class `Activity.Generations`;
  - the JSON hand-off;
  - the night-mode toggle.
- **The native preview** (`Native` and `Vehicle`, cpp/renderer.cpp and
  cpp/vehicle.cpp). The class `Native.Renderer` keeps the renderer's state:
  - touch input;
  - viewport size;
  - the idempotent init;
  - loading a track, which also places the car;
  - the fixed-step physics accumulator;
  - the windowed nearest-sample search;
  - pulling the car back onto the track.
  `Vehicle.Step` is one bicycle-model physics step.

Some conventions hold throughout the model:

- **Reals for floats.** Floats are modelled as reals.
- **Abstract maths functions.** `Math.hypot`, `sqrt`, `sin`, `cos`, `tan` and `atan2`
  are the fields of a `Geometry.Math` value. `Geometry.Lawful` states the only facts
  used about them: hypot is the non-negative root of a sum of squares,
  sin² + cos² = 1, and tan(t) ≠ 0 for 0 < |t| ≤ 0.5 (the steering range of the
  car).
- **Inputs as parameters.** Random draws, the frame delta and org.json's text parser
  are passed in as parameters.
- **Lists as sequences.** A list or vector the source appends to in a loop becomes a
  `seq` that a method rebuilds step by step. Each such method is proved equal to a
  specification function, and the properties are lemmas about that function.

## Model

| member | source | states |
|---|---|---|
| Geometry.Clamp | app/src/main/java/com/example/racingsim/gl/Map3DRenderer.java:336-338 | clamp(v, lo, hi) lies in [lo, hi]; it is v inside the range, lo below it and hi above it |
| Geometry.Trunc | app/src/main/java/com/example/racingsim/MainActivity.java:129 | Java's `(int)` cast truncates toward zero: the result is within one below a non-negative input and within one above a negative one |
| Track.TrackWidth | app/src/main/java/com/example/racingsim/track/TrackGenerator.java:29 | the track width (0.22·minDimen) lies between 0 and minDimen, and is positive for a positive screen |
| Track.ConeSpacing | app/src/main/java/com/example/racingsim/track/TrackGenerator.java:30 | the cone spacing (0.9·width) is positive and strictly below the width; it is 0 only for width 0 |
| Track.ControlPointCount | app/src/main/java/com/example/racingsim/track/TrackGenerator.java:44 | the number of control points is between 8 and 12 for every draw of nextInt(5) |
| Track.SortAscendingCorrect | app/src/main/java/com/example/racingsim/track/TrackGenerator.java:50 | sorting the angles yields an ascending sequence that is a permutation of the drawn angles |
| Track.ControlAnglesSortedInRange | app/src/main/java/com/example/racingsim/track/TrackGenerator.java:45-50 | the control angles are sorted ascending, are a permutation of the drawn angles, and each lies in [0, 2π) |
| Track.RadiusBounds | app/src/main/java/com/example/racingsim/track/TrackGenerator.java:52-57 | each base radius lies in [0.28, 0.45]·minDimen |
| Track.WobbleBounds | app/src/main/java/com/example/racingsim/track/TrackGenerator.java:58 | each wobble lies within ±0.02·minDimen |
| Track.ControlPointsAroundCentre | app/src/main/java/com/example/racingsim/track/TrackGenerator.java:55-62 | control point j lies exactly radius+wobble from the screen centre, which is between 0.26 and 0.47·minDimen |
| Track.CreateControlPoints | app/src/main/java/com/example/racingsim/track/TrackGenerator.java:43-64 | the loop builds one point per sorted angle from the random draws, 8 to 12 points in all |
| Track.CatmullRom | app/src/main/java/com/example/racingsim/track/TrackGenerator.java:82-93 | the spline passes through p1 at t = 0 and p2 at t = 1, and is constant when all four points agree |
| Track.CreateCenterline | app/src/main/java/com/example/racingsim/track/TrackGenerator.java:66-80 | the nested loops produce the specified centreline: 22 samples per control point, blending the cyclic neighbours (i-1+n)%n, i, (i+1)%n, (i+2)%n at t = step/22 |
| Track.CenterlineThroughControlPoints | app/src/main/java/com/example/racingsim/track/TrackGenerator.java:70-76 | centreline point 22·i is control point i |
| Track.CenterlineSegmentsJoin | app/src/main/java/com/example/racingsim/track/TrackGenerator.java:70-76 | segment i evaluated at t = 1 lands on the first sample of segment (i+1) mod n, so the closed curve has no gaps |
| Track.CenterlineOfOnePoint | app/src/main/java/com/example/racingsim/track/TrackGenerator.java:66-80 | identical control points give a centreline of that single point |
| Track.ZeroSizeControlPoints | app/src/main/java/com/example/racingsim/track/TrackGenerator.java:52-61 | on a zero-size screen every control point is the centre |
| Track.ZeroSizeCenterline | app/src/main/java/com/example/racingsim/track/TrackGenerator.java:20-26 | on a zero-size screen the centreline is one repeated point (the case in which the cone walk may run with zero spacing) |
| Track.ConePairAcross | app/src/main/java/com/example/racingsim/track/TrackGenerator.java:139-145 | a cone pair lies symmetric about its centre point, along a unit normal with the left cone on the +normal side, exactly trackWidth apart |
| Track.AdvanceAlong | app/src/main/java/com/example/racingsim/track/TrackGenerator.java:133-137 | the next cone centre lies spacing−accumulated along the segment (ratio in (0,1]), and what remains of the segment is shorter by exactly that |
| Track.EmittedPair | app/src/main/java/com/example/racingsim/track/TrackGenerator.java:134-145 | the coordinates the loop computes (ratio, px, py, the normal) are the centre and cones of a placement on the current segment |
| Track.ConesAppend | app/src/main/java/com/example/racingsim/track/TrackGenerator.java:144-145 | each placement appends one cone to the left list and one to the right list, so the lists stay pairwise aligned |
| Track.PairStep | app/src/main/java/com/example/racingsim/track/TrackGenerator.java:133-151 | one turn of the inner loop keeps the walk invariant, appends an aligned pair and resets accumulated to 0 |
| Track.AlongSegment | app/src/main/java/com/example/racingsim/track/TrackGenerator.java:133-152 | the pairs placed along one segment use up whole spacings: (number of pairs)·spacing + what is left over = accumulated + segment length, with the leftover in [0, spacing) |
| Track.SegmentSpacing | app/src/main/java/com/example/racingsim/track/TrackGenerator.java:133-152 | along one segment the first pair lies spacing − accumulated past the segment start and each later pair exactly one spacing past the previous pair's centre; all lie on the segment towards the same centreline point |
| Track.WalkFrom | app/src/main/java/com/example/racingsim/track/TrackGenerator.java:124-156 | the walk from any centreline index carries a leftover in [0, spacing) |
| Track.WalkCount | app/src/main/java/com/example/racingsim/track/TrackGenerator.java:124-156 | the walk from any index places one pair per whole spacing: pairs·spacing + leftover = accumulated + the length still to walk (skipped segments add nothing) |
| Track.ConeCount | app/src/main/java/com/example/racingsim/track/TrackGenerator.java:115-156 | the number of pairs of the whole walk is ⌊walked length / spacing⌋ |
| Track.PlaceAlongSegment | app/src/main/java/com/example/racingsim/track/TrackGenerator.java:133-152 | the inner loop appends exactly the pairs AlongSegment places and ends with accumulated + remaining segment equal to its leftover, below the spacing; the cones are those placements' cones |
| Track.WalkSegment | app/src/main/java/com/example/racingsim/track/TrackGenerator.java:125-155 | one turn of the outer loop: a segment shorter than 0.001 is skipped with nothing placed; otherwise the inner loop runs and the walk state and the rest of the walk are kept in step |
| Track.WalkCones | app/src/main/java/com/example/racingsim/track/TrackGenerator.java:115-156 | the placements are exactly the specified walk `Walk` and both lists hold their cones, pairwise aligned. An empty centreline gives no cones; otherwise there are ⌊walked length / spacing⌋ pairs. Each placement lies on a non-degenerate segment, chained from a centreline point or the previous cone, and the segments are visited in order, wrapping to index 0 |
| Track.Rotate | app/src/main/java/com/example/racingsim/track/TrackGenerator.java:176 | Collections.rotate keeps the length |
| Track.RotateIndex | app/src/main/java/com/example/racingsim/track/TrackGenerator.java:176 | after rotating by distance d, element j is the old element (j−d) mod n |
| Track.RotatePermutes | app/src/main/java/com/example/racingsim/track/TrackGenerator.java:176 | rotation is a permutation |
| Track.RotateLists | app/src/main/java/com/example/racingsim/track/TrackGenerator.java:172-177 | rotateLists keeps the length and is a no-op for pivot ≤ 0 or pivot ≥ size |
| Track.RotateListsIndex | app/src/main/java/com/example/racingsim/track/TrackGenerator.java:172-177 | element j of the rotated list is element j+pivot, wrapping past the end, or unchanged when the pivot is out of range |
| Track.RotateListsPermutes | app/src/main/java/com/example/racingsim/track/TrackGenerator.java:172-177 | rotateLists keeps each list's contents (a permutation) |
| Track.HighestIndex | app/src/main/java/com/example/racingsim/track/TrackGenerator.java:159-166 | the index of a cone whose y is maximal, and every earlier cone has strictly smaller y (the first maximum) |
| Track.FirstMaxYIndex | app/src/main/java/com/example/racingsim/track/TrackGenerator.java:159-166 | the loop finds HighestIndex: the first index of maximal y |
| Track.PairsAcross | app/src/main/java/com/example/racingsim/track/TrackGenerator.java:144-145 | every left/right pair the walk places is exactly trackWidth apart |
| Track.RotatedPairs | app/src/main/java/com/example/racingsim/track/TrackGenerator.java:167-168 | rotating both lists by the same pivot keeps every pair together |
| Track.RotatedHighestFirst | app/src/main/java/com/example/racingsim/track/TrackGenerator.java:159-168 | after the rotation the first cone has the largest y of all |
| Track.RotateHighestFirst | app/src/main/java/com/example/racingsim/track/TrackGenerator.java:158-169 | with no left cones nothing moves. Otherwise both lists are rotated by HighestIndex of the left list: the first left cone then has maximal y, every earlier candidate had strictly smaller y, and each pair stays the same distance apart |
| Track.PopulateConePositions | app/src/main/java/com/example/racingsim/track/TrackGenerator.java:110-170 | the lists are the walk's cones rotated by one pivot (ConeLists of the specified walk). Left and right have equal length, ⌊walked length / spacing⌋ each, and an empty centreline gives none. The first left cone has maximal y, and every earlier candidate had strictly smaller y. Every pair is trackWidth apart |
| Track.Generate | app/src/main/java/com/example/racingsim/track/TrackGenerator.java:20-41 | the track is GeneratedTrack of the draws: the centreline of the drawn control points (22·count points), width 0.22·min(width, height), and the rotated cones of the walk at spacing 0.9·width. It has equally many left and right cones, ⌊walked length / spacing⌋ on a non-empty screen, pairwise trackWidth apart, with the highest-y left cone first |
| Track.GeneratedConeCount | app/src/main/java/com/example/racingsim/track/TrackGenerator.java:20-41 | on a screen of positive size the generated track has 22·count centreline points and ⌊walked length / spacing⌋ left and right cones; it has cones exactly when the walked length reaches one spacing |
| Track.ExampleTrack | app/src/main/java/com/example/racingsim/track/TrackGenerator.java:21-30 | a 1000×750 screen gives track width 165 and spacing 148.5, and ⌊walked length / 148.5⌋ cone pairs, so cones exactly when the walk is at least 148.5 long |
| Track.WalkFromStill | app/src/main/java/com/example/racingsim/track/TrackGenerator.java:124-131 | a walk along a centreline that never leaves its start skips every segment (each is shorter than 0.001) and places nothing |
| Track.StillTrack | app/src/main/java/com/example/racingsim/track/TrackGenerator.java:110-131 | a centreline of one repeated point carries no cones |
| Track.SortUniform | app/src/main/java/com/example/racingsim/track/TrackGenerator.java:50 | sorting equal angles leaves them all equal |
| Track.CoincidentCenterline | app/src/main/java/com/example/racingsim/track/TrackGenerator.java:43-80 | when every draw is the same, all control points and so all centreline points coincide |
| Track.CoincidentCones | app/src/main/java/com/example/racingsim/track/TrackGenerator.java:20-41 | when every draw is the same, the track built around any centre has no cones |
| Track.CoincidentDraws | app/src/main/java/com/example/racingsim/track/TrackGenerator.java:20-41 | when every random draw is the same, generate returns empty cone lists whatever the screen size: the lists are not always non-empty |
| Scene.FoldMinBounds | app/src/main/java/com/example/racingsim/gl/Map3DRenderer.java:132-138 | updateMin's result is at most the start value and at most every coordinate, and is the start or one of them |
| Scene.FoldMaxBounds | app/src/main/java/com/example/racingsim/gl/Map3DRenderer.java:140-146 | updateMax's result is at least the start value and every coordinate, and is the start or one of them |
| Scene.UpdateMin | app/src/main/java/com/example/racingsim/gl/Map3DRenderer.java:132-138 | the loop computes the running minimum of one coordinate |
| Scene.UpdateMax | app/src/main/java/com/example/racingsim/gl/Map3DRenderer.java:140-146 | the loop computes the running maximum of one coordinate |
| Scene.RadiusMaxBounds | app/src/main/java/com/example/racingsim/gl/Map3DRenderer.java:148-157 | recenter's maximum radius is non-negative, at least every point's distance from the origin, and is 0 or attained |
| Scene.BoxIsTight | app/src/main/java/com/example/racingsim/gl/Map3DRenderer.java:96-108 | once found, the bounding box encloses every cone on each axis and both bounds are attained |
| Scene.CentreIsMidpoint | app/src/main/java/com/example/racingsim/gl/Map3DRenderer.java:115-116 | the centre is the midpoint of the box on each axis |
| Scene.TranslatedSpan | app/src/main/java/com/example/racingsim/gl/Map3DRenderer.java:150-152 | translating by the centre shifts the span of each axis by the centre's coordinate |
| Scene.CentredByTranslation | app/src/main/java/com/example/racingsim/gl/Map3DRenderer.java:115-119 | translating by the box midpoint makes min + max = 0 on that axis |
| Scene.TranslationCentres | app/src/main/java/com/example/racingsim/gl/Map3DRenderer.java:115-119 | after recentring, the box is centred on the origin on both axes |
| Scene.ScaledBounded | app/src/main/java/com/example/racingsim/gl/Map3DRenderer.java:159-164 | scaling by a positive factor scales the bounds |
| Scene.ScaledAttains | app/src/main/java/com/example/racingsim/gl/Map3DRenderer.java:159-164 | scaling keeps an attained bound attained, scaled |
| Scene.ScaledSpan | app/src/main/java/com/example/racingsim/gl/Map3DRenderer.java:159-164 | scaling by a positive factor scales the exact span |
| Scene.CentredAfterScaling | app/src/main/java/com/example/racingsim/gl/Map3DRenderer.java:125-129 | uniform scaling keeps the course centred |
| Scene.NormalisedBy | app/src/main/java/com/example/racingsim/gl/Map3DRenderer.java:118-129 | normalisation is the translation alone when the maximum radius is at most 40, and the translation scaled by 40/maxRadius otherwise |
| Scene.NormaliseUniform | app/src/main/java/com/example/racingsim/gl/Map3DRenderer.java:115-129 | both lists are moved by the same centre and multiplied by one factor in (0, 1] |
| Scene.NormaliseCentres | app/src/main/java/com/example/racingsim/gl/Map3DRenderer.java:91-130 | after normalisation, min + max = 0 on both axes |
| Scene.NormaliseWithinRadius | app/src/main/java/com/example/racingsim/gl/Map3DRenderer.java:118-129 | after normalisation every cone is within 40 of the origin |
| Scene.NormaliseKeepsSizes | app/src/main/java/com/example/racingsim/gl/Map3DRenderer.java:91-113 | normalisation keeps both list lengths. Two empty lists, or a box that was not found, leave the course unchanged |
| Scene.SceneRadiusBounds | app/src/main/java/com/example/racingsim/gl/Map3DRenderer.java:173-184 | the scene radius is at least 15 and at least every cone's distance plus 12 |
| Scene.TranslateStep | app/src/main/java/com/example/racingsim/gl/Map3DRenderer.java:150-154 | one iteration of recenter moves exactly one more point and extends the running maximum radius |
| Scene.ScaleStep | app/src/main/java/com/example/racingsim/gl/Map3DRenderer.java:160-163 | one iteration of scalePoints scales exactly one more point |
| Scene.EyeOnSphere | app/src/main/java/com/example/racingsim/gl/Map3DRenderer.java:246-251 | the eye derived from a camera snapshot lies exactly `distance` from the origin it looks at |
| Scene.YawRemainder | app/src/main/java/com/example/racingsim/gl/Map3DRenderer.java:323 | Java's float `% 360` keeps the dividend's sign and stays strictly within ±360; it is the identity inside that range |
| Scene.YawRemainderPeriodic | app/src/main/java/com/example/racingsim/gl/Map3DRenderer.java:323 | a whole turn on the dividend's side does not change the remainder |
| Scene.ZoomedDistance | app/src/main/java/com/example/racingsim/gl/Map3DRenderer.java:330-332 | after any zoom the distance is within [10, 90] |
| Scene.ZoomSaturates | app/src/main/java/com/example/racingsim/gl/Map3DRenderer.java:330 | scale factors below 0.2 act as 0.2 and above 5 act as 5 |
| Scene.ZoomUndo | app/src/main/java/com/example/racingsim/gl/Map3DRenderer.java:330-332 | zooming by f and then by 1/f restores the distance when neither clamp fires |
| Scene.Map3DRenderer.constructor | app/src/main/java/com/example/racingsim/gl/Map3DRenderer.java:79-89 | the course is the normalised copy of the given markers, or of the demo course when none are given. The scene radius is computed, yaw is 45 and pitch is 40. The distance is clamp(max(30, 1.2·sceneRadius), 10, 90), at least 30 |
| Scene.Map3DRenderer.CopyPoints | app/src/main/java/com/example/racingsim/gl/Map3DRenderer.java:166-171 | the target list becomes a copy of the source, in order; nothing else changes |
| Scene.Map3DRenderer.NormaliseCourse | app/src/main/java/com/example/racingsim/gl/Map3DRenderer.java:91-130 | the course becomes its normalised form; the camera and scene radius are untouched |
| Scene.Map3DRenderer.Recenter | app/src/main/java/com/example/racingsim/gl/Map3DRenderer.java:148-157 | one list is translated in place, and the result is its new maximum distance from the origin |
| Scene.Map3DRenderer.ScalePoints | app/src/main/java/com/example/racingsim/gl/Map3DRenderer.java:159-164 | one list is scaled in place; the other list and the camera are untouched |
| Scene.Map3DRenderer.ComputeSceneRadius | app/src/main/java/com/example/racingsim/gl/Map3DRenderer.java:173-184 | the scene radius becomes max(15, farthest cone + 12) |
| Scene.Map3DRenderer.ApplyOrbitDelta | app/src/main/java/com/example/racingsim/gl/Map3DRenderer.java:321-326 | yaw becomes (yaw + dYaw) % 360 with Java's sign rule, and pitch is clamped into [10, 80]. The camera invariant (\|yaw\| < 360, pitch and distance in range) is kept |
| Scene.Map3DRenderer.ApplyZoom | app/src/main/java/com/example/racingsim/gl/Map3DRenderer.java:328-334 | the distance becomes the clamped zoom of the old one; yaw, pitch and the course are unchanged, and the camera invariant is kept |
| MeshBuilder.Cumulative | app/src/main/cpp/track_mesh.cpp:10-16 | the cumulative distances have the input's length and start at 0 |
| MeshBuilder.CumulativeStep | app/src/main/cpp/track_mesh.cpp:12-13 | each entry is the previous one plus the distance between consecutive points |
| MeshBuilder.CumulativeMonotone | app/src/main/cpp/track_mesh.cpp:10-16 | the cumulative distances are non-decreasing |
| MeshBuilder.BuildCumulativeDistances | app/src/main/cpp/track_mesh.cpp:10-16 | the loop computes the cumulative distances |
| MeshBuilder.LowerBound | app/src/main/cpp/track_mesh.cpp:36 | std::lower_bound returns a position within the vector |
| MeshBuilder.LowerBoundIsFirst | app/src/main/cpp/track_mesh.cpp:36 | every entry before the position is below the target, and the entry at it is not |
| MeshBuilder.TargetIsProduct | app/src/main/cpp/track_mesh.cpp:32 | sample target i is spacing·i |
| MeshBuilder.TargetAt | app/src/main/cpp/track_mesh.cpp:30-35 | the k-th intermediate sample is taken at arc length spacing·(k+1), strictly below the total length |
| MeshBuilder.SampleOnSegment | app/src/main/cpp/track_mesh.cpp:36-43 | a sample at arc length t in (0, total) lies on the segment whose cumulative range holds t, a fraction in (0, 1] along it |
| MeshBuilder.InterpolateAt | app/src/main/cpp/track_mesh.cpp:36-43 | the code computes the specified interpolated sample |
| MeshBuilder.SampleLoop | app/src/main/cpp/track_mesh.cpp:29-45 | the loop produces the first point followed by the samples at each target below the total |
| MeshBuilder.Resample | app/src/main/cpp/track_mesh.cpp:18-50 | resample computes the specified resampled polyline |
| MeshBuilder.ResampleEnds | app/src/main/cpp/track_mesh.cpp:19-48 | The input is returned unchanged for fewer than 2 points, spacing ≤ 0, or total length < spacing/2. The output starts with the first input point and ends at the last or within 1e-3 of it. It has at most ⌊total/spacing⌋ + 2 points |
| MeshBuilder.ResampleKeepsTwo | app/src/main/cpp/track_mesh.cpp:46-48 | a polyline whose ends are more than 1e-3 apart resamples to at least 2 points |
| MeshBuilder.NormalizeUnitOrZero | app/src/main/cpp/math_glm/geometric.hpp:23-29 | normalize returns the zero vector for length ≤ 1e-6, and otherwise the unit vector v/length |
| MeshBuilder.TangentBetweenNeighbours | app/src/main/cpp/track_mesh.cpp:52-63 | the tangent is the normalised one-sided difference at the ends and the central difference inside |
| MeshBuilder.TangentUnitOrZero | app/src/main/cpp/track_mesh.cpp:52-63 | every tangent, including the (1, 0) of a short polyline, is a unit vector or zero |
| MeshBuilder.Indices | app/src/main/cpp/track_mesh.cpp:124-133 | q quads give 6·q indices |
| MeshBuilder.IndicesBounded | app/src/main/cpp/track_mesh.cpp:124-133 | every index of q quads is below 2q + 2 |
| MeshBuilder.SampleVertices | app/src/main/cpp/track_mesh.cpp:100-122 | the code computes sample i's tangent and its two vertices |
| MeshBuilder.EmitSample | app/src/main/cpp/track_mesh.cpp:100-123 | one iteration extends the tangents and vertices by exactly sample i's |
| MeshBuilder.PushQuad | app/src/main/cpp/track_mesh.cpp:124-133 | one iteration appends quad i's six indices |
| MeshBuilder.EmitStrip | app/src/main/cpp/track_mesh.cpp:94-134 | the loop produces all vertices, 6·(n−1) indices and n tangents |
| MeshBuilder.BuildTrackMesh | app/src/main/cpp/track_mesh.cpp:67-137 | it succeeds exactly when the specification gives a mesh, and then returns it; on failure the out-parameters are left untouched |
| MeshBuilder.BuiltShape | app/src/main/cpp/track_mesh.cpp:71-134 | a built mesh comes from at least 2 points and a positive width. With n ≥ 2 samples it has stride 5, 10·n floats, 6·(n−1) indices all below 2n, and n tangents. Its width is as given and its total length is the last cumulative distance |
| MeshBuilder.BuildSucceeds | app/src/main/cpp/track_mesh.cpp:71-84 | at least 2 points, a positive width and ends more than 1e-3 apart guarantee a mesh, whose first sample is the first point |
| MeshBuilder.VertexLayout | app/src/main/cpp/track_mesh.cpp:112-122 | floats 10·i to 10·i+9 are sample i's vertex pair |
| MeshBuilder.VertexFields | app/src/main/cpp/track_mesh.cpp:103-122 | sample i's vertices are (left.x, 0, left.y, u = 0, v) and (right.x, 0, right.y, u = 1, v), with v = cumulative·uvScale |
| MeshBuilder.EdgesAroundSample | app/src/main/cpp/track_mesh.cpp:103-108 | the two edge points are symmetric about the sample and, for a non-zero normal, each lies width/2 from it |
| Shapes.ToShort | app/src/main/java/com/example/racingsim/gl/GeometryFactory.java:77-80 | a `(short)` cast lands in [−32768, 32767] and keeps values already in range |
| Shapes.ClampTo | app/src/main/java/com/example/racingsim/gl/GeometryFactory.java:244-246 | the result is at least min and at most max when min ≤ max. It is the value inside the range and min when the range is empty |
| Shapes.ClampAgrees | app/src/main/java/com/example/racingsim/gl/GeometryFactory.java:244-246 | GeometryFactory's clamp agrees with the renderer's clamp |
| Shapes.SelectColorInBand | app/src/main/java/com/example/racingsim/gl/GeometryFactory.java:233-242 | the stripe colour is chosen exactly when lower ≤ height ≤ upper, and the body colour exactly otherwise |
| Shapes.StripeOnCone | app/src/main/java/com/example/racingsim/gl/GeometryFactory.java:21-23 | for a non-negative height, both stripe bounds lie in [0, height] and are ordered for a non-negative stripe height. For a negative height both are 0 |
| Shapes.RingHeights | app/src/main/java/com/example/racingsim/gl/GeometryFactory.java:25-33 | there are 2 to 4 ring heights, starting at 0 and ending at the height |
| Shapes.RingHeightsAscend | app/src/main/java/com/example/racingsim/gl/GeometryFactory.java:25-35 | the ring heights ascend. The lower bound is included exactly when > 0.0001, the upper exactly when it exceeds lower + 0.0001 and is below the height, and the count follows |
| Shapes.CollectRingHeights | app/src/main/java/com/example/racingsim/gl/GeometryFactory.java:25-33 | the code builds the specified ring heights |
| Shapes.NormalScale | app/src/main/java/com/example/racingsim/gl/GeometryFactory.java:41 | the normal scale √(1 + slope²) is positive |
| Shapes.RimAt | app/src/main/java/com/example/racingsim/gl/GeometryFactory.java:48-69 | floats 9·j to 9·j+8 of a ring are the vertex of slice j |
| Shapes.ConeSideAt | app/src/main/java/com/example/racingsim/gl/GeometryFactory.java:44-70 | ring j of the side occupies floats 9·j·(slices+1) up to 9·(j+1)·(slices+1) |
| Shapes.ConeRingVertexAt | app/src/main/java/com/example/racingsim/gl/GeometryFactory.java:48-69 | slice s of a cone ring holds the position, normal and colour of that slice |
| Shapes.ConeSideVertexAt | app/src/main/java/com/example/racingsim/gl/GeometryFactory.java:44-69 | vertex (ring r, slice s) of the side holds that ring's radius, height and band colour at slice s |
| Shapes.ConeVertexAt | app/src/main/java/com/example/racingsim/gl/GeometryFactory.java:44-103 | vertex r·(slices+1)+s of the cone is (radius(h)·cos, radius(h)·sin, h), with the normal (cos, sin, slope)/√(1+slope²) and the band colour. The last vertex is the base centre with normal (0, 0, −1) in the body colour |
| Shapes.ConeTapers | app/src/main/java/com/example/racingsim/gl/GeometryFactory.java:46 | the bottom ring has the base radius and the top ring radius 0 |
| Shapes.ConeNormalUnit | app/src/main/java/com/example/racingsim/gl/GeometryFactory.java:40-56 | every cone side normal has unit length |
| Shapes.RingStartIsProduct | app/src/main/java/com/example/racingsim/gl/GeometryFactory.java:74-75 | ring j starts at vertex j·(slices+1) |
| Shapes.SideIndicesLength | app/src/main/java/com/example/racingsim/gl/GeometryFactory.java:72-90 | the side has slices·rings·6 indices |
| Shapes.RingQuadsBounds | app/src/main/java/com/example/racingsim/gl/GeometryFactory.java:76-89 | a ring's quads index only that ring and the next |
| Shapes.SideIndicesBounds | app/src/main/java/com/example/racingsim/gl/GeometryFactory.java:73-90 | every side index is below the start of the ring after the last |
| Shapes.BottomFanBounds | app/src/main/java/com/example/racingsim/gl/GeometryFactory.java:105-111 | the base fan uses its centre and the first ring's vertices only |
| Shapes.TopFanBounds | app/src/main/java/com/example/racingsim/gl/GeometryFactory.java:212-219 | the top fan uses its centre and the top ring's vertices only |
| Shapes.ConeSideWithin | app/src/main/java/com/example/racingsim/gl/GeometryFactory.java:73-90 | side indices stay below (rings+1)·(slices+1) |
| Shapes.ConeFanWithin | app/src/main/java/com/example/racingsim/gl/GeometryFactory.java:94-111 | base fan indices stay within the base centre's index |
| Shapes.ConeIndices | app/src/main/java/com/example/racingsim/gl/GeometryFactory.java:72-111 | the cone has slices·(ringCount−1)·6 + slices·3 indices; while the count fits a short, every index is at most the base centre's |
| Shapes.ConeVertexCount | app/src/main/java/com/example/racingsim/gl/GeometryFactory.java:35-122 | the cone has ringCount·(slices+1)+1 vertices of 9 floats, with 2 ≤ ringCount ≤ 4 and layout {3, 3, 3} |
| Shapes.ConeIndexRange | app/src/main/java/com/example/racingsim/gl/GeometryFactory.java:72-111 | the cone's index count is as above, and while totalSideVertices fits a short every index is at most totalSideVertices |
| Shapes.EmitRim | app/src/main/java/com/example/racingsim/gl/GeometryFactory.java:48-69 | the slice loop appends exactly one ring |
| Shapes.EmitQuads | app/src/main/java/com/example/racingsim/gl/GeometryFactory.java:76-89 | the slice loop appends exactly one ring's quads |
| Shapes.EmitSide | app/src/main/java/com/example/racingsim/gl/GeometryFactory.java:73-90 | the ring loop produces exactly the side indices |
| Shapes.EmitBottomFan | app/src/main/java/com/example/racingsim/gl/GeometryFactory.java:105-111 | the loop appends exactly the base fan |
| Shapes.EmitTopFan | app/src/main/java/com/example/racingsim/gl/GeometryFactory.java:212-219 | the loop appends exactly the top fan |
| Shapes.EmitConeSide | app/src/main/java/com/example/racingsim/gl/GeometryFactory.java:44-70 | the ring loop produces exactly the side vertices |
| Shapes.CreateConeWithStripe | app/src/main/java/com/example/racingsim/gl/GeometryFactory.java:14-123 | the method builds the specified cone mesh, whose counts, layout, vertices and index range are the lemmas above |
| Shapes.CylinderCounts | app/src/main/java/com/example/racingsim/gl/GeometryFactory.java:129-230 | the cylinder has 2·(slices+1)+2 vertices of 9 floats, 12·slices indices and layout {3, 3, 3} |
| Shapes.CylinderIndexRange | app/src/main/java/com/example/racingsim/gl/GeometryFactory.java:160-219 | every cylinder index is below the vertex count |
| Shapes.CylinderFanCenters | app/src/main/java/com/example/racingsim/gl/GeometryFactory.java:181-219 | each bottom fan triangle starts at the bottom centre 2·(slices+1), and each top triangle at the top centre 2·(slices+1)+1 |
| Shapes.CylinderNormalUnit | app/src/main/java/com/example/racingsim/gl/GeometryFactory.java:143-152 | every cylinder side normal has unit length |
| Shapes.CreateCylinder | app/src/main/java/com/example/racingsim/gl/GeometryFactory.java:125-231 | the method builds the specified cylinder mesh |
| Shapes.Ground | app/src/main/java/com/example/racingsim/gl/GeometryFactory.java:248-261 | the ground has 4 vertices of 9 floats, layout {3, 3, 3}, and 6 indices all below 4 |
| Shapes.GroundFacesUp | app/src/main/java/com/example/racingsim/gl/GeometryFactory.java:248-261 | the vertices are the corners (±size/2, ±size/2, 0) with normal (0, 0, 1). For a positive size both triangles wind counter-clockwise seen from above |
| Shapes.TexturedQuad | app/src/main/java/com/example/racingsim/gl/GeometryFactory.java:263-273 | the quad has 4 vertices of 5 floats, layout {3, 2}, and 6 indices all below 4 |
| Shapes.TexturedQuadMapping | app/src/main/java/com/example/racingsim/gl/GeometryFactory.java:263-273 | each vertex stands in the plane y = 0 at x = ±width/2 and z = 0 or height. Its texture coordinates map x linearly onto u ∈ [0, 1] and z onto v = 1 − z/height |
| Markers.CopiedPoints | app/src/main/java/com/example/racingsim/model/MapPoints.java:32-37 | copying never produces more points than entries |
| Markers.CopiedAppend | app/src/main/java/com/example/racingsim/model/MapPoints.java:32-37 | copying a concatenation is the concatenation of the copies (the copy is entry by entry, in order) |
| Markers.CopiedOfWellFormed | app/src/main/java/com/example/racingsim/model/MapPoints.java:32-37 | when every entry has at least two components, the copy keeps all of them, in order, as (p0, p1) |
| Markers.CopiedOfDropped | app/src/main/java/com/example/racingsim/model/MapPoints.java:33-35 | null entries and entries shorter than 2 are all dropped |
| Markers.CopiedOfEntries | app/src/main/java/com/example/racingsim/model/MapPoints.java:32-37 | copying a list of [x, y] arrays gives back exactly those points |
| Markers.CopyPoints | app/src/main/java/com/example/racingsim/model/MapPoints.java:27-39 | the loop computes the specified copy; a null list gives an empty one |
| Markers.NewMapPoints | app/src/main/java/com/example/racingsim/model/MapPoints.java:22-25 | the constructor copies both lists |
| Markers.ArrayOf | app/src/main/java/com/example/racingsim/model/MapPoints.java:60-73 | the JSON array has one entry per point |
| Markers.ToArray | app/src/main/java/com/example/racingsim/model/MapPoints.java:60-73 | the loop writes each point as a 2-element array, in order |
| Markers.ToJsonTree | app/src/main/java/com/example/racingsim/model/MapPoints.java:49-58 | the object holds the blue array under "blue" and the yellow array under "yellow" |
| Markers.ParsedSucceedsIff | app/src/main/java/com/example/racingsim/model/MapPoints.java:89-104 | parseArray succeeds exactly when every entry is an array whose first two components are numbers, or which is shorter than 2 |
| Markers.ParsedKeepsPairs | app/src/main/java/com/example/racingsim/model/MapPoints.java:94-102 | a successful parse yields at most one point per entry, and none when every entry is shorter than 2 |
| Markers.PrefixFails | app/src/main/java/com/example/racingsim/model/MapPoints.java:94-95 | once an entry fails, the whole array fails: no partial result |
| Markers.ParseArray | app/src/main/java/com/example/racingsim/model/MapPoints.java:89-104 | the loop computes the specified parse; a missing array gives an empty list |
| Markers.FromJson | app/src/main/java/com/example/racingsim/model/MapPoints.java:75-87 | fromJson computes the specified decoding |
| Markers.ParsedOfArray | app/src/main/java/com/example/racingsim/model/MapPoints.java:60-104 | parsing an encoded point array gives the same points, in order |
| Markers.DecodeEncoded | app/src/main/java/com/example/racingsim/model/MapPoints.java:49-104 | decoding the encoded tree gives back the same record |
| Markers.FromJsonOfToJson | app/src/main/java/com/example/racingsim/model/MapPoints.java:49-87 | if the printer's text parses back to the same tree, fromJson(toJsonString(mp)) == mp |
| Markers.EmptyPayload | app/src/main/java/com/example/racingsim/model/MapPoints.java:76-78 | a null or empty payload decodes to two empty lists, not to the demo course |
| Markers.MissingKeyIsEmpty | app/src/main/java/com/example/racingsim/model/MapPoints.java:81-82 | a missing key, or one not holding an array, counts as an empty list |
| Markers.NonArrayEntryFails | app/src/main/java/com/example/racingsim/model/MapPoints.java:84-95 | a non-array entry makes the whole decode fail |
| Markers.DemoCourseLayout | app/src/main/java/com/example/racingsim/model/MapPoints.java:106-122 | the demo course has the fixed four blue and four yellow points. Blue lies left of x = 0 and yellow to the right, alternating in y |
| Markers.Convert | app/src/main/java/com/example/racingsim/model/DefaultMapPointsProvider.java:28-37 | convert writes an [x, y] array per point, in order; null gives an empty list |
| Markers.ProvideKeepsCones | app/src/main/java/com/example/racingsim/model/DefaultMapPointsProvider.java:16-26 | a track with cones gives blue = left cones and yellow = right cones, in order. No track, or a track without cones, gives the demo course |
| Markers.ProvideNeverEmpty | app/src/main/java/com/example/racingsim/model/DefaultMapPointsProvider.java:16-26 | the provider never returns two empty lists |
| Activity.Interleaved | app/src/main/java/com/example/racingsim/MainActivity.java:185-191 | the flat buffer has 2n floats with buf[2i] = xᵢ and buf[2i+1] = yᵢ |
| Activity.PairsOfInterleaved | app/src/main/java/com/example/racingsim/MainActivity.java:185-191 | reading the flat buffer back in pairs gives the centreline |
| Activity.BuildCenterlineArray | app/src/main/java/com/example/racingsim/MainActivity.java:177-192 | no buffer exactly for a missing track or fewer than 2 points; otherwise a fresh array holding the flat buffer |
| Activity.PreviewDecision | app/src/main/java/com/example/racingsim/MainActivity.java:154-175 | the preview is refused exactly without a track or with fewer than 2 centreline points. A launch carries ≥ 4 floats that pair back into the centreline, and a positive width, the track's own when positive |
| Activity.RenderSizeFallback | app/src/main/java/com/example/racingsim/MainActivity.java:124-130 | a measured size is kept. Otherwise the size is the display width with height ⌊0.75·width⌋, positive for a display at least 2 wide |
| Activity.Wrap32 | app/src/main/java/com/example/racingsim/MainActivity.java:135 | AtomicInteger arithmetic stays in the 32-bit range and agrees with the exact value modulo 2³² |
| Activity.AfterRequestsOffset | app/src/main/java/com/example/racingsim/MainActivity.java:135 | after k requests the counter has moved by k modulo 2³² |
| Activity.StaleIdRejected | app/src/main/java/com/example/racingsim/MainActivity.java:135-146 | an id is stale after 1 to 2³²−1 further requests, so its result is discarded |
| Activity.Generations.Request | app/src/main/java/com/example/racingsim/MainActivity.java:135 | a request increments the counter and takes the new value as its id |
| Activity.Generations.Deliver | app/src/main/java/com/example/racingsim/MainActivity.java:140-147 | a result is published exactly when the activity is alive and its id equals the counter; only then is the last track replaced |
| Activity.CollectIsProvided | app/src/main/java/com/example/racingsim/MainActivity.java:194-201 | the marker JSON is always the provider's marker set: the activity's own demo fallback never fires |
| Activity.ToggleFlips | app/src/main/java/com/example/racingsim/MainActivity.java:84-121 | the new mode is NIGHT_NO or NIGHT_YES. From any of the four known modes, toggling flips whether night is shown. NIGHT_YES and NIGHT_NO toggle back to themselves after two toggles |
| Native.TouchRanges | app/src/main/cpp/renderer.cpp:166-184 | UP and CANCEL zero all three inputs. Otherwise steer = clamp(x, −1, 1), throttle and brake are in [0, 1] with at most one non-zero, and throttle − brake = clamp(y, −1, 1) |
| Native.Unpack | app/src/main/cpp/renderer.cpp:192-196 | the points are the pairs of the first 2·count floats |
| Native.HandOffRoundTrip | app/src/main/cpp/renderer.cpp:192-196 | unpacking the activity's flat buffer with count = n gives back the centreline |
| Native.StartDirectionLong | app/src/main/cpp/renderer.cpp:209-218 | the start direction is at least 1e-4 long, and is the first tangent whenever that is long enough |
| Native.PlaceCar | app/src/main/cpp/renderer.cpp:208-219 | a default car is placed on the first sample, heading along the start direction, with the default wheelbase |
| Native.BuildTrack | app/src/main/cpp/renderer.cpp:198-202 | the mesh is built as specified; a built mesh has at least 2 samples and a positive width |
| Native.NearestUnique | app/src/main/cpp/renderer.cpp:283-291 | the search's result is uniquely determined: the first index of least distance in the window |
| Native.NearestSample | app/src/main/cpp/renderer.cpp:281-292 | the result is the first nearest sample in [max(0, last−5), min(n, last+6)) and stays below the sample count |
| Native.PullBack | app/src/main/cpp/renderer.cpp:293-300 | a car farther than 0.45·width (and 1e-4) from the nearest sample is pulled back along the same direction to exactly that distance; otherwise it stays where it is |
| Native.Renderer.constructor | app/src/main/cpp/renderer.h:25-52 | a fresh renderer is uninitialised, with a zero viewport, no mesh, a default car, zero inputs and an empty accumulator |
| Native.Renderer.Init | app/src/main/cpp/renderer.cpp:73-108 | init does nothing once initialised. Otherwise it sets initialized to whether the shaders are ready, and then clears the accumulator |
| Native.Renderer.Resize | app/src/main/cpp/renderer.cpp:110-116 | the viewport becomes max(w, 1) × max(h, 1); nothing else changes |
| Native.Renderer.OnTouch | app/src/main/cpp/renderer.cpp:166-184 | the inputs become the touch mapping; nothing else changes |
| Native.Renderer.LoadTrack | app/src/main/cpp/renderer.cpp:186-225 | null data, count < 2 or a failed build leave the renderer unchanged. Otherwise it installs the built mesh, marks it dirty, places the car, and zeroes the inputs and lastNearestSample |
| Native.Renderer.Install | app/src/main/cpp/renderer.cpp:204-223 | the locked part of loadTrack: the new mesh and geometry, a placed car, zero inputs and a reset search start |
| Native.Renderer.UpdatePhysics | app/src/main/cpp/renderer.cpp:274-301 | the car is driven by the inputs (steer halved) and stepped. With samples loaded it is pulled back towards the first nearest sample in the window, which becomes lastNearestSample |
| Native.Renderer.Render | app/src/main/cpp/renderer.cpp:118-140 | nothing happens before init. Otherwise the capped delta is added and whole steps of 1/60 are taken, ⌊total·60⌋ of them for a non-negative total. The accumulator ends below 1/60, and a non-empty dirty mesh is uploaded |
| Vehicle.Step | app/src/main/cpp/vehicle.cpp:15-39 | step computes the specified next car |
| Vehicle.StepProperties | app/src/main/cpp/vehicle.cpp:15-39 | dt ≤ 0 leaves the car unchanged, and the input fields and wheelbase are never written. After a step the speed lies in [−10, 60], and the heading is kept when \|clamped steer\| ≤ 1e-4. The position moves by exactly \|speed·dt\| |
| Vehicle.CoastingSlows | app/src/main/cpp/vehicle.cpp:24-28 | without throttle or brake, rolling friction slows a forward-moving car without reversing it (for dt·0.06 ≤ 1) |

## Left out

- `buildPath` and the android.graphics.Path in TrackData are not part of this model: they only feed 2D drawing.
- All GL, shader, texture and bitmap code (Map3DRenderer's surface and draw methods, `uploadMeshLocked`'s buffer calls, `destroy`, Mesh, ShaderProgram, TrackRenderer) is foreign drawing code. `Native.Renderer.Render` keeps only the decision to clear `meshDirty`, and assumes the vertex array exists once init has succeeded.
- Locks (`synchronized`, `std::mutex`), the executor and the main-thread handler are left out. Each class is modelled as a sequential object, and each method stands for one atomic update.
- The follow camera in `updatePhysics` (exponential smoothing towards a point behind the car) and `resetCamera` are not modelled: they only feed the view matrix. The projection and look-at matrices are left out too.
- Time is an input: `Native.Renderer.Render` takes the frame delta instead of reading steady_clock.
- Random draws are inputs: `Track.Generate` takes the nextInt draw and a sequence of nextFloat draws in [0, 1).
- org.json's text parser and printer are parameters (`parse`, `render`, `toNumber`). `Markers.FromJsonOfToJson` assumes that parsing the printed text gives back the tree.
- Float rounding, NaN and infinities are not modelled: every float is a real. The `(float)` casts after sqrt, sin and cos, and the float cast in `parseArray`, are exact here.
- `Math.sqrt(x² + y²)` in Map3DRenderer, and √(1 + slope²) in GeometryFactory, are modelled with the same abstract hypot as `Math.hypot` and `glm::length`.
- Lists and float arrays that the source mutates in place are modelled as sequences that a method rebuilds and reassigns. Aliasing between the renderer's lists and the caller's lists is not modelled, because the source copies them. `Activity.BuildCenterlineArray` keeps a real `array`.
- MapPoints' getters (unmodifiable views) are plain field reads of the `MapPoints` datatype.
- Null lists inside TrackData cannot occur and are not modelled. The provider's null result in `collectMapPointsJson` cannot occur either.
- C++ out-parameters (`outMesh`, `outGeometry`, `Car &`) are returned as values. `MeshBuilder.BuildTrackMesh` returns the old values on failure.
- Track.PopulateConePositions: requires a positive spacing, or a centreline made of one repeated point. With a negative spacing, which comes from negative view dimensions, the source's inner loop never ends. `Track.Generate` therefore requires non-negative dimensions.
- Shapes.CreateConeWithStripe: requires a non-zero height and at least one slice. The source divides by both, giving NaN or infinity for 0, and a negative slice count throws from the ArrayList capacity.
- Shapes.CreateCylinder: requires at least one slice, for the same reasons. Its normal `cos / 1.0` is written as `cos`.
- Shapes.ConeIndexRange: index bounds are stated only while the vertex count fits a short. Beyond that the source's `(short)` casts wrap, and `Shapes.ToShort` models the cast.
- Java `int` overflow of the vertex and index counts (beyond 2³¹ floats) is not modelled.
- MeshBuilder.BuiltShape: the 32-bit unsigned index type is not bounded; indices are unbounded naturals.
- Native.Renderer.LoadTrack: requires 2·count ≤ length of the buffer. The JNI bridge (jni_bridge.cpp:39) refuses shorter arrays before calling it.
- Native.Renderer.Render: the car state after the physics steps is stated only through `Valid()`; each step's effect is `Native.Renderer.UpdatePhysics`.
- MeshBuilder.Targets: sample target i is a recursive sum of spacings, proved equal to spacing·i (`MeshBuilder.TargetIsProduct`); float accumulation error does not arise with reals.
- Vehicle.StepProperties: the turning radius wheelbase/tan(steer) is modelled with the abstract tan. The model requires a non-zero wheelbase, which holds for the renderer's car.
- Theme persistence (SharedPreferences) and the toggle icon resources are not modelled. `Activity.ShowsNight` captures what the icon reflects.
