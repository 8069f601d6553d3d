/** The procedural meshes of the 3D preview (GeometryFactory.java): a cone with a
  * coloured stripe, a cylinder, a ground square and a textured upright quad. A mesh is
  * its interleaved float vertex data, its triangle index list and its attribute
  * layout. Vertex positions come from sin/cos/sqrt, which are abstracted by `Math`;
  * what is proved is where every vertex and index goes. */
module Shapes {
  import opened Geometry

  /** Math.PI. */
  const Pi: real := 3.141592653589793
  /** Floats per vertex of the lit meshes: position, normal, colour. */
  const LitStride: nat := 9
  /** Floats per vertex of the textured quad: position, uv. */
  const TexturedStride: nat := 5
  /** Stripe bounds closer than this to the base or to each other add no ring. */
  const RingEpsilon: real := 0.0001

  datatype Color = Color(r: real, g: real, b: real)

  /** vertices, indices (Java shorts) and the per-attribute float counts. */
  datatype Mesh = Mesh(vertices: seq<real>, indices: seq<int>, layout: seq<nat>)

  /** Java's `(short)` narrowing of an int: keeps the low 16 bits, read as signed. */
  function ToShort(v: int): (r: int)
    ensures -32768 <= r <= 32767
    ensures -32768 <= v <= 32767 ==> r == v
  {
    (v + 32768) % 65536 - 32768
  }

  /** GeometryFactory.clamp: Math.max(min, Math.min(max, value)). */
  function ClampTo(value: real, min: real, max: real): (r: real)
    ensures min <= r
    ensures min <= max ==> r <= max
    ensures min <= value <= max ==> r == value
    ensures max < min ==> r == min
  {
    Max(min, Min(max, value))
  }

  /** With ordered bounds this clamp is the one of the native code. */
  lemma ClampAgrees(value: real, min: real, max: real)
    requires min <= max
    ensures ClampTo(value, min, max) == Clamp(value, min, max)
  {
  }

  /** selectColorForHeight: the stripe colour inside [lower, upper], else the body's. */
  function SelectColor(height: real, lower: real, upper: real, body: Color, stripe: Color): Color {
    if height >= lower && height <= upper then stripe else body
  }

  /** With two different colours, the stripe colour is chosen exactly inside the band. */
  lemma SelectColorInBand(height: real, lower: real, upper: real, body: Color, stripe: Color)
    requires body != stripe
    ensures SelectColor(height, lower, upper, body, stripe) == stripe <==> lower <= height <= upper
    ensures SelectColor(height, lower, upper, body, stripe) == body <==> !(lower <= height <= upper)
  {
  }

  // ---------------------------------------------------------------------------
  // Cone with a stripe: rings and vertices

  /** The lower edge of the stripe, clamped into [0, height]. */
  function StripeLower(stripeCenter: real, stripeHeight: real, height: real): real {
    ClampTo(stripeCenter - stripeHeight * 0.5, 0.0, height)
  }

  /** The upper edge of the stripe, clamped into [0, height]. */
  function StripeUpper(stripeCenter: real, stripeHeight: real, height: real): real {
    ClampTo(stripeCenter + stripeHeight * 0.5, 0.0, height)
  }

  /** Both stripe edges lie on the cone, in order when the stripe height is not
    * negative; a cone of negative height collapses both to 0. */
  lemma StripeOnCone(stripeCenter: real, stripeHeight: real, height: real)
    ensures var lower, upper := StripeLower(stripeCenter, stripeHeight, height), StripeUpper(stripeCenter, stripeHeight, height);
      && (0.0 <= height ==> 0.0 <= lower <= height && 0.0 <= upper <= height)
      && (0.0 <= stripeHeight ==> lower <= upper)
      && (height < 0.0 ==> lower == 0.0 && upper == 0.0)
  {
  }

  /** The heights of the cone's rings: the base, the stripe's lower edge if it is above
    * the base, its upper edge if it is above the lower one and below the tip, and the
    * tip. */
  function RingHeights(lower: real, upper: real, height: real): (r: seq<real>)
    ensures 2 <= |r| <= 4 && r[0] == 0.0 && r[|r| - 1] == height
  {
    [0.0] + (if lower > RingEpsilon then [lower] else [])
      + (if upper > lower + RingEpsilon && upper < height then [upper] else []) + [height]
  }

  /** For stripe edges on the cone the rings go up from the base to the tip, the lower
    * edge is the second ring exactly when it is above the base, and the upper edge is
    * the second-last ring exactly when it is distinct from the lower edge and the tip. */
  lemma RingHeightsAscend(lower: real, upper: real, height: real)
    requires 0.0 <= lower <= height
    ensures var r := RingHeights(lower, upper, height);
      && (forall i, j :: 0 <= i < j < |r| ==> r[i] <= r[j])
      && (lower > RingEpsilon ==> r[1] == lower)
      && (upper > lower + RingEpsilon && upper < height ==> r[|r| - 2] == upper)
      && |r| == 2 + (if lower > RingEpsilon then 1 else 0) + (if upper > lower + RingEpsilon && upper < height then 1 else 0)
  {
  }

  /** The angle of a slice: 2 pi slice / slices. */
  function Angle(slice: nat, slices: nat): real
    requires 0 < slices
  {
    2.0 * Pi * slice as real / slices as real
  }

  /** sqrt(1 + slope^2), the length the cone's side normal (cos, sin, slope) is divided
    * by. */
  function NormalScale(slope: real, m: Math): (r: real)
    requires Lawful(m)
    ensures 0.0 < r
  {
    assert HypotLaw(m, 1.0, slope);
    m.hypot(1.0, slope)
  }

  /** One vertex of a ring: position radius (cos, sin) at height z, normal
    * (cos, sin, normalZ) with its x and y divided by normalScale, colour. */
  function RimVertex(radius: real, z: real, angle: real, normalScale: real, normalZ: real, color: Color, m: Math): seq<real>
    requires normalScale != 0.0
  {
    var c, s := m.cos(angle), m.sin(angle);
    [radius * c, radius * s, z, c / normalScale, s / normalScale, normalZ, color.r, color.g, color.b]
  }

  /** The first k vertices of a ring of `slices` slices; slice `slices` repeats slice 0
    * so that the texture seam has its own vertex. */
  function Rim(radius: real, z: real, slices: nat, normalScale: real, normalZ: real, color: Color, m: Math, k: nat): (r: seq<real>)
    requires 0 < slices && normalScale != 0.0
    ensures |r| == LitStride * k
  {
    if k == 0 then []
    else
      Rim(radius, z, slices, normalScale, normalZ, color, m, k - 1)
        + RimVertex(radius, z, Angle(k - 1, slices), normalScale, normalZ, color, m)
  }

  /** Vertex j of a ring is at floats 9j to 9j + 9. */
  lemma {:induction false} RimAt(radius: real, z: real, slices: nat, normalScale: real, normalZ: real, color: Color, m: Math, k: nat, j: nat)
    requires 0 < slices && normalScale != 0.0 && j < k
    ensures Rim(radius, z, slices, normalScale, normalZ, color, m, k)[LitStride * j..LitStride * j + LitStride]
         == RimVertex(radius, z, Angle(j, slices), normalScale, normalZ, color, m)
  {
    if j < k - 1 {
      RimAt(radius, z, slices, normalScale, normalZ, color, m, k - 1, j);
      var prefix := Rim(radius, z, slices, normalScale, normalZ, color, m, k - 1);
      assert Rim(radius, z, slices, normalScale, normalZ, color, m, k)[..|prefix|] == prefix;
    }
  }

  /** The cone as the vertex loop sees it: base radius, height, slices, the clamped
    * stripe edges and the two colours. */
  datatype Cone = Cone(radiusBase: real, height: real, slices: nat, lower: real, upper: real, body: Color, stripe: Color)

  /** The radius of the cone at height z. */
  function ConeRadius(cone: Cone, z: real): real
    requires cone.height != 0.0
  {
    cone.radiusBase * (1.0 - z / cone.height)
  }

  /** The cone's slope, base radius over height. */
  function Slope(cone: Cone): real
    requires cone.height != 0.0
  {
    cone.radiusBase / cone.height
  }

  /** The ring of the cone at height z. */
  function ConeRing(cone: Cone, z: real, m: Math): (r: seq<real>)
    requires Lawful(m) && cone.height != 0.0 && 0 < cone.slices
    ensures |r| == LitStride * (cone.slices + 1)
  {
    var normalScale := NormalScale(Slope(cone), m);
    Rim(ConeRadius(cone, z), z, cone.slices, normalScale, Slope(cone) / normalScale,
        SelectColor(z, cone.lower, cone.upper, cone.body, cone.stripe), m, cone.slices + 1)
  }

  /** The side vertices of the first `rings` rings. */
  function ConeSide(cone: Cone, heights: seq<real>, m: Math, rings: nat): (r: seq<real>)
    requires Lawful(m) && cone.height != 0.0 && 0 < cone.slices && rings <= |heights|
    ensures |r| == LitStride * RingStart(cone.slices, rings)
  {
    if rings == 0 then []
    else ConeSide(cone, heights, m, rings - 1) + ConeRing(cone, heights[rings - 1], m)
  }

  /** Ring j of the side occupies floats 9 RingStart(j) up to 9 RingStart(j + 1). */
  lemma {:induction false} ConeSideAt(cone: Cone, heights: seq<real>, m: Math, rings: nat, j: nat)
    requires Lawful(m) && cone.height != 0.0 && 0 < cone.slices && rings <= |heights| && j < rings
    ensures LitStride * RingStart(cone.slices, j + 1) <= |ConeSide(cone, heights, m, rings)|
    ensures ConeSide(cone, heights, m, rings)[LitStride * RingStart(cone.slices, j)..LitStride * RingStart(cone.slices, j + 1)]
            == ConeRing(cone, heights[j], m)
  {
    var prefix := ConeSide(cone, heights, m, rings - 1);
    var side := ConeSide(cone, heights, m, rings);
    assert side == prefix + ConeRing(cone, heights[rings - 1], m);
    if j < rings - 1 {
      ConeSideAt(cone, heights, m, rings - 1, j);
      assert side[..|prefix|] == prefix;
    }
  }

  /** w * a <= w * b for a <= b. */
  lemma MulLe(w: nat, a: nat, b: nat)
    requires a <= b
    ensures w * a <= w * b
  {
    assert w * b - w * a == w * (b - a);
  }

  // ---------------------------------------------------------------------------
  // Triangle indices

  /** The two triangles between slice `slice` of a ring and of the ring above. */
  function Quad(ringStart: int, nextRingStart: int, slice: int): seq<int> {
    var current, next := ToShort(ringStart + slice), ToShort(ringStart + slice + 1);
    var upper, upperNext := ToShort(nextRingStart + slice), ToShort(nextRingStart + slice + 1);
    [current, upper, upperNext, current, upperNext, next]
  }

  /** The quads of the first k slices between two rings. */
  function RingQuads(ringStart: int, nextRingStart: int, k: nat): (r: seq<int>)
    ensures |r| == 6 * k
  {
    if k == 0 then [] else RingQuads(ringStart, nextRingStart, k - 1) + Quad(ringStart, nextRingStart, k - 1)
  }

  /** The first vertex of ring j, j (slices + 1), as a sum. */
  function RingStart(slices: nat, j: nat): nat {
    if j == 0 then 0 else RingStart(slices, j - 1) + slices + 1
  }

  lemma {:induction false} RingStartIsProduct(slices: nat, j: nat)
    ensures RingStart(slices, j) == j * (slices + 1)
  {
    if j > 0 {
      RingStartIsProduct(slices, j - 1);
      assert (j - 1) * (slices + 1) + slices + 1 == j * (slices + 1);
    }
  }

  /** The quads between the first `rings` + 1 rings of `slices` slices. */
  function SideIndices(slices: nat, rings: nat): seq<int> {
    if rings == 0 then []
    else SideIndices(slices, rings - 1) + RingQuads(RingStart(slices, rings - 1), RingStart(slices, rings), slices)
  }

  /** 6 indices per quad, `slices` quads per pair of rings. */
  lemma {:induction false} SideIndicesLength(slices: nat, rings: nat)
    ensures |SideIndices(slices, rings)| == slices * rings * 6
  {
    if rings > 0 {
      SideIndicesLength(slices, rings - 1);
      assert slices * (rings - 1) * 6 + 6 * slices == slices * rings * 6;
    }
  }

  /** The first k triangles of the fan around the base centre, wound to face down. */
  function BottomFan(center: int, k: nat): (r: seq<int>)
    ensures |r| == 3 * k
  {
    if k == 0 then [] else BottomFan(center, k - 1) + [center, ToShort(k), ToShort(k - 1)]
  }

  /** The first k triangles of the fan around the top centre, over the ring starting
    * at `ringStart`, wound to face up. */
  function TopFan(center: int, ringStart: int, k: nat): (r: seq<int>)
    ensures |r| == 3 * k
  {
    if k == 0 then []
    else TopFan(center, ringStart, k - 1) + [center, ToShort(ringStart + k - 1), ToShort(ringStart + k)]
  }

  /** Without wrap-around, the quads between two rings use vertices of the lower ring
    * from ringStart and of the upper ring up to nextRingStart + k. */
  lemma {:induction false} RingQuadsBounds(ringStart: int, nextRingStart: int, k: nat)
    requires 0 <= ringStart <= nextRingStart && nextRingStart + k <= 32767 && ringStart + k <= nextRingStart + k
    ensures forall x :: x in RingQuads(ringStart, nextRingStart, k) ==> ringStart <= x <= nextRingStart + k
  {
    if k > 0 {
      RingQuadsBounds(ringStart, nextRingStart, k - 1);
    }
  }

  /** Without wrap-around, the side quads of `rings` + 1 rings use only their vertices. */
  lemma {:induction false} SideIndicesBounds(slices: nat, rings: nat)
    requires RingStart(slices, rings + 1) <= 32768
    ensures forall x :: x in SideIndices(slices, rings) ==> 0 <= x < RingStart(slices, rings + 1)
  {
    if rings > 0 {
      SideIndicesBounds(slices, rings - 1);
      RingQuadsBounds(RingStart(slices, rings - 1), RingStart(slices, rings), slices);
    }
  }

  /** Without wrap-around, a bottom fan uses its centre and slice vertices 0 to k. */
  lemma {:induction false} BottomFanBounds(center: int, k: nat)
    requires k <= 32767
    ensures forall x :: x in BottomFan(center, k) ==> x == center || 0 <= x <= k
  {
    if k > 0 {
      BottomFanBounds(center, k - 1);
    }
  }

  /** Without wrap-around, a top fan uses its centre and ring vertices ringStart to
    * ringStart + k. */
  lemma {:induction false} TopFanBounds(center: int, ringStart: nat, k: nat)
    requires ringStart + k <= 32767
    ensures forall x :: x in TopFan(center, ringStart, k) ==> x == center || ringStart <= x <= ringStart + k
  {
    if k > 0 {
      TopFanBounds(center, ringStart, k - 1);
    }
  }

  // ---------------------------------------------------------------------------
  // The cone mesh

  /** The cone's parameters after clamping the stripe. */
  function ConeOf(radiusBase: real, height: real, slices: nat, stripeCenter: real, stripeHeight: real, body: Color, stripe: Color): Cone {
    Cone(radiusBase, height, slices, StripeLower(stripeCenter, stripeHeight, height),
         StripeUpper(stripeCenter, stripeHeight, height), body, stripe)
  }

  /** The base centre vertex: at the origin, facing down. */
  function BaseVertex(color: Color): seq<real> {
    [0.0, 0.0, 0.0, 0.0, 0.0, -1.0, color.r, color.g, color.b]
  }

  /** createConeWithStripe: the side rings, then the base centre; the side quads, then
    * the base fan. */
  function ConeMesh(radiusBase: real, height: real, slices: nat, stripeCenter: real, stripeHeight: real,
                    body: Color, stripe: Color, m: Math): Mesh
    requires Lawful(m) && height != 0.0 && 0 < slices
  {
    var cone := ConeOf(radiusBase, height, slices, stripeCenter, stripeHeight, body, stripe);
    var heights := RingHeights(cone.lower, cone.upper, height);
    var ringCount := |heights|;
    Mesh(ConeSide(cone, heights, m, ringCount) + BaseVertex(body),
         SideIndices(slices, ringCount - 1) + BottomFan(ToShort(ringCount * (slices + 1)), slices),
         [3, 3, 3])
  }

  /** Without wrap-around the side quads use side vertices only. */
  lemma ConeSideWithin(slices: nat, rings: nat)
    requires 1 <= rings && (rings + 1) * (slices + 1) <= 32767
    ensures forall x :: x in SideIndices(slices, rings) ==> 0 <= x < (rings + 1) * (slices + 1)
  {
    RingStartIsProduct(slices, rings + 1);
    SideIndicesBounds(slices, rings);
  }

  /** Without wrap-around the base fan uses the base centre and the bottom ring. */
  lemma ConeFanWithin(slices: nat, total: int)
    requires slices <= total <= 32767
    ensures forall x :: x in BottomFan(ToShort(total), slices) ==> 0 <= x <= total
  {
    BottomFanBounds(ToShort(total), slices);
  }

  /** The cone's indices: 6 per side quad and 3 per base triangle; while the vertex
    * count fits a short, every index names a side vertex or the base centre. */
  lemma ConeIndices(slices: nat, ringCount: nat)
    requires 2 <= ringCount
    ensures var total := ringCount * (slices + 1);
      var indices := SideIndices(slices, ringCount - 1) + BottomFan(ToShort(total), slices);
      && |indices| == slices * (ringCount - 1) * 6 + slices * 3
      && (total <= 32767 ==> forall x :: x in indices ==> 0 <= x <= total)
  {
    var total := ringCount * (slices + 1);
    var side := SideIndices(slices, ringCount - 1);
    var fan := BottomFan(ToShort(total), slices);
    SideIndicesLength(slices, ringCount - 1);
    if total <= 32767 {
      assert slices <= total by {
        MulLe(slices + 1, 1, ringCount);
      }
      ConeSideWithin(slices, ringCount - 1);
      ConeFanWithin(slices, total);
      forall x | x in side + fan
        ensures 0 <= x <= total
      {
        if x in side {
        } else {
          assert x in fan;
        }
      }
    }
  }

  /** The cone has 2 to 4 rings of slices + 1 side vertices plus the base centre,
    * 9 floats each with layout {3, 3, 3}. */
  lemma ConeVertexCount(radiusBase: real, height: real, slices: nat, stripeCenter: real, stripeHeight: real,
                        body: Color, stripe: Color, m: Math)
    requires Lawful(m) && height != 0.0 && 0 < slices
    ensures var mesh := ConeMesh(radiusBase, height, slices, stripeCenter, stripeHeight, body, stripe, m);
      var cone := ConeOf(radiusBase, height, slices, stripeCenter, stripeHeight, body, stripe);
      var ringCount := |RingHeights(cone.lower, cone.upper, height)|;
      && 2 <= ringCount <= 4
      && |mesh.vertices| == LitStride * (ringCount * (slices + 1) + 1)
      && mesh.layout == [3, 3, 3]
  {
    var cone := ConeOf(radiusBase, height, slices, stripeCenter, stripeHeight, body, stripe);
    var ringCount := |RingHeights(cone.lower, cone.upper, height)|;
    RingStartIsProduct(slices, ringCount);
  }

  /** The cone has 6 indices per side quad and 3 per base triangle, and while the
    * vertex count fits a short every index names a vertex, the base centre, numbered
    * ringCount (slices + 1), being the last. */
  lemma ConeIndexRange(radiusBase: real, height: real, slices: nat, stripeCenter: real, stripeHeight: real,
                       body: Color, stripe: Color, m: Math)
    requires Lawful(m) && height != 0.0 && 0 < slices
    ensures var mesh := ConeMesh(radiusBase, height, slices, stripeCenter, stripeHeight, body, stripe, m);
      var cone := ConeOf(radiusBase, height, slices, stripeCenter, stripeHeight, body, stripe);
      var ringCount := |RingHeights(cone.lower, cone.upper, height)|;
      var totalSideVertices := ringCount * (slices + 1);
      && |mesh.indices| == slices * (ringCount - 1) * 6 + slices * 3
      && (totalSideVertices <= 32767 ==>
            forall x :: x in mesh.indices ==> 0 <= x <= totalSideVertices)
  {
    var cone := ConeOf(radiusBase, height, slices, stripeCenter, stripeHeight, body, stripe);
    var ringCount := |RingHeights(cone.lower, cone.upper, height)|;
    assert 2 <= ringCount;
    ConeIndices(slices, ringCount);
  }

  /** Side vertex s of the cone's ring at height z. */
  function ConeVertex(cone: Cone, z: real, s: nat, m: Math): seq<real>
    requires Lawful(m) && cone.height != 0.0 && 0 < cone.slices
  {
    var normalScale := NormalScale(Slope(cone), m);
    RimVertex(ConeRadius(cone, z), z, Angle(s, cone.slices), normalScale, Slope(cone) / normalScale,
              SelectColor(z, cone.lower, cone.upper, cone.body, cone.stripe), m)
  }

  /** Side vertex s of ring r lies at floats 9 RingStart(r) + 9 s onwards. */
  lemma ConeSideVertexAt(cone: Cone, heights: seq<real>, m: Math, r: nat, s: nat)
    requires Lawful(m) && cone.height != 0.0 && 0 < cone.slices && r < |heights| && s <= cone.slices
    ensures var side := ConeSide(cone, heights, m, |heights|);
      var at := LitStride * RingStart(cone.slices, r) + LitStride * s;
      && at + LitStride <= |side|
      && side[at..at + LitStride] == ConeVertex(cone, heights[r], s, m)
  {
    var side := ConeSide(cone, heights, m, |heights|);
    var start, end := LitStride * RingStart(cone.slices, r), LitStride * RingStart(cone.slices, r + 1);
    ConeSideAt(cone, heights, m, |heights|, r);
    ConeRingVertexAt(cone, heights[r], m, s);
    NestedBlock(side, ConeRing(cone, heights[r], m), ConeVertex(cone, heights[r], s, m), start, end, LitStride * s);
  }

  /** Vertex s of a cone ring is at floats 9s to 9s + 9. */
  lemma ConeRingVertexAt(cone: Cone, z: real, m: Math, s: nat)
    requires Lawful(m) && cone.height != 0.0 && 0 < cone.slices && s <= cone.slices
    ensures |ConeVertex(cone, z, s, m)| == LitStride
    ensures LitStride * s + LitStride <= |ConeRing(cone, z, m)|
    ensures ConeRing(cone, z, m)[LitStride * s..LitStride * s + LitStride] == ConeVertex(cone, z, s, m)
  {
    MulLe(LitStride, s + 1, cone.slices + 1);
    var normalScale := NormalScale(Slope(cone), m);
    RimAt(ConeRadius(cone, z), z, cone.slices, normalScale, Slope(cone) / normalScale,
          SelectColor(z, cone.lower, cone.upper, cone.body, cone.stripe), m, cone.slices + 1, s);
  }

  /** A block found inside a block of a sequence is found in the sequence, shifted by
    * the outer block's start. */
  lemma NestedBlock(xs: seq<real>, block: seq<real>, inner: seq<real>, start: nat, end: nat, offset: nat)
    requires start <= end <= |xs| && xs[start..end] == block
    requires offset + |inner| <= |block| && block[offset..offset + |inner|] == inner
    ensures start + offset + |inner| <= |xs| && xs[start + offset..start + offset + |inner|] == inner
  {
    SliceOfSlice(xs, start, end, offset, offset + |inner|);
  }

  /** The texture coordinates of the quad's edges. */
  lemma TextureEdges(width: real, height: real)
    requires width != 0.0 && height != 0.0
    ensures (width * 0.5 + width * 0.5) / width == 1.0 && (-(width * 0.5) + width * 0.5) / width == 0.0
    ensures 1.0 - height / height == 0.0 && 1.0 - 0.0 / height == 1.0
  {
    assert width * 0.5 + width * 0.5 == width;
  }

  /** The two halves of a concatenation. */
  lemma SplitAt(a: seq<real>, b: seq<real>)
    ensures (a + b)[..|a|] == a && (a + b)[|a|..|a| + |b|] == b
  {
  }

  /** A slice of a slice is a slice of the whole. */
  lemma SliceOfSlice(xs: seq<real>, i: nat, j: nat, k: nat, l: nat)
    requires i <= j <= |xs| && k <= l <= j - i
    ensures xs[i..j][k..l] == xs[i + k..i + l]
  {
    forall t | 0 <= t < l - k
      ensures xs[i..j][k..l][t] == xs[i + k..i + l][t]
    {
    }
  }

  lemma ConeVertexAt(radiusBase: real, height: real, slices: nat, stripeCenter: real, stripeHeight: real,
                     body: Color, stripe: Color, m: Math, r: nat, s: nat)
    requires Lawful(m) && height != 0.0 && 0 < slices
    requires var cone := ConeOf(radiusBase, height, slices, stripeCenter, stripeHeight, body, stripe);
      r < |RingHeights(cone.lower, cone.upper, height)| && s <= slices
    ensures var cone := ConeOf(radiusBase, height, slices, stripeCenter, stripeHeight, body, stripe);
      var heights := RingHeights(cone.lower, cone.upper, height);
      var mesh := ConeMesh(radiusBase, height, slices, stripeCenter, stripeHeight, body, stripe, m);
      var at := LitStride * (r * (slices + 1) + s);
      var normalScale := NormalScale(Slope(cone), m);
      && at + LitStride <= |mesh.vertices|
      && mesh.vertices[at..at + LitStride]
         == RimVertex(ConeRadius(cone, heights[r]), heights[r], Angle(s, slices), normalScale, Slope(cone) / normalScale,
                      SelectColor(heights[r], cone.lower, cone.upper, body, stripe), m)
      && mesh.vertices[|mesh.vertices| - LitStride..] == BaseVertex(body)
  {
    var cone := ConeOf(radiusBase, height, slices, stripeCenter, stripeHeight, body, stripe);
    var heights := RingHeights(cone.lower, cone.upper, height);
    var side := ConeSide(cone, heights, m, |heights|);
    ConeSideVertexAt(cone, heights, m, r, s);
    RingStartIsProduct(slices, r);
    assert LitStride * (r * (slices + 1) + s) == LitStride * RingStart(slices, r) + LitStride * s;
    var at := LitStride * RingStart(slices, r) + LitStride * s;
    var mesh := ConeMesh(radiusBase, height, slices, stripeCenter, stripeHeight, body, stripe, m);
    assert mesh.vertices == side + BaseVertex(body);
    SliceLeft(side, BaseVertex(body), at, at + LitStride);
    SplitAt(side, BaseVertex(body));
  }

  /** The side tapers from the full base radius on the bottom ring to the axis on the
    * top ring. */
  lemma ConeTapers(cone: Cone, lower: real, upper: real)
    requires cone.height != 0.0
    ensures var heights := RingHeights(lower, upper, cone.height);
      ConeRadius(cone, heights[0]) == cone.radiusBase && ConeRadius(cone, heights[|heights| - 1]) == 0.0
  {
  }

  /** The side normals have unit length: (cos, sin, slope) / sqrt(1 + slope^2). */
  lemma ConeNormalUnit(slope: real, angle: real, m: Math)
    requires Lawful(m)
    ensures var normalScale := NormalScale(slope, m);
      Sq(m.cos(angle) / normalScale) + Sq(m.sin(angle) / normalScale) + Sq(slope / normalScale) == 1.0
  {
    var normalScale := NormalScale(slope, m);
    var c, s, u := m.cos(angle), m.sin(angle), 1.0 / normalScale;
    UnitByHypot(m, 1.0, slope);
    assert CircleLaw(m, angle);
    assert c / normalScale == c * u && s / normalScale == s * u;
    SqOfProduct(c, u);
    SqOfProduct(s, u);
    assert Sq(c * u) + Sq(s * u) == (Sq(c) + Sq(s)) * Sq(u);
  }

  /** The ring loop of createConeWithStripe and createCylinder for one ring: appends
    * the ring's slices + 1 vertices. */
  method EmitRim(vertices: seq<real>, radius: real, z: real, slices: nat, normalScale: real, normalZ: real,
                 color: Color, m: Math) returns (r: seq<real>)
    requires 0 < slices && normalScale != 0.0
    ensures r == vertices + Rim(radius, z, slices, normalScale, normalZ, color, m, slices + 1)
  {
    r := vertices;
    var slice := 0;
    while slice <= slices
      invariant slice <= slices + 1
      invariant r == vertices + Rim(radius, z, slices, normalScale, normalZ, color, m, slice)
    {
      var vertex := RimVertex(radius, z, Angle(slice, slices), normalScale, normalZ, color, m);
      r := r + vertex;
      slice := slice + 1;
    }
  }

  /** The quad loop for one pair of rings: appends the quads of all slices. */
  method EmitQuads(indices: seq<int>, ringStart: int, nextRingStart: int, slices: nat) returns (r: seq<int>)
    ensures r == indices + RingQuads(ringStart, nextRingStart, slices)
  {
    r := indices;
    var slice := 0;
    while slice < slices
      invariant slice <= slices
      invariant r == indices + RingQuads(ringStart, nextRingStart, slice)
    {
      var current := ToShort(ringStart + slice);
      var next := ToShort(ringStart + slice + 1);
      var upper := ToShort(nextRingStart + slice);
      var upperNext := ToShort(nextRingStart + slice + 1);
      r := r + [current, upper, upperNext];
      r := r + [current, upperNext, next];
      slice := slice + 1;
    }
  }

  /** The side quads of `rings` + 1 rings. */
  method EmitSide(slices: nat, rings: nat) returns (indices: seq<int>)
    ensures indices == SideIndices(slices, rings)
  {
    indices := [];
    var verticesPerRing := slices + 1;
    var ring := 0;
    while ring < rings
      invariant ring <= rings
      invariant indices == SideIndices(slices, ring)
    {
      var ringStart := ring * verticesPerRing;
      var nextRingStart := (ring + 1) * verticesPerRing;
      RingStartIsProduct(slices, ring);
      RingStartIsProduct(slices, ring + 1);
      indices := EmitQuads(indices, ringStart, nextRingStart, slices);
      ring := ring + 1;
    }
  }

  /** The base fan loop: appends one downward triangle per slice around `center`. */
  method EmitBottomFan(indices: seq<int>, center: int, slices: nat) returns (r: seq<int>)
    ensures r == indices + BottomFan(center, slices)
  {
    r := indices;
    var slice := 0;
    while slice < slices
      invariant slice <= slices
      invariant r == indices + BottomFan(center, slice)
    {
      var current := ToShort(slice);
      var next := ToShort(slice + 1);
      r := r + [center, next, current];
      slice := slice + 1;
    }
  }

  /** The top fan loop: appends one upward triangle per slice around `center`. */
  method EmitTopFan(indices: seq<int>, center: int, ringStart: int, slices: nat) returns (r: seq<int>)
    ensures r == indices + TopFan(center, ringStart, slices)
  {
    r := indices;
    var slice := 0;
    while slice < slices
      invariant slice <= slices
      invariant r == indices + TopFan(center, ringStart, slice)
    {
      var current := ToShort(ringStart + slice);
      var next := ToShort(ringStart + slice + 1);
      r := r + [center, current, next];
      slice := slice + 1;
    }
  }

  /** The ring heights of createConeWithStripe: the base, the stripe edges that are
    * clear of the base and of each other, and the apex. */
  method CollectRingHeights(stripeLower: real, stripeUpper: real, height: real) returns (ringHeights: seq<real>)
    ensures ringHeights == RingHeights(stripeLower, stripeUpper, height)
  {
    ringHeights := [0.0];
    if stripeLower > RingEpsilon {
      ringHeights := ringHeights + [stripeLower];
    }
    if stripeUpper > stripeLower + RingEpsilon && stripeUpper < height {
      ringHeights := ringHeights + [stripeUpper];
    }
    ringHeights := ringHeights + [height];
  }

  /** The ring loop of createConeWithStripe: for each ring height, the radius shrinks
    * linearly towards the apex and the ring's vertices are appended. */
  method EmitConeSide(cone: Cone, heights: seq<real>, m: Math) returns (vertices: seq<real>)
    requires Lawful(m) && cone.height != 0.0 && 0 < cone.slices
    ensures vertices == ConeSide(cone, heights, m, |heights|)
  {
    var slope := cone.radiusBase / cone.height;
    var normalScale := NormalScale(slope, m);
    var normalZ := slope / normalScale;
    vertices := [];
    var ringIndex := 0;
    while ringIndex < |heights|
      invariant ringIndex <= |heights|
      invariant vertices == ConeSide(cone, heights, m, ringIndex)
    {
      var currentHeight := heights[ringIndex];
      var radius := cone.radiusBase * (1.0 - currentHeight / cone.height);
      var color := SelectColor(currentHeight, cone.lower, cone.upper, cone.body, cone.stripe);
      assert radius == ConeRadius(cone, currentHeight) && slope == Slope(cone);
      assert ConeSide(cone, heights, m, ringIndex + 1)
             == ConeSide(cone, heights, m, ringIndex) + ConeRing(cone, currentHeight, m);
      vertices := EmitRim(vertices, radius, currentHeight, cone.slices, normalScale, normalZ, color, m);
      ringIndex := ringIndex + 1;
    }
  }

  /** createConeWithStripe. The source divides by the height and by the slice count,
    * so both must be non-zero for the vertex data to be numbers. */
  method CreateConeWithStripe(radiusBase: real, height: real, slices: nat, stripeCenter: real, stripeHeight: real,
                              bodyColor: Color, stripeColor: Color, m: Math) returns (mesh: Mesh)
    requires Lawful(m) && height != 0.0 && 0 < slices
    ensures mesh == ConeMesh(radiusBase, height, slices, stripeCenter, stripeHeight, bodyColor, stripeColor, m)
  {
    var layout: seq<nat> := [3, 3, 3];
    var stripeHalf := stripeHeight * 0.5;
    var stripeLower := ClampTo(stripeCenter - stripeHalf, 0.0, height);
    var stripeUpper := ClampTo(stripeCenter + stripeHalf, 0.0, height);
    assert stripeLower == StripeLower(stripeCenter, stripeHeight, height);
    assert stripeUpper == StripeUpper(stripeCenter, stripeHeight, height);

    var ringHeights := CollectRingHeights(stripeLower, stripeUpper, height);

    var ringCount := |ringHeights|;
    assert 2 <= ringCount;
    var verticesPerRing := slices + 1;
    var totalSideVertices := ringCount * verticesPerRing;
    var vertices := EmitConeSide(Cone(radiusBase, height, slices, stripeLower, stripeUpper, bodyColor, stripeColor),
                                 ringHeights, m);

    var indices := EmitSide(slices, ringCount - 1);

    var baseCenterIndex := ToShort(totalSideVertices);
    vertices := vertices + [0.0, 0.0, 0.0, 0.0, 0.0, -1.0, bodyColor.r, bodyColor.g, bodyColor.b];
    indices := EmitBottomFan(indices, baseCenterIndex, slices);

    mesh := Mesh(vertices, indices, layout);
  }

  // ---------------------------------------------------------------------------
  // The cylinder

  /** The top centre vertex: on the axis at the top, facing up. */
  function TopVertex(height: real, color: Color): seq<real> {
    [0.0, 0.0, height, 0.0, 0.0, 1.0, color.r, color.g, color.b]
  }

  /** createCylinder: a bottom and a top ring with horizontal normals, the bottom and
    * top centres; the side quads, the bottom fan and the top fan. */
  function CylinderMesh(radius: real, height: real, slices: nat, color: Color, m: Math): Mesh
    requires 0 < slices
  {
    var verticesPerRing := slices + 1;
    var totalSideVertices := 2 * verticesPerRing;
    Mesh(Rim(radius, 0.0, slices, 1.0, 0.0, color, m, verticesPerRing)
           + Rim(radius, height, slices, 1.0, 0.0, color, m, verticesPerRing)
           + BaseVertex(color) + TopVertex(height, color),
         SideIndices(slices, 1) + BottomFan(ToShort(totalSideVertices), slices)
           + TopFan(ToShort(totalSideVertices + 1), verticesPerRing, slices),
         [3, 3, 3])
  }

  /** The cylinder has 2 (slices + 1) + 2 vertices of 9 floats and 12 indices per
    * slice. */
  lemma CylinderCounts(radius: real, height: real, slices: nat, color: Color, m: Math)
    requires 0 < slices
    ensures var mesh := CylinderMesh(radius, height, slices, color, m);
      && |mesh.vertices| == LitStride * (2 * (slices + 1) + 2)
      && |mesh.indices| == 12 * slices
      && mesh.layout == [3, 3, 3]
  {
    SideIndicesLength(slices, 1);
  }

  /** While the vertex count fits a short every index of the cylinder names a vertex. */
  lemma CylinderIndexRange(radius: real, height: real, slices: nat, color: Color, m: Math)
    requires 0 < slices && 2 * (slices + 1) + 2 <= 32768
    ensures forall x :: x in CylinderMesh(radius, height, slices, color, m).indices ==> 0 <= x < 2 * (slices + 1) + 2
  {
    var v := slices + 1;
    var side := SideIndices(slices, 1);
    var bottom := BottomFan(ToShort(2 * v), slices);
    var top := TopFan(ToShort(2 * v + 1), v, slices);
    assert CylinderMesh(radius, height, slices, color, m).indices == side + bottom + top;
    SideIndicesBounds(slices, 1);
    BottomFanBounds(ToShort(2 * v), slices);
    TopFanBounds(ToShort(2 * v + 1), v, slices);
  }

  /** While the vertex count fits a short, every triangle of the bottom fan starts at
    * the bottom centre 2 (slices + 1) and every triangle of the top fan at the top
    * centre 2 (slices + 1) + 1. */
  lemma CylinderFanCenters(radius: real, height: real, slices: nat, color: Color, m: Math, t: nat)
    requires 0 < slices && 2 * (slices + 1) + 2 <= 32768 && t < slices
    ensures var indices := CylinderMesh(radius, height, slices, color, m).indices;
      && indices[6 * slices + 3 * t] == 2 * (slices + 1)
      && indices[9 * slices + 3 * t] == 2 * (slices + 1) + 1
  {
    var v := slices + 1;
    var side := SideIndices(slices, 1);
    var bottom := BottomFan(ToShort(2 * v), slices);
    var top := TopFan(ToShort(2 * v + 1), v, slices);
    SideIndicesLength(slices, 1);
    assert CylinderMesh(radius, height, slices, color, m).indices == side + bottom + top;
    BottomFanCenter(ToShort(2 * v), slices, t);
    TopFanCenter(ToShort(2 * v + 1), v, slices, t);
  }

  /** Triangle t of a bottom fan starts at its centre. */
  lemma {:induction false} BottomFanCenter(center: int, k: nat, t: nat)
    requires t < k
    ensures BottomFan(center, k)[3 * t] == center
  {
    if t < k - 1 {
      BottomFanCenter(center, k - 1, t);
    }
  }

  /** Triangle t of a top fan starts at its centre. */
  lemma {:induction false} TopFanCenter(center: int, ringStart: int, k: nat, t: nat)
    requires t < k
    ensures TopFan(center, ringStart, k)[3 * t] == center
  {
    if t < k - 1 {
      TopFanCenter(center, ringStart, k - 1, t);
    }
  }

  /** The cylinder's side normals (cos, sin, 0) have unit length. */
  lemma CylinderNormalUnit(angle: real, m: Math)
    requires Lawful(m)
    ensures Sq(m.cos(angle) / 1.0) + Sq(m.sin(angle) / 1.0) + Sq(0.0) == 1.0
  {
    assert CircleLaw(m, angle);
  }

  /** createCylinder. */
  method CreateCylinder(radius: real, height: real, slices: nat, color: Color, m: Math) returns (mesh: Mesh)
    requires 0 < slices
    ensures mesh == CylinderMesh(radius, height, slices, color, m)
  {
    var ringCount := 2;
    var verticesPerRing := slices + 1;
    var totalSideVertices := ringCount * verticesPerRing;
    var vertices: seq<real> := [];

    var ringHeights := [0.0, height];
    var ringIndex := 0;
    while ringIndex < ringCount
      invariant ringIndex <= ringCount
      invariant ringIndex == 0 ==> vertices == []
      invariant ringIndex == 1 ==> vertices == Rim(radius, 0.0, slices, 1.0, 0.0, color, m, verticesPerRing)
      invariant ringIndex == 2 ==>
        vertices == Rim(radius, 0.0, slices, 1.0, 0.0, color, m, verticesPerRing)
                    + Rim(radius, height, slices, 1.0, 0.0, color, m, verticesPerRing)
    {
      var currentHeight := ringHeights[ringIndex];
      vertices := EmitRim(vertices, radius, currentHeight, slices, 1.0, 0.0, color, m);
      ringIndex := ringIndex + 1;
    }

    var indices := EmitSide(slices, ringCount - 1);

    var bottomCenterIndex := ToShort(totalSideVertices);
    vertices := vertices + [0.0, 0.0, 0.0, 0.0, 0.0, -1.0, color.r, color.g, color.b];
    indices := EmitBottomFan(indices, bottomCenterIndex, slices);

    var topCenterIndex := ToShort(totalSideVertices + 1);
    vertices := vertices + [0.0, 0.0, height, 0.0, 0.0, 1.0, color.r, color.g, color.b];
    var topRingStart := verticesPerRing;
    indices := EmitTopFan(indices, topCenterIndex, topRingStart, slices);

    mesh := Mesh(vertices, indices, [3, 3, 3]);
  }

  // ---------------------------------------------------------------------------
  // Ground and textured quad

  /** z of the cross product (q - p) x (r - p) of three points in the plane. */
  function Turn(px: real, py: real, qx: real, qy: real, rx: real, ry: real): real {
    (qx - px) * (ry - py) - (qy - py) * (rx - px)
  }

  /** One ground vertex: the corner at height 0, facing up, with the colour. */
  function GroundVertex(corner: Vec2, color: Color): seq<real> {
    [corner.x, corner.y, 0.0, 0.0, 0.0, 1.0, color.r, color.g, color.b]
  }

  /** The corners of a square of side 2 half centred on the origin, counter-clockwise
    * from (-half, -half). */
  function Corners(half: real): seq<Vec2> {
    [Vec2(-half, -half), Vec2(half, -half), Vec2(half, half), Vec2(-half, half)]
  }

  /** The two triangles of a quad, as indices into its four corners. */
  const QuadIndices: seq<int> := [0, 1, 2, 0, 2, 3]

  /** createGround: a size x size square in the z = 0 plane. */
  function Ground(size: real, color: Color): (r: Mesh)
    ensures |r.vertices| == 4 * LitStride && r.layout == [3, 3, 3]
    ensures |r.indices| == 6 && forall x :: x in r.indices ==> 0 <= x < 4
  {
    var corners := Corners(size * 0.5);
    Mesh(GroundVertex(corners[0], color) + GroundVertex(corners[1], color)
           + GroundVertex(corners[2], color) + GroundVertex(corners[3], color),
         QuadIndices,
         [3, 3, 3])
  }

  /** Vertex i of the ground is corner i at height 0 with normal (0, 0, 1) and the
    * colour; the corners are (+-size/2, +-size/2); and for a positive size both
    * triangles turn counter-clockwise seen from +z, so they face along the normal. */
  lemma GroundFacesUp(size: real, color: Color)
    ensures var mesh, corners := Ground(size, color), Corners(size * 0.5);
      && (forall i :: 0 <= i < 4 ==> mesh.vertices[LitStride * i..LitStride * i + LitStride] == GroundVertex(corners[i], color))
      && (forall i :: 0 <= i < 4 ==> Abs(corners[i].x) == Abs(size * 0.5) && Abs(corners[i].y) == Abs(size * 0.5))
      && (0.0 < size ==> forall t :: 0 <= t < 2 ==>
            var a, b, c := corners[mesh.indices[3 * t]], corners[mesh.indices[3 * t + 1]], corners[mesh.indices[3 * t + 2]];
            0.0 < Turn(a.x, a.y, b.x, b.y, c.x, c.y))
  {
    var mesh, corners := Ground(size, color), Corners(size * 0.5);
    if 0.0 < size {
      SquareTurns(size * 0.5);
    }
    var p0, p1, p2, p3 := GroundVertex(corners[0], color), GroundVertex(corners[1], color),
                          GroundVertex(corners[2], color), GroundVertex(corners[3], color);
    FourBlocks(mesh.vertices, p0, p1, p2, p3);
  }

  /** Both triangles of the square of half side h turn counter-clockwise. */
  lemma SquareTurns(h: real)
    requires 0.0 < h
    ensures 0.0 < Turn(-h, -h, h, -h, h, h) && 0.0 < Turn(-h, -h, h, h, -h, h)
  {
    SqPositive(h);
    var area := 4.0 * Sq(h);
    assert Turn(-h, -h, h, -h, h, h) == area;
    assert Turn(-h, -h, h, h, -h, h) == area;
  }

  /** Four blocks of equal length laid end to end: block i starts at i times the length. */
  lemma FourBlocks(v: seq<real>, p0: seq<real>, p1: seq<real>, p2: seq<real>, p3: seq<real>)
    requires v == p0 + p1 + p2 + p3
    requires |p0| == |p1| == |p2| == |p3|
    ensures forall i :: 0 <= i < 4 ==> |p0| * i + |p0| <= |v| && v[|p0| * i..|p0| * i + |p0|] == [p0, p1, p2, p3][i]
  {
    var n := |p0|;
    var p01 := p0 + p1;
    var p012 := p01 + p2;
    assert v == p012 + p3;
    SplitAt(p012, p3);
    SliceLeft(p012, p3, 2 * n, 3 * n);
    SplitAt(p01, p2);
    SliceLeft(p012, p3, n, 2 * n);
    SliceLeft(p01, p2, n, 2 * n);
    SplitAt(p0, p1);
    SliceLeft(p012, p3, 0, n);
    SliceLeft(p01, p2, 0, n);
    SliceLeft(p0, p1, 0, n);
    assert p0[0..n] == p0;
    forall i | 0 <= i < 4
      ensures n * i + n <= |v| && v[n * i..n * i + n] == [p0, p1, p2, p3][i]
    {
      if i == 0 {
        assert n * i == 0;
      } else if i == 1 {
        assert n * i == n;
      } else if i == 2 {
        assert n * i == 2 * n;
      } else {
        assert n * i == 3 * n;
      }
    }
  }

  /** A slice within the left operand of a concatenation. */
  lemma SliceLeft(a: seq<real>, b: seq<real>, i: nat, j: nat)
    requires i <= j <= |a|
    ensures (a + b)[i..j] == a[i..j]
  {
  }

  /** One textured-quad vertex: position (x, 0, z) and texture coordinates (u, v). */
  function TexturedVertex(x: real, z: real, u: real, v: real): seq<real> {
    [x, 0.0, z, u, v]
  }

  /** createTexturedQuad: an upright width x height quad in the y = 0 plane with
    * texture coordinates. */
  function TexturedQuad(width: real, height: real): (r: Mesh)
    ensures |r.vertices| == 4 * TexturedStride && r.layout == [3, 2]
    ensures |r.indices| == 6 && forall x :: x in r.indices ==> 0 <= x < 4
  {
    var halfWidth := width * 0.5;
    Mesh(TexturedVertex(-halfWidth, 0.0, 0.0, 1.0) + TexturedVertex(halfWidth, 0.0, 1.0, 1.0)
           + TexturedVertex(halfWidth, height, 1.0, 0.0) + TexturedVertex(-halfWidth, height, 0.0, 0.0),
         QuadIndices,
         [3, 2])
  }

  /** The quad stands in the y = 0 plane, centred on x = 0 from z = 0 to z = height, and
    * its texture is stretched over it: for each vertex (x, 0, z) with texture
    * coordinates (u, v), u = (x + width/2) / width runs from 0 at the left edge to 1
    * at the right, and v = 1 - z / height from 1 at the bottom to 0 at the top. */
  lemma TexturedQuadMapping(width: real, height: real)
    requires width != 0.0 && height != 0.0
    ensures var v := TexturedQuad(width, height).vertices;
      forall i :: 0 <= i < 4 ==>
        var q := v[TexturedStride * i..TexturedStride * i + TexturedStride];
        && q[1] == 0.0
        && (q[0] == width * 0.5 || q[0] == -(width * 0.5)) && (q[2] == 0.0 || q[2] == height)
        && q[3] == (q[0] + width * 0.5) / width && q[4] == 1.0 - q[2] / height
  {
    TextureEdges(width, height);
    var hw := width * 0.5;
    var q0, q1, q2, q3 := TexturedVertex(-hw, 0.0, 0.0, 1.0), TexturedVertex(hw, 0.0, 1.0, 1.0),
                          TexturedVertex(hw, height, 1.0, 0.0), TexturedVertex(-hw, height, 0.0, 0.0);
    FourBlocks(TexturedQuad(width, height).vertices, q0, q1, q2, q3);
  }
}
