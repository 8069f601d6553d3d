/** Shared vocabulary: optional values, plane vectors, the floating-point helpers
  * that the Java and C++ sources call (Math.min/max, clamp, casts to int) and the
  * transcendental functions, which are passed in as values with the few laws the
  * proofs rely on. */
module Geometry {

  /** A Java reference that may be null, or a C++ pointer that may be nullptr. */
  datatype Option<T> = None | Some(value: T)

  /** android.graphics.PointF, a `float[2]` entry, or glm::vec2. */
  datatype Vec2 = Vec2(x: real, y: real) {
    function Plus(o: Vec2): Vec2 { Vec2(x + o.x, y + o.y) }
    function Minus(o: Vec2): Vec2 { Vec2(x - o.x, y - o.y) }
    function Times(k: real): Vec2 { Vec2(x * k, y * k) }
  }

  /** The square of a real; kept as a function so that equal arguments give equal squares. */
  function Sq(x: real): real { x * x }

  function SqLength(v: Vec2): real { Sq(v.x) + Sq(v.y) }

  function SqDist(a: Vec2, b: Vec2): real { SqLength(a.Minus(b)) }

  /** The square root, trigonometric and arc-tangent functions of java.lang.Math and
    * <cmath>. They stay abstract; `Lawful` lists every fact about them that is used. */
  datatype Math = Math(
    hypot: (real, real) -> real,
    sin: real -> real,
    cos: real -> real,
    tan: real -> real,
    atan2: (real, real) -> real)

  /** hypot(a, b) is the non-negative square root of a^2 + b^2. */
  predicate HypotLaw(m: Math, a: real, b: real) {
    0.0 <= m.hypot(a, b) && Sq(m.hypot(a, b)) == Sq(a) + Sq(b)
  }

  /** cos^2 t + sin^2 t = 1. */
  predicate CircleLaw(m: Math, t: real) {
    Sq(m.cos(t)) + Sq(m.sin(t)) == 1.0
  }

  /** tan has no zero in 0 < |t| <= 0.5. */
  predicate TanLaw(m: Math, t: real) {
    (0.0 < t <= 0.5 || -0.5 <= t < 0.0) ==> m.tan(t) != 0.0
  }

  /** The laws hold everywhere. Each is used by naming it at the point where it is
    * needed, e.g. `assert HypotLaw(m, a, b);`. */
  ghost predicate Lawful(m: Math) {
    && (forall a, b :: HypotLaw(m, a, b))
    && (forall t :: CircleLaw(m, t))
    && (forall t :: TanLaw(m, t))
  }

  /** glm::length / Math.hypot of a vector. */
  function Length(v: Vec2, m: Math): real { m.hypot(v.x, v.y) }

  /** glm::distance(a, b), the length of a - b. */
  function Distance(a: Vec2, b: Vec2, m: Math): real { Length(a.Minus(b), m) }

  function Min(a: real, b: real): real { if a <= b then a else b }

  function Max(a: real, b: real): real { if a >= b then a else b }

  function Abs(x: real): real { if x < 0.0 then -x else x }

  /** `Math.max(lo, Math.min(hi, v))` (Map3DRenderer, GeometryFactory) and
    * `std::max(lo, std::min(v, hi))` (glm::clamp): the same value in every source. */
  function Clamp(v: real, lo: real, hi: real): (r: real)
    ensures lo <= hi ==> lo <= r <= hi
    ensures lo <= v <= hi ==> r == v
    ensures v < lo ==> r == lo
    ensures lo <= hi < v ==> r == hi
  {
    Max(lo, Min(hi, v))
  }

  /** A Java `(int)` cast or C++ `static_cast<int>` of a finite value: truncation toward zero. */
  function Trunc(r: real): (n: int)
    ensures 0.0 <= r ==> 0 <= n && n as real <= r < n as real + 1.0
    ensures r < 0.0 ==> n <= 0 && n as real - 1.0 < r <= n as real
  {
    if r >= 0.0 then r.Floor else -((-r).Floor)
  }

  lemma SqNonNegative(x: real)
    ensures 0.0 <= Sq(x)
  {
    if x < 0.0 {
      assert Sq(x) == Sq(-x);
    }
  }

  lemma SqPositive(x: real)
    requires x != 0.0
    ensures 0.0 < Sq(x)
  {
    if x > 0.0 {
      SqGrows(0.0, x);
      assert 0.0 + x == x;
    } else {
      SqGrows(0.0, -x);
      assert 0.0 + -x == -x;
      assert Sq(-x) == Sq(x);
    }
  }

  lemma SqOfProduct(a: real, k: real)
    ensures Sq(a * k) == Sq(a) * Sq(k)
  {
  }

  lemma ZeroProduct(x: real, y: real)
    requires x * y == 0.0
    ensures x == 0.0 || y == 0.0
  {
    if x != 0.0 {
      assert y == (x * y) / x;
    }
  }

  lemma SqGrows(g: real, d: real)
    requires 0.0 <= g && 0.0 < d
    ensures Sq(g) < Sq(g + d)
  {
  }

  /** Squaring is strictly increasing on the non-negative reals. */
  lemma SqStrictMono(g: real, h: real)
    requires 0.0 <= g < h
    ensures Sq(g) < Sq(h)
  {
    SqGrows(g, h - g);
    assert g + (h - g) == h;
  }

  /** Two non-negative reals with the same square are equal. */
  lemma SquareRootUnique(g: real, h: real)
    requires 0.0 <= g && 0.0 <= h && Sq(g) == Sq(h)
    ensures g == h
  {
    assert Sq(g) - Sq(h) == (g - h) * (g + h);
    ZeroProduct(g - h, g + h);
  }

  lemma MulLeLeft(c: real, a: real, b: real)
    requires 0.0 <= c && a <= b
    ensures c * a <= c * b
  {
    assert c * b - c * a == c * (b - a);
  }

  /** hypot is absolutely homogeneous for a non-negative factor. */
  lemma HypotScale(m: Math, a: real, b: real, k: real)
    requires Lawful(m) && 0.0 <= k
    ensures m.hypot(a * k, b * k) == k * m.hypot(a, b)
  {
    var h, g := m.hypot(a, b), m.hypot(a * k, b * k);
    assert HypotLaw(m, a, b) && HypotLaw(m, a * k, b * k);
    assert Sq(g) == Sq(a * k) + Sq(b * k);
    SqOfProduct(a, k);
    SqOfProduct(b, k);
    SqOfProduct(h, k);
    assert Sq(g) == (Sq(a) + Sq(b)) * Sq(k);
    assert Sq(h * k) == Sq(h) * Sq(k);
    MulLeLeft(k, 0.0, h);
    SquareRootUnique(g, h * k);
  }

  /** hypot is zero exactly at the origin. */
  lemma HypotZeroIff(m: Math, a: real, b: real)
    requires Lawful(m)
    ensures m.hypot(a, b) == 0.0 <==> a == 0.0 && b == 0.0
  {
    var h := m.hypot(a, b);
    assert HypotLaw(m, a, b);
    SqNonNegative(a);
    SqNonNegative(b);
    if a != 0.0 {
      SqPositive(a);
    }
    if b != 0.0 {
      SqPositive(b);
    }
    if h != 0.0 {
      SqPositive(h);
    }
  }

  lemma CancelFactor(x: real, y: real, z: real)
    requires y != 0.0 && x * y == z && z == y
    ensures x == 1.0
  {
    assert (x - 1.0) * y == 0.0;
    ZeroProduct(x - 1.0, y);
  }

  /** Dividing a non-zero vector by its own hypot gives a vector of unit length. */
  lemma UnitByHypot(m: Math, a: real, b: real)
    requires Lawful(m) && m.hypot(a, b) != 0.0
    ensures Sq(a / m.hypot(a, b)) + Sq(b / m.hypot(a, b)) == 1.0
  {
    var h := m.hypot(a, b);
    assert HypotLaw(m, a, b);
    var u, v := a / h, b / h;
    assert u * h == a;
    assert v * h == b;
    assert Sq(u * h) == Sq(a);
    assert Sq(v * h) == Sq(b);
    assert Sq(u * h) + Sq(v * h) == Sq(h);
    assert (Sq(u) + Sq(v)) * Sq(h) == Sq(u * h) + Sq(v * h);
    SqPositive(h);
    CancelFactor(Sq(u) + Sq(v), Sq(h), Sq(u * h) + Sq(v * h));
  }

  /** Scaling a vector scales its squared length by the square of the factor. */
  lemma SqLengthScale(v: Vec2, k: real)
    ensures SqLength(v.Times(k)) == Sq(k) * SqLength(v)
  {
    SqOfProduct(v.x, k);
    SqOfProduct(v.y, k);
  }

  /** Scaling a vector by k >= 0 scales its length by k. */
  lemma LengthScaled(m: Math, v: Vec2, k: real)
    requires Lawful(m) && 0.0 <= k
    ensures Length(v.Times(k), m) == k * Length(v, m)
  {
    HypotScale(m, v.x, v.y, k);
    assert v.Times(k) == Vec2(v.x * k, v.y * k);
    assert Length(v.Times(k), m) == m.hypot(v.x * k, v.y * k);
  }

  /** A vector no longer than r is no longer than k * r once scaled by k >= 0. */
  lemma HypotScaleBound(m: Math, v: Vec2, k: real, r: real)
    requires Lawful(m) && 0.0 <= k && Length(v, m) <= r
    ensures Length(v.Times(k), m) <= k * r
  {
    LengthScaled(m, v, k);
    MulLeLeft(k, Length(v, m), r);
  }

  /** A unit vector times `k` has length |k|. */
  lemma UnitTimes(m: Math, u: Vec2, k: real)
    requires Lawful(m) && SqLength(u) == 1.0
    ensures Length(u.Times(k), m) == Abs(k)
  {
    var v := u.Times(k);
    assert HypotLaw(m, v.x, v.y);
    SqLengthScale(u, k);
    assert Sq(Abs(k)) == Sq(k);
    SquareRootUnique(Length(v, m), Abs(k));
  }
}
