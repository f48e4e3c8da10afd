/** Unity's Vector2 and Vector3 over the reals, restricted to the operations the
    movement script uses.

    Floating point is replaced by exact real arithmetic. Dafny has no square
    root, so every operation that needs one (Vector3.magnitude, Vector3.normalized,
    Vector3.Distance) takes the engine's square root as a parameter `sqrt`;
    `IsSqrt` states what that routine is expected to return. */
module Vectors {

  datatype Vec2 = Vec2(x: real, y: real)

  datatype Vec3 = Vec3(x: real, y: real, z: real)

  const Zero: Vec3 := Vec3(0.0, 0.0, 0.0)

  /** Vector3.kEpsilon: Vector3.Normalize returns the zero vector when the
      magnitude is not above this value. */
  const NormalizeEpsilon: real := 0.00001

  function Add(a: Vec3, b: Vec3): Vec3 {
    Vec3(a.x + b.x, a.y + b.y, a.z + b.z)
  }

  function Sub(a: Vec3, b: Vec3): Vec3 {
    Vec3(a.x - b.x, a.y - b.y, a.z - b.z)
  }

  function Scale(v: Vec3, c: real): Vec3 {
    Vec3(v.x * c, v.y * c, v.z * c)
  }

  function Dot(a: Vec3, b: Vec3): real {
    a.x * b.x + a.y * b.y + a.z * b.z
  }

  function Cross(a: Vec3, b: Vec3): Vec3 {
    Vec3(a.y * b.z - a.z * b.y, a.z * b.x - a.x * b.z, a.x * b.y - a.y * b.x)
  }

  /** Vector3.sqrMagnitude. */
  function SqrMag(v: Vec3): (r: real)
  {
    v.x * v.x + v.y * v.y + v.z * v.z
  }

  /** Vector2.sqrMagnitude. */
  function SqrMag2(v: Vec2): (r: real)
  {
    v.x * v.x + v.y * v.y
  }

  /** `new Vector3(v.x, 0, v.y)`: a stick or key vector laid on the ground plane. */
  function Planar(v: Vec2): (r: Vec3)
    ensures r.y == 0.0
    ensures SqrMag(r) == SqrMag2(v)
  {
    Vec3(v.x, 0.0, v.y)
  }

  /** What the engine's square root is expected to compute on the reals. */
  ghost predicate IsSqrt(sqrt: real -> real) {
    forall s: real :: 0.0 <= s ==> 0.0 <= sqrt(s) && sqrt(s) * sqrt(s) == s
  }

  /** Vector3.magnitude. */
  function Magnitude(v: Vec3, sqrt: real -> real): real {
    sqrt(SqrMag(v))
  }

  /** Vector3.Distance. */
  function Distance(a: Vec3, b: Vec3, sqrt: real -> real): real {
    Magnitude(Sub(a, b), sqrt)
  }

  /** The factor by which Vector3.Normalize scales its argument: the inverse
      magnitude, or 0 for a vector too short to normalize. */
  function NormFactor(v: Vec3, sqrt: real -> real): real {
    var mag := Magnitude(v, sqrt);
    if mag > NormalizeEpsilon then 1.0 / mag else 0.0
  }

  /** Vector3.normalized. */
  function Normalized(v: Vec3, sqrt: real -> real): (n: Vec3)
    ensures v.y == 0.0 ==> n.y == 0.0
  {
    Scale(v, NormFactor(v, sqrt))
  }

  /** Squaring is strictly increasing on the non-negative reals. */
  lemma SquareMonotone(a: real, b: real)
    requires 0.0 <= a < b
    ensures a * a < b * b
  {
    calc {
      a * a;
      <= a * b;
      < b * b;
    }
  }

  /** The square root of a perfect square is its non-negative root. */
  lemma SqrtOfSquare(sqrt: real -> real, r: real)
    requires IsSqrt(sqrt)
    requires r >= 0.0
    ensures sqrt(r * r) == r
  {
    var m := sqrt(r * r);
    assert 0.0 <= m && m * m == r * r;
    if m > r {
      SquareMonotone(r, m);
    } else if m < r {
      SquareMonotone(m, r);
    }
  }

  /** The square root is strictly monotone: comparing magnitudes against a
      non-negative bound is the same as comparing squared magnitudes against
      the squared bound. */
  lemma SqrtAbove(sqrt: real -> real, s: real, bound: real)
    requires IsSqrt(sqrt)
    requires s >= 0.0 && bound >= 0.0
    ensures sqrt(s) > bound <==> s > bound * bound
  {
    var m := sqrt(s);
    assert 0.0 <= m && m * m == s;
    if m > bound {
      SquareMonotone(bound, m);
    } else if m < bound {
      SquareMonotone(m, bound);
    }
  }

  /** For every vector long enough to normalize, Vector3.Normalize scales it by
      a positive factor k with k * k * sqrMagnitude == 1. */
  lemma NormFactorIsInverseLength(v: Vec3, sqrt: real -> real)
    requires IsSqrt(sqrt)
    requires SqrMag(v) > NormalizeEpsilon * NormalizeEpsilon
    ensures NormFactor(v, sqrt) > 0.0
    ensures NormFactor(v, sqrt) * NormFactor(v, sqrt) * SqrMag(v) == 1.0
  {
    var s := SqrMag(v);
    var m := sqrt(s);
    SqrtAbove(sqrt, s, NormalizeEpsilon);
    assert m > NormalizeEpsilon && m * m == s;
    var k := 1.0 / m;
    assert k * m == 1.0;
    calc {
      k * k * s;
      k * k * (m * m);
      (k * m) * (k * m);
      1.0;
    }
  }

  /** A scalar multiple of `v` is parallel to it, and its squared length
      scales by the square of the factor. */
  lemma ScaleGeometry(v: Vec3, c: real)
    ensures Cross(Scale(v, c), v) == Zero
    ensures Dot(Scale(v, c), v) == c * SqrMag(v)
    ensures SqrMag(Scale(v, c)) == c * c * SqrMag(v)
  {
    assert v.x * c * v.x == c * (v.x * v.x);
    assert v.y * c * v.y == c * (v.y * v.y);
    assert v.z * c * v.z == c * (v.z * v.z);
    assert (v.x * c) * (v.x * c) == c * c * (v.x * v.x);
    assert (v.y * c) * (v.y * c) == c * c * (v.y * v.y);
    assert (v.z * c) * (v.z * c) == c * c * (v.z * v.z);
  }

  /** Scaling twice is scaling by the product of the factors. */
  lemma ScaleScale(v: Vec3, a: real, b: real)
    ensures Scale(Scale(v, a), b) == Scale(v, a * b)
  {
    assert v.x * a * b == v.x * (a * b);
    assert v.y * a * b == v.y * (a * b);
    assert v.z * a * b == v.z * (a * b);
  }

  /** The scalar facts behind ScaledUnitGeometry, kept apart from the vectors. */
  lemma InverseLengthScalars(k: real, len: real, q: real)
    requires k > 0.0 && k * k * q == 1.0
    ensures (k * len) * (k * len) * q == len * len
    ensures len > 0.0 ==> (k * len) * q > 0.0
    ensures len < 0.0 ==> (k * len) * q < 0.0
  {
    assert q > 0.0;
    calc {
      (k * len) * (k * len) * q;
      (k * k * q) * (len * len);
      len * len;
    }
  }

  /** Scaling a vector first by a positive inverse-length factor `k` and then
      by `len` gives a vector parallel to it, pointing along it when `len` is
      positive and against it when negative, whose squared length is len * len. */
  lemma ScaledUnitGeometry(dir: Vec3, k: real, len: real)
    requires k > 0.0 && k * k * SqrMag(dir) == 1.0
    ensures Cross(Scale(Scale(dir, k), len), dir) == Zero
    ensures len > 0.0 ==> Dot(Scale(Scale(dir, k), len), dir) > 0.0
    ensures len < 0.0 ==> Dot(Scale(Scale(dir, k), len), dir) < 0.0
    ensures SqrMag(Scale(Scale(dir, k), len)) == len * len
  {
    ScaleScale(dir, k, len);
    ScaleGeometry(dir, k * len);
    InverseLengthScalars(k, len, SqrMag(dir));
  }

  /** The normalized `dir` scaled by `len` lies along `dir` (against it when
      `len` is negative) and has squared length len * len. */
  lemma ScaledNormalGeometry(dir: Vec3, len: real, sqrt: real -> real)
    requires IsSqrt(sqrt)
    requires SqrMag(dir) > NormalizeEpsilon * NormalizeEpsilon
    ensures Cross(Scale(Normalized(dir, sqrt), len), dir) == Zero
    ensures len > 0.0 ==> Dot(Scale(Normalized(dir, sqrt), len), dir) > 0.0
    ensures len < 0.0 ==> Dot(Scale(Normalized(dir, sqrt), len), dir) < 0.0
    ensures SqrMag(Scale(Normalized(dir, sqrt), len)) == len * len
  {
    var k := NormFactor(dir, sqrt);
    assert k > 0.0 && k * k * SqrMag(dir) == 1.0 by {
      NormFactorIsInverseLength(dir, sqrt);
    }
    assert Normalized(dir, sqrt) == Scale(dir, k);
    ScaledUnitGeometry(dir, k, len);
  }
}
