/** Real-valued vector arithmetic, the clamp/lerp helpers of THREE.MathUtils,
    bounding spheres and boxes, the six-plane view volume, and the conventions
    for the math oracle (square root, cosine, sine) and the random oracle
    that stand in for Math.sqrt, Math.cos, Math.sin and Math.random. */
module Geometry {

  datatype Option<T> = None | Some(value: T)

  datatype Vec3 = Vec3(x: real, y: real, z: real)

  const Zero: Vec3 := Vec3(0.0, 0.0, 0.0)

  function Add(a: Vec3, b: Vec3): Vec3 { Vec3(a.x + b.x, a.y + b.y, a.z + b.z) }

  function Sub(a: Vec3, b: Vec3): Vec3 { Vec3(a.x - b.x, a.y - b.y, a.z - b.z) }

  function Scale(a: Vec3, k: real): Vec3 { Vec3(a.x * k, a.y * k, a.z * k) }

  function Dot(a: Vec3, b: Vec3): real { a.x * b.x + a.y * b.y + a.z * b.z }

  function LengthSq(a: Vec3): real { Dot(a, a) }

  /** Squared Euclidean distance. */
  function DistSq(a: Vec3, b: Vec3): real { LengthSq(Sub(a, b)) }

  /** Squared distance in the ground (x, z) plane, ignoring height. */
  function PlanarDistSq(a: Vec3, b: Vec3): real
  {
    (a.x - b.x) * (a.x - b.x) + (a.z - b.z) * (a.z - b.z)
  }

  function Max(a: real, b: real): real { if a >= b then a else b }

  function Min(a: real, b: real): real { if a <= b then a else b }

  /** Math.max of three components. */
  function Max3(a: real, b: real, c: real): real { Max(Max(a, b), c) }

  lemma Max3Bounds(a: real, b: real, c: real)
    ensures Max3(a, b, c) >= a && Max3(a, b, c) >= b && Max3(a, b, c) >= c
    ensures Max3(a, b, c) == a || Max3(a, b, c) == b || Max3(a, b, c) == c
  {
  }

  /** THREE.MathUtils.clamp(v, lo, hi) = Math.max(lo, Math.min(hi, v)). */
  function Clamp(v: real, lo: real, hi: real): (r: real)
    ensures lo <= hi ==> lo <= r <= hi
    ensures lo <= v <= hi ==> r == v
    ensures r == lo || r == hi || r == v
  {
    Max(lo, Min(hi, v))
  }

  /** THREE.MathUtils.lerp(a, b, t) = (1 - t) * a + t * b. */
  function Lerp(a: real, b: real, t: real): (r: real)
    requires 0.0 <= t <= 1.0
    ensures Min(a, b) <= r <= Max(a, b)
    ensures t == 0.0 ==> r == a
  {
    LerpBetween(a, b, t);
    (1.0 - t) * a + t * b
  }

  lemma LerpBetween(a: real, b: real, t: real)
    requires 0.0 <= t <= 1.0
    ensures Min(a, b) <= (1.0 - t) * a + t * b <= Max(a, b)
  {
    var r := (1.0 - t) * a + t * b;
    assert r == a + t * (b - a);
    if a <= b {
      MulBetween(t, b - a);
    } else {
      MulBetween(t, a - b);
      assert r == a - t * (a - b);
    }
  }

  lemma MulBetween(t: real, d: real)
    requires 0.0 <= t <= 1.0 && 0.0 <= d
    ensures 0.0 <= t * d <= d
  {
    assert d - t * d == (1.0 - t) * d;
  }

  /** Degrees to radians, with Math.PI written out as the double literal. */
  const Pi: real := 3.141592653589793

  function DegToRad(d: real): real { d * (Pi / 180.0) }

  // ---------------------------------------------------------------------------
  // The math oracle

  /** The functions the components take from Math: `sqrt` is characterised
      exactly; `cos` and `sin` are left arbitrary (only the cosine limit they
      produce, and a rotation's Pythagorean identity where it is needed, enter
      any property). */
  datatype MathLib = MathLib(sqrt: real -> real, cos: real -> real, sin: real -> real)
  {
    ghost predicate Valid() { IsSqrt(sqrt) }
  }

  ghost predicate IsSqrt(sqrt: real -> real)
  {
    forall v :: 0.0 <= v ==> 0.0 <= sqrt(v) && sqrt(v) * sqrt(v) == v
  }

  /** `Math.sqrt(d2) < c`, written without the square root. */
  predicate SqrtBelow(d2: real, c: real) { c > 0.0 && d2 < c * c }

  /** `Math.sqrt(d2) > c`, written without the square root. */
  predicate SqrtAbove(d2: real, c: real) { c < 0.0 || d2 > c * c }

  /** The square-root-free comparisons agree with the comparisons the source
      makes on `Math.sqrt` of a squared distance. */
  lemma SqrtCompare(sqrt: real -> real, d2: real, c: real)
    requires IsSqrt(sqrt) && 0.0 <= d2
    ensures sqrt(d2) < c <==> SqrtBelow(d2, c)
    ensures sqrt(d2) > c <==> SqrtAbove(d2, c)
  {
    var s := sqrt(d2);
    assert 0.0 <= s && s * s == d2;
    if s < c {
      assert s * s < c * c by { SquareMonotone(s, c); }
    }
    if SqrtBelow(d2, c) && s >= c {
      SquareMonotoneWeak(c, s);
      assert false;
    }
    if s > c && c >= 0.0 {
      assert c * c < s * s by { SquareMonotone(c, s); }
    }
    if SqrtAbove(d2, c) && s <= c {
      assert c >= 0.0;
      SquareMonotoneWeak(s, c);
      assert false;
    }
  }

  lemma SquareMonotone(a: real, b: real)
    requires 0.0 <= a < b
    ensures a * a < b * b
  {
    assert b * b - a * a == (b - a) * (b + a);
    assert (b - a) * (b + a) > 0.0 by { PositiveProduct(b - a, b + a); }
  }

  lemma SquareMonotoneWeak(a: real, b: real)
    requires 0.0 <= a <= b
    ensures a * a <= b * b
  {
    if a < b { SquareMonotone(a, b); }
  }

  lemma PositiveProduct(a: real, b: real)
    requires a > 0.0 && b > 0.0
    ensures a * b > 0.0
  {
  }

  lemma NonNegativeProduct(a: real, b: real)
    requires a >= 0.0 && b >= 0.0
    ensures a * b >= 0.0
  {
  }

  /** Scaling a vector by k scales its squared length by k * k. */
  lemma LengthSqScale(v: Vec3, k: real)
    ensures LengthSq(Scale(v, k)) == k * k * LengthSq(v)
  {
  }

  /** `d` points the same way as `v`. */
  ghost predicate PositiveMultiple(d: Vec3, v: Vec3)
  {
    exists k :: k > 0.0 && d == Scale(v, k)
  }

  /** Vector3.normalize() given the vector's length: divide by it, or by 1
      when it is 0. */
  function Normalize(v: Vec3, len: real): Vec3
  {
    Scale(v, 1.0 / (if len == 0.0 then 1.0 else len))
  }

  /** Normalising a non-zero vector by its length gives a unit vector
      pointing the same way. */
  lemma NormalizeUnit(v: Vec3, sqrt: real -> real)
    requires IsSqrt(sqrt) && LengthSq(v) > 0.0
    ensures LengthSq(Normalize(v, sqrt(LengthSq(v)))) == 1.0
    ensures PositiveMultiple(Normalize(v, sqrt(LengthSq(v))), v)
  {
    var len := sqrt(LengthSq(v));
    assert len * len == LengthSq(v) && len >= 0.0;
    assert len != 0.0;
    var k := 1.0 / len;
    assert k > 0.0;
    LengthSqScale(v, k);
    assert k * k * (len * len) == 1.0;
    assert Normalize(v, len) == Scale(v, k);
  }

  // ---------------------------------------------------------------------------
  // Spheres, boxes and the view volume

  datatype Sphere = Sphere(center: Vec3, radius: real)

  /** THREE.Box3 with its `min` and `max` corners. */
  datatype Box = Box(lo: Vec3, hi: Vec3)

  /** Box3.isEmpty: some maximum lies below its minimum. */
  predicate IsEmpty(b: Box)
  {
    b.hi.x < b.lo.x || b.hi.y < b.lo.y || b.hi.z < b.lo.z
  }

  predicate InBox(b: Box, p: Vec3)
  {
    b.lo.x <= p.x <= b.hi.x && b.lo.y <= p.y <= b.hi.y && b.lo.z <= p.z <= b.hi.z
  }

  /** Box3.getBoundingSphere of a non-empty box: its centre, and half the
      length of its diagonal. */
  function BoxSphere(b: Box, sqrt: real -> real): Sphere
  {
    Sphere(Scale(Add(b.lo, b.hi), 0.5), sqrt(LengthSq(Sub(b.hi, b.lo))) * 0.5)
  }

  /** Every point of a non-empty box lies inside its bounding sphere. */
  lemma BoxSphereContainsBox(b: Box, p: Vec3, sqrt: real -> real)
    requires IsSqrt(sqrt) && !IsEmpty(b) && InBox(b, p)
    ensures BoxSphere(b, sqrt).radius >= 0.0
    ensures DistSq(p, BoxSphere(b, sqrt).center) <= BoxSphere(b, sqrt).radius * BoxSphere(b, sqrt).radius
  {
    var s := BoxSphere(b, sqrt);
    var d := Sub(b.hi, b.lo);
    var len := sqrt(LengthSq(d));
    assert LengthSq(d) >= 0.0;
    assert len >= 0.0 && len * len == LengthSq(d);
    assert s.radius * s.radius == LengthSq(d) / 4.0;
    AxisHalf(b.lo.x, b.hi.x, p.x);
    AxisHalf(b.lo.y, b.hi.y, p.y);
    AxisHalf(b.lo.z, b.hi.z, p.z);
  }

  /** On one axis, a point of [lo, hi] is within half the width of the midpoint. */
  lemma AxisHalf(lo: real, hi: real, p: real)
    requires lo <= p <= hi
    ensures (p - (lo + hi) * 0.5) * (p - (lo + hi) * 0.5) <= (hi - lo) * (hi - lo) / 4.0
  {
    var m := (lo + hi) * 0.5;
    assert (p - m) * (p - m) + (p - lo) * (hi - p) == (hi - lo) * (hi - lo) / 4.0;
    NonNegativeProduct(p - lo, hi - p);
  }

  /** A THREE.Plane: signed distance of v is normal . v + constant. */
  datatype Plane = Plane(normal: Vec3, constant: real)

  function SignedDistance(p: Plane, v: Vec3): real { Dot(p.normal, v) + p.constant }

  /** THREE.Frustum: the six planes built by setFromProjectionMatrix. */
  datatype Frustum = Frustum(planes: seq<Plane>)

  /** Frustum.intersectsSphere: no plane has the centre further than the
      radius on its outer side. */
  predicate IntersectsSphere(f: Frustum, s: Sphere)
  {
    forall i :: 0 <= i < |f.planes| ==> SignedDistance(f.planes[i], s.center) >= -s.radius
  }

  // ---------------------------------------------------------------------------
  // The random oracle

  /** A sample of Math.random, which lies in [0, 1). */
  type Sample = r: real | 0.0 <= r < 1.0

  /** `rest` is what remains of `rand` after some samples were drawn. */
  ghost predicate Suffix(rest: seq<Sample>, rand: seq<Sample>)
  {
    |rest| <= |rand| && rest == rand[|rand| - |rest|..]
  }

  lemma SuffixTrans(a: seq<Sample>, b: seq<Sample>, c: seq<Sample>)
    requires Suffix(a, b) && Suffix(b, c)
    ensures Suffix(a, c)
  {
    assert c[|c| - |b|..][|b| - |a|..] == c[|c| - |a|..];
  }

  /** A sample scaled to [0, n) and floored, as Math.floor(Math.random() * n). */
  function Pick(r: Sample, n: nat): (k: nat)
    requires n > 0
    ensures k < n
  {
    var f := (r * n as real).Floor;
    assert 0.0 <= r * n as real < n as real by { PickBound(r, n); }
    f as nat
  }

  lemma PickBound(r: real, n: nat)
    requires 0.0 <= r < 1.0 && n > 0
    ensures 0.0 <= r * n as real < n as real
  {
    assert n as real - r * n as real == (1.0 - r) * n as real;
  }
}
