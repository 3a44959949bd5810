/**
 * Exact real-valued 2- and 3-vectors standing in for three.js `Vector2`/`Vector3`,
 * and the affine world matrix of a mesh.
 *
 * Square roots are not definable over Dafny's reals, so the operations that need a length
 * (`normalize`, `length`) take the length function as a parameter and are only trusted
 * under `IsLength(length)`; `distanceTo` comparisons use squared distances instead, which
 * order points the same way.
 */
module Vectors {
  datatype Vec2 = Vec2(x: real, y: real)
  datatype Vec3 = Vec3(x: real, y: real, z: real)

  const Zero3 := Vec3(0.0, 0.0, 0.0)

  function Sub2(a: Vec2, b: Vec2): Vec2 { Vec2(a.x - b.x, a.y - b.y) }
  function Dot2(a: Vec2, b: Vec2): real { a.x * b.x + a.y * b.y }

  /** Squared Euclidean distance between two texture coordinates. */
  function DistSq2(a: Vec2, b: Vec2): (d: real)
    ensures d >= 0.0
  {
    var e := Sub2(a, b);
    SquareNonNegative(e.x);
    SquareNonNegative(e.y);
    e.x * e.x + e.y * e.y
  }

  function Add3(a: Vec3, b: Vec3): Vec3 { Vec3(a.x + b.x, a.y + b.y, a.z + b.z) }
  function Sub3(a: Vec3, b: Vec3): Vec3 { Vec3(a.x - b.x, a.y - b.y, a.z - b.z) }
  function Scale3(a: Vec3, k: real): Vec3 { Vec3(a.x * k, a.y * k, a.z * k) }
  function Dot3(a: Vec3, b: Vec3): real { a.x * b.x + a.y * b.y + a.z * b.z }
  function NormSq3(a: Vec3): real { a.x * a.x + a.y * a.y + a.z * a.z }

  lemma MulPositive(a: real, b: real)
    requires a > 0.0 && b > 0.0
    ensures a * b > 0.0
  {
  }

  lemma SquarePositive(x: real)
    requires x != 0.0
    ensures x * x > 0.0
  {
    if x > 0.0 {
      MulPositive(x, x);
    } else {
      var y := -x;
      MulPositive(y, y);
      assert x * x == y * y;
    }
  }

  lemma SquareNonNegative(x: real)
    ensures x * x >= 0.0
  {
    if x != 0.0 {
      SquarePositive(x);
    }
  }

  lemma NormSqNonNegative(a: Vec3)
    ensures NormSq3(a) >= 0.0
  {
    SquareNonNegative(a.x);
    SquareNonNegative(a.y);
    SquareNonNegative(a.z);
  }

  /** `start + (end - start) * t` component-wise: the point `lerpVector3` writes into its target. */
  function Lerp3(a: Vec3, b: Vec3, t: real): Vec3
  {
    Vec3(a.x + (b.x - a.x) * t, a.y + (b.y - a.y) * t, a.z + (b.z - a.z) * t)
  }

  lemma LerpEndpoints(a: Vec3, b: Vec3)
    ensures Lerp3(a, b, 0.0) == a
    ensures Lerp3(a, b, 1.0) == b
  {
  }

  /**
   * `length` is the Euclidean length (`Vector3.length`): non-negative, squaring to the
   * squared length, and zero exactly on the zero vector.
   */
  ghost predicate IsLength(length: Vec3 -> real)
  {
    forall v: Vec3 {:trigger length(v)} ::
      0.0 <= length(v) && length(v) * length(v) == NormSq3(v) && (length(v) == 0.0 <==> v == Zero3)
  }

  /** three.js `normalize`: divide by the length, or by 1 when the length is 0. */
  function Normalize3(a: Vec3, length: Vec3 -> real): Vec3
  {
    var len := length(a);
    if len == 0.0 then a else Scale3(a, 1.0 / len)
  }

  lemma NormSqScale(a: Vec3, k: real)
    ensures NormSq3(Scale3(a, k)) == k * k * NormSq3(a)
  {
  }

  /** `(1/l)^2 * (l*l) == 1`, the step that makes a normalised vector unit length. */
  lemma InverseSquared(l: real, n: real)
    requires l > 0.0 && l * l == n
    ensures (1.0 / l) * (1.0 / l) * n == 1.0
  {
    var k := 1.0 / l;
    assert k * l == 1.0;
    assert k * k * (l * l) == (k * l) * (k * l);
  }

  /** A non-zero vector normalises to unit length; the zero vector stays zero. */
  lemma NormalizeUnit(a: Vec3, length: Vec3 -> real)
    requires IsLength(length)
    ensures a != Zero3 ==> NormSq3(Normalize3(a, length)) == 1.0
    ensures a == Zero3 ==> Normalize3(a, length) == Zero3
  {
    var len := length(a);
    if a != Zero3 {
      var k := 1.0 / len;
      assert Normalize3(a, length) == Scale3(a, k);
      NormSqScale(a, k);
      InverseSquared(len, NormSq3(a));
    }
  }

  /** A transformed direction has unit length, or is zero when the matrix sends it to zero. */
  lemma TransformDirectionUnit(m: Affine, d: Vec3, length: Vec3 -> real)
    requires IsLength(length)
    ensures TransformDirection(m, d, length) == Zero3 || NormSq3(TransformDirection(m, d, length)) == 1.0
  {
    NormalizeUnit(Linear(m, d), length);
  }

  lemma ProductBound(x: real, y: real)
    ensures 2.0 * (x * y) <= x * x + y * y
    ensures -2.0 * (x * y) <= x * x + y * y
  {
    SquareNonNegative(x - y);
    SquareNonNegative(x + y);
    assert (x - y) * (x - y) == x * x + y * y - 2.0 * (x * y);
    assert (x + y) * (x + y) == x * x + y * y + 2.0 * (x * y);
  }

  /** `2 a.b <= |a|^2 + |b|^2` and `-2 a.b <= |a|^2 + |b|^2`. */
  lemma DotBound(a: Vec3, b: Vec3)
    ensures 2.0 * Dot3(a, b) <= NormSq3(a) + NormSq3(b)
    ensures -2.0 * Dot3(a, b) <= NormSq3(a) + NormSq3(b)
  {
    ProductBound(a.x, b.x);
    ProductBound(a.y, b.y);
    ProductBound(a.z, b.z);
  }

  /**
   * The world matrix of a mesh. three.js composes it from position, rotation and scale,
   * so its last row is (0, 0, 0, 1) and `applyMatrix4` never divides by a w other than 1.
   */
  datatype Affine = Affine(
    m00: real, m01: real, m02: real,
    m10: real, m11: real, m12: real,
    m20: real, m21: real, m22: real,
    tx: real, ty: real, tz: real)

  const Identity := Affine(1.0, 0.0, 0.0, 0.0, 1.0, 0.0, 0.0, 0.0, 1.0, 0.0, 0.0, 0.0)

  function Linear(m: Affine, v: Vec3): Vec3
  {
    Vec3(m.m00 * v.x + m.m01 * v.y + m.m02 * v.z,
         m.m10 * v.x + m.m11 * v.y + m.m12 * v.z,
         m.m20 * v.x + m.m21 * v.y + m.m22 * v.z)
  }

  /** `Vector3.applyMatrix4` for an affine matrix. */
  function ApplyPoint(m: Affine, p: Vec3): Vec3
  {
    Add3(Linear(m, p), Vec3(m.tx, m.ty, m.tz))
  }

  /** `Vector3.transformDirection`: the linear part only, then normalised. */
  function TransformDirection(m: Affine, d: Vec3, length: Vec3 -> real): Vec3
  {
    Normalize3(Linear(m, d), length)
  }

  /** The weighted sum `w.x*p + w.y*q + w.z*r` of three points. */
  function Combine3(p: Vec3, q: Vec3, r: Vec3, w: Vec3): Vec3
  {
    Add3(Add3(Scale3(p, w.x), Scale3(q, w.y)), Scale3(r, w.z))
  }
}
