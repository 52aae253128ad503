/**
 * The fragment of Unity's linear algebra the core uses: vectors,
 * quaternions and `Matrix4x4`, over mathematical reals (every C# `float`
 * is a `real` here; IEEE-754 rounding is not modelled).
 */
module Linear {

  datatype Vec2 = Vec2(x: real, y: real)
  datatype Vec3 = Vec3(x: real, y: real, z: real)
  datatype Vec4 = Vec4(x: real, y: real, z: real, w: real)
  datatype Quat = Quat(x: real, y: real, z: real, w: real)

  /** A 4x4 matrix stored by rows: `r0` is row 0, and so on. */
  datatype Mat4 = Mat4(r0: Vec4, r1: Vec4, r2: Vec4, r3: Vec4)

  const Zero2: Vec2 := Vec2(0.0, 0.0)
  const Zero3: Vec3 := Vec3(0.0, 0.0, 0.0)
  const Zero4: Vec4 := Vec4(0.0, 0.0, 0.0, 0.0)
  const QuatIdentity: Quat := Quat(0.0, 0.0, 0.0, 1.0)
  const UnitW: Vec4 := Vec4(0.0, 0.0, 0.0, 1.0)

  /** `Matrix4x4.identity`. */
  const Identity: Mat4 := Mat4(Vec4(1.0, 0.0, 0.0, 0.0), Vec4(0.0, 1.0, 0.0, 0.0),
                               Vec4(0.0, 0.0, 1.0, 0.0), UnitW)

  /** `new Matrix4x4()`: the default struct value, all entries zero. */
  const ZeroMat: Mat4 := Mat4(Zero4, Zero4, Zero4, Zero4)

  function Add3(a: Vec3, b: Vec3): Vec3 { Vec3(a.x + b.x, a.y + b.y, a.z + b.z) }
  function Scale3(a: Vec3, k: real): Vec3 { Vec3(a.x * k, a.y * k, a.z * k) }
  function Scale4(a: Vec4, k: real): Vec4 { Vec4(a.x * k, a.y * k, a.z * k, a.w * k) }
  function Dot4(a: Vec4, b: Vec4): real { a.x * b.x + a.y * b.y + a.z * b.z + a.w * b.w }

  /** The implicit widening `Vector2 -> Vector3` (z = 0). */
  function Widen(v: Vec2): Vec3 { Vec3(v.x, v.y, 0.0) }

  /** A point as a homogeneous vector with w = 1. */
  function Homogeneous(p: Vec3): Vec4 { Vec4(p.x, p.y, p.z, 1.0) }

  /** The indexer `v[j]` of a `Vector3`. */
  function Comp3(v: Vec3, j: nat): real
    requires j < 3
  {
    if j == 0 then v.x else if j == 1 then v.y else v.z
  }

  /** The indexer `v[j]` of a `Vector4`. */
  function Comp(v: Vec4, j: nat): real
    requires j < 4
  {
    if j == 0 then v.x else if j == 1 then v.y else if j == 2 then v.z else v.w
  }

  function Row(m: Mat4, i: nat): Vec4
    requires i < 4
  {
    if i == 0 then m.r0 else if i == 1 then m.r1 else if i == 2 then m.r2 else m.r3
  }

  function Col(m: Mat4, j: nat): Vec4
    requires j < 4
  {
    Vec4(Comp(m.r0, j), Comp(m.r1, j), Comp(m.r2, j), Comp(m.r3, j))
  }

  /** The indexer `m[i, j]`: row i, column j. */
  function At(m: Mat4, i: nat, j: nat): real
    requires i < 4 && j < 4
  {
    Comp(Row(m, i), j)
  }

  function SetComp(v: Vec4, j: nat, a: real): Vec4
    requires j < 4
  {
    if j == 0 then v.(x := a) else if j == 1 then v.(y := a) else if j == 2 then v.(z := a) else v.(w := a)
  }

  /** `Matrix4x4.SetRow(i, v)`. */
  function SetRow(m: Mat4, i: nat, v: Vec4): (r: Mat4)
    requires i < 4
    ensures Row(r, i) == v
    ensures forall k :: 0 <= k < 4 && k != i ==> Row(r, k) == Row(m, k)
  {
    if i == 0 then m.(r0 := v) else if i == 1 then m.(r1 := v) else if i == 2 then m.(r2 := v) else m.(r3 := v)
  }

  /** The indexer assignment `m[i, j] = a`. */
  function SetAt(m: Mat4, i: nat, j: nat, a: real): (r: Mat4)
    requires i < 4 && j < 4
    ensures At(r, i, j) == a
    ensures forall p, q :: 0 <= p < 4 && 0 <= q < 4 && (p, q) != (i, j) ==> At(r, p, q) == At(m, p, q)
  {
    SetRow(m, i, SetComp(Row(m, i), j, a))
  }

  /** Unity's `new Matrix4x4(c0, c1, c2, c3)`: the four vectors are COLUMNS. */
  function FromColumns(c0: Vec4, c1: Vec4, c2: Vec4, c3: Vec4): (m: Mat4)
    ensures Col(m, 0) == c0 && Col(m, 1) == c1 && Col(m, 2) == c2 && Col(m, 3) == c3
  {
    Mat4(Vec4(c0.x, c1.x, c2.x, c3.x), Vec4(c0.y, c1.y, c2.y, c3.y),
         Vec4(c0.z, c1.z, c2.z, c3.z), Vec4(c0.w, c1.w, c2.w, c3.w))
  }

  /** `m * v` on a `Vector4`: each component is a row of m dotted with v. */
  function Apply(m: Mat4, v: Vec4): Vec4 {
    Vec4(Dot4(m.r0, v), Dot4(m.r1, v), Dot4(m.r2, v), Dot4(m.r3, v))
  }

  /** `a * b` on matrices. */
  function Mul(a: Mat4, b: Mat4): Mat4 {
    Mat4(RowTimes(a.r0, b), RowTimes(a.r1, b), RowTimes(a.r2, b), RowTimes(a.r3, b))
  }

  /** Row vector `v` times matrix `b`. */
  function RowTimes(v: Vec4, b: Mat4): Vec4 {
    Vec4(v.x * b.r0.x + v.y * b.r1.x + v.z * b.r2.x + v.w * b.r3.x,
         v.x * b.r0.y + v.y * b.r1.y + v.z * b.r2.y + v.w * b.r3.y,
         v.x * b.r0.z + v.y * b.r1.z + v.z * b.r2.z + v.w * b.r3.z,
         v.x * b.r0.w + v.y * b.r1.w + v.z * b.r2.w + v.w * b.r3.w)
  }

  /** `Matrix4x4.Translate(t)`. */
  function Translate(t: Vec3): Mat4 {
    Mat4(Vec4(1.0, 0.0, 0.0, t.x), Vec4(0.0, 1.0, 0.0, t.y), Vec4(0.0, 0.0, 1.0, t.z), UnitW)
  }

  /** A matrix whose bottom row is (0, 0, 0, 1). */
  predicate Affine(m: Mat4) { m.r3 == UnitW }

  /** A `Vector3` whose components may be infinite or NaN after a division by zero. */
  datatype Point3 = Finite(v: Vec3) | NonFinite

  /**
   * `Matrix4x4.MultiplyPoint(p)`: the homogeneous product divided by its w.
   * A zero w makes every float component infinite or NaN.
   */
  function MultiplyPoint(m: Mat4, p: Vec3): Point3 {
    var h := Apply(m, Homogeneous(p));
    if h.w == 0.0 then NonFinite else Finite(Vec3(h.x / h.w, h.y / h.w, h.z / h.w))
  }

  /** The x, y, z of `m * (p, 1)`: the part of MultiplyPoint before the division. */
  function AffinePoint(m: Mat4, p: Vec3): Vec3 {
    var h := Apply(m, Homogeneous(p));
    Vec3(h.x, h.y, h.z)
  }

  /** The C# cast `(int)x`: truncation toward zero. */
  function Trunc(x: real): (n: int)
    ensures x >= 0.0 ==> 0 <= n && n as real <= x < n as real + 1.0
    ensures x < 0.0 ==> n <= 0 && n as real - 1.0 < x <= n as real
  {
    if x >= 0.0 then x.Floor else -((-x).Floor)
  }

  /** C# `/` on `int`: the quotient truncated toward zero (Dafny's `/` is Euclidean). */
  function CsDiv(a: int, b: int): (q: int)
    requires b != 0
    ensures a >= 0 && b > 0 ==> q == a / b
    ensures a < 0 && b > 0 ==> q == -((-a) / b)
    ensures a >= 0 && b < 0 ==> q == -(a / (-b))
    ensures a < 0 && b < 0 ==> q == (-a) / (-b)
  {
    var m := (if a < 0 then -a else a) / (if b < 0 then -b else b);
    if (a < 0) == (b < 0) then m else -m
  }

  /** A matrix applied to a vector distributes over the product: (a b) v = a (b v). */
  lemma {:induction false} ApplyMul(a: Mat4, b: Mat4, v: Vec4)
    ensures Apply(Mul(a, b), v) == Apply(a, Apply(b, v))
  {
    RowTimesDot(a.r0, b, v);
    RowTimesDot(a.r1, b, v);
    RowTimesDot(a.r2, b, v);
    RowTimesDot(a.r3, b, v);
  }

  lemma {:induction false} RowTimesDot(u: Vec4, b: Mat4, v: Vec4)
    ensures Dot4(RowTimes(u, b), v) == Dot4(u, Apply(b, v))
  {
    var p, q, r, s := b.r0, b.r1, b.r2, b.r3;
    RowTimesDotExpanded(u, b, v);
    ApplyDotExpanded(u, b, v);
    Bilinear(u.x, u.y, u.z, u.w, p.x, p.y, p.z, p.w, q.x, q.y, q.z, q.w,
             r.x, r.y, r.z, r.w, s.x, s.y, s.z, s.w, v.x, v.y, v.z, v.w);
  }

  lemma {:induction false} RowTimesDotExpanded(u: Vec4, b: Mat4, v: Vec4)
    ensures Dot4(RowTimes(u, b), v)
         == (u.x * b.r0.x + u.y * b.r1.x + u.z * b.r2.x + u.w * b.r3.x) * v.x
          + (u.x * b.r0.y + u.y * b.r1.y + u.z * b.r2.y + u.w * b.r3.y) * v.y
          + (u.x * b.r0.z + u.y * b.r1.z + u.z * b.r2.z + u.w * b.r3.z) * v.z
          + (u.x * b.r0.w + u.y * b.r1.w + u.z * b.r2.w + u.w * b.r3.w) * v.w
  {
  }

  lemma {:induction false} ApplyDotExpanded(u: Vec4, b: Mat4, v: Vec4)
    ensures Dot4(u, Apply(b, v))
         == u.x * (b.r0.x * v.x + b.r0.y * v.y + b.r0.z * v.z + b.r0.w * v.w)
          + u.y * (b.r1.x * v.x + b.r1.y * v.y + b.r1.z * v.z + b.r1.w * v.w)
          + u.z * (b.r2.x * v.x + b.r2.y * v.y + b.r2.z * v.z + b.r2.w * v.w)
          + u.w * (b.r3.x * v.x + b.r3.y * v.y + b.r3.z * v.z + b.r3.w * v.w)
  {
  }

  /** The scalar identity behind the associativity of the matrix products. */
  lemma {:induction false} Bilinear(u0: real, u1: real, u2: real, u3: real,
                                    b00: real, b01: real, b02: real, b03: real,
                                    b10: real, b11: real, b12: real, b13: real,
                                    b20: real, b21: real, b22: real, b23: real,
                                    b30: real, b31: real, b32: real, b33: real,
                                    v0: real, v1: real, v2: real, v3: real)
    ensures (u0 * b00 + u1 * b10 + u2 * b20 + u3 * b30) * v0
          + (u0 * b01 + u1 * b11 + u2 * b21 + u3 * b31) * v1
          + (u0 * b02 + u1 * b12 + u2 * b22 + u3 * b32) * v2
          + (u0 * b03 + u1 * b13 + u2 * b23 + u3 * b33) * v3
         == u0 * (b00 * v0 + b01 * v1 + b02 * v2 + b03 * v3)
          + u1 * (b10 * v0 + b11 * v1 + b12 * v2 + b13 * v3)
          + u2 * (b20 * v0 + b21 * v1 + b22 * v2 + b23 * v3)
          + u3 * (b30 * v0 + b31 * v1 + b32 * v2 + b33 * v3)
  {
    ColumnTerm(u0, u1, u2, u3, b00, b10, b20, b30, v0);
    ColumnTerm(u0, u1, u2, u3, b01, b11, b21, b31, v1);
    ColumnTerm(u0, u1, u2, u3, b02, b12, b22, b32, v2);
    ColumnTerm(u0, u1, u2, u3, b03, b13, b23, b33, v3);
    RowTerm(u0, b00, b01, b02, b03, v0, v1, v2, v3);
    RowTerm(u1, b10, b11, b12, b13, v0, v1, v2, v3);
    RowTerm(u2, b20, b21, b22, b23, v0, v1, v2, v3);
    RowTerm(u3, b30, b31, b32, b33, v0, v1, v2, v3);
  }

  lemma {:induction false} ColumnTerm(a: real, b: real, c: real, d: real, p: real, q: real, r: real, s: real, e: real)
    ensures (a * p + b * q + c * r + d * s) * e == a * (p * e) + b * (q * e) + c * (r * e) + d * (s * e)
  {
  }

  lemma {:induction false} RowTerm(k: real, p: real, q: real, r: real, s: real, a: real, b: real, c: real, d: real)
    ensures k * (p * a + q * b + r * c + s * d) == k * (p * a) + k * (q * b) + k * (r * c) + k * (s * d)
  {
  }

  /** Multiplying by an affine matrix keeps the homogeneous w of a point at 1. */
  lemma {:induction false} AffineKeepsW(m: Mat4, p: Vec3)
    requires Affine(m)
    ensures Apply(m, Homogeneous(p)).w == 1.0
    ensures MultiplyPoint(m, p) == Finite(AffinePoint(m, p))
  {
  }

  /** The product of affine matrices is affine. */
  lemma {:induction false} MulAffine(a: Mat4, b: Mat4)
    requires Affine(a) && Affine(b)
    ensures Affine(Mul(a, b))
  {
  }

  lemma {:induction false} IdentityNeutral(m: Mat4, v: Vec4)
    ensures Mul(Identity, m) == m && Mul(m, Identity) == m
    ensures Apply(Identity, v) == v
  {
  }
}
