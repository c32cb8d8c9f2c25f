/** Value-level specification of the 4x4 matrices that every demo builds.
    A matrix is the 16 floats the demos store; field mRC is entry (row R,
    column C). C's float m[4][4] and the flat float[16] buffers both keep
    entry (R, C) at position R * 4 + C, so one definition serves all copies
    of the matrix code. Floats are modelled as reals. */
module Mat4Spec {

  datatype Mat4 = Mat4(m00: real, m01: real, m02: real, m03: real,
                       m10: real, m11: real, m12: real, m13: real,
                       m20: real, m21: real, m22: real, m23: real,
                       m30: real, m31: real, m32: real, m33: real)

  /** A homogeneous 4-vector. */
  datatype Vec4 = Vec4(x: real, y: real, z: real, w: real)

  /** The product of two reals. Sums of products are written with this name, so
      that replacing a factor inside a sum is congruence, not nonlinear reasoning. */
  function Times(x: real, y: real): real {
    x * y
  }

  /** The row-by-column product: entry (r, c) is the sum over k of a(r, k) * b(k, c). */
  function Mul(a: Mat4, b: Mat4): Mat4 {
    Mat4(
      Times(a.m00, b.m00) + Times(a.m01, b.m10) + Times(a.m02, b.m20) + Times(a.m03, b.m30),
      Times(a.m00, b.m01) + Times(a.m01, b.m11) + Times(a.m02, b.m21) + Times(a.m03, b.m31),
      Times(a.m00, b.m02) + Times(a.m01, b.m12) + Times(a.m02, b.m22) + Times(a.m03, b.m32),
      Times(a.m00, b.m03) + Times(a.m01, b.m13) + Times(a.m02, b.m23) + Times(a.m03, b.m33),
      Times(a.m10, b.m00) + Times(a.m11, b.m10) + Times(a.m12, b.m20) + Times(a.m13, b.m30),
      Times(a.m10, b.m01) + Times(a.m11, b.m11) + Times(a.m12, b.m21) + Times(a.m13, b.m31),
      Times(a.m10, b.m02) + Times(a.m11, b.m12) + Times(a.m12, b.m22) + Times(a.m13, b.m32),
      Times(a.m10, b.m03) + Times(a.m11, b.m13) + Times(a.m12, b.m23) + Times(a.m13, b.m33),
      Times(a.m20, b.m00) + Times(a.m21, b.m10) + Times(a.m22, b.m20) + Times(a.m23, b.m30),
      Times(a.m20, b.m01) + Times(a.m21, b.m11) + Times(a.m22, b.m21) + Times(a.m23, b.m31),
      Times(a.m20, b.m02) + Times(a.m21, b.m12) + Times(a.m22, b.m22) + Times(a.m23, b.m32),
      Times(a.m20, b.m03) + Times(a.m21, b.m13) + Times(a.m22, b.m23) + Times(a.m23, b.m33),
      Times(a.m30, b.m00) + Times(a.m31, b.m10) + Times(a.m32, b.m20) + Times(a.m33, b.m30),
      Times(a.m30, b.m01) + Times(a.m31, b.m11) + Times(a.m32, b.m21) + Times(a.m33, b.m31),
      Times(a.m30, b.m02) + Times(a.m31, b.m12) + Times(a.m32, b.m22) + Times(a.m33, b.m32),
      Times(a.m30, b.m03) + Times(a.m31, b.m13) + Times(a.m32, b.m23) + Times(a.m33, b.m33))
  }

  /** The matrix applied to a column vector: component r is the sum over k of m(r, k) * v[k]. */
  function Apply(m: Mat4, v: Vec4): Vec4 {
    Vec4(
      Times(m.m00, v.x) + Times(m.m01, v.y) + Times(m.m02, v.z) + Times(m.m03, v.w),
      Times(m.m10, v.x) + Times(m.m11, v.y) + Times(m.m12, v.z) + Times(m.m13, v.w),
      Times(m.m20, v.x) + Times(m.m21, v.y) + Times(m.m22, v.z) + Times(m.m23, v.w),
      Times(m.m30, v.x) + Times(m.m31, v.y) + Times(m.m32, v.z) + Times(m.m33, v.w))
  }

  function Identity(): Mat4 {
    Mat4(1.0, 0.0, 0.0, 0.0,
         0.0, 1.0, 0.0, 0.0,
         0.0, 0.0, 1.0, 0.0,
         0.0, 0.0, 0.0, 1.0)
  }

  function Transpose(m: Mat4): Mat4 {
    Mat4(m.m00, m.m10, m.m20, m.m30,
         m.m01, m.m11, m.m21, m.m31,
         m.m02, m.m12, m.m22, m.m32,
         m.m03, m.m13, m.m23, m.m33)
  }

  /** The identity with the offsets (x, y, z) at flat positions 12, 13 and 14. */
  function Translation(x: real, y: real, z: real): Mat4 {
    Mat4(1.0, 0.0, 0.0, 0.0,
         0.0, 1.0, 0.0, 0.0,
         0.0, 0.0, 1.0, 0.0,
         x, y, z, 1.0)
  }

  /** The identity with the diagonal (sx, sy, sz, 1). */
  function Scaling(sx: real, sy: real, sz: real): Mat4 {
    Mat4(sx, 0.0, 0.0, 0.0,
         0.0, sy, 0.0, 0.0,
         0.0, 0.0, sz, 0.0,
         0.0, 0.0, 0.0, 1.0)
  }

  /** The rotation about the Y axis by the angle whose cosine is c and whose sine is s. */
  function RotationY(c: real, s: real): Mat4 {
    Mat4(c, 0.0, s, 0.0,
         0.0, 1.0, 0.0, 0.0,
         -s, 0.0, c, 0.0,
         0.0, 0.0, 0.0, 1.0)
  }

  /** The perspective layout: four free entries, -1 at position 11 and 0 at position 15. */
  function Projection(m0: real, m5: real, m10: real, m14: real): Mat4 {
    Mat4(m0, 0.0, 0.0, 0.0,
         0.0, m5, 0.0, 0.0,
         0.0, 0.0, m10, -1.0,
         0.0, 0.0, m14, 0.0)
  }

  // ---------------------------------------------------------------------
  // The flat float[16] view

  /** The matrix stored in a flat buffer, entry (r, c) at position r * 4 + c. */
  function FromSeq(s: seq<real>): Mat4
    requires |s| == 16
  {
    Mat4(s[0], s[1], s[2], s[3],
         s[4], s[5], s[6], s[7],
         s[8], s[9], s[10], s[11],
         s[12], s[13], s[14], s[15])
  }

  /** The flat buffer holding m. */
  function ToSeq(m: Mat4): (s: seq<real>)
    ensures |s| == 16
  {
    [m.m00, m.m01, m.m02, m.m03, m.m10, m.m11, m.m12, m.m13, m.m20, m.m21, m.m22, m.m23, m.m30, m.m31, m.m32, m.m33]
  }

  /** Entry (r, c) of m. */
  function Get(m: Mat4, r: nat, c: nat): real
    requires r < 4 && c < 4
  {
    ToSeq(m)[r * 4 + c]
  }

  /** The matrix held by a float[16] buffer, read row by row. OpenGL, given the
      same buffer by glUniformMatrix4fv without transposition, reads it column by
      column and so sees Transpose(Flat(a)). */
  function Flat(a: array<real>): Mat4
    reads a
    requires a.Length == 16
  {
    FromSeq(a[..])
  }

  lemma FromSeqToSeq(m: Mat4)
    ensures FromSeq(ToSeq(m)) == m
  {
  }

  lemma ToSeqFromSeq(s: seq<real>)
    requires |s| == 16
    ensures ToSeq(FromSeq(s)) == s
  {
  }

  /** The first n terms of the sum for entry (r, c) of the product of two flat
      buffers, accumulated in the order the C loops use. */
  function RowCol(s: seq<real>, t: seq<real>, r: nat, c: nat, n: nat): real
    requires |s| == 16 && |t| == 16 && r < 4 && c < 4 && n <= 4
  {
    if n == 0 then 0.0 else RowCol(s, t, r, c, n - 1) + Times(s[r * 4 + n - 1], t[(n - 1) * 4 + c])
  }

  lemma RowColFour(s: seq<real>, t: seq<real>, r: nat, c: nat)
    requires |s| == 16 && |t| == 16 && r < 4 && c < 4
    ensures RowCol(s, t, r, c, 4) == Times(s[r * 4 + 0], t[0 * 4 + c]) + Times(s[r * 4 + 1], t[1 * 4 + c]) + Times(s[r * 4 + 2], t[2 * 4 + c]) + Times(s[r * 4 + 3], t[3 * 4 + c])
  {
    assert RowCol(s, t, r, c, 1) == Times(s[r * 4], t[c]);
    assert RowCol(s, t, r, c, 2) == RowCol(s, t, r, c, 1) + Times(s[r * 4 + 1], t[4 + c]);
    assert RowCol(s, t, r, c, 3) == RowCol(s, t, r, c, 2) + Times(s[r * 4 + 2], t[8 + c]);
  }

  /** A buffer whose every entry holds the complete sum is the product. */
  lemma ProductOfCells(u: seq<real>, s: seq<real>, t: seq<real>)
    requires |u| == 16 && |s| == 16 && |t| == 16
    requires forall r, c :: r < 4 && c < 4 ==> u[r * 4 + c] == RowCol(s, t, r, c, 4)
    ensures FromSeq(u) == Mul(FromSeq(s), FromSeq(t))
  {
    Row0OfCells(u, s, t);
    Row1OfCells(u, s, t);
    Row2OfCells(u, s, t);
    Row3OfCells(u, s, t);
  }

  /** The first row of such a buffer is the first row of the product. */
  lemma Row0OfCells(u: seq<real>, s: seq<real>, t: seq<real>)
    requires |u| == 16 && |s| == 16 && |t| == 16
    requires u[0] == RowCol(s, t, 0, 0, 4) && u[1] == RowCol(s, t, 0, 1, 4) && u[2] == RowCol(s, t, 0, 2, 4) && u[3] == RowCol(s, t, 0, 3, 4)
    ensures var p := Mul(FromSeq(s), FromSeq(t)); u[0] == p.m00 && u[1] == p.m01 && u[2] == p.m02 && u[3] == p.m03
  {
    RowColFour(s, t, 0, 0);
    RowColFour(s, t, 0, 1);
    RowColFour(s, t, 0, 2);
    RowColFour(s, t, 0, 3);
  }

  /** The second row of such a buffer is the second row of the product. */
  lemma Row1OfCells(u: seq<real>, s: seq<real>, t: seq<real>)
    requires |u| == 16 && |s| == 16 && |t| == 16
    requires u[4] == RowCol(s, t, 1, 0, 4) && u[5] == RowCol(s, t, 1, 1, 4) && u[6] == RowCol(s, t, 1, 2, 4) && u[7] == RowCol(s, t, 1, 3, 4)
    ensures var p := Mul(FromSeq(s), FromSeq(t)); u[4] == p.m10 && u[5] == p.m11 && u[6] == p.m12 && u[7] == p.m13
  {
    RowColFour(s, t, 1, 0);
    RowColFour(s, t, 1, 1);
    RowColFour(s, t, 1, 2);
    RowColFour(s, t, 1, 3);
  }

  /** The third row of such a buffer is the third row of the product. */
  lemma Row2OfCells(u: seq<real>, s: seq<real>, t: seq<real>)
    requires |u| == 16 && |s| == 16 && |t| == 16
    requires u[8] == RowCol(s, t, 2, 0, 4) && u[9] == RowCol(s, t, 2, 1, 4) && u[10] == RowCol(s, t, 2, 2, 4) && u[11] == RowCol(s, t, 2, 3, 4)
    ensures var p := Mul(FromSeq(s), FromSeq(t)); u[8] == p.m20 && u[9] == p.m21 && u[10] == p.m22 && u[11] == p.m23
  {
    RowColFour(s, t, 2, 0);
    RowColFour(s, t, 2, 1);
    RowColFour(s, t, 2, 2);
    RowColFour(s, t, 2, 3);
  }

  /** The fourth row of such a buffer is the fourth row of the product. */
  lemma Row3OfCells(u: seq<real>, s: seq<real>, t: seq<real>)
    requires |u| == 16 && |s| == 16 && |t| == 16
    requires u[12] == RowCol(s, t, 3, 0, 4) && u[13] == RowCol(s, t, 3, 1, 4) && u[14] == RowCol(s, t, 3, 2, 4) && u[15] == RowCol(s, t, 3, 3, 4)
    ensures var p := Mul(FromSeq(s), FromSeq(t)); u[12] == p.m30 && u[13] == p.m31 && u[14] == p.m32 && u[15] == p.m33
  {
    RowColFour(s, t, 3, 0);
    RowColFour(s, t, 3, 1);
    RowColFour(s, t, 3, 2);
    RowColFour(s, t, 3, 3);
  }

  // ---------------------------------------------------------------------
  // Algebraic laws

  /** Entry (r, c) of the identity is 1 exactly when r == c, which puts the ones at
      flat positions 0, 5, 10 and 15. */
  lemma IdentityEntries()
    ensures forall r, c :: r < 4 && c < 4 ==> Get(Identity(), r, c) == if r == c then 1.0 else 0.0
    ensures forall i :: 0 <= i < 16 ==> ToSeq(Identity())[i] == if i in {0, 5, 10, 15} then 1.0 else 0.0
  {
  }

  lemma MulIdentityRight(a: Mat4)
    ensures Mul(a, Identity()) == a
  {
  }

  lemma MulIdentityLeft(a: Mat4)
    ensures Mul(Identity(), a) == a
  {
  }

  lemma TransposeInvolution(m: Mat4)
    ensures Transpose(Transpose(m)) == m
  {
  }

  /** The transpose of a product is the product of the transposes in reverse order.
      Read with the flat storage taken as column-major (the OpenGL convention, which
      transposes the row-major reading), this says that the row-major product of a
      and b is, column-major, the product of b and a. */
  lemma {:induction false} TransposeOfProduct(a: Mat4, b: Mat4)
    ensures Transpose(Mul(a, b)) == Mul(Transpose(b), Transpose(a))
  {
    TimesCommutes(a.m00, b.m00);
    TimesCommutes(a.m01, b.m10);
    TimesCommutes(a.m02, b.m20);
    TimesCommutes(a.m03, b.m30);
    TimesCommutes(a.m10, b.m00);
    TimesCommutes(a.m11, b.m10);
    TimesCommutes(a.m12, b.m20);
    TimesCommutes(a.m13, b.m30);
    TimesCommutes(a.m20, b.m00);
    TimesCommutes(a.m21, b.m10);
    TimesCommutes(a.m22, b.m20);
    TimesCommutes(a.m23, b.m30);
    TimesCommutes(a.m30, b.m00);
    TimesCommutes(a.m31, b.m10);
    TimesCommutes(a.m32, b.m20);
    TimesCommutes(a.m33, b.m30);
    TimesCommutes(a.m00, b.m01);
    TimesCommutes(a.m01, b.m11);
    TimesCommutes(a.m02, b.m21);
    TimesCommutes(a.m03, b.m31);
    TimesCommutes(a.m10, b.m01);
    TimesCommutes(a.m11, b.m11);
    TimesCommutes(a.m12, b.m21);
    TimesCommutes(a.m13, b.m31);
    TimesCommutes(a.m20, b.m01);
    TimesCommutes(a.m21, b.m11);
    TimesCommutes(a.m22, b.m21);
    TimesCommutes(a.m23, b.m31);
    TimesCommutes(a.m30, b.m01);
    TimesCommutes(a.m31, b.m11);
    TimesCommutes(a.m32, b.m21);
    TimesCommutes(a.m33, b.m31);
    TimesCommutes(a.m00, b.m02);
    TimesCommutes(a.m01, b.m12);
    TimesCommutes(a.m02, b.m22);
    TimesCommutes(a.m03, b.m32);
    TimesCommutes(a.m10, b.m02);
    TimesCommutes(a.m11, b.m12);
    TimesCommutes(a.m12, b.m22);
    TimesCommutes(a.m13, b.m32);
    TimesCommutes(a.m20, b.m02);
    TimesCommutes(a.m21, b.m12);
    TimesCommutes(a.m22, b.m22);
    TimesCommutes(a.m23, b.m32);
    TimesCommutes(a.m30, b.m02);
    TimesCommutes(a.m31, b.m12);
    TimesCommutes(a.m32, b.m22);
    TimesCommutes(a.m33, b.m32);
    TimesCommutes(a.m00, b.m03);
    TimesCommutes(a.m01, b.m13);
    TimesCommutes(a.m02, b.m23);
    TimesCommutes(a.m03, b.m33);
    TimesCommutes(a.m10, b.m03);
    TimesCommutes(a.m11, b.m13);
    TimesCommutes(a.m12, b.m23);
    TimesCommutes(a.m13, b.m33);
    TimesCommutes(a.m20, b.m03);
    TimesCommutes(a.m21, b.m13);
    TimesCommutes(a.m22, b.m23);
    TimesCommutes(a.m23, b.m33);
    TimesCommutes(a.m30, b.m03);
    TimesCommutes(a.m31, b.m13);
    TimesCommutes(a.m32, b.m23);
    TimesCommutes(a.m33, b.m33);
  }

  /** Transposing a product of three reverses it. */
  lemma TransposeOfTriple(a: Mat4, b: Mat4, m: Mat4)
    ensures Transpose(Mul(Mul(a, b), m)) == Mul(Transpose(m), Mul(Transpose(b), Transpose(a)))
  {
    TransposeOfProduct(Mul(a, b), m);
    TransposeOfProduct(a, b);
  }

  lemma ApplyMul(a: Mat4, b: Mat4, v: Vec4)
    ensures Apply(Mul(a, b), v) == Apply(a, Apply(b, v))
  {
    Regroup(a.m00, a.m01, a.m02, a.m03,
            b.m00, b.m01, b.m02, b.m03, b.m10, b.m11, b.m12, b.m13,
            b.m20, b.m21, b.m22, b.m23, b.m30, b.m31, b.m32, b.m33,
            v.x, v.y, v.z, v.w);
    Regroup(a.m10, a.m11, a.m12, a.m13,
            b.m00, b.m01, b.m02, b.m03, b.m10, b.m11, b.m12, b.m13,
            b.m20, b.m21, b.m22, b.m23, b.m30, b.m31, b.m32, b.m33,
            v.x, v.y, v.z, v.w);
    Regroup(a.m20, a.m21, a.m22, a.m23,
            b.m00, b.m01, b.m02, b.m03, b.m10, b.m11, b.m12, b.m13,
            b.m20, b.m21, b.m22, b.m23, b.m30, b.m31, b.m32, b.m33,
            v.x, v.y, v.z, v.w);
    Regroup(a.m30, a.m31, a.m32, a.m33,
            b.m00, b.m01, b.m02, b.m03, b.m10, b.m11, b.m12, b.m13,
            b.m20, b.m21, b.m22, b.m23, b.m30, b.m31, b.m32, b.m33,
            v.x, v.y, v.z, v.w);
  }

  lemma ApplyIdentity(v: Vec4)
    ensures Apply(Identity(), v) == v
  {
  }

  /** Row r of m, as a vector. */
  function Row(m: Mat4, r: nat): Vec4
    requires r < 4
  {
    if r == 0 then Vec4(m.m00, m.m01, m.m02, m.m03)
    else if r == 1 then Vec4(m.m10, m.m11, m.m12, m.m13)
    else if r == 2 then Vec4(m.m20, m.m21, m.m22, m.m23)
    else Vec4(m.m30, m.m31, m.m32, m.m33)
  }

  /** The row vector v times m: component c is the sum over k of v[k] * m(k, c). */
  function VecMul(v: Vec4, m: Mat4): Vec4 {
    Vec4(
      Times(v.x, m.m00) + Times(v.y, m.m10) + Times(v.z, m.m20) + Times(v.w, m.m30),
      Times(v.x, m.m01) + Times(v.y, m.m11) + Times(v.z, m.m21) + Times(v.w, m.m31),
      Times(v.x, m.m02) + Times(v.y, m.m12) + Times(v.z, m.m22) + Times(v.w, m.m32),
      Times(v.x, m.m03) + Times(v.y, m.m13) + Times(v.z, m.m23) + Times(v.w, m.m33))
  }

  lemma RowOfMul(a: Mat4, b: Mat4, r: nat)
    requires r < 4
    ensures Row(Mul(a, b), r) == VecMul(Row(a, r), b)
  {
  }

  lemma VecMulAssociates(v: Vec4, b: Mat4, m: Mat4)
    ensures VecMul(VecMul(v, b), m) == VecMul(v, Mul(b, m))
  {
    Regroup(v.x, v.y, v.z, v.w,
            b.m00, b.m01, b.m02, b.m03, b.m10, b.m11, b.m12, b.m13,
            b.m20, b.m21, b.m22, b.m23, b.m30, b.m31, b.m32, b.m33,
            m.m00, m.m10, m.m20, m.m30);
    Regroup(v.x, v.y, v.z, v.w,
            b.m00, b.m01, b.m02, b.m03, b.m10, b.m11, b.m12, b.m13,
            b.m20, b.m21, b.m22, b.m23, b.m30, b.m31, b.m32, b.m33,
            m.m01, m.m11, m.m21, m.m31);
    Regroup(v.x, v.y, v.z, v.w,
            b.m00, b.m01, b.m02, b.m03, b.m10, b.m11, b.m12, b.m13,
            b.m20, b.m21, b.m22, b.m23, b.m30, b.m31, b.m32, b.m33,
            m.m02, m.m12, m.m22, m.m32);
    Regroup(v.x, v.y, v.z, v.w,
            b.m00, b.m01, b.m02, b.m03, b.m10, b.m11, b.m12, b.m13,
            b.m20, b.m21, b.m22, b.m23, b.m30, b.m31, b.m32, b.m33,
            m.m03, m.m13, m.m23, m.m33);
  }

  /** Multiplication is associative, so proj * (view * model) may be grouped either way. */
  lemma MulAssociative(a: Mat4, b: Mat4, m: Mat4)
    ensures Mul(Mul(a, b), m) == Mul(a, Mul(b, m))
  {
    RowOfMul(Mul(a, b), m, 0); RowOfMul(a, b, 0); VecMulAssociates(Row(a, 0), b, m); RowOfMul(a, Mul(b, m), 0);
    RowOfMul(Mul(a, b), m, 1); RowOfMul(a, b, 1); VecMulAssociates(Row(a, 1), b, m); RowOfMul(a, Mul(b, m), 1);
    RowOfMul(Mul(a, b), m, 2); RowOfMul(a, b, 2); VecMulAssociates(Row(a, 2), b, m); RowOfMul(a, Mul(b, m), 2);
    RowOfMul(Mul(a, b), m, 3); RowOfMul(a, b, 3); VecMulAssociates(Row(a, 3), b, m); RowOfMul(a, Mul(b, m), 3);
  }

  // ---------------------------------------------------------------------
  // Scalar identities behind the laws

  lemma TimesCommutes(x: real, y: real)
    ensures Times(x, y) == Times(y, x)
  {
  }

  lemma TimesAssociates(x: real, y: real, z: real)
    ensures Times(Times(x, y), z) == Times(x, Times(y, z))
  {
  }

  lemma Distributes(k: real, x0: real, x1: real, x2: real, x3: real)
    ensures Times(x0 + x1 + x2 + x3, k) == Times(x0, k) + Times(x1, k) + Times(x2, k) + Times(x3, k)
    ensures Times(k, x0 + x1 + x2 + x3) == Times(k, x0) + Times(k, x1) + Times(k, x2) + Times(k, x3)
  {
  }

  /** Summing row-times-block products against a column either way round gives the
      same value: (a * B) * m == a * (B * m) for a row a, a 4x4 block B and a column m. */
  lemma {:induction false} Regroup(a0: real, a1: real, a2: real, a3: real,
                  b00: real, b01: real, b02: real, b03: real,
                  b10: real, b11: real, b12: real, b13: real,
                  b20: real, b21: real, b22: real, b23: real,
                  b30: real, b31: real, b32: real, b33: real,
                  m0: real, m1: real, m2: real, m3: real)
    ensures Times((Times(a0, b00) + Times(a1, b10) + Times(a2, b20) + Times(a3, b30)), m0)
          + Times((Times(a0, b01) + Times(a1, b11) + Times(a2, b21) + Times(a3, b31)), m1)
          + Times((Times(a0, b02) + Times(a1, b12) + Times(a2, b22) + Times(a3, b32)), m2)
          + Times((Times(a0, b03) + Times(a1, b13) + Times(a2, b23) + Times(a3, b33)), m3)
         == Times(a0, (Times(b00, m0) + Times(b01, m1) + Times(b02, m2) + Times(b03, m3)))
          + Times(a1, (Times(b10, m0) + Times(b11, m1) + Times(b12, m2) + Times(b13, m3)))
          + Times(a2, (Times(b20, m0) + Times(b21, m1) + Times(b22, m2) + Times(b23, m3)))
          + Times(a3, (Times(b30, m0) + Times(b31, m1) + Times(b32, m2) + Times(b33, m3)))
  {
    Distributes(m0, Times(a0, b00), Times(a1, b10), Times(a2, b20), Times(a3, b30));
    Distributes(m1, Times(a0, b01), Times(a1, b11), Times(a2, b21), Times(a3, b31));
    Distributes(m2, Times(a0, b02), Times(a1, b12), Times(a2, b22), Times(a3, b32));
    Distributes(m3, Times(a0, b03), Times(a1, b13), Times(a2, b23), Times(a3, b33));
    Distributes(a0, Times(b00, m0), Times(b01, m1), Times(b02, m2), Times(b03, m3));
    Distributes(a1, Times(b10, m0), Times(b11, m1), Times(b12, m2), Times(b13, m3));
    Distributes(a2, Times(b20, m0), Times(b21, m1), Times(b22, m2), Times(b23, m3));
    Distributes(a3, Times(b30, m0), Times(b31, m1), Times(b32, m2), Times(b33, m3));
    TimesAssociates(a0, b00, m0);
    TimesAssociates(a0, b01, m1);
    TimesAssociates(a0, b02, m2);
    TimesAssociates(a0, b03, m3);
    TimesAssociates(a1, b10, m0);
    TimesAssociates(a1, b11, m1);
    TimesAssociates(a1, b12, m2);
    TimesAssociates(a1, b13, m3);
    TimesAssociates(a2, b20, m0);
    TimesAssociates(a2, b21, m1);
    TimesAssociates(a2, b22, m2);
    TimesAssociates(a2, b23, m3);
    TimesAssociates(a3, b30, m0);
    TimesAssociates(a3, b31, m1);
    TimesAssociates(a3, b32, m2);
    TimesAssociates(a3, b33, m3);
  }

  // ---------------------------------------------------------------------
  // Builders

  /** Composing two translations translates by the summed offsets. */
  lemma TranslationCompose(x1: real, y1: real, z1: real, x2: real, y2: real, z2: real)
    ensures Mul(Translation(x1, y1, z1), Translation(x2, y2, z2)) == Translation(x1 + x2, y1 + y2, z1 + z2)
  {
  }

  /** Composing two scalings scales by the componentwise products. */
  lemma ScalingCompose(x1: real, y1: real, z1: real, x2: real, y2: real, z2: real)
    ensures Mul(Scaling(x1, y1, z1), Scaling(x2, y2, z2)) == Scaling(x1 * x2, y1 * y2, z1 * z2)
  {
  }

  /** Two Y rotations compose by the angle-sum formulas for cosine and sine. */
  lemma RotationYCompose(c1: real, s1: real, c2: real, s2: real)
    ensures Mul(RotationY(c1, s1), RotationY(c2, s2)) == RotationY(c1 * c2 - s1 * s2, s1 * c2 + c1 * s2)
  {
  }

  /** Transposing a Y rotation negates its sine. */
  lemma RotationYTranspose(c: real, s: real)
    ensures Transpose(RotationY(c, s)) == RotationY(c, -s)
  {
  }

  /** When c * c + s * s == 1 the transpose of a Y rotation is its inverse. */
  lemma RotationYOrthogonal(c: real, s: real)
    requires c * c + s * s == 1.0
    ensures Mul(RotationY(c, s), Transpose(RotationY(c, s))) == Identity()
  {
  }

  /** Read column by column, a translation moves every point by its offsets. */
  lemma TranslationMovesPoints(x: real, y: real, z: real, px: real, py: real, pz: real)
    ensures Apply(Transpose(Translation(x, y, z)), Vec4(px, py, pz, 1.0)) == Vec4(px + x, py + y, pz + z, 1.0)
  {
  }

  /** Read column by column, the perspective layout with depth entries
      (far + near) / (near - far) and 2 * far * near / (near - far) sends the eye
      point at depth -near to clip depth -w and the one at depth -far to +w:
      the near plane lands on -1 and the far plane on +1 after the divide by w. */
  lemma {:induction false} ProjectionDepth(m0: real, m5: real, near: real, far: real)
    requires near != far
    ensures var p := Transpose(Projection(m0, m5, (far + near) / (near - far), (2.0 * far * near) / (near - far)));
            Apply(p, Vec4(0.0, 0.0, -near, 1.0)) == Vec4(0.0, 0.0, -near, near) &&
            Apply(p, Vec4(0.0, 0.0, -far, 1.0)) == Vec4(0.0, 0.0, far, far)
  {
    DepthRow(near, far);
  }

  lemma DepthRow(near: real, far: real)
    requires near != far
    ensures (far + near) / (near - far) * -near + (2.0 * far * near) / (near - far) == -near
    ensures (far + near) / (near - far) * -far + (2.0 * far * near) / (near - far) == far
  {
    var d := near - far;
    assert (far + near) / d * -near == (-(far + near) * near) / d;
    assert (far + near) / d * -far == (-(far + near) * far) / d;
    assert -(far + near) * near + 2.0 * far * near == -near * d;
    assert -(far + near) * far + 2.0 * far * near == far * d;
  }
}
