/** The vector and matrix helpers of include/math_3d.c. Vectors are values;
    a Matrix4f is reached through a pointer, so it is a 4x4 array here and the
    functions that write through the pointer are methods. */
module Math3D {
  import opened Mat4Spec
  import opened RealMath

  datatype Vector3f = Vector3f(x: real, y: real, z: real)

  type Vector4f = Vec4

  function Add(a: Vector3f, b: Vector3f): Vector3f {
    Vector3f(a.x + b.x, a.y + b.y, a.z + b.z)
  }

  function Sub(a: Vector3f, b: Vector3f): Vector3f {
    Vector3f(a.x - b.x, a.y - b.y, a.z - b.z)
  }

  function Scale(v: Vector3f, s: real): Vector3f {
    Vector3f(v.x * s, v.y * s, v.z * s)
  }

  function Dot(a: Vector3f, b: Vector3f): real {
    a.x * b.x + a.y * b.y + a.z * b.z
  }

  function Cross(a: Vector3f, b: Vector3f): Vector3f {
    Vector3f(a.y * b.z - a.z * b.y,
             a.z * b.x - a.x * b.z,
             a.x * b.y - a.y * b.x)
  }

  /** sqrtf is the parameter sqrt. */
  function Length(v: Vector3f, sqrt: real -> real): real {
    sqrt(Dot(v, v))
  }

  /** A vector of non-zero length is scaled by the reciprocal of its length;
      any other vector is returned as it is. */
  function Normalize(v: Vector3f, sqrt: real -> real): Vector3f {
    var len := Length(v, sqrt);
    if len != 0.0 then Scale(v, 1.0 / len) else v
  }

  // ---------------------------------------------------------------------
  // Vector laws

  /** Subtracting what was added gives back the first operand. */
  lemma SubAdd(a: Vector3f, b: Vector3f)
    ensures Sub(Add(a, b), b) == a
  {
  }

  lemma AddSub(a: Vector3f, b: Vector3f)
    ensures Add(Sub(a, b), b) == a
  {
  }

  lemma AddCommutes(a: Vector3f, b: Vector3f)
    ensures Add(a, b) == Add(b, a)
  {
  }

  lemma DotCommutes(a: Vector3f, b: Vector3f)
    ensures Dot(a, b) == Dot(b, a)
  {
  }

  /** Swapping the operands of a cross product negates it. */
  lemma CrossAnticommutes(a: Vector3f, b: Vector3f)
    ensures Cross(a, b) == Scale(Cross(b, a), -1.0)
  {
  }

  /** The cross product is perpendicular to both operands. */
  lemma CrossPerpendicular(a: Vector3f, b: Vector3f)
    ensures Dot(Cross(a, b), a) == 0.0
    ensures Dot(Cross(a, b), b) == 0.0
  {
  }

  lemma CrossSelf(a: Vector3f)
    ensures Cross(a, a) == Vector3f(0.0, 0.0, 0.0)
  {
  }

  /** Scaling by s multiplies the squared length by s * s. */
  lemma DotOfScale(v: Vector3f, s: real)
    ensures Dot(Scale(v, s), Scale(v, s)) == s * s * Dot(v, v)
  {
  }

  /** The length is zero exactly for the zero vector. */
  lemma LengthZero(v: Vector3f, sqrt: real -> real)
    requires IsSqrt(sqrt)
    ensures Length(v, sqrt) == 0.0 <==> v == Vector3f(0.0, 0.0, 0.0)
  {
    var d := v.x * v.x + v.y * v.y + v.z * v.z;
    SquareNonNegative(v.x);
    SquareNonNegative(v.y);
    SquareNonNegative(v.z);
    SqrtZeroOnlyAtZero(sqrt, d);
    if d == 0.0 {
      SumOfSquaresZero(v.x, v.y, v.z);
    }
  }

  /** A vector whose length is zero is returned unchanged. */
  lemma NormalizeOfZeroLength(v: Vector3f, sqrt: real -> real)
    requires Length(v, sqrt) == 0.0
    ensures Normalize(v, sqrt) == v
  {
  }

  /** A vector of non-zero length normalizes to unit length. */
  lemma NormalizeUnit(v: Vector3f, sqrt: real -> real)
    requires IsSqrt(sqrt) && Length(v, sqrt) != 0.0
    ensures Length(Normalize(v, sqrt), sqrt) == 1.0
  {
    var len, d := Length(v, sqrt), Dot(v, v);
    SquareNonNegative(v.x);
    SquareNonNegative(v.y);
    SquareNonNegative(v.z);
    SqrtSquared(sqrt, d);
    var k := 1.0 / len;
    ReciprocalSquare(len, d);
    DotOfScale(v, k);
    var n := Scale(v, k);
    assert Normalize(v, sqrt) == n;
    assert Dot(n, n) == 1.0;
    SqrtOne(sqrt);
  }

  /** Multiplying by the reciprocal squared of a square root of d undoes d. */
  lemma ReciprocalSquare(len: real, d: real)
    requires len != 0.0 && len * len == d
    ensures (1.0 / len) * (1.0 / len) * d == 1.0
  {
    var k := 1.0 / len;
    assert k * len == 1.0;
    assert k * k * (len * len) == (k * len) * (k * len);
  }

  /** Normalizing twice is normalizing once. */
  lemma NormalizeIdempotent(v: Vector3f, sqrt: real -> real)
    requires IsSqrt(sqrt)
    ensures Normalize(Normalize(v, sqrt), sqrt) == Normalize(v, sqrt)
  {
    if Length(v, sqrt) != 0.0 {
      NormalizeUnit(v, sqrt);
      var n := Normalize(v, sqrt);
      assert Scale(n, 1.0 / 1.0) == n;
    }
  }

  // ---------------------------------------------------------------------
  // Matrix4f

  predicate Is4x4(m: array2<real>) {
    m.Length0 == 4 && m.Length1 == 4
  }

  /** The matrix a Matrix4f pointer refers to; m[i][j] is entry (i, j). */
  function Elems(m: array2<real>): Mat4
    reads m
    requires Is4x4(m)
  {
    Mat4(m[0, 0], m[0, 1], m[0, 2], m[0, 3],
         m[1, 0], m[1, 1], m[1, 2], m[1, 3],
         m[2, 0], m[2, 1], m[2, 2], m[2, 3],
         m[3, 0], m[3, 1], m[3, 2], m[3, 3])
  }

  /** Writes 1 where i == j and 0 elsewhere. */
  method Identity(mat: array2<real>)
    requires Is4x4(mat)
    modifies mat
    ensures Elems(mat) == Mat4Spec.Identity()
  {
    for i := 0 to 4
      invariant forall p, q :: 0 <= p < i && 0 <= q < 4 ==> mat[p, q] == if p == q then 1.0 else 0.0
    {
      for j := 0 to 4
        invariant forall p, q :: 0 <= p < i && 0 <= q < 4 ==> mat[p, q] == if p == q then 1.0 else 0.0
        invariant forall q :: 0 <= q < j ==> mat[i, q] == if i == q then 1.0 else 0.0
      {
        mat[i, j] := if i == j then 1.0 else 0.0;
      }
    }
  }

  /** The first n terms of the sum for entry (i, j) of the product of a and b. */
  function Sum(a: array2<real>, b: array2<real>, i: nat, j: nat, n: nat): real
    reads a, b
    requires Is4x4(a) && Is4x4(b) && i < 4 && j < 4 && n <= 4
  {
    if n == 0 then 0.0 else Sum(a, b, i, j, n - 1) + Times(a[i, n - 1], b[n - 1, j])
  }

  /** Accumulates into a local, zero-initialised matrix and returns it by value,
      so the result is the product also when a and b are the same matrix. */
  method Mul(a: array2<real>, b: array2<real>) returns (r: Mat4)
    requires Is4x4(a) && Is4x4(b)
    ensures r == Mat4Spec.Mul(Elems(a), Elems(b))
  {
    var result := new real[4, 4]((_, _) => 0.0);
    for i := 0 to 4
      modifies result
      invariant forall p, q :: 0 <= p < i && 0 <= q < 4 ==> result[p, q] == Sum(a, b, p, q, 4)
      invariant forall p, q :: i <= p < 4 && 0 <= q < 4 ==> result[p, q] == 0.0
    {
      for j := 0 to 4
        modifies result
        invariant forall p, q :: 0 <= p < i && 0 <= q < 4 ==> result[p, q] == Sum(a, b, p, q, 4)
        invariant forall q :: 0 <= q < j ==> result[i, q] == Sum(a, b, i, q, 4)
        invariant forall p, q :: i <= p < 4 && 0 <= q < 4 && (p > i || q >= j) ==> result[p, q] == 0.0
      {
        for k := 0 to 4
          modifies result
          invariant forall p, q :: 0 <= p < i && 0 <= q < 4 ==> result[p, q] == Sum(a, b, p, q, 4)
          invariant forall q :: 0 <= q < j ==> result[i, q] == Sum(a, b, i, q, 4)
          invariant forall p, q :: i <= p < 4 && 0 <= q < 4 && (p > i || q > j) ==> result[p, q] == 0.0
          invariant result[i, j] == Sum(a, b, i, j, k)
        {
          result[i, j] := result[i, j] + a[i, k] * b[k, j];
        }
      }
    }
    ProductOfArrays(result, a, b);
    r := Elems(result);
  }

  lemma SumFour(a: array2<real>, b: array2<real>, i: nat, j: nat)
    requires Is4x4(a) && Is4x4(b) && i < 4 && j < 4
    ensures Sum(a, b, i, j, 4) == Times(a[i, 0], b[0, j]) + Times(a[i, 1], b[1, j])
                                + Times(a[i, 2], b[2, j]) + Times(a[i, 3], b[3, j])
  {
    assert Sum(a, b, i, j, 1) == Times(a[i, 0], b[0, j]);
    assert Sum(a, b, i, j, 2) == Sum(a, b, i, j, 1) + Times(a[i, 1], b[1, j]);
    assert Sum(a, b, i, j, 3) == Sum(a, b, i, j, 2) + Times(a[i, 2], b[2, j]);
  }

  /** A matrix whose every entry holds the complete sum is the product. */
  lemma ProductOfArrays(res: array2<real>, a: array2<real>, b: array2<real>)
    requires Is4x4(res) && Is4x4(a) && Is4x4(b)
    requires forall p, q :: 0 <= p < 4 && 0 <= q < 4 ==> res[p, q] == Sum(a, b, p, q, 4)
    ensures Elems(res) == Mat4Spec.Mul(Elems(a), Elems(b))
  {
    SumFour(a, b, 0, 0); SumFour(a, b, 0, 1); SumFour(a, b, 0, 2); SumFour(a, b, 0, 3);
    SumFour(a, b, 1, 0); SumFour(a, b, 1, 1); SumFour(a, b, 1, 2); SumFour(a, b, 1, 3);
    SumFour(a, b, 2, 0); SumFour(a, b, 2, 1); SumFour(a, b, 2, 2); SumFour(a, b, 2, 3);
    SumFour(a, b, 3, 0); SumFour(a, b, 3, 1); SumFour(a, b, 3, 2); SumFour(a, b, 3, 3);
  }

  /** Row r of the result is row r of mat against v, written out as in C. */
  function MulVector(mat: array2<real>, v: Vector4f): (r: Vector4f)
    reads mat
    requires Is4x4(mat)
    ensures r == Apply(Elems(mat), v)
    ensures Elems(mat) == Mat4Spec.Identity() ==> r == v
  {
    Vec4(mat[0, 0] * v.x + mat[0, 1] * v.y + mat[0, 2] * v.z + mat[0, 3] * v.w,
         mat[1, 0] * v.x + mat[1, 1] * v.y + mat[1, 2] * v.z + mat[1, 3] * v.w,
         mat[2, 0] * v.x + mat[2, 1] * v.y + mat[2, 2] * v.z + mat[2, 3] * v.w,
         mat[3, 0] * v.x + mat[3, 1] * v.y + mat[3, 2] * v.z + mat[3, 3] * v.w)
  }

  /** Transforming by a product is transforming by its factors in turn. */
  lemma MulVectorOfProduct(ab: array2<real>, a: array2<real>, b: array2<real>, v: Vector4f)
    requires Is4x4(ab) && Is4x4(a) && Is4x4(b)
    requires Elems(ab) == Mat4Spec.Mul(Elems(a), Elems(b))
    ensures MulVector(ab, v) == MulVector(a, MulVector(b, v))
  {
    ApplyMul(Elems(a), Elems(b), v);
  }

  /** The identity maps every vector to itself. */
  lemma MulVectorIdentity(m: array2<real>, v: Vector4f)
    requires Is4x4(m) && Elems(m) == Mat4Spec.Identity()
    ensures MulVector(m, v) == v
  {
    ApplyIdentity(v);
  }

  /** What an in-place transpose leaves behind: the loop copies the lower triangle
      over the upper one, so entry (p, q) ends up as entry (max, min) of the input. */
  function LowerMirror(m: Mat4): Mat4 {
    Mat4(m.m00, m.m10, m.m20, m.m30,
         m.m10, m.m11, m.m21, m.m31,
         m.m20, m.m21, m.m22, m.m32,
         m.m30, m.m31, m.m32, m.m33)
  }

  /** The in-place result is the transpose exactly when the input is symmetric. */
  lemma LowerMirrorIsTranspose(m: Mat4)
    ensures LowerMirror(m) == Mat4Spec.Transpose(m) <==> Mat4Spec.Transpose(m) == m
  {
  }

  /** result[i][j] = mat[j][i] for i and j in order. When result and mat are
      different matrices the result is the transpose; when they are the same matrix
      the upper triangle is overwritten before it is read. */
  method Transpose(result: array2<real>, mat: array2<real>)
    requires Is4x4(result) && Is4x4(mat)
    modifies result
    ensures result != mat ==> Elems(result) == Mat4Spec.Transpose(old(Elems(mat)))
    ensures result == mat ==> Elems(result) == LowerMirror(old(Elems(mat)))
  {
    for i := 0 to 4
      invariant result != mat ==> forall p, q :: 0 <= p < 4 && 0 <= q < 4 ==> mat[p, q] == old(mat[p, q])
      invariant forall p, q :: 0 <= p < i && 0 <= q < 4 ==>
        result[p, q] == if result == mat && p > q then old(mat[p, q]) else old(mat[q, p])
      invariant result == mat ==> forall p, q :: i <= p < 4 && 0 <= q < 4 ==> mat[p, q] == old(mat[p, q])
    {
      for j := 0 to 4
        invariant result != mat ==> forall p, q :: 0 <= p < 4 && 0 <= q < 4 ==> mat[p, q] == old(mat[p, q])
        invariant forall p, q :: 0 <= p < i && 0 <= q < 4 ==>
          result[p, q] == if result == mat && p > q then old(mat[p, q]) else old(mat[q, p])
        invariant forall q :: 0 <= q < j ==>
          result[i, q] == if result == mat && i > q then old(mat[i, q]) else old(mat[q, i])
        invariant result == mat ==> forall p, q :: 0 <= p < 4 && 0 <= q < 4 && (p > i || (p == i && q >= j)) ==> mat[p, q] == old(mat[p, q])
      {
        result[i, j] := mat[j, i];
      }
    }
  }
}
