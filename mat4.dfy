/** The matrix helpers of theme_launcher/src/mat4.h. A Mat4 is a struct holding
    float data[16] passed by reference; each helper fills that buffer, so it is a
    method over an array of 16 reals. The header documents the buffer as
    column-major: OpenGL reads it as Transpose(Flat(mat)). */
module ThemeMat4 {
  import opened Mat4Spec

  /** memset to zero, then 1 on the diagonal. */
  method Identity(mat: array<real>)
    requires mat.Length == 16
    modifies mat
    ensures Flat(mat) == Mat4Spec.Identity()
  {
    forall i | 0 <= i < 16 {
      mat[i] := 0.0;
    }
    mat[0], mat[5], mat[10], mat[15] := 1.0, 1.0, 1.0, 1.0;
  }

  /** The orthographic projection of the box [left, right] x [bottom, top] x [-nearZ, -farZ]. */
  function OrthographicMatrix(left: real, right: real, bottom: real, top: real, nearZ: real, farZ: real): Mat4
    requires right != left && top != bottom && farZ != nearZ
  {
    Mat4(2.0 / (right - left), 0.0, 0.0, 0.0,
         0.0, 2.0 / (top - bottom), 0.0, 0.0,
         0.0, 0.0, -2.0 / (farZ - nearZ), 0.0,
         -(right + left) / (right - left), -(top + bottom) / (top - bottom), -(farZ + nearZ) / (farZ - nearZ), 1.0)
  }

  method Orthographic(mat: array<real>, left: real, right: real, bottom: real, top: real, nearZ: real, farZ: real)
    requires mat.Length == 16
    requires right != left && top != bottom && farZ != nearZ
    modifies mat
    ensures Flat(mat) == OrthographicMatrix(left, right, bottom, top, nearZ, farZ)
  {
    Identity(mat);
    mat[0] := 2.0 / (right - left);
    mat[5] := 2.0 / (top - bottom);
    mat[10] := -2.0 / (farZ - nearZ);
    mat[12] := -(right + left) / (right - left);
    mat[13] := -(top + bottom) / (top - bottom);
    mat[14] := -(farZ + nearZ) / (farZ - nearZ);
  }

  /** Read column by column, the orthographic matrix sends the near-bottom-left
      corner of its box to (-1, -1, -1) and the far-top-right corner to (1, 1, 1). */
  lemma {:induction false} OrthographicCorners(left: real, right: real, bottom: real, top: real, nearZ: real, farZ: real)
    requires right != left && top != bottom && farZ != nearZ
    ensures var m := Transpose(OrthographicMatrix(left, right, bottom, top, nearZ, farZ));
            Apply(m, Vec4(left, bottom, -nearZ, 1.0)) == Vec4(-1.0, -1.0, -1.0, 1.0) &&
            Apply(m, Vec4(right, top, -farZ, 1.0)) == Vec4(1.0, 1.0, 1.0, 1.0)
  {
    Ends(left, right);
    Ends(bottom, top);
    Ends(nearZ, farZ);
    assert -2.0 / (farZ - nearZ) * -nearZ == 2.0 / (farZ - nearZ) * nearZ;
    assert -2.0 / (farZ - nearZ) * -farZ == 2.0 / (farZ - nearZ) * farZ;
  }

  /** The affine map 2 / (hi - lo) * t - (hi + lo) / (hi - lo) sends lo to -1 and hi to 1. */
  lemma Ends(lo: real, hi: real)
    requires hi != lo
    ensures 2.0 / (hi - lo) * lo + -(hi + lo) / (hi - lo) == -1.0
    ensures 2.0 / (hi - lo) * hi + -(hi + lo) / (hi - lo) == 1.0
  {
    var d := hi - lo;
    assert 2.0 / d * lo == (2.0 * lo) / d;
    assert 2.0 / d * hi == (2.0 * hi) / d;
  }

  method Translate(mat: array<real>, x: real, y: real, z: real)
    requires mat.Length == 16
    modifies mat
    ensures Flat(mat) == Translation(x, y, z)
  {
    Identity(mat);
    mat[12] := x;
    mat[13] := y;
    mat[14] := z;
  }

  method Scale(mat: array<real>, sx: real, sy: real, sz: real)
    requires mat.Length == 16
    modifies mat
    ensures Flat(mat) == Scaling(sx, sy, sz)
  {
    Identity(mat);
    mat[0] := sx;
    mat[5] := sy;
    mat[10] := sz;
  }

  /** Zeroes each entry of result and accumulates into it while a and b are still
      being read, so the product is only promised when result is neither input. */
  method Multiply(a: array<real>, b: array<real>, result: array<real>)
    requires a.Length == 16 && b.Length == 16 && result.Length == 16
    modifies result
    ensures result != a && result != b ==> Flat(result) == Mul(old(Flat(a)), old(Flat(b)))
  {
    ghost var sa, sb := a[..], b[..];
    for row := 0 to 4
      modifies result
      invariant result != a && result != b ==>
        forall r, c :: 0 <= r < row && 0 <= c < 4 ==> result[r * 4 + c] == RowCol(sa, sb, r, c, 4)
    {
      for col := 0 to 4
        modifies result
        invariant result != a && result != b ==>
          forall r, c :: 0 <= r < row && 0 <= c < 4 ==> result[r * 4 + c] == RowCol(sa, sb, r, c, 4)
        invariant result != a && result != b ==>
          forall c :: 0 <= c < col ==> result[row * 4 + c] == RowCol(sa, sb, row, c, 4)
      {
        result[col + row * 4] := 0.0;
        for i := 0 to 4
          modifies result
          invariant result != a && result != b ==>
            forall r, c :: 0 <= r < row && 0 <= c < 4 ==> result[r * 4 + c] == RowCol(sa, sb, r, c, 4)
          invariant result != a && result != b ==>
            forall c :: 0 <= c < col ==> result[row * 4 + c] == RowCol(sa, sb, row, c, 4)
          invariant result != a && result != b ==> result[col + row * 4] == RowCol(sa, sb, row, col, i)
        {
          result[col + row * 4] := result[col + row * 4] + a[i + row * 4] * b[col + i * 4];
        }
      }
    }
    if result != a && result != b {
      ProductOfCells(result[..], sa, sb);
    }
  }

  /** Read column by column, as the header documents, the loop computes the
      product of its operands in the opposite order: the matrix OpenGL sees in
      result is the one it sees in b times the one it sees in a. */
  lemma MultiplyColumnMajor(a: array<real>, b: array<real>, result: array<real>)
    requires a.Length == 16 && b.Length == 16 && result.Length == 16
    requires Flat(result) == Mul(Flat(a), Flat(b))
    ensures Transpose(Flat(result)) == Mul(Transpose(Flat(b)), Transpose(Flat(a)))
  {
    TransposeOfProduct(Flat(a), Flat(b));
  }
}
