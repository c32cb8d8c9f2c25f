/** The matrix builders of template/land.cpp, which write through a float *m
    pointing at 16 floats. The angle of rotate_Y reaches the model as its cosine
    c and sine s, and the perspective field of view as tanHalf = tan(fovy / 2). */
module LandMatrix {
  import opened Mat4Spec

  /** memset to zero, then 1 on the diagonal. */
  method LoadIdentity(m: array<real>)
    requires m.Length == 16
    modifies m
    ensures Flat(m) == Identity()
  {
    forall i | 0 <= i < 16 {
      m[i] := 0.0;
    }
    m[0], m[5], m[10], m[15] := 1.0, 1.0, 1.0, 1.0;
  }

  /** f = 1 / tan(fovy / 2); only entries 0, 5, 10, 11 and 14 end up non-zero. */
  method Perspective(m: array<real>, tanHalf: real, aspect: real, nearZ: real, farZ: real)
    requires m.Length == 16
    requires tanHalf != 0.0 && aspect != 0.0 && nearZ != farZ
    modifies m
    ensures Flat(m) == Projection((1.0 / tanHalf) / aspect, 1.0 / tanHalf,
                                  (farZ + nearZ) / (nearZ - farZ), (2.0 * farZ * nearZ) / (nearZ - farZ))
  {
    var f := 1.0 / tanHalf;
    LoadIdentity(m);
    m[0] := f / aspect;
    m[5] := f;
    m[10] := (farZ + nearZ) / (nearZ - farZ);
    m[11] := -1.0;
    m[14] := (2.0 * farZ * nearZ) / (nearZ - farZ);
    m[15] := 0.0;
  }

  method RotateY(m: array<real>, c: real, s: real)
    requires m.Length == 16
    modifies m
    ensures Flat(m) == RotationY(c, s)
  {
    LoadIdentity(m);
    m[0] := c;
    m[2] := s;
    m[5] := 1.0;
    m[8] := -s;
    m[10] := c;
    m[15] := 1.0;
  }

  /** Each entry is summed in a local and then stored; the store happens while the
      inputs are still being read, so the product is only promised when result is
      neither input. */
  method MultiplyMatrices(result: array<real>, a: array<real>, b: array<real>)
    requires a.Length == 16 && b.Length == 16 && result.Length == 16
    modifies result
    ensures result != a && result != b ==> Flat(result) == Mul(old(Flat(a)), old(Flat(b)))
  {
    ghost var sa, sb := a[..], b[..];
    for row := 0 to 4
      modifies result
      invariant result != a && result != b ==>
        forall r, c :: 0 <= r < row && 0 <= c < 4 ==> result[r * 4 + c] == RowCol(sa, sb, r, c, 4)
    {
      for col := 0 to 4
        modifies result
        invariant result != a && result != b ==>
          forall r, c :: 0 <= r < row && 0 <= c < 4 ==> result[r * 4 + c] == RowCol(sa, sb, r, c, 4)
        invariant result != a && result != b ==>
          forall c :: 0 <= c < col ==> result[row * 4 + c] == RowCol(sa, sb, row, c, 4)
      {
        var sum := 0.0;
        for k := 0 to 4
          invariant result != a && result != b ==> sum == RowCol(sa, sb, row, col, k)
        {
          sum := sum + a[row * 4 + k] * b[k * 4 + col];
        }
        result[row * 4 + col] := sum;
      }
    }
    if result != a && result != b {
      ProductOfCells(result[..], sa, sb);
    }
  }

  method Translate(m: array<real>, tx: real, ty: real, tz: real)
    requires m.Length == 16
    modifies m
    ensures Flat(m) == Translation(tx, ty, tz)
  {
    LoadIdentity(m);
    m[12] := tx;
    m[13] := ty;
    m[14] := tz;
  }
}
