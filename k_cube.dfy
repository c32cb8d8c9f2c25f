/** The matrix helpers, the index buffer and the per-frame MVP product of
    src/k/cube.cpp. Matrices are float[16] buffers, so the helpers are methods
    over arrays of 16 reals; the angle reaches rotateY as its cosine c and sine s,
    and the field of view reaches perspective as tanHalf = tan(fov / 2) in radians. */
module KCube {
  import opened Mat4Spec

  /** Zeroes the 16 entries one by one, then sets the diagonal to 1. */
  method Identity(mat: array<real>)
    requires mat.Length == 16
    modifies mat
    ensures Flat(mat) == Mat4Spec.Identity()
  {
    for i := 0 to 16
      invariant forall j :: 0 <= j < i ==> mat[j] == 0.0
    {
      mat[i] := 0.0;
    }
    mat[0], mat[5], mat[10], mat[15] := 1.0, 1.0, 1.0, 1.0;
  }

  method Perspective(mat: array<real>, tanHalf: real, aspect: real, nearZ: real, farZ: real)
    requires mat.Length == 16
    requires tanHalf != 0.0 && aspect != 0.0 && nearZ != farZ
    modifies mat
    ensures Flat(mat) == Projection(1.0 / (aspect * tanHalf), 1.0 / tanHalf,
                                    -(farZ + nearZ) / (farZ - nearZ), -(2.0 * farZ * nearZ) / (farZ - nearZ))
  {
    Identity(mat);
    mat[0] := 1.0 / (aspect * tanHalf);
    mat[5] := 1.0 / tanHalf;
    mat[10] := -(farZ + nearZ) / (farZ - nearZ);
    mat[11] := -1.0;
    mat[14] := -(2.0 * farZ * nearZ) / (farZ - nearZ);
    mat[15] := 0.0;
  }

  /** This perspective matrix is the one template/land.cpp and template/main.cpp
      build, with f = 1 / tanHalf, so the same depth mapping (Mat4Spec.ProjectionDepth)
      holds for it. */
  lemma PerspectiveAsInTemplates(tanHalf: real, aspect: real, nearZ: real, farZ: real)
    requires tanHalf != 0.0 && aspect != 0.0 && nearZ != farZ
    ensures Projection(1.0 / (aspect * tanHalf), 1.0 / tanHalf,
                       -(farZ + nearZ) / (farZ - nearZ), -(2.0 * farZ * nearZ) / (farZ - nearZ))
         == Projection((1.0 / tanHalf) / aspect, 1.0 / tanHalf,
                       (farZ + nearZ) / (nearZ - farZ), (2.0 * farZ * nearZ) / (nearZ - farZ))
  {
    assert 1.0 / (aspect * tanHalf) == (1.0 / tanHalf) / aspect;
  }

  method Translate(mat: array<real>, x: real, y: real, z: real)
    requires mat.Length == 16
    modifies mat
    ensures Flat(mat) == Translation(x, y, z)
  {
    Identity(mat);
    mat[12] := x;
    mat[13] := y;
    mat[14] := z;
  }

  /** Unlike the templates, rotateY does not write entries 5 and 15: the identity
      it starts from already holds 1 there. */
  method RotateY(mat: array<real>, c: real, s: real)
    requires mat.Length == 16
    modifies mat
    ensures Flat(mat) == RotationY(c, s)
  {
    Identity(mat);
    mat[0] := c;
    mat[2] := s;
    mat[8] := -s;
    mat[10] := c;
  }

  /** Accumulates every entry into a local tmp[16] and only then copies it out,
      so res may be a, b or neither and the result is the product either way. */
  method Multiply(res: array<real>, a: array<real>, b: array<real>)
    requires res.Length == 16 && a.Length == 16 && b.Length == 16
    modifies res
    ensures Flat(res) == Mul(old(Flat(a)), old(Flat(b)))
  {
    ghost var sa, sb := a[..], b[..];
    var tmp := new real[16];
    for row := 0 to 4
      modifies tmp
      invariant forall r, c :: 0 <= r < row && 0 <= c < 4 ==> tmp[r * 4 + c] == RowCol(sa, sb, r, c, 4)
    {
      for col := 0 to 4
        modifies tmp
        invariant forall r, c :: 0 <= r < row && 0 <= c < 4 ==> tmp[r * 4 + c] == RowCol(sa, sb, r, c, 4)
        invariant forall c :: 0 <= c < col ==> tmp[row * 4 + c] == RowCol(sa, sb, row, c, 4)
      {
        tmp[col + row * 4] := 0.0;
        for i := 0 to 4
          modifies tmp
          invariant forall r, c :: 0 <= r < row && 0 <= c < 4 ==> tmp[r * 4 + c] == RowCol(sa, sb, r, c, 4)
          invariant forall c :: 0 <= c < col ==> tmp[row * 4 + c] == RowCol(sa, sb, row, c, 4)
          invariant tmp[col + row * 4] == RowCol(sa, sb, row, col, i)
        {
          tmp[col + row * 4] := tmp[col + row * 4] + a[i + row * 4] * b[col + i * 4];
        }
      }
    }
    ProductOfCells(tmp[..], sa, sb);
    ghost var product := tmp[..];
    for i := 0 to 16
      modifies res
      invariant forall j :: 0 <= j < i ==> res[j] == product[j]
    {
      res[i] := tmp[i];
    }
    assert res[..] == product;
  }

  // ---------------------------------------------------------------------
  // Geometry

  /** Eight corners of the unit cube centred at the origin, three floats each. */
  const CubeVertices: seq<real> := [
    -0.5, -0.5,  0.5,
     0.5, -0.5,  0.5,
     0.5,  0.5,  0.5,
    -0.5,  0.5,  0.5,
    -0.5, -0.5, -0.5,
     0.5, -0.5, -0.5,
     0.5,  0.5, -0.5,
    -0.5,  0.5, -0.5
  ]

  /** Twelve triangles, two per face. */
  const Indices: seq<nat> := [
    0, 1, 2, 2, 3, 0,
    4, 5, 6, 6, 7, 4,
    0, 4, 7, 7, 3, 0,
    1, 5, 6, 6, 2, 1,
    3, 2, 6, 6, 7, 3,
    0, 1, 5, 5, 4, 0
  ]

  /** The element count glDrawElements is given. */
  const DrawCount: nat := 36

  /** Coordinate axis (0, 1 or 2) of vertex v. */
  function Coord(v: nat, axis: nat): real
    requires v < 8 && axis < 3
  {
    CubeVertices[v * 3 + axis]
  }

  /** The first four vertices are the front corners of the cube (z = 0.5). */
  lemma FrontCorners()
    ensures Coord(0, 0) == -0.5 && Coord(0, 1) == -0.5 && Coord(0, 2) == 0.5
    ensures Coord(1, 0) == 0.5 && Coord(1, 1) == -0.5 && Coord(1, 2) == 0.5
    ensures Coord(2, 0) == 0.5 && Coord(2, 1) == 0.5 && Coord(2, 2) == 0.5
    ensures Coord(3, 0) == -0.5 && Coord(3, 1) == 0.5 && Coord(3, 2) == 0.5
  {
  }

  /** The last four are the back corners (z = -0.5), in the same order. */
  lemma BackCorners()
    ensures Coord(4, 0) == -0.5 && Coord(4, 1) == -0.5 && Coord(4, 2) == -0.5
    ensures Coord(5, 0) == 0.5 && Coord(5, 1) == -0.5 && Coord(5, 2) == -0.5
    ensures Coord(6, 0) == 0.5 && Coord(6, 1) == 0.5 && Coord(6, 2) == -0.5
    ensures Coord(7, 0) == -0.5 && Coord(7, 1) == 0.5 && Coord(7, 2) == -0.5
  {
  }

  /** Triangle t has three distinct corners that share one coordinate, so it lies
      in one face of the cube. */
  predicate OnFace(t: nat)
    requires t < 12
  {
    var p, q, r := Indices[3 * t], Indices[3 * t + 1], Indices[3 * t + 2];
    p < 8 && q < 8 && r < 8 && Coplanar(p, q, r)
  }

  predicate Coplanar(p: nat, q: nat, r: nat)
    requires p < 8 && q < 8 && r < 8
  {
    p != q && q != r && p != r &&
    ((Coord(p, 0) == Coord(q, 0) == Coord(r, 0)) ||
     (Coord(p, 1) == Coord(q, 1) == Coord(r, 1)) ||
     (Coord(p, 2) == Coord(q, 2) == Coord(r, 2)))
  }

  /** The buffer holds 36 indices, twelve triangles, each naming one of the 8
      vertices; the draw call draws exactly all of them. */
  lemma IndicesInRange()
    ensures |Indices| == DrawCount == 36 && |Indices| / 3 == 12
    ensures |CubeVertices| == 8 * 3
    ensures forall i :: 0 <= i < |Indices| ==> Indices[i] < |CubeVertices| / 3
  {
  }

  /** The front face (z = 0.5) is covered by the first two triangles, proper triangles lying in it. */
  lemma FrontFace()
    ensures OnFace(0) && OnFace(1)
  {
    FrontCorners();
    assert Coplanar(0, 1, 2) && Coplanar(2, 3, 0);
  }

  /** The back face (z = -0.5) by the next two. */
  lemma BackFace()
    ensures OnFace(2) && OnFace(3)
  {
    BackCorners();
    assert Coplanar(4, 5, 6) && Coplanar(6, 7, 4);
  }

  /** The left face (x = -0.5) by the next two. */
  lemma LeftFace()
    ensures OnFace(4) && OnFace(5)
  {
    FrontCorners();
    BackCorners();
    assert Coplanar(0, 4, 7) && Coplanar(7, 3, 0);
  }

  /** The right face (x = 0.5) by the next two. */
  lemma RightFace()
    ensures OnFace(6) && OnFace(7)
  {
    FrontCorners();
    BackCorners();
    assert Coplanar(1, 5, 6) && Coplanar(6, 2, 1);
  }

  /** The top face (y = 0.5) by the next two. */
  lemma TopFace()
    ensures OnFace(8) && OnFace(9)
  {
    FrontCorners();
    BackCorners();
    assert Coplanar(3, 2, 6) && Coplanar(6, 7, 3);
  }

  /** The bottom face (y = -0.5) by the last two. */
  lemma BottomFace()
    ensures OnFace(10) && OnFace(11)
  {
    FrontCorners();
    BackCorners();
    assert Coplanar(0, 1, 5) && Coplanar(5, 4, 0);
  }

  // ---------------------------------------------------------------------
  // The main loop

  /** One frame: rotateY(rot, angle); multiply(mv, view, rot); multiply(mvp, proj, mv).
      The buffers are distinct locals of main. */
  method Frame(c: real, s: real, proj: array<real>, view: array<real>, rot: array<real>, mv: array<real>, mvp: array<real>)
    requires proj.Length == 16 && view.Length == 16 && rot.Length == 16 && mv.Length == 16 && mvp.Length == 16
    requires rot != proj && rot != view && rot != mv && rot != mvp
    requires mv != proj && mvp != proj && mvp != view && mvp != mv
    modifies rot, mv, mvp
    ensures Flat(rot) == RotationY(c, s)
    ensures Flat(mvp) == Mul(old(Flat(proj)), Mul(old(Flat(view)), RotationY(c, s)))
  {
    RotateY(rot, c, s);
    Multiply(mv, view, rot);
    Multiply(mvp, proj, mv);
  }

  /** OpenGL reads the uploaded mvp column by column, that is as
      Transpose(Flat(mvp)). With main's view (translate by (0, 0, -3)), whatever
      the perspective entries and the angle, the frame as written gives the
      cube's centre clip w == 0, while the product the shader is meant to apply,
      proj * view * rot as OpenGL reads each of them, gives w == 3. */
  lemma {:induction false} FrameOrderReversed(m0: real, m5: real, m10: real, m14: real, c: real, s: real)
    ensures var p, v, r := Projection(m0, m5, m10, m14), Translation(0.0, 0.0, -3.0), RotationY(c, s);
            var centre := Vec4(0.0, 0.0, 0.0, 1.0);
            Apply(Transpose(Mul(p, Mul(v, r))), centre).w == 0.0 &&
            Apply(Mul(Transpose(p), Mul(Transpose(v), Transpose(r))), centre).w == 3.0
  {
    var p, v, r := Projection(m0, m5, m10, m14), Translation(0.0, 0.0, -3.0), RotationY(c, s);
    // As written, w is entry (3, 3) of p * (v * r), and row 3 of p meets only
    // entry (2, 3) of v * r, which is 0.
    var vr := Mul(v, r);
    assert vr.m23 == 0.0;
    assert Mul(p, vr).m33 == 0.0;
    // As intended, w is -1 times entry (2, 3) of the transposed view and rotation,
    // which is the view's depth offset -3.
    var x := Mul(Transpose(v), Transpose(r));
    assert x.m23 == -3.0;
    assert Mul(Transpose(p), x).m33 == 3.0;
  }

  /** The frame with the products in the order OpenGL needs for its column-major
      reading: multiply(mv, rot, view); multiply(mvp, mv, proj). */
  method FrameColumnMajor(c: real, s: real, proj: array<real>, view: array<real>, rot: array<real>, mv: array<real>, mvp: array<real>)
    requires proj.Length == 16 && view.Length == 16 && rot.Length == 16 && mv.Length == 16 && mvp.Length == 16
    requires rot != proj && rot != view && rot != mv && rot != mvp
    requires mv != proj && mvp != proj && mvp != view && mvp != mv
    modifies rot, mv, mvp
    ensures Flat(rot) == RotationY(c, s)
    ensures Transpose(Flat(mvp))
         == Mul(Transpose(old(Flat(proj))), Mul(Transpose(old(Flat(view))), Transpose(RotationY(c, s))))
  {
    ghost var pm, vm := Flat(proj), Flat(view);
    RotateY(rot, c, s);
    Multiply(mv, rot, view);
    Multiply(mvp, mv, proj);
    TransposeOfTriple(RotationY(c, s), vm, pm);
  }
}
