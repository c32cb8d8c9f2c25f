/** The matrix builders, the inline MVP product of Update and the line-list cube
    of template/main.cpp. Matrices are float[16] buffers written through a
    float *m; the angle of RotateY reaches the model as its cosine c and sine s,
    and the field of view of Perspective as tanHalf = tan(fovy / 2). */
module TemplateMain {
  import opened Mat4Spec

  /** memset to zero, then 1 on the diagonal. */
  method LoadIdentity(m: array<real>)
    requires m.Length == 16
    modifies m
    ensures Flat(m) == Identity()
  {
    forall i | 0 <= i < 16 {
      m[i] := 0.0;
    }
    m[0], m[5], m[10], m[15] := 1.0, 1.0, 1.0, 1.0;
  }

  method Perspective(m: array<real>, tanHalf: real, aspect: real, nearZ: real, farZ: real)
    requires m.Length == 16
    requires tanHalf != 0.0 && aspect != 0.0 && nearZ != farZ
    modifies m
    ensures Flat(m) == Projection((1.0 / tanHalf) / aspect, 1.0 / tanHalf,
                                  (farZ + nearZ) / (nearZ - farZ), (2.0 * farZ * nearZ) / (nearZ - farZ))
  {
    var f := 1.0 / tanHalf;
    LoadIdentity(m);
    m[0] := f / aspect;
    m[5] := f;
    m[10] := (farZ + nearZ) / (nearZ - farZ);
    m[11] := -1.0;
    m[14] := (2.0 * farZ * nearZ) / (nearZ - farZ);
    m[15] := 0.0;
  }

  method RotateY(m: array<real>, c: real, s: real)
    requires m.Length == 16
    modifies m
    ensures Flat(m) == RotationY(c, s)
  {
    LoadIdentity(m);
    m[0] := c;
    m[2] := s;
    m[5] := 1.0;
    m[8] := -s;
    m[10] := c;
    m[15] := 1.0;
  }

  /** The projection Update builds: 640 x 480 window, near plane 0.1, far plane 100. */
  function UpdateProjection(tanHalf: real): Mat4
    requires tanHalf != 0.0
  {
    Projection((1.0 / tanHalf) / (640.0 / 480.0), 1.0 / tanHalf,
               (100.0 + 0.1) / (0.1 - 100.0), (2.0 * 100.0 * 0.1) / (0.1 - 100.0))
  }

  /** The inline triple loop of Update: each entry of mvp is zeroed and then
      proj[row * 4 + k] * rot[k * 4 + col] is added for k = 0 .. 3. The three
      buffers are distinct locals of Update. */
  method MultiplyInline(proj: array<real>, rot: array<real>, mvp: array<real>)
    requires proj.Length == 16 && rot.Length == 16 && mvp.Length == 16
    requires mvp != proj && mvp != rot
    modifies mvp
    ensures Flat(mvp) == Mul(Flat(proj), Flat(rot))
  {
    ghost var sp, sr := proj[..], rot[..];
    for row := 0 to 4
      invariant forall r, c :: 0 <= r < row && 0 <= c < 4 ==> mvp[r * 4 + c] == RowCol(sp, sr, r, c, 4)
    {
      for col := 0 to 4
        invariant forall r, c :: 0 <= r < row && 0 <= c < 4 ==> mvp[r * 4 + c] == RowCol(sp, sr, r, c, 4)
        invariant forall c :: 0 <= c < col ==> mvp[row * 4 + c] == RowCol(sp, sr, row, c, 4)
      {
        mvp[row * 4 + col] := 0.0;
        for k := 0 to 4
          invariant forall r, c :: 0 <= r < row && 0 <= c < 4 ==> mvp[r * 4 + c] == RowCol(sp, sr, r, c, 4)
          invariant forall c :: 0 <= c < col ==> mvp[row * 4 + c] == RowCol(sp, sr, row, c, 4)
          invariant mvp[row * 4 + col] == RowCol(sp, sr, row, col, k)
        {
          mvp[row * 4 + col] := mvp[row * 4 + col] + proj[row * 4 + k] * rot[k * 4 + col];
        }
      }
    }
    assert proj[..] == sp && rot[..] == sr;
    ProductOfCells(mvp[..], sp, sr);
  }

  /** The local buffers proj and rot of Update, built by Perspective (45 degree
      field of view, 640 x 480, near 0.1, far 100) and RotateY. */
  method BuildBuffers(tanHalf: real, c: real, s: real) returns (proj: array<real>, rot: array<real>)
    requires tanHalf != 0.0
    ensures fresh(proj) && fresh(rot) && proj.Length == 16 && rot.Length == 16
    ensures Flat(proj) == UpdateProjection(tanHalf) && Flat(rot) == RotationY(c, s)
  {
    proj := new real[16];
    rot := new real[16];
    Perspective(proj, tanHalf, 640.0 / 480.0, 0.1, 100.0);
    RotateY(rot, c, s);
  }

  /** The matrix part of Update: proj and rot are built in local buffers, mvp is
      their row-by-row product, and that buffer is uploaded to u_MVP with
      GL_FALSE, so OpenGL reads it as Transpose(uploaded). */
  method UpdateMvp(tanHalf: real, c: real, s: real) returns (uploaded: Mat4)
    requires tanHalf != 0.0
    ensures uploaded == Mul(UpdateProjection(tanHalf), RotationY(c, s))
  {
    var proj, rot := BuildBuffers(tanHalf, c, s);
    var mvp := new real[16];
    MultiplyInline(proj, rot, mvp);
    uploaded := Flat(mvp);
  }

  /** The builders lay proj and rot out column by column, and the shader computes
      u_MVP * position with u_MVP read column by column. As written, a vertex
      (x, y, z) gets clip w == -z whatever the angle, because the rotation is
      applied after the projection; the intended proj * rot, as OpenGL reads
      each of them, gives w == -(s * x + c * z). */
  lemma {:induction false} UpdateOrderReversed(m0: real, m5: real, m10: real, m14: real, c: real, s: real,
                                               x: real, y: real, z: real)
    ensures var p, r, v := Projection(m0, m5, m10, m14), RotationY(c, s), Vec4(x, y, z, 1.0);
            Apply(Transpose(Mul(p, r)), v).w == -z &&
            Apply(Mul(Transpose(p), Transpose(r)), v).w == -(s * x + c * z)
  {
    var p, r, v := Projection(m0, m5, m10, m14), RotationY(c, s), Vec4(x, y, z, 1.0);
    TransposeOfProduct(p, r);
    ApplyMul(Transpose(r), Transpose(p), v);
    ApplyMul(Transpose(p), Transpose(r), v);
  }

  /** Update with the operands of the inline product swapped (rot first, proj
      second), so that OpenGL, reading mvp column by column, applies the
      rotation first and the projection after it. */
  method UpdateMvpColumnMajor(tanHalf: real, c: real, s: real) returns (uploaded: Mat4)
    requires tanHalf != 0.0
    ensures Transpose(uploaded) == Mul(Transpose(UpdateProjection(tanHalf)), Transpose(RotationY(c, s)))
  {
    var proj, rot := BuildBuffers(tanHalf, c, s);
    var mvp := new real[16];
    MultiplyInline(rot, proj, mvp);
    uploaded := Flat(mvp);
    ReadColumnMajor(uploaded, UpdateProjection(tanHalf), RotationY(c, s));
  }

  /** A buffer holding r * p row by row is read by OpenGL as p * r, each factor
      read column by column too. */
  lemma ReadColumnMajor(u: Mat4, p: Mat4, r: Mat4)
    requires u == Mul(r, p)
    ensures Transpose(u) == Mul(Transpose(p), Transpose(r))
  {
    TransposeOfProduct(r, p);
  }

  // ---------------------------------------------------------------------
  // Geometry

  /** 24 vertices of three floats, in the six groups of four the array is
      written in: the front corners, the back corners, then the top, bottom,
      right and left faces again. */
  const CubeVerts: seq<real> :=
    [-0.5, -0.5,  0.5,   0.5, -0.5,  0.5,   0.5,  0.5,  0.5,  -0.5,  0.5,  0.5] +
    [-0.5, -0.5, -0.5,   0.5, -0.5, -0.5,   0.5,  0.5, -0.5,  -0.5,  0.5, -0.5] +
    [-0.5,  0.5,  0.5,   0.5,  0.5,  0.5,   0.5,  0.5, -0.5,  -0.5,  0.5, -0.5] +
    [-0.5, -0.5,  0.5,   0.5, -0.5,  0.5,   0.5, -0.5, -0.5,  -0.5, -0.5, -0.5] +
    [ 0.5, -0.5,  0.5,   0.5, -0.5, -0.5,   0.5,  0.5, -0.5,   0.5,  0.5,  0.5] +
    [-0.5, -0.5,  0.5,  -0.5, -0.5, -0.5,  -0.5,  0.5, -0.5,  -0.5,  0.5,  0.5]

  /** Twelve lines: the front square, the back square and the four edges joining them. */
  const CubeIndices: seq<nat> := [
    0, 1, 1, 2, 2, 3, 3, 0,
    4, 5, 5, 6, 6, 7, 7, 4,
    0, 4, 1, 5, 2, 6, 3, 7
  ]

  /** sizeof(cube_indices) / sizeof(GLuint), the count given to glDrawElements. */
  function DrawCount(): nat {
    |CubeIndices|
  }

  /** Coordinate axis (0, 1 or 2) of vertex v. */
  function Coord(v: nat, axis: nat): real
    requires v < 24 && axis < 3
  {
    CubeVerts[v * 3 + axis]
  }

  /** The first four vertices are the front corners of the cube (z = 0.5). */
  lemma FrontCorners()
    ensures Coord(0, 0) == -0.5 && Coord(0, 1) == -0.5 && Coord(0, 2) == 0.5
    ensures Coord(1, 0) == 0.5 && Coord(1, 1) == -0.5 && Coord(1, 2) == 0.5
    ensures Coord(2, 0) == 0.5 && Coord(2, 1) == 0.5 && Coord(2, 2) == 0.5
    ensures Coord(3, 0) == -0.5 && Coord(3, 1) == 0.5 && Coord(3, 2) == 0.5
  {
  }

  /** The next four are the back corners (z = -0.5), in the same order. */
  lemma BackCorners()
    ensures Coord(4, 0) == -0.5 && Coord(4, 1) == -0.5 && Coord(4, 2) == -0.5
    ensures Coord(5, 0) == 0.5 && Coord(5, 1) == -0.5 && Coord(5, 2) == -0.5
    ensures Coord(6, 0) == 0.5 && Coord(6, 1) == 0.5 && Coord(6, 2) == -0.5
    ensures Coord(7, 0) == -0.5 && Coord(7, 1) == 0.5 && Coord(7, 2) == -0.5
  {
  }

  /** Line e joins two of the eight corners that differ in exactly one
      coordinate, by 1: an edge of the unit cube. */
  predicate IsEdge(e: nat)
    requires e < 12
  {
    var p, q := CubeIndices[2 * e], CubeIndices[2 * e + 1];
    p < 8 && q < 8 &&
    var dx, dy, dz := Coord(p, 0) - Coord(q, 0), Coord(p, 1) - Coord(q, 1), Coord(p, 2) - Coord(q, 2);
    (UnitStep(dx) && dy == 0.0 && dz == 0.0) ||
    (dx == 0.0 && UnitStep(dy) && dz == 0.0) ||
    (dx == 0.0 && dy == 0.0 && UnitStep(dz))
  }

  predicate UnitStep(d: real) {
    d == 1.0 || d == -1.0
  }

  /** 24 indices, twelve lines, each naming one of the 24 vertices; the draw
      count computed with sizeof is exactly 24. */
  lemma IndicesInRange()
    ensures |CubeVerts| == 24 * 3
    ensures DrawCount() == |CubeIndices| == 24 && |CubeIndices| / 2 == 12
    ensures forall i :: 0 <= i < |CubeIndices| ==> CubeIndices[i] < |CubeVerts| / 3
  {
  }

  /** The first four lines trace the front square of the cube. */
  lemma FrontSquareEdges()
    ensures IsEdge(0) && IsEdge(1) && IsEdge(2) && IsEdge(3)
  {
    FrontCorners();
    assert CubeIndices[..8] == [0, 1, 1, 2, 2, 3, 3, 0];
  }

  /** The next four trace the back square. */
  lemma BackSquareEdges()
    ensures IsEdge(4) && IsEdge(5) && IsEdge(6) && IsEdge(7)
  {
    BackCorners();
  }

  /** The last four join each front corner to the back corner behind it. */
  lemma JoiningEdges()
    ensures IsEdge(8) && IsEdge(9) && IsEdge(10) && IsEdge(11)
  {
    FrontCorners();
    BackCorners();
  }
}
