/** What the clamped-grid tessellator of CGW/src/astroidal_torus.js
    guarantees about the mesh it returns: where each grid vertex lands in
    the buffers, which vertices each quad's triangles join, that every index
    names a vertex, that the wrapped neighbours are grid points, and that
    the normal and tangent of every vertex form an orthonormal pair. */
module ClampedTorusProps {
  import opened VecMath
  import opened Surface
  import opened Layout
  import opened JsNumber
  import opened Packed
  import opened ClampedTorus

  // ---------------------------------------------------------------------
  // Vertex layout

  /** Buffer slot k of b holds vertex v: its position, normal and uv, and
      the placeholder tangent (1, 0, 0). */
  ghost predicate HoldsAt(b: Buffers, k: nat, v: Vertex)
  {
    && 3 * k + 2 < |b.positions| && 3 * k + 2 < |b.normals|
    && 2 * k + 1 < |b.uvs| && 3 * k + 2 < |b.tangents|
    && PosAt(b.positions, k) == v.position && PosAt(b.normals, k) == v.normal
    && UvAt(b.uvs, k) == Uv(v.u01, v.v01) && PosAt(b.tangents, k) == Vec3(1.0, 0.0, 0.0)
  }

  /** b holds s slots. */
  ghost predicate Slots(b: Buffers, s: nat)
  {
    |b.positions| == 3 * s && |b.normals| == 3 * s && |b.uvs| == 2 * s && |b.tangents| == 3 * s
  }

  lemma AppendKeeps(a: Buffers, b: Buffers, k: nat, v: Vertex)
    requires HoldsAt(a, k, v)
    ensures HoldsAt(a.Append(b), k, v)
  {
  }

  lemma AppendShifts(a: Buffers, b: Buffers, s: nat, k: nat, v: Vertex)
    requires Slots(a, s) && HoldsAt(b, k, v)
    ensures HoldsAt(a.Append(b), s + k, v)
  {
    var c := a.Append(b);
    assert c.positions[3 * (s + k)] == b.positions[3 * k];
    assert c.normals[3 * (s + k)] == b.normals[3 * k];
  }

  lemma PushKeeps(b: Buffers, w: Vertex, k: nat, v: Vertex)
    requires HoldsAt(b, k, v)
    ensures HoldsAt(b.Push(w), k, v)
  {
  }

  lemma PushAt(b: Buffers, s: nat, w: Vertex)
    requires Slots(b, s)
    ensures HoldsAt(b.Push(w), s, w) && Slots(b.Push(w), s + 1)
  {
  }

  /** Vertex (i, j) is slot i of row j. */
  lemma {:induction false} RowPrefixAt(vt: (int, int) -> Vertex, j: int, n: nat, i: nat)
    requires i < n
    ensures HoldsAt(RowPrefix(vt, j, n), i, vt(i, j))
  {
    var prev := RowPrefix(vt, j, n - 1);
    if i < n - 1 {
      RowPrefixAt(vt, j, n - 1, i);
      PushKeeps(prev, vt(n - 1, j), i, vt(i, j));
    } else {
      RowPrefixLength(vt, j, n - 1);
      PushAt(prev, n - 1, vt(i, j));
    }
  }

  /** Vertex (i, j) of rows of width `row` is slot k = j*row + i. */
  lemma {:induction false} LaidRowsAt(vt: (int, int) -> Vertex, row: nat, n: nat, j: nat, i: nat, k: nat)
    requires j < n && i < row && k == j * row + i
    ensures HoldsAt(LaidRows(vt, row, n), k, vt(i, j))
  {
    if j < n - 1 {
      LaidRowsAt(vt, row, n - 1, j, i, k);
      LaidRowsKeep(vt, row, n, k, vt(i, j));
    } else {
      LaidRowsLast(vt, row, n, i, k);
    }
  }

  /** Appending a row keeps the slots before it. */
  lemma LaidRowsKeep(vt: (int, int) -> Vertex, row: nat, n: nat, k: nat, v: Vertex)
    requires n >= 1 && HoldsAt(LaidRows(vt, row, n - 1), k, v)
    ensures HoldsAt(LaidRows(vt, row, n), k, v)
  {
    AppendKeeps(LaidRows(vt, row, n - 1), RowPrefix(vt, n - 1, row), k, v);
  }

  /** Vertex (i, n-1) of the row appended last is slot (n-1)*row + i. */
  lemma LaidRowsLast(vt: (int, int) -> Vertex, row: nat, n: nat, i: nat, k: nat)
    requires n >= 1 && i < row && k == (n - 1) * row + i
    ensures HoldsAt(LaidRows(vt, row, n), k, vt(i, n - 1))
  {
    var prev := LaidRows(vt, row, n - 1);
    var s := row * (n - 1);
    LaidRowsLength(vt, row, n - 1);
    assert Slots(prev, s);
    RowPrefixAt(vt, n - 1, row, i);
    AppendShifts(prev, RowPrefix(vt, n - 1, row), s, i, vt(i, n - 1));
    assert k == s + i;
    assert LaidRows(vt, row, n) == prev.Append(RowPrefix(vt, n - 1, row));
  }

  /** Grid point (i, j) is vertex number j*(Nu+1) + i. */
  function VertexIndex(p: Params, i: int, j: int): int
  {
    j * (p.nu + 1) + i
  }

  /** The (Nu+1) x (Nv+1) grid points number the vertices 0..V-1. */
  lemma VertexIndexInRange(p: Params, i: int, j: int)
    requires Resolved(p) && 0 <= i <= p.nu && 0 <= j <= p.nv
    ensures 0 <= VertexIndex(p, i, j) < VertexCount(p)
  {
    RecordBefore(p.nu + 1, j, i, p.nv + 1);
    assert (p.nu + 1) * j == j * (p.nu + 1);
  }

  /** Slot k of the mesh holds the position, normal and uv of v. */
  ghost predicate MeshVertexAt(mesh: Mesh, k: int, v: Vertex)
  {
    && 0 <= k && 3 * k + 2 < |mesh.positions| && 3 * k + 2 < |mesh.normals| && 2 * k + 1 < |mesh.uvs|
    && PosAt(mesh.positions, k) == v.position && PosAt(mesh.normals, k) == v.normal
    && UvAt(mesh.uvs, k) == Uv(v.u01, v.v01)
  }

  /** Grid point (i, j) is vertex j*(Nu+1) + i of the mesh: the surface at
      (i/Nu, j/Nv), with the normal of lines 72-84 and the uv (i/Nu, j/Nv). */
  lemma VertexLayout(xyz: Evaluator, m: Metric, p: Params, i: nat, j: nat)
    requires Resolved(p) && i <= p.nu && j <= p.nv
    ensures MeshVertexAt(ClampedMesh(xyz, m, p), VertexIndex(p, i, j), VertexAt(xyz, m, p, i, j))
  {
    VertexIndexInRange(p, i, j);
    BuffersAt(xyz, m, p, i, j);
    MeshFields(xyz, m, p);
  }

  /** The same for the buffers of the vertex loop. */
  lemma BuffersAt(xyz: Evaluator, m: Metric, p: Params, i: nat, j: nat)
    requires Resolved(p) && i <= p.nu && j <= p.nv
    ensures HoldsAt(VertexBuffers(xyz, m, p), VertexIndex(p, i, j), VertexAt(xyz, m, p, i, j))
  {
    LaidRowsAt(VertexTable(xyz, m, p), p.nu + 1, p.nv + 1, j, i, VertexIndex(p, i, j));
  }

  /** The uvs of the vertices of rows 0..n-1 of width row lie in [0, 1]. */
  ghost predicate UnitVertices(vt: (int, int) -> Vertex, row: nat, n: nat)
  {
    forall i, j :: 0 <= i < row && 0 <= j < n ==> 0.0 <= vt(i, j).u01 <= 1.0 && 0.0 <= vt(i, j).v01 <= 1.0
  }

  /** Every uv coordinate of b lies in [0, 1]. */
  ghost predicate UnitUvs(b: Buffers)
  {
    forall t :: 0 <= t < |b.uvs| ==> 0.0 <= b.uvs[t] <= 1.0
  }

  lemma {:induction false} RowUnit(vt: (int, int) -> Vertex, row: nat, n: nat, j: nat, len: nat)
    requires UnitVertices(vt, row, n) && j < n && len <= row
    ensures UnitUvs(RowPrefix(vt, j, len))
  {
    if len > 0 {
      RowUnit(vt, row, n, j, len - 1);
    }
  }

  lemma {:induction false} LaidRowsUnit(vt: (int, int) -> Vertex, row: nat, n: nat, len: nat)
    requires UnitVertices(vt, row, n) && len <= n
    ensures UnitUvs(LaidRows(vt, row, len))
  {
    if len > 0 {
      LaidRowsUnit(vt, row, n, len - 1);
      RowUnit(vt, row, n, len - 1, row);
    }
  }

  lemma FractionWithin(a: int, n: int)
    requires 0 <= a <= n && n >= 1
    ensures 0.0 <= a as real / n as real <= 1.0
  {
  }

  /** The mesh's positions, normals and uvs are the buffers of the vertex
      loop, its indices those of the index loop, its tangents the final
      tangents of the accumulated sums, and its params p. */
  lemma MeshFields(xyz: Evaluator, m: Metric, p: Params)
    requires Resolved(p)
    ensures var mesh := ClampedMesh(xyz, m, p); var b := VertexBuffers(xyz, m, p);
      && Readable(b.positions, b.uvs, Indices(p), VertexCount(p)) && |b.normals| == 3 * VertexCount(p)
      && mesh.positions == b.positions && mesh.normals == b.normals && mesh.uvs == b.uvs
      && mesh.indices == Indices(p) && mesh.params == p
      && mesh.tangents == Flatten(VertexCount(p), FinalTable(m, b.normals,
                                  TangentSums(b.positions, b.uvs, Indices(p), VertexCount(p))))
  {
    MeshReadable(xyz, m, p);
  }

  /** Every uv coordinate of the mesh lies in [0, 1]. */
  lemma UvsInUnitSquare(xyz: Evaluator, m: Metric, p: Params)
    requires Resolved(p)
    ensures var uvs := ClampedMesh(xyz, m, p).uvs;
      forall t :: 0 <= t < |uvs| ==> 0.0 <= uvs[t] <= 1.0
  {
    VertexTableUnit(xyz, m, p);
    LaidRowsUnit(VertexTable(xyz, m, p), p.nu + 1, p.nv + 1, p.nv + 1);
    assert UnitUvs(VertexBuffers(xyz, m, p));
    MeshFields(xyz, m, p);
  }

  /** Grid point (i, j) has uv (i/Nu, j/Nv), inside the unit square. */
  lemma VertexTableUnit(xyz: Evaluator, m: Metric, p: Params)
    requires Resolved(p)
    ensures UnitVertices(VertexTable(xyz, m, p), p.nu + 1, p.nv + 1)
  {
    forall i, j | 0 <= i < p.nu + 1 && 0 <= j < p.nv + 1
      ensures 0.0 <= U01(p, i) <= 1.0 && 0.0 <= V01(p, j) <= 1.0
    {
      FractionWithin(i, p.nu);
      FractionWithin(j, p.nv);
    }
  }

  // ---------------------------------------------------------------------
  // Index layout

  /** Quad (i, j) is record q = j*Nu + i of the index buffer: the triangles
      (i, j), (i, j+1), (i+1, j) and (i+1, j), (i, j+1), (i+1, j+1). */
  lemma QuadCorners(p: Params, i: int, j: int, q: int)
    requires Resolved(p) && 0 <= i < p.nu && 0 <= j < p.nv && q == j * p.nu + i
    ensures var idx := Indices(p);
      && 0 <= 6 * q && 6 * q + 5 < |idx|
      && idx[6 * q] == VertexIndex(p, i, j) && idx[6 * q + 1] == VertexIndex(p, i, j + 1)
      && idx[6 * q + 2] == VertexIndex(p, i + 1, j) && idx[6 * q + 3] == VertexIndex(p, i + 1, j)
      && idx[6 * q + 4] == VertexIndex(p, i, j + 1) && idx[6 * q + 5] == VertexIndex(p, i + 1, j + 1)
  {
    var row := p.nu + 1;
    assert GridUniform(p.nv, p.nu, QuadRec(row), 6);
    var quad := QuadRec(row)(j, i);
    var a0 := j * row + i;
    assert quad == [a0, a0 + row, a0 + 1, a0 + 1, a0 + row, a0 + row + 1];
    GridAt(p.nv, p.nu, QuadRec(row), 6, j, i, 0, 6 * q);
    GridAt(p.nv, p.nu, QuadRec(row), 6, j, i, 1, 6 * q + 1);
    GridAt(p.nv, p.nu, QuadRec(row), 6, j, i, 2, 6 * q + 2);
    GridAt(p.nv, p.nu, QuadRec(row), 6, j, i, 3, 6 * q + 3);
    GridAt(p.nv, p.nu, QuadRec(row), 6, j, i, 4, 6 * q + 4);
    GridAt(p.nv, p.nu, QuadRec(row), 6, j, i, 5, 6 * q + 5);
    assert (j + 1) * row == j * row + row;
  }

  /** Each triangle joins three different vertices, and the two triangles
      of a quad share its diagonal, traversed in opposite directions, so
      they are wound the same way. */
  lemma QuadTriangles(p: Params, i: int, j: int, q: int)
    requires Resolved(p) && 0 <= i < p.nu && 0 <= j < p.nv && q == j * p.nu + i
    ensures var idx := Indices(p);
      && 0 <= 6 * q && 6 * q + 5 < |idx|
      && idx[6 * q] != idx[6 * q + 1] && idx[6 * q + 1] != idx[6 * q + 2] && idx[6 * q] != idx[6 * q + 2]
      && idx[6 * q + 3] != idx[6 * q + 4] && idx[6 * q + 4] != idx[6 * q + 5] && idx[6 * q + 3] != idx[6 * q + 5]
      && idx[6 * q + 1] == idx[6 * q + 4] && idx[6 * q + 2] == idx[6 * q + 3]
  {
    QuadCorners(p, i, j, q);
    assert VertexIndex(p, i, j + 1) == VertexIndex(p, i, j) + p.nu + 1;
    assert VertexIndex(p, i + 1, j + 1) == VertexIndex(p, i + 1, j) + p.nu + 1;
  }

  /** The largest index is that of the last vertex (Nu, Nv), so the index
      buffer fits 16-bit indices exactly when there are at most 2^16 vertices. */
  lemma IndicesFitUint16(p: Params)
    requires Resolved(p)
    ensures (forall t :: 0 <= t < |Indices(p)| ==> Indices(p)[t] < TwoTo16) <==> VertexCount(p) <= TwoTo16
  {
    IndicesInRange(p);
    var q := (p.nv - 1) * p.nu + (p.nu - 1);
    QuadCorners(p, p.nu - 1, p.nv - 1, q);
    assert VertexIndex(p, p.nu, p.nv) == VertexCount(p) - 1;
  }

  // ---------------------------------------------------------------------
  // Periodic neighbours (lines 19-23, 72-79)

  /** The fractional part of a/n is (a mod n)/n. */
  lemma WrapFraction(a: int, n: int)
    requires n >= 1
    ensures Wrap01(a as real / n as real) == (a % n) as real / n as real
  {
    var q, r := a / n, a % n;
    var x := a as real / n as real;
    var f := r as real / n as real;
    assert a == q * n + r;
    assert a as real == q as real * n as real + r as real;
    assert x == q as real + f by {
      assert (q as real + f) * n as real == a as real;
    }
    assert 0.0 <= f < 1.0;
    assert x.Floor == q;
  }

  /** The wrapped neighbours u01 +- 1/Nu of column i are the columns
      (i +- 1) mod Nu: every difference is taken between grid points, and at
      the seam the neighbours wrap around. */
  lemma WrappedNeighboursU(p: Params, i: int)
    requires Resolved(p)
    ensures Wrap01(U01(p, i) + 1.0 / p.nu as real) == U01(p, (i + 1) % p.nu)
    ensures Wrap01(U01(p, i) - 1.0 / p.nu as real) == U01(p, (i - 1) % p.nu)
  {
    var n := p.nu as real;
    assert U01(p, i) + 1.0 / n == (i + 1) as real / n;
    assert U01(p, i) - 1.0 / n == (i - 1) as real / n;
    WrapFraction(i + 1, p.nu);
    WrapFraction(i - 1, p.nu);
  }

  /** The same for the rows. */
  lemma WrappedNeighboursV(p: Params, j: int)
    requires Resolved(p)
    ensures Wrap01(V01(p, j) + 1.0 / p.nv as real) == V01(p, (j + 1) % p.nv)
    ensures Wrap01(V01(p, j) - 1.0 / p.nv as real) == V01(p, (j - 1) % p.nv)
  {
    var n := p.nv as real;
    assert V01(p, j) + 1.0 / n == (j + 1) as real / n;
    assert V01(p, j) - 1.0 / n == (j - 1) as real / n;
    WrapFraction(j + 1, p.nv);
    WrapFraction(j - 1, p.nv);
  }

  /** The duplicated seam column Nu gets the same normal as column 0
      whenever the surface closes up there (as XYZ does at u = -pi and pi). */
  lemma SeamNormalsU(xyz: Evaluator, m: Metric, p: Params, j: int)
    requires Resolved(p)
    requires forall v :: SurfaceAt(xyz, p, 1.0, v) == SurfaceAt(xyz, p, 0.0, v)
    ensures VertexNormal(xyz, m, p, p.nu, j) == VertexNormal(xyz, m, p, 0, j)
  {
    SeamUSpan(xyz, p, j);
    SeamVSpanAtU(xyz, p, j);
  }

  lemma SeamUSpan(xyz: Evaluator, p: Params, j: int)
    requires Resolved(p)
    ensures USpan(xyz, p, p.nu, j) == USpan(xyz, p, 0, j)
  {
    var e := 1.0 / p.nu as real;
    assert Wrap01(U01(p, p.nu) + e) == Wrap01(U01(p, 0) + e) by {
      WrappedNeighboursU(p, p.nu);
      WrappedNeighboursU(p, 0);
      ModShift(1, p.nu);
    }
    assert Wrap01(U01(p, p.nu) - e) == Wrap01(U01(p, 0) - e) by {
      WrappedNeighboursU(p, p.nu);
      WrappedNeighboursU(p, 0);
      ModShift(-1, p.nu);
    }
  }

  lemma SeamVSpanAtU(xyz: Evaluator, p: Params, j: int)
    requires Resolved(p)
    requires forall v :: SurfaceAt(xyz, p, 1.0, v) == SurfaceAt(xyz, p, 0.0, v)
    ensures VSpan(xyz, p, p.nu, j) == VSpan(xyz, p, 0, j)
  {
    assert U01(p, p.nu) == 1.0 && U01(p, 0) == 0.0;
  }

  /** The duplicated seam row Nv gets the same normal as row 0 whenever the
      surface closes up there (as XYZ does at v = 0 and 2 pi). */
  lemma SeamNormalsV(xyz: Evaluator, m: Metric, p: Params, i: int)
    requires Resolved(p)
    requires forall u :: SurfaceAt(xyz, p, u, 1.0) == SurfaceAt(xyz, p, u, 0.0)
    ensures VertexNormal(xyz, m, p, i, p.nv) == VertexNormal(xyz, m, p, i, 0)
  {
    SeamVSpan(xyz, p, i);
    SeamUSpanAtV(xyz, p, i);
  }

  lemma SeamVSpan(xyz: Evaluator, p: Params, i: int)
    requires Resolved(p)
    ensures VSpan(xyz, p, i, p.nv) == VSpan(xyz, p, i, 0)
  {
    var e := 1.0 / p.nv as real;
    assert Wrap01(V01(p, p.nv) + e) == Wrap01(V01(p, 0) + e) by {
      WrappedNeighboursV(p, p.nv);
      WrappedNeighboursV(p, 0);
      ModShift(1, p.nv);
    }
    assert Wrap01(V01(p, p.nv) - e) == Wrap01(V01(p, 0) - e) by {
      WrappedNeighboursV(p, p.nv);
      WrappedNeighboursV(p, 0);
      ModShift(-1, p.nv);
    }
  }

  lemma SeamUSpanAtV(xyz: Evaluator, p: Params, i: int)
    requires Resolved(p)
    requires forall u :: SurfaceAt(xyz, p, u, 1.0) == SurfaceAt(xyz, p, u, 0.0)
    ensures USpan(xyz, p, i, p.nv) == USpan(xyz, p, i, 0)
  {
    assert V01(p, p.nv) == 1.0 && V01(p, 0) == 0.0;
  }

  // ---------------------------------------------------------------------
  // Tangent accumulation (lines 115-138)

  /** A vertex that no triangle among the first n names keeps a zero sum. */
  lemma {:induction false} UnnamedStaysZero(tt: nat -> Option<Vec3>, indices: seq<int>, v: nat, n: nat, q: int)
    requires InRange(indices, v) && 3 * n <= |indices| && 0 <= q < v
    requires forall t :: 0 <= t < 3 * n ==> indices[t] != q
    ensures SumTangents(tt, indices, v, n)[q] == Zero
  {
    if n > 0 {
      UnnamedStaysZero(tt, indices, v, n - 1, q);
    }
  }

  /** Triangle n (indices 3n, 3n+1, 3n+2) adds its tangent to entry q of
      tanAcc once for every corner that is q, leaves every other vertex's
      entry unchanged, and changes nothing when it was skipped. */
  lemma TriangleAdded(tt: nat -> Option<Vec3>, indices: seq<int>, v: nat, n: nat, q: int)
    requires InRange(indices, v) && 3 * (n + 1) <= |indices| && 0 <= q < v
    ensures var i0, i1, i2 := indices[3 * n], indices[3 * n + 1], indices[3 * n + 2];
      var before, after := SumTangents(tt, indices, v, n), SumTangents(tt, indices, v, n + 1);
      && (tt(n).None? ==> after == before)
      && (tt(n).Some? ==> after[q] == Add(before[q], Scale(tt(n).value, Hits(q, i0, i1, i2) as real)))
      && (q != i0 && q != i1 && q != i2 ==> after[q] == before[q])
  {
    var i0, i1, i2 := indices[3 * n], indices[3 * n + 1], indices[3 * n + 2];
    var before := SumTangents(tt, indices, v, n);
    if tt(n).Some? {
      var tan := tt(n).value;
      var s1 := AddAt(before, i0, tan);
      var s2 := AddAt(s1, i1, tan);
      assert SumTangents(tt, indices, v, n + 1) == AddAt(s2, i2, tan);
      SumOfHits(before[q], tan, q == i0, q == i1, q == i2);
    }
  }

  /** A triangle is skipped exactly when its uv determinant is below 1e-10
      in magnitude. */
  lemma TangentSkipped(e1: Vec3, e2: Vec3, du1: real, dv1: real, du2: real, dv2: real)
    ensures UvTangent(e1, e2, du1, dv1, du2, dv2).None? <==> Abs(du1 * dv2 - dv1 * du2) < 1e-10
  {
  }

  lemma SolveScalar(x1: real, x2: real, du1: real, dv1: real, du2: real, dv2: real, s: real, tx: real, bx: real)
    requires s * (du1 * dv2 - dv1 * du2) == 1.0
    requires tx == (x1 * dv2 - x2 * dv1) * s && bx == (x2 * du1 - x1 * du2) * s
    ensures tx * du1 + bx * dv1 == x1 && tx * du2 + bx * dv2 == x2
  {
    assert tx * du1 + bx * dv1 == x1 * (s * (du1 * dv2 - dv1 * du2));
    assert tx * du2 + bx * dv2 == x2 * (s * (du1 * dv2 - dv1 * du2));
  }

  lemma Components(e1: Vec3, e2: Vec3, du1: real, dv1: real, du2: real, dv2: real, t: Vec3, b: Vec3)
    requires t.x * du1 + b.x * dv1 == e1.x && t.y * du1 + b.y * dv1 == e1.y && t.z * du1 + b.z * dv1 == e1.z
    requires t.x * du2 + b.x * dv2 == e2.x && t.y * du2 + b.y * dv2 == e2.y && t.z * du2 + b.z * dv2 == e2.z
    ensures Add(Scale(t, du1), Scale(b, dv1)) == e1 && Add(Scale(t, du2), Scale(b, dv2)) == e2
  {
  }

  /** Cramer's rule: with s = 1/det, t = s (dv2 e1 - dv1 e2) and
      b = s (du1 e2 - du2 e1) solve e1 = du1 t + dv1 b, e2 = du2 t + dv2 b. */
  lemma Cramer(e1: Vec3, e2: Vec3, du1: real, dv1: real, du2: real, dv2: real, s: real)
    requires s * (du1 * dv2 - dv1 * du2) == 1.0
    ensures var t := Scale(Sub(Scale(e1, dv2), Scale(e2, dv1)), s);
      var b := Scale(Sub(Scale(e2, du1), Scale(e1, du2)), s);
      Add(Scale(t, du1), Scale(b, dv1)) == e1 && Add(Scale(t, du2), Scale(b, dv2)) == e2
  {
    var t := Scale(Sub(Scale(e1, dv2), Scale(e2, dv1)), s);
    var b := Scale(Sub(Scale(e2, du1), Scale(e1, du2)), s);
    SolveScalar(e1.x, e2.x, du1, dv1, du2, dv2, s, t.x, b.x);
    SolveScalar(e1.y, e2.y, du1, dv1, du2, dv2, s, t.y, b.y);
    SolveScalar(e1.z, e2.z, du1, dv1, du2, dv2, s, t.z, b.z);
    Components(e1, e2, du1, dv1, du2, dv2, t, b);
  }

  /** The tangent of lines 129-133 solves the texture-space system:
      with the bitangent b, e1 = du1 t + dv1 b and e2 = du2 t + dv2 b. */
  lemma TangentSolves(e1: Vec3, e2: Vec3, du1: real, dv1: real, du2: real, dv2: real)
    requires UvTangent(e1, e2, du1, dv1, du2, dv2).Some?
    ensures var t := UvTangent(e1, e2, du1, dv1, du2, dv2).value;
      var b := Scale(Sub(Scale(e2, du1), Scale(e1, du2)), 1.0 / (du1 * dv2 - dv1 * du2));
      Add(Scale(t, du1), Scale(b, dv1)) == e1 && Add(Scale(t, du2), Scale(b, dv2)) == e2
  {
    var d := du1 * dv2 - dv1 * du2;
    assert (1.0 / d) * d == 1.0;
    Cramer(e1, e2, du1, dv1, du2, dv2, 1.0 / d);
  }

  // ---------------------------------------------------------------------
  // Orthonormal frames

  /** Under a Euclidean metric every normal has unit length: normalize3
      makes it so, and the fallback (0, 0, 1) is a unit vector. */
  lemma UnitNormal(m: Metric, c: Vec3)
    requires Euclidean(m)
    ensures Dot(NormalOf(m, c), NormalOf(m, c)) == 1.0
  {
    var n := Normalize(m, c);
    var l := m.hypot(c);
    UnitRoot(m.hypot(n));
    if !Tiny(m, l, 1e-12) {
      assert n == DivideBy(c, l);
      UnitAfterDivide(c, l);
      assert m.hypot(n) * m.hypot(n) == 1.0;
    }
  }

  /** The cross product of a fallback axis with a unit normal has a length
      bounded away from zero. */
  lemma FallbackLength(n: Vec3, up: Vec3)
    requires Dot(n, n) == 1.0
    requires up == (if Abs(n.y) < 0.999 then Vec3(0.0, 1.0, 0.0) else Vec3(1.0, 0.0, 0.0))
    ensures Dot(Cross(up, n), Cross(up, n)) > 0.0
  {
    var a := Abs(n.y);
    assert n.y * n.y == a * a;
    if a < 0.999 {
      SquareAtMost(a, 0.999);
      assert Dot(Cross(up, n), Cross(up, n)) == 1.0 - n.y * n.y;
    } else {
      SquareAtMost(0.999, a);
      assert Dot(Cross(up, n), Cross(up, n)) == n.z * n.z + n.y * n.y;
      assert n.z * n.z >= 0.0;
    }
  }

  lemma SquareAtMost(a: real, b: real)
    requires 0.0 <= a <= b
    ensures a * a <= b * b
  {
    MulAtMost(a, b, a);
    MulAtMost(a, b, b);
    assert a * b == b * a;
  }

  lemma MulAtMost(a: real, b: real, c: real)
    requires a <= b && c >= 0.0
    ensures a * c <= b * c
  {
    ProductNonNegative(b - a, c);
    assert (b - a) * c == b * c - a * c;
  }

  /** Lines 141-154 give a tangent orthogonal to a unit normal on both
      branches; under a Euclidean metric it also has unit length. */
  lemma FinalTangentFrame(m: Metric, n: Vec3, acc: Vec3)
    requires Dot(n, n) == 1.0
    ensures Dot(n, FinalTangent(m, n, acc)) == 0.0
    ensures Euclidean(m) ==> Dot(FinalTangent(m, n, acc), FinalTangent(m, n, acc)) == 1.0
  {
    var t := Sub(acc, Scale(n, Dot(n, acc)));
    var tl := m.hypot(t);
    if Tiny(m, tl, 1e-8) {
      FallbackFrame(m, n);
    } else {
      GramSchmidtOrthogonal(n, acc);
      DivideKeepsOrthogonal(n, t, tl);
      if Euclidean(m) {
        UnitAfterDivide(t, tl);
      }
    }
  }

  /** The fallback of lines 148-153 is orthogonal to n; under a Euclidean
      metric and for a unit n it is a unit vector. */
  lemma FallbackFrame(m: Metric, n: Vec3)
    requires Dot(n, n) == 1.0
    ensures Dot(n, FallbackTangent(m, n)) == 0.0
    ensures Euclidean(m) ==> Dot(FallbackTangent(m, n), FallbackTangent(m, n)) == 1.0
  {
    var up := if Abs(n.y) < 0.999 then Vec3(0.0, 1.0, 0.0) else Vec3(1.0, 0.0, 0.0);
    var f := Cross(up, n);
    var fl := m.hypot(f);
    CrossOrthogonal(up, n);
    DivideKeepsOrthogonal(n, f, if fl == 0.0 then 1.0 else fl);
    if Euclidean(m) {
      FallbackLength(n, up);
      assert fl * fl == Dot(f, f);
      UnitAfterDivide(f, fl);
    }
  }

  /** The buffers of the mesh: three positions, normals and tangents and two
      uvs per vertex, six indices per quad all naming vertices, and the
      resolved parameters. */
  lemma MeshShape(xyz: Evaluator, m: Metric, p: Params)
    requires Resolved(p)
    ensures var mesh := ClampedMesh(xyz, m, p); var v := VertexCount(p);
      && |mesh.positions| == 3 * v && |mesh.normals| == 3 * v
      && |mesh.uvs| == 2 * v && |mesh.tangents| == 3 * v
      && |mesh.indices| == 6 * (p.nu * p.nv) && InRange(mesh.indices, v)
      && mesh.params == p
  {
    MeshFields(xyz, m, p);
    VertexBuffersLength(xyz, m, p);
    IndicesInRange(p);
    var b := VertexBuffers(xyz, m, p);
    FlattenLength(VertexCount(p), FinalTable(m, b.normals, TangentSums(b.positions, b.uvs, Indices(p), VertexCount(p))));
  }

  /** Slot k of a normal buffer and of a tangent buffer hold unit vectors
      orthogonal to each other. */
  ghost predicate Orthonormal(normals: seq<real>, tangents: seq<real>, k: int)
  {
    && 0 <= k && 3 * k + 2 < |normals| && 3 * k + 2 < |tangents|
    && var n := PosAt(normals, k); var t := PosAt(tangents, k);
       Dot(n, n) == 1.0 && Dot(t, t) == 1.0 && Dot(n, t) == 0.0
  }

  /** Under a Euclidean metric the normal and the tangent of every vertex of
      the mesh are unit vectors orthogonal to each other. */
  lemma MeshFrames(xyz: Evaluator, m: Metric, p: Params, i: nat, j: nat)
    requires Resolved(p) && Euclidean(m) && i <= p.nu && j <= p.nv
    ensures var mesh := ClampedMesh(xyz, m, p); Orthonormal(mesh.normals, mesh.tangents, VertexIndex(p, i, j))
  {
    MeshFields(xyz, m, p);
    var b := VertexBuffers(xyz, m, p);
    var acc := TangentSums(b.positions, b.uvs, Indices(p), VertexCount(p));
    assert |acc| == VertexCount(p);
    VertexIndexInRange(p, i, j);
    NormalSlotUnit(xyz, m, p, i, j);
    FlattenFrame(m, b.normals, acc, VertexIndex(p, i, j));
  }

  /** Under a Euclidean metric the normal buffer holds a unit vector at
      every grid point. */
  lemma NormalSlotUnit(xyz: Evaluator, m: Metric, p: Params, i: nat, j: nat)
    requires Resolved(p) && Euclidean(m) && i <= p.nu && j <= p.nv
    ensures var normals := VertexBuffers(xyz, m, p).normals; var k := VertexIndex(p, i, j);
      0 <= k && 3 * k + 2 < |normals| && Dot(PosAt(normals, k), PosAt(normals, k)) == 1.0
  {
    VertexIndexInRange(p, i, j);
    BuffersAt(xyz, m, p, i, j);
    VertexNormalUnit(xyz, m, p, i, j);
  }

  /** The orthonormalisation loop turns every unit normal and its summed
      tangent into an orthonormal pair. */
  lemma FlattenFrame(m: Metric, normals: seq<real>, acc: seq<Vec3>, k: nat)
    requires Euclidean(m) && |normals| == 3 * |acc| && k < |acc|
    requires Dot(PosAt(normals, k), PosAt(normals, k)) == 1.0
    ensures Orthonormal(normals, Flatten(|acc|, FinalTable(m, normals, acc)), k)
  {
    FlattenAt(|acc|, FinalTable(m, normals, acc), k);
    FinalTangentFrame(m, PosAt(normals, k), acc[k]);
  }

  /** Under a Euclidean metric every vertex normal has unit length. */
  lemma VertexNormalUnit(xyz: Evaluator, m: Metric, p: Params, i: int, j: int)
    requires Resolved(p) && Euclidean(m)
    ensures Dot(VertexNormal(xyz, m, p, i, j), VertexNormal(xyz, m, p, i, j)) == 1.0
  {
    UnitNormal(m, Cross(USpan(xyz, p, i, j), VSpan(xyz, p, i, j)));
  }
}
