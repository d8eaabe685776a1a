/** What the wrapped-grid generator of PA2/src/astroidal_torus.js promises
    about its buffers: where each vertex and quad sits, the range and the
    16-bit store of the indices, the degenerate quads of a one-column grid,
    the effect of one triangle on the normal accumulators, and the
    normalisation guard. */
module WrappedProps {
  import opened VecMath
  import opened Surface
  import opened Layout
  import opened JsNumber
  import opened Packed
  import opened WrappedTorus

  // ---------------------------------------------------------------------
  // Positions

  lemma PointsUniform(xyz: Evaluator, p: Params)
    requires Laid(p)
    ensures GridUniform(p.nu, p.nv, PointRec(xyz, p), 3)
  {
    forall o, i | 0 <= o < p.nu && 0 <= i < p.nv
      ensures |PointRec(xyz, p)(o, i)| == 3
    {
      assert PointRec(xyz, p)(o, i) == Triple(xyz(p.ShapeOf(), USample(p, o), VSample(p, i)));
    }
  }

  /** Nu*Nv vertices of three numbers each, however the loops run. */
  lemma PositionsLength(xyz: Evaluator, p: Params)
    requires Wrappable(p)
    ensures |Positions(xyz, p)| == 3 * VertexCount(p)
  {
    if Laid(p) {
      PointsUniform(xyz, p);
      GridLength(p.nu, p.nv, PointRec(xyz, p), 3);
    }
  }

  /** Vertex (i, j) is written at offset 3*(i*Nv + j), i being the outer
      loop: the surface point at (u_i, v_j). */
  lemma PositionLayout(xyz: Evaluator, p: Params, i: nat, j: nat)
    requires Laid(p) && i < p.nu && j < p.nv
    ensures 3 * (i * p.nv + j) + 2 < |Positions(xyz, p)|
    ensures PosAt(Positions(xyz, p), i * p.nv + j) == xyz(p.ShapeOf(), USample(p, i), VSample(p, j))
  {
    var rec := PointRec(xyz, p);
    var k := i * p.nv + j;
    PointsUniform(xyz, p);
    assert rec(i, j) == Triple(xyz(p.ShapeOf(), USample(p, i), VSample(p, j)));
    GridAt(p.nu, p.nv, rec, 3, i, j, 0, 3 * k);
    GridAt(p.nu, p.nv, rec, 3, i, j, 1, 3 * k + 1);
    GridAt(p.nu, p.nv, rec, 3, i, j, 2, 3 * k + 2);
  }

  /** u_0 is uMin and v_0 is vMin; the last samples stop one step short of
      uMax and vMax, whose points coincide with the first ones on the torus. */
  lemma SampleEnds(p: Params)
    requires Laid(p)
    ensures USample(p, 0) == UMin && VSample(p, 0) == VMin
    ensures USample(p, p.nu) == UMax && VSample(p, p.nv) == VMax
    ensures USample(p, p.nu - 1) < UMax && VSample(p, p.nv - 1) < VMax
  {
    var fu, fv := (p.nu - 1) as real / p.nu as real, (p.nv - 1) as real / p.nv as real;
    assert fu < 1.0 && fv < 1.0;
    LerpBelow(UMin, UMax, fu);
    LerpBelow(VMin, VMax, fv);
  }

  lemma LerpBelow(lo: real, hi: real, f: real)
    requires lo < hi && f < 1.0
    ensures Lerp(lo, hi, f) < hi
  {
    var d := hi - lo;
    PositiveProduct(d, 1.0 - f);
    assert d * (1.0 - f) == d - d * f;
    assert Lerp(lo, hi, f) == hi - d * (1.0 - f);
  }

  // ---------------------------------------------------------------------
  // vid

  /** Inside the grid vid(i, j) is the row-major number i*Nv + j. */
  lemma VidInside(p: Params, i: int, j: int)
    requires Laid(p) && 0 <= i < p.nu && 0 <= j < p.nv
    ensures Vid(p, i, j) == i * p.nv + j
  {
    ModUnique(i + p.nu, p.nu, 1, i);
    ModUnique(j + p.nv, p.nv, 1, j);
  }

  /** Row-major numbers of distinct grid points are distinct. */
  lemma GridNumberInjective(nv: int, i: int, j: int, i2: int, j2: int)
    requires nv >= 1 && 0 <= j < nv && 0 <= j2 < nv && i * nv + j == i2 * nv + j2
    ensures i == i2 && j == j2
  {
    ModUnique(i * nv + j, nv, i, j);
    ModUnique(i2 * nv + j2, nv, i2, j2);
    assert (i - i2) * nv == 0;
    ZeroMultiple(i - i2, nv);
  }

  // ---------------------------------------------------------------------
  // Quads

  lemma QuadsUniform(p: Params)
    requires Laid(p)
    ensures GridUniform(p.nu, p.nv, QuadRec(p), 6)
    ensures GridUniform(p.nu, p.nv, StoredQuad(p), 6)
  {
    forall o, i | 0 <= o < p.nu && 0 <= i < p.nv
      ensures |QuadRec(p)(o, i)| == 6 && |StoredQuad(p)(o, i)| == 6
    {
      assert QuadRec(p)(o, i) == Corners(p, o, i);
    }
  }

  /** Quad (i, j) fills entries 6*(i*Nv + j) to 6*(i*Nv + j) + 5 with the
      triangles (v00, v10, v11) and (v00, v11, v01) of the grid points
      (i, j), (i1, j), (i1, j1) and (i, j1), where i1 = (i+1) mod Nu and
      j1 = (j+1) mod Nv; there are 6*Nu*Nv entries. */
  lemma QuadLayout(p: Params, i: nat, j: nat, c: nat, t: nat)
    requires Laid(p) && i < p.nu && j < p.nv && c < 6 && t == 6 * (i * p.nv + j) + c
    ensures |Indices(p)| == 6 * VertexCount(p) && t < |Indices(p)|
    ensures Indices(p)[t] == QuadOf(i * p.nv + j, ((i + 1) % p.nu) * p.nv + j,
                                    ((i + 1) % p.nu) * p.nv + (j + 1) % p.nv, i * p.nv + (j + 1) % p.nv)[c]
  {
    var i1, j1 := (i + 1) % p.nu, (j + 1) % p.nv;
    QuadsUniform(p);
    GridLength(p.nu, p.nv, QuadRec(p), 6);
    GridAt(p.nu, p.nv, QuadRec(p), 6, i, j, c, t);
    assert QuadRec(p)(i, j) == Corners(p, i, j);
    VidInside(p, i, j);
    VidInside(p, i1, j);
    VidInside(p, i1, j1);
    VidInside(p, i, j1);
  }

  /** The corner v10 of a quad is its v00 exactly when Nu = 1, and v01 is
      v00 exactly when Nv = 1: then the quad's triangles degenerate, since
      the resolution is not clamped. */
  lemma DegenerateQuads(p: Params, i: nat, j: nat)
    requires Laid(p) && i < p.nu && j < p.nv
    ensures Corners(p, i, j)[1] == Corners(p, i, j)[0] <==> p.nu == 1
    ensures Corners(p, i, j)[5] == Corners(p, i, j)[0] <==> p.nv == 1
  {
    var i1, j1 := (i + 1) % p.nu, (j + 1) % p.nv;
    WrapNext(p.nu, i);
    WrapNext(p.nv, j);
    VidInside(p, i, j);
    VidInside(p, i1, j);
    VidInside(p, i, j1);
    if i1 * p.nv + j == i * p.nv + j {
      GridNumberInjective(p.nv, i1, j, i, j);
    }
    if i * p.nv + j1 == i * p.nv + j {
      GridNumberInjective(p.nv, i, j1, i, j);
    }
  }

  /** (i+1) mod n is the next index, or 0 after the last; it is i itself
      only when n = 1. */
  lemma WrapNext(n: int, i: int)
    requires 0 <= i < n
    ensures (i + 1) % n == (if i + 1 == n then 0 else i + 1)
    ensures (i + 1) % n == i <==> n == 1
  {
    if i + 1 == n {
      ModUnique(i + 1, n, 1, 0);
    } else {
      ModUnique(i + 1, n, 0, i + 1);
    }
  }

  /** With Nu, Nv >= 2 the four corners of a quad are distinct grid points,
      so neither triangle repeats an index. */
  lemma DistinctCorners(p: Params, i: nat, j: nat)
    requires p.nu >= 2 && p.nv >= 2 && i < p.nu && j < p.nv
    ensures var q := Corners(p, i, j);
      q[0] != q[1] && q[0] != q[2] && q[1] != q[2] && q[3] != q[4] && q[3] != q[5] && q[4] != q[5]
  {
    var i1, j1 := (i + 1) % p.nu, (j + 1) % p.nv;
    WrapNext(p.nu, i);
    WrapNext(p.nv, j);
    VidInside(p, i, j);
    VidInside(p, i1, j);
    VidInside(p, i1, j1);
    VidInside(p, i, j1);
    var v00, v10, v11, v01 := i * p.nv + j, i1 * p.nv + j, i1 * p.nv + j1, i * p.nv + j1;
    if v00 == v10 { GridNumberInjective(p.nv, i, j, i1, j); }
    if v00 == v11 { GridNumberInjective(p.nv, i, j, i1, j1); }
    if v10 == v11 { GridNumberInjective(p.nv, i1, j, i1, j1); }
    if v11 == v01 { GridNumberInjective(p.nv, i1, j1, i, j1); }
    if v00 == v01 { GridNumberInjective(p.nv, i, j, i, j1); }
  }

  /** The stored indices are the computed vertex numbers exactly when all
      Nu*Nv of them fit in 16 bits: beyond 65536 vertices, the Uint16Array
      keeps vertex 65536 as 0. */
  lemma IndicesFitUint16(p: Params)
    requires Laid(p)
    ensures StoredIndices(p) == Indices(p) <==> VertexCount(p) <= TwoTo16
  {
    if VertexCount(p) <= TwoTo16 {
      IndicesKept(p);
    } else {
      IndexWrapped(p);
    }
  }

  /** Up to 65536 vertices every index is stored as computed. */
  lemma IndicesKept(p: Params)
    requires Laid(p) && VertexCount(p) <= TwoTo16
    ensures StoredIndices(p) == Indices(p)
  {
    forall o, i | 0 <= o < p.nu && 0 <= i < p.nv
      ensures StoredQuad(p)(o, i) == QuadRec(p)(o, i)
    {
      QuadKept(p, o, i);
    }
    GridCongruence(p.nu, p.nv, StoredQuad(p), QuadRec(p));
  }

  lemma QuadKept(p: Params, o: nat, i: nat)
    requires Laid(p) && VertexCount(p) <= TwoTo16 && o < p.nu && i < p.nv
    ensures StoredQuad(p)(o, i) == QuadRec(p)(o, i)
  {
    var q := QuadRec(p)(o, i);
    assert q == Corners(p, o, i);
    forall c | 0 <= c < 6
      ensures Uint16s(q)[c] == q[c]
    {
      VidBelow(p, o, i, c);
    }
    assert StoredQuad(p)(o, i) == Uint16s(q);
  }

  /** Beyond 65536 vertices, entry 6*65536 (corner v00 of the quad of vertex
      65536) is stored as 0. */
  lemma IndexWrapped(p: Params)
    requires Laid(p) && VertexCount(p) > TwoTo16
    ensures 6 * TwoTo16 < |Indices(p)| && 6 * TwoTo16 < |StoredIndices(p)|
    ensures Indices(p)[6 * TwoTo16] == TwoTo16 && StoredIndices(p)[6 * TwoTo16] == 0
  {
    var i, j := GridPoint(p, TwoTo16);
    QuadLayout(p, i, j, 0, 6 * TwoTo16);
    StoredEntry(p, i, j, 0, 6 * TwoTo16);
  }

  /** Vertex number k < Nu*Nv is grid point (k / Nv, k mod Nv). */
  lemma GridPoint(p: Params, k: nat) returns (i: nat, j: nat)
    requires Laid(p) && k < VertexCount(p)
    ensures i < p.nu && j < p.nv && k == i * p.nv + j
  {
    i, j := k / p.nv, k % p.nv;
    if i >= p.nu {
      MulMono(p.nv, p.nu, i);
      assert false;
    }
  }

  /** Each stored entry is the computed one reduced modulo 2^16. */
  lemma StoredEntry(p: Params, i: nat, j: nat, c: nat, t: nat)
    requires Laid(p) && i < p.nu && j < p.nv && c < 6 && t == 6 * (i * p.nv + j) + c
    ensures t < |Indices(p)| && t < |StoredIndices(p)|
    ensures StoredIndices(p)[t] == ToUint16(Indices(p)[t])
  {
    QuadsUniform(p);
    GridAt(p.nu, p.nv, QuadRec(p), 6, i, j, c, t);
    GridAt(p.nu, p.nv, StoredQuad(p), 6, i, j, c, t);
    assert StoredQuad(p)(i, j) == Uint16s(QuadRec(p)(i, j));
  }

  /** Entry c of quad (o, i) is a vertex number below Nu*Nv. */
  lemma VidBelow(p: Params, o: nat, i: nat, c: nat)
    requires Laid(p) && o < p.nu && i < p.nv && c < 6
    ensures 0 <= Corners(p, o, i)[c] < VertexCount(p)
  {
    var i1, j1 := (o + 1) % p.nu, (i + 1) % p.nv;
    VidInRange(p, o, i);
    VidInRange(p, i1, i);
    VidInRange(p, o, j1);
    VidInRange(p, i1, j1);
  }

  // ---------------------------------------------------------------------
  // Normal accumulation

  /** Adding to slot v changes slot v alone. */
  lemma AddSlotAt(s: seq<real>, v: int, c: Vec3, w: int)
    requires 0 <= v && 3 * v + 2 < |s| && 0 <= w && 3 * w + 2 < |s|
    ensures PosAt(AddSlot(s, v, c), w) == if w == v then Add(PosAt(s, w), c) else PosAt(s, w)
  {
    var r := AddSlot(s, v, c);
    if w != v {
      assert r[3 * w] == s[3 * w] && r[3 * w + 1] == s[3 * w + 1] && r[3 * w + 2] == s[3 * w + 2];
    }
  }

  /** The triangle at offset t adds its edge cross product to slot w once
      for every corner that is w, and leaves every other slot unchanged. */
  lemma FaceAdded(positions: seq<real>, indices: seq<int>, n: nat, t: nat, w: nat)
    requires Accumulable(positions, indices, n) && t + 3 <= |indices| && w < n
    ensures var i0, i1, i2 := indices[t], indices[t + 1], indices[t + 2];
      var c := FaceNormal(positions, i0, i1, i2);
      var before, after := FaceSums(positions, indices, n, t), FaceSums(positions, indices, n, t + 3);
      && PosAt(after, w) == Add(PosAt(before, w), Scale(c, Hits(w, i0, i1, i2) as real))
      && (w != i0 && w != i1 && w != i2 ==> PosAt(after, w) == PosAt(before, w))
  {
    var i0, i1, i2 := indices[t], indices[t + 1], indices[t + 2];
    var c := FaceNormal(positions, i0, i1, i2);
    var before := FaceSums(positions, indices, n, t);
    FaceSumsNext(positions, indices, n, t);
    var s1 := AddSlot(before, i0, c);
    var s2 := AddSlot(s1, i1, c);
    AddSlotAt(before, i0, c, w);
    AddSlotAt(s1, i1, c, w);
    AddSlotAt(s2, i2, c, w);
    var b := PosAt(before, w);
    var h := Hits(w, i0, i1, i2);
    assert PosAt(AddSlot(s2, i2, c), w) == Add(b, Scale(c, h as real)) by {
      SumOfHits(b, c, w == i0, w == i1, w == i2);
    }
  }

  // ---------------------------------------------------------------------
  // Normalisation

  /** Dividing by `hypot || 1` never divides by zero, keeps a zero
      accumulator zero, and is undone by multiplying back by the divisor,
      which is the hypot whenever that is non-zero. */
  lemma UnitizeFacts(m: Metric, v: Vec3)
    ensures LengthOr1(m, v) != 0.0
    ensures v == Zero ==> Unitize(m, v) == Zero
    ensures Scale(Unitize(m, v), LengthOr1(m, v)) == v
    ensures m.hypot(v) != 0.0 ==> Scale(Unitize(m, v), m.hypot(v)) == v
  {
    var l := LengthOr1(m, v);
    assert Unitize(m, v) == DivideBy(v, l);
    if v == Zero {
      assert DivideBy(v, l) == Vec3(0.0 / l, 0.0 / l, 0.0 / l);
    }
  }

  /** The returned normal of vertex k is its accumulated sum divided by
      `hypot || 1`: multiplying back by the hypot (when non-zero) gives the
      sum, and a zero sum stays zero. */
  lemma SmoothNormalAt(m: Metric, positions: seq<real>, indices: seq<int>, n: nat, k: nat)
    requires Accumulable(positions, indices, n) && k < n
    ensures |SmoothNormals(m, positions, indices, n)| == 3 * n
    ensures var acc := PosAt(FaceSums(positions, indices, n, |indices|), k);
      var r := PosAt(SmoothNormals(m, positions, indices, n), k);
      && Scale(r, LengthOr1(m, acc)) == acc
      && (m.hypot(acc) != 0.0 ==> Scale(r, m.hypot(acc)) == acc)
      && (acc == Zero ==> r == Zero)
  {
    var sums := FaceSums(positions, indices, n, |indices|);
    FlattenLength(n, UnitTable(m, sums));
    FlattenAt(n, UnitTable(m, sums), k);
    assert UnitTable(m, sums)(k) == Unitize(m, PosAt(sums, k));
    UnitizeFacts(m, PosAt(sums, k));
  }

  // ---------------------------------------------------------------------
  // Every vertex fills six index slots

  /** g(0) + g(1) + ... + g(n-1). */
  function Sum(n: nat, g: nat -> int): int
  {
    if n == 0 then 0 else Sum(n - 1, g) + g(n - 1)
  }

  /** How often w occurs in record k. */
  function Occurrences(f: nat -> seq<int>, w: int): nat -> int
  {
    (k: nat) => multiset(f(k))[w]
  }

  /** w occurs in f(0) + ... + f(n-1) as often as in all the records together. */
  lemma {:induction false} GenOccurrences(n: nat, f: nat -> seq<int>, w: int)
    ensures multiset(Gen(n, f))[w] == Sum(n, Occurrences(f, w))
  {
    if n > 0 {
      GenOccurrences(n - 1, f, w);
      assert Gen(n, f) == Gen(n - 1, f) + f(n - 1);
      assert multiset(Gen(n, f)) == multiset(Gen(n - 1, f)) + multiset(f(n - 1));
    }
  }

  /** A sum of two point masses: c1 at y1 and c2 at y2 (y1 may be y2). */
  lemma {:induction false} SumTwo(n: nat, g: nat -> int, y1: nat, c1: int, y2: nat, c2: int)
    requires forall k :: 0 <= k < n ==> g(k) == (if k == y1 then c1 else 0) + (if k == y2 then c2 else 0)
    ensures Sum(n, g) == (if y1 < n then c1 else 0) + (if y2 < n then c2 else 0)
  {
    if n > 0 {
      SumTwo(n - 1, g, y1, c1, y2, c2);
    }
  }

  /** The grid point before a in a ring of n: (a - 1) mod n. */
  function Before(a: int, n: int): int
  {
    if a == 0 then n - 1 else a - 1
  }

  /** The quad whose next row (or column) index is a is the one at Before(a, n). */
  lemma NextIs(o: int, a: int, n: int)
    requires 0 <= o < n && 0 <= a < n
    ensures (o + 1) % n == a <==> o == Before(a, n)
  {
    WrapNext(n, o);
  }

  /** One occurrence for each corner of a triangle that is w. */
  lemma TriangleCount(a: int, b: int, c: int, w: int)
    ensures multiset(Triangle(a, b, c))[w] == Hits(w, a, b, c)
  {
  }

  /** A quad's two triangles name v00 and v11 twice and v10 and v01 once. */
  lemma QuadOccurrences(v00: int, v10: int, v11: int, v01: int, w: int)
    ensures multiset(QuadOf(v00, v10, v11, v01))[w]
         == (if v00 == w then 2 else 0) + (if v10 == w then 1 else 0)
          + (if v11 == w then 2 else 0) + (if v01 == w then 1 else 0)
  {
    TriangleCount(v00, v10, v11, w);
    TriangleCount(v00, v11, v01, w);
  }

  /** How often grid point (a, b) occurs in quad (o, i): it is the quad's
      v00 at (a, b), its v10 one row before, its v11 one row and one column
      before, and its v01 one column before. */
  lemma CornerOccurrences(p: Params, o: nat, i: nat, a: nat, b: nat)
    requires Laid(p) && o < p.nu && i < p.nv && a < p.nu && b < p.nv
    ensures var a1, b1 := Before(a, p.nu), Before(b, p.nv);
      multiset(Corners(p, o, i))[a * p.nv + b]
        == (if o == a && i == b then 2 else 0) + (if o == a1 && i == b then 1 else 0)
         + (if o == a1 && i == b1 then 2 else 0) + (if o == a && i == b1 then 1 else 0)
  {
    CornerTally(p, o, i, a * p.nv + b);
    CornerCount(p.nu, p.nv, o, i, a, b);
  }

  /** Quad (o, i) names w once per corner it is, twice for v00 and v11. */
  lemma CornerTally(p: Params, o: nat, i: nat, w: int)
    requires Laid(p) && o < p.nu && i < p.nv
    ensures var o1, i1 := (o + 1) % p.nu, (i + 1) % p.nv;
      multiset(Corners(p, o, i))[w]
        == (if o * p.nv + i == w then 2 else 0) + (if o1 * p.nv + i == w then 1 else 0)
         + (if o1 * p.nv + i1 == w then 2 else 0) + (if o * p.nv + i1 == w then 1 else 0)
  {
    var v00, v10, v11, v01 := CornerNumbers(p, o, i);
    QuadOccurrences(v00, v10, v11, v01, w);
  }

  /** The same count on the corner numbers alone. */
  lemma CornerCount(nu: int, nv: int, o: nat, i: nat, a: nat, b: nat)
    requires o < nu && i < nv && a < nu && b < nv
    ensures var o1, i1, w := (o + 1) % nu, (i + 1) % nv, a * nv + b;
      var a1, b1 := Before(a, nu), Before(b, nv);
      (if o * nv + i == w then 2 else 0) + (if o1 * nv + i == w then 1 else 0)
        + (if o1 * nv + i1 == w then 2 else 0) + (if o * nv + i1 == w then 1 else 0)
      == (if o == a && i == b then 2 else 0) + (if o == a1 && i == b then 1 else 0)
        + (if o == a1 && i == b1 then 2 else 0) + (if o == a && i == b1 then 1 else 0)
  {
    var o1, i1, w := (o + 1) % nu, (i + 1) % nv, a * nv + b;
    var a1, b1 := Before(a, nu), Before(b, nv);
    var h00, h10, h11, h01 := o == a && i == b, o == a1 && i == b, o == a1 && i == b1, o == a && i == b1;
    PointHits(nv, o, i, a, b);
    NextHits(nu, nv, o, i, a, b);
    Regroup(o * nv + i, o1 * nv + i, o1 * nv + i1, o * nv + i1, w, h00, h10, h11, h01);
  }

  /** The corner counts of a quad, once each corner's test is known. */
  lemma Regroup(v00: int, v10: int, v11: int, v01: int, w: int, h00: bool, h10: bool, h11: bool, h01: bool)
    requires (v00 == w) == h00 && (v10 == w) == h10 && (v11 == w) == h11 && (v01 == w) == h01
    ensures (if v00 == w then 2 else 0) + (if v10 == w then 1 else 0) + (if v11 == w then 2 else 0) + (if v01 == w then 1 else 0)
         == (if h00 then 2 else 0) + (if h10 then 1 else 0) + (if h11 then 2 else 0) + (if h01 then 1 else 0)
  {
  }

  /** The corners one row, one column, or both past (o, i) are (a, b)
      exactly when (o, i) is that far before (a, b). */
  lemma NextHits(nu: int, nv: int, o: nat, i: nat, a: nat, b: nat)
    requires o < nu && i < nv && a < nu && b < nv
    ensures var o1, i1 := (o + 1) % nu, (i + 1) % nv;
      var a1, b1 := Before(a, nu), Before(b, nv);
      && (o1 * nv + i == a * nv + b <==> o == a1 && i == b)
      && (o1 * nv + i1 == a * nv + b <==> o == a1 && i == b1)
      && (o * nv + i1 == a * nv + b <==> o == a && i == b1)
  {
    var o1, i1 := (o + 1) % nu, (i + 1) % nv;
    NextIs(o, a, nu);
    NextIs(i, b, nv);
    WrapNext(nu, o);
    WrapNext(nv, i);
    PointHits(nv, o1, i, a, b);
    PointHits(nv, o1, i1, a, b);
    PointHits(nv, o, i1, a, b);
  }

  /** The row-major numbers of quad (o, i)'s corners. */
  lemma CornerNumbers(p: Params, o: nat, i: nat) returns (v00: int, v10: int, v11: int, v01: int)
    requires Laid(p) && o < p.nu && i < p.nv
    ensures var o1, i1 := (o + 1) % p.nu, (i + 1) % p.nv;
      && v00 == o * p.nv + i && v10 == o1 * p.nv + i
      && v11 == o1 * p.nv + i1 && v01 == o * p.nv + i1
      && Corners(p, o, i) == QuadOf(v00, v10, v11, v01)
  {
    var o1, i1 := (o + 1) % p.nu, (i + 1) % p.nv;
    VidInside(p, o, i);
    VidInside(p, o1, i);
    VidInside(p, o1, i1);
    VidInside(p, o, i1);
    v00, v10, v11, v01 := o * p.nv + i, o1 * p.nv + i, o1 * p.nv + i1, o * p.nv + i1;
  }

  /** Two grid numbers agree exactly when their rows and columns do. */
  lemma PointHits(nv: int, x: int, y: int, a: int, b: int)
    requires nv >= 1 && 0 <= y < nv && 0 <= b < nv
    ensures x * nv + y == a * nv + b <==> x == a && y == b
  {
    if x * nv + y == a * nv + b {
      GridNumberInjective(nv, x, y, a, b);
    }
  }

  /** w occurs c1 times in record y1, c2 times in record y2 and nowhere
      else, so c1 + c2 times in the records pushed together. */
  lemma TwoPointCount(n: nat, f: nat -> seq<int>, w: int, y1: nat, c1: int, y2: nat, c2: int)
    requires y1 < n && y2 < n
    requires forall k :: 0 <= k < n ==> multiset(f(k))[w] == (if k == y1 then c1 else 0) + (if k == y2 then c2 else 0)
    ensures multiset(Gen(n, f))[w] == c1 + c2
  {
    GenOccurrences(n, f, w);
    SumTwo(n, Occurrences(f, w), y1, c1, y2, c2);
  }

  /** The same for the records of one row of a grid ... */
  lemma RowCount(inner: nat, rec: (nat, nat) -> seq<int>, o: nat, w: int, y1: nat, c1: int, y2: nat, c2: int)
    requires y1 < inner && y2 < inner
    requires forall i :: 0 <= i < inner ==> multiset(rec(o, i))[w] == (if i == y1 then c1 else 0) + (if i == y2 then c2 else 0)
    ensures multiset(Rows(inner, rec)(o))[w] == c1 + c2
  {
    var row := RowOf(rec, o);
    forall i | 0 <= i < inner
      ensures multiset(row(i))[w] == (if i == y1 then c1 else 0) + (if i == y2 then c2 else 0)
    {
      assert row(i) == rec(o, i);
    }
    TwoPointCount(inner, row, w, y1, c1, y2, c2);
  }

  /** ... and for the whole grid, row by row. */
  lemma GridCount(outer: nat, inner: nat, rec: (nat, nat) -> seq<int>, w: int, y1: nat, c1: int, y2: nat, c2: int)
    requires y1 < outer && y2 < outer
    requires forall o :: 0 <= o < outer ==> multiset(Rows(inner, rec)(o))[w] == (if o == y1 then c1 else 0) + (if o == y2 then c2 else 0)
    ensures multiset(Grid(outer, inner, rec))[w] == c1 + c2
  {
    TwoPointCount(outer, Rows(inner, rec), w, y1, c1, y2, c2);
  }

  /** The quads of row o name grid point (a, b) three times when o is a
      or the row before it (six times when that is the same row), and
      otherwise not at all. */
  lemma RowOccurrences(p: Params, o: nat, a: nat, b: nat)
    requires Laid(p) && o < p.nu && a < p.nu && b < p.nv
    ensures multiset(Rows(p.nv, QuadRec(p))(o))[a * p.nv + b]
         == (if o == a then 3 else 0) + (if o == Before(a, p.nu) then 3 else 0)
  {
    var a1, b1 := Before(a, p.nu), Before(b, p.nv);
    var c1 := (if o == a then 2 else 0) + (if o == a1 then 1 else 0);
    var c2 := (if o == a1 then 2 else 0) + (if o == a then 1 else 0);
    QuadsOfRow(p, o, a, b, c1, c2);
    RowCount(p.nv, QuadRec(p), o, a * p.nv + b, b, c1, b1, c2);
  }

  /** Quad by quad, the occurrences of (a, b) in row o. */
  lemma QuadsOfRow(p: Params, o: nat, a: nat, b: nat, c1: int, c2: int)
    requires Laid(p) && o < p.nu && a < p.nu && b < p.nv
    requires c1 == (if o == a then 2 else 0) + (if o == Before(a, p.nu) then 1 else 0)
    requires c2 == (if o == Before(a, p.nu) then 2 else 0) + (if o == a then 1 else 0)
    ensures forall i :: 0 <= i < p.nv ==>
      multiset(QuadRec(p)(o, i))[a * p.nv + b] == (if i == b then c1 else 0) + (if i == Before(b, p.nv) then c2 else 0)
  {
    forall i | 0 <= i < p.nv
      ensures multiset(QuadRec(p)(o, i))[a * p.nv + b] == (if i == b then c1 else 0) + (if i == Before(b, p.nv) then c2 else 0)
    {
      assert QuadRec(p)(o, i) == Corners(p, o, i);
      CornerOccurrences(p, o, i, a, b);
    }
  }

  /** Every vertex of the wrapped grid occupies exactly six slots of the
      index buffer: twice as v00 of its own quad, once as v10, twice as v11
      and once as v01 of its neighbours' quads. */
  lemma SixSlots(p: Params, w: int)
    requires Laid(p) && 0 <= w < VertexCount(p)
    ensures multiset(Indices(p))[w] == 6
  {
    var a, b := GridPoint(p, w);
    RowsOfGrid(p, a, b);
    GridCount(p.nu, p.nv, QuadRec(p), w, a, 3, Before(a, p.nu), 3);
  }

  /** Row by row, the occurrences of (a, b) in the index buffer. */
  lemma RowsOfGrid(p: Params, a: nat, b: nat)
    requires Laid(p) && a < p.nu && b < p.nv
    ensures forall o :: 0 <= o < p.nu ==>
      multiset(Rows(p.nv, QuadRec(p))(o))[a * p.nv + b] == (if o == a then 3 else 0) + (if o == Before(a, p.nu) then 3 else 0)
  {
    forall o | 0 <= o < p.nu
      ensures multiset(Rows(p.nv, QuadRec(p))(o))[a * p.nv + b] == (if o == a then 3 else 0) + (if o == Before(a, p.nu) then 3 else 0)
    {
      RowOccurrences(p, o, a, b);
    }
  }

  /** The same for the stored buffer, while the vertex numbers fit in 16 bits. */
  lemma SixStoredSlots(p: Params, w: int)
    requires Laid(p) && VertexCount(p) <= TwoTo16 && 0 <= w < VertexCount(p)
    ensures multiset(StoredIndices(p))[w] == 6
  {
    IndicesKept(p);
    SixSlots(p, w);
  }
}
