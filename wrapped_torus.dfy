/** The wrapped-grid generator of PA2/src/astroidal_torus.js: Nu*Nv vertices
    with no duplicated seam, quads that wrap around through `vid`, and
    smooth normals accumulated in place from face normals, then normalised
    in place.

    The buffers are typed arrays; here a Float32Array is an `array<real>`
    (without float32 rounding) and the Uint16Array an `array<int>` whose
    stores keep the value modulo 2^16, as the typed array does. */
module WrappedTorus {
  import opened VecMath
  import opened Surface
  import opened Layout
  import opened JsNumber
  import opened Packed

  /** Resolutions the typed-array constructors accept: a negative length
      `Nu * Nv * 3` throws a RangeError. Both resolutions negative gives a
      positive length; no loop runs then. */
  predicate Wrappable(p: Params)
  {
    p.nu * p.nv >= 0
  }

  /** nVerts = Nu * Nv: the seam is not duplicated. */
  function VertexCount(p: Params): nat
    requires Wrappable(p)
  {
    p.nu * p.nv
  }

  /** A grid with at least one quad: every loop runs. */
  predicate Laid(p: Params)
  {
    p.nu > 0 && p.nv > 0
  }

  /** u_i = uMin + (uMax - uMin) * (i / Nu): the seam u = pi is not sampled. */
  function USample(p: Params, i: int): real
    requires p.nu > 0
  {
    Lerp(UMin, UMax, i as real / p.nu as real)
  }

  /** v_j = vMin + (vMax - vMin) * (j / Nv). */
  function VSample(p: Params, j: int): real
    requires p.nv > 0
  {
    Lerp(VMin, VMax, j as real / p.nv as real)
  }

  function Zeros<T>(n: nat, zero: T): seq<T>
  {
    seq(n, _ => zero)
  }

  // ---------------------------------------------------------------------
  // Positions (lines 17-29)

  /** The three numbers written for grid point (i, j). */
  function PointRec(xyz: Evaluator, p: Params): (nat, nat) -> seq<real>
  {
    (i: nat, j: nat) =>
      if Laid(p) then Triple(xyz(p.ShapeOf(), USample(p, i), VSample(p, j))) else []
  }

  /** The position buffer: grid point (i, j) for i < Nu outer and j < Nv
      inner; when no loop runs, the zeros of the fresh Float32Array. */
  function Positions(xyz: Evaluator, p: Params): seq<real>
    requires Wrappable(p)
  {
    if Laid(p) then Grid(p.nu, p.nv, PointRec(xyz, p)) else Zeros(3 * VertexCount(p), 0.0)
  }

  /** Lines 17-29: fill the fresh buffer through the running counter idx. */
  method FillPositions(xyz: Evaluator, p: Params, positions: array<real>)
    requires Wrappable(p) && positions.Length == 3 * VertexCount(p) && ZeroFrom(positions, 0, 0.0)
    modifies positions
    ensures positions[..] == Positions(xyz, p)
  {
    ghost var rec := PointRec(xyz, p);
    ghost var inner := Count(p.nv);
    var idx := 0;
    var i := 0;
    while i < p.nu
      invariant 0 <= i <= Count(p.nu) && idx == 3 * (i * inner)
      invariant idx <= positions.Length && positions[..idx] == Gen(i, Rows(inner, rec))
      invariant ZeroFrom(positions, idx, 0.0)
    {
      var u := UMin + (UMax - UMin) * (i as real / p.nu as real);
      if p.nv > 0 {
        SlotFits(p.nu, p.nv, i, p.nv - 1, 3);
      }
      idx := FillRow(xyz, p, positions, i, u, idx);
      assert 3 * (i * inner) + 3 * inner == 3 * ((i + 1) * inner);
      GridRowDone(inner, rec, i);
      i := i + 1;
    }
    if Laid(p) {
      assert positions[..] == positions[..idx];
    } else {
      assert idx == 0;
      assert positions[..] == Zeros(3 * VertexCount(p), 0.0);
    }
  }

  /** Lines 22-28: the inner loop for row i, from offset start. */
  method FillRow(xyz: Evaluator, p: Params, positions: array<real>, i: nat, u: real, start: nat)
    returns (idx: nat)
    requires i < p.nu
    requires u == UMin + (UMax - UMin) * (i as real / p.nu as real) && start + 3 * Count(p.nv) <= positions.Length
    requires positions[..start] == Gen(i, Rows(Count(p.nv), PointRec(xyz, p))) && ZeroFrom(positions, start, 0.0)
    modifies positions
    ensures idx == start + 3 * Count(p.nv) && idx <= positions.Length && ZeroFrom(positions, idx, 0.0)
    ensures positions[..idx] == Gen(i, Rows(Count(p.nv), PointRec(xyz, p))) + Gen(Count(p.nv), RowOf(PointRec(xyz, p), i))
  {
    ghost var rec := PointRec(xyz, p);
    ghost var done := positions[..start];
    idx := start;
    var j := 0;
    while j < p.nv
      invariant 0 <= j <= Count(p.nv) && idx == start + 3 * j
      invariant idx <= positions.Length && positions[..idx] == done + Gen(j, RowOf(rec, i))
      invariant ZeroFrom(positions, idx, 0.0)
    {
      StorePoint(xyz, p, positions, i, j, u, idx, done);
      idx := idx + 3;
      j := j + 1;
    }
  }

  /** Lines 24-27 for one vertex: point (i, j) stored at idx. */
  method StorePoint(xyz: Evaluator, p: Params, positions: array<real>, i: nat, j: nat, u: real, idx: nat,
                    ghost done: seq<real>)
    requires i < p.nu && j < p.nv && idx + 3 <= positions.Length
    requires u == UMin + (UMax - UMin) * (i as real / p.nu as real)
    requires positions[..idx] == done + Gen(j, RowOf(PointRec(xyz, p), i)) && ZeroFrom(positions, idx, 0.0)
    modifies positions
    ensures positions[..idx + 3] == done + Gen(j + 1, RowOf(PointRec(xyz, p), i))
    ensures ZeroFrom(positions, idx + 3, 0.0)
  {
    ghost var rec := PointRec(xyz, p);
    var v := VMin + (VMax - VMin) * (j as real / p.nv as real);
    var q := xyz(p.ShapeOf(), u, v);
    PointAt(xyz, p, i, j, u, v);
    ghost var row := Gen(j, RowOf(rec, i));
    WriteTriple(positions, idx, q);
    GenPush(j, RowOf(rec, i));
    assert positions[..idx + 3] == done + (row + Triple(q));
  }

  /** The point the loops compute for (i, j) is record (i, j). */
  lemma PointAt(xyz: Evaluator, p: Params, i: nat, j: nat, u: real, v: real)
    requires Laid(p)
    requires u == UMin + (UMax - UMin) * (i as real / p.nu as real)
    requires v == VMin + (VMax - VMin) * (j as real / p.nv as real)
    ensures RowOf(PointRec(xyz, p), i)(j) == Triple(xyz(p.ShapeOf(), u, v))
  {
    assert u == USample(p, i) && v == VSample(p, j);
    assert RowOf(PointRec(xyz, p), i)(j) == PointRec(xyz, p)(i, j);
  }

  /** Entries k.. of a are still the zeros of the fresh buffer. */
  ghost predicate ZeroFrom<T>(a: array<T>, k: nat, zero: T)
    reads a
  {
    forall t :: k <= t < a.Length ==> a[t] == zero
  }

  /** Record (i, j) of width w ends inside a buffer of w*(outer*inner) entries. */
  lemma SlotFits(outer: int, inner: int, i: nat, j: nat, w: nat)
    requires i < outer && j < inner
    ensures w * (i * inner) + w * j + w <= w * (outer * inner)
  {
    RecordBefore(inner, i, j, outer);
    assert inner * i == i * inner && inner * outer == outer * inner;
    MulMono(w, i * inner + j + 1, outer * inner);
  }

  /** Lines 25-27: three `positions[idx++] = ...` stores. */
  method WriteTriple(a: array<real>, k: nat, q: Vec3)
    requires k + 3 <= a.Length
    modifies a
    ensures a[..k + 3] == old(a[..k]) + Triple(q)
    ensures forall t :: k + 3 <= t < a.Length ==> a[t] == old(a[t])
  {
    a[k] := q.x;
    a[k + 1] := q.y;
    a[k + 2] := q.z;
  }

  // ---------------------------------------------------------------------
  // Indices (lines 31-48)

  /** vid(i, j) = ((i + Nu) % Nu) * Nv + ((j + Nv) % Nv). The dividends are
      never negative here, where JavaScript's % agrees with Dafny's. */
  function Vid(p: Params, i: int, j: int): int
    requires Laid(p) && i + p.nu >= 0 && j + p.nv >= 0
  {
    ((i + p.nu) % p.nu) * p.nv + ((j + p.nv) % p.nv)
  }

  /** The six indices of quad (i, j), before the Uint16 store: triangles
      (v00, v10, v11) and (v00, v11, v01), with i1 = (i+1) % Nu and
      j1 = (j+1) % Nv wrapping around the seams. */
  function Corners(p: Params, i: nat, j: nat): seq<int>
    requires Laid(p)
  {
    var i1, j1 := (i + 1) % p.nu, (j + 1) % p.nv;
    QuadOf(Vid(p, i, j), Vid(p, i1, j), Vid(p, i1, j1), Vid(p, i, j1))
  }

  /** The two triangles of a quad with corners v00, v10, v11 and v01. */
  function QuadOf(v00: int, v10: int, v11: int, v01: int): seq<int>
  {
    Triangle(v00, v10, v11) + Triangle(v00, v11, v01)
  }

  /** One triangle's three entries, as one line of the quad loop stores them. */
  function Triangle(a: int, b: int, c: int): seq<int>
  {
    [a, b, c]
  }

  function QuadRec(p: Params): (nat, nat) -> seq<int>
  {
    (i: nat, j: nat) => if Laid(p) then Corners(p, i, j) else []
  }

  /** Each entry as the Uint16Array keeps it. */
  function Uint16s(s: seq<int>): (r: seq<int>)
    ensures |r| == |s|
  {
    seq(|s|, c requires 0 <= c < |s| => ToUint16(s[c]))
  }

  function StoredQuad(p: Params): (nat, nat) -> seq<int>
  {
    (i: nat, j: nat) => Uint16s(QuadRec(p)(i, j))
  }

  /** The vertex numbers the loops compute, quad (i, j) for i < Nu outer and
      j < Nv inner. */
  function Indices(p: Params): seq<int>
    requires Laid(p)
  {
    Grid(p.nu, p.nv, QuadRec(p))
  }

  /** The index buffer as stored; all zeros when no loop runs. */
  function StoredIndices(p: Params): seq<int>
    requires Wrappable(p)
  {
    if Laid(p) then Grid(p.nu, p.nv, StoredQuad(p)) else Zeros(6 * VertexCount(p), 0)
  }

  /** Lines 31-48: fill the fresh index buffer through the running counter k. */
  method FillIndices(p: Params, indices: array<int>)
    requires Wrappable(p) && indices.Length == 6 * VertexCount(p) && ZeroFrom(indices, 0, 0)
    modifies indices
    ensures indices[..] == StoredIndices(p)
  {
    ghost var rec := StoredQuad(p);
    ghost var inner := Count(p.nv);
    var k := 0;
    var i := 0;
    while i < p.nu
      invariant 0 <= i <= Count(p.nu) && k == 6 * (i * inner)
      invariant k <= indices.Length && indices[..k] == Gen(i, Rows(inner, rec))
      invariant ZeroFrom(indices, k, 0)
    {
      if p.nv > 0 {
        SlotFits(p.nu, p.nv, i, p.nv - 1, 6);
      }
      k := FillQuadRow(p, indices, i, k);
      assert 6 * (i * inner) + 6 * inner == 6 * ((i + 1) * inner);
      GridRowDone(inner, rec, i);
      i := i + 1;
    }
    if Laid(p) {
      assert indices[..] == indices[..k];
    } else {
      assert k == 0;
      assert indices[..] == Zeros(6 * VertexCount(p), 0);
    }
  }

  /** Lines 36-47: the inner loop for row i of quads, from offset start. */
  method FillQuadRow(p: Params, indices: array<int>, i: nat, start: nat) returns (k: nat)
    requires i < p.nu && start + 6 * Count(p.nv) <= indices.Length
    requires indices[..start] == Gen(i, Rows(Count(p.nv), StoredQuad(p))) && ZeroFrom(indices, start, 0)
    modifies indices
    ensures k == start + 6 * Count(p.nv) && k <= indices.Length && ZeroFrom(indices, k, 0)
    ensures indices[..k] == Gen(i, Rows(Count(p.nv), StoredQuad(p))) + Gen(Count(p.nv), RowOf(StoredQuad(p), i))
  {
    ghost var rec := StoredQuad(p);
    ghost var done := indices[..start];
    k := start;
    var j := 0;
    while j < p.nv
      invariant 0 <= j <= Count(p.nv) && k == start + 6 * j
      invariant k <= indices.Length && indices[..k] == done + Gen(j, RowOf(rec, i))
      invariant ZeroFrom(indices, k, 0)
    {
      PushQuad(p, indices, i, j, k, done);
      k := k + 6;
      j := j + 1;
    }
  }

  /** Lines 37-45 for one quad: quad (i, j) stored at k. */
  method PushQuad(p: Params, indices: array<int>, i: nat, j: nat, k: nat, ghost done: seq<int>)
    requires i < p.nu && j < p.nv && k + 6 <= indices.Length
    requires indices[..k] == done + Gen(j, RowOf(StoredQuad(p), i)) && ZeroFrom(indices, k, 0)
    modifies indices
    ensures indices[..k + 6] == done + Gen(j + 1, RowOf(StoredQuad(p), i))
    ensures ZeroFrom(indices, k + 6, 0)
  {
    ghost var rec := StoredQuad(p);
    var quad := ComputeQuad(p, i, j);
    ghost var row := Gen(j, RowOf(rec, i));
    StoreQuad(indices, k, quad);
    GenPush(j, RowOf(rec, i));
    StoredAt(p, i, j, quad);
    assert indices[..k + 6] == done + (row + Uint16s(quad));
  }

  /** The stored record (i, j) is the quad the loop body computes, stored. */
  lemma StoredAt(p: Params, i: nat, j: nat, quad: seq<int>)
    requires Laid(p) && quad == Corners(p, i, j)
    ensures RowOf(StoredQuad(p), i)(j) == Uint16s(quad)
  {
    assert RowOf(StoredQuad(p), i)(j) == StoredQuad(p)(i, j);
    assert QuadRec(p)(i, j) == Corners(p, i, j);
  }

  /** The body of the index loop, lines 37-43. */
  method ComputeQuad(p: Params, i: nat, j: nat) returns (quad: seq<int>)
    requires Laid(p) && i < p.nu && j < p.nv
    ensures quad == Corners(p, i, j)
  {
    var i1 := (i + 1) % p.nu;
    var j1 := (j + 1) % p.nv;
    var v00 := Vid(p, i, j);
    var v10 := Vid(p, i1, j);
    var v01 := Vid(p, i, j1);
    var v11 := Vid(p, i1, j1);
    quad := [v00, v10, v11, v00, v11, v01];
  }

  /** Lines 45-46: six `indices[k++] = ...` stores. */
  method StoreQuad(indices: array<int>, k: nat, quad: seq<int>)
    requires |quad| == 6 && k + 6 <= indices.Length
    modifies indices
    ensures indices[..k + 6] == old(indices[..k]) + Uint16s(quad)
    ensures forall t :: k + 6 <= t < indices.Length ==> indices[t] == old(indices[t])
  {
    indices[k] := ToUint16(quad[0]);
    indices[k + 1] := ToUint16(quad[1]);
    indices[k + 2] := ToUint16(quad[2]);
    indices[k + 3] := ToUint16(quad[3]);
    indices[k + 4] := ToUint16(quad[4]);
    indices[k + 5] := ToUint16(quad[5]);
  }

  // ---------------------------------------------------------------------
  // Normals (lines 50-75)

  /** The cross product of the two edges from corner i0 (lines 54-63). */
  function FaceNormal(positions: seq<real>, i0: int, i1: int, i2: int): Vec3
    requires 0 <= i0 && 3 * i0 + 2 < |positions|
    requires 0 <= i1 && 3 * i1 + 2 < |positions|
    requires 0 <= i2 && 3 * i2 + 2 < |positions|
  {
    var p0 := PosAt(positions, i0);
    Cross(Sub(PosAt(positions, i1), p0), Sub(PosAt(positions, i2), p0))
  }

  /** c added to the three entries of slot v (lines 65-67, one line). */
  function AddSlot(s: seq<real>, v: int, c: Vec3): (r: seq<real>)
    requires 0 <= v && 3 * v + 2 < |s|
    ensures |r| == |s| && PosAt(r, v) == Add(PosAt(s, v), c)
    ensures forall t :: 0 <= t < |s| && (t < 3 * v || 3 * v + 2 < t) ==> r[t] == s[t]
  {
    s[3 * v := s[3 * v] + c.x][3 * v + 1 := s[3 * v + 1] + c.y][3 * v + 2 := s[3 * v + 2] + c.z]
  }

  /** Vertex buffers the normal pass can read: n vertices, whole triangles,
      every index naming one of the n vertices. */
  predicate Accumulable(positions: seq<real>, indices: seq<int>, n: nat)
  {
    |positions| == 3 * n && |indices| % 3 == 0 && InRange(indices, n)
  }

  /** The normal buffer once the loop of lines 52-68 has reached offset t:
      each triangle's face normal added to the slots of its three corners,
      in corner order. */
  function FaceSums(positions: seq<real>, indices: seq<int>, n: nat, t: nat): (acc: seq<real>)
    requires Accumulable(positions, indices, n) && t <= |indices|
    ensures |acc| == 3 * n
  {
    if t < 3 then Zeros(3 * n, 0.0)
    else
      var prev := FaceSums(positions, indices, n, t - 3);
      var i0, i1, i2 := indices[t - 3], indices[t - 2], indices[t - 1];
      var c := FaceNormal(positions, i0, i1, i2);
      AddSlot(AddSlot(AddSlot(prev, i0, c), i1, c), i2, c)
  }

  /** Lines 50-68: accumulate every triangle's face normal in place. */
  method AccumulateNormals(positions: array<real>, indices: array<int>, normals: array<real>, ghost n: nat)
    requires normals != positions
    requires Accumulable(positions[..], indices[..], n) && normals.Length == 3 * n
    requires ZeroFrom(normals, 0, 0.0)
    modifies normals
    ensures normals[..] == FaceSums(positions[..], indices[..], n, indices.Length)
  {
    assert normals[..] == Zeros(3 * n, 0.0);
    var t := 0;
    while t < indices.Length
      invariant 0 <= t <= indices.Length && t % 3 == 0
      invariant normals[..] == FaceSums(positions[..], indices[..], n, t)
    {
      NextTriangle(t, indices.Length);
      AccumulateFace(positions, indices, normals, n, t);
      t := t + 3;
    }
  }

  /** Lines 52-67: the triangle at offset t added to the normals of its corners. */
  method AccumulateFace(positions: array<real>, indices: array<int>, normals: array<real>, ghost n: nat, t: nat)
    requires normals != positions
    requires Accumulable(positions[..], indices[..], n) && normals.Length == 3 * n
    requires t + 3 <= indices.Length
    requires normals[..] == FaceSums(positions[..], indices[..], n, t)
    modifies normals
    ensures normals[..] == FaceSums(positions[..], indices[..], n, t + 3)
  {
    ghost var ps, ix := positions[..], indices[..];
    var i0, i1, i2 := indices[t], indices[t + 1], indices[t + 2];
    FaceSumsNext(ps, ix, n, t);
    AddFace(positions, normals, i0, i1, i2, ps);
    assert positions[..] == ps && indices[..] == ix;
  }

  /** The triangle at offset t of a buffer of whole triangles ends inside it. */
  lemma NextTriangle(t: int, len: int)
    requires 0 <= t < len && t % 3 == 0 && len % 3 == 0
    ensures t + 3 <= len && (t + 3) % 3 == 0
  {
    var a, b := t / 3, len / 3;
    assert t == 3 * a && len == 3 * b;
    assert t + 3 == 3 * (a + 1);
  }

  /** The triangle at offset t adds its face normal to the slots of its
      three corners. */
  lemma FaceSumsNext(positions: seq<real>, indices: seq<int>, n: nat, t: nat)
    requires Accumulable(positions, indices, n) && t + 3 <= |indices|
    ensures var i0, i1, i2 := indices[t], indices[t + 1], indices[t + 2];
      var c := FaceNormal(positions, i0, i1, i2);
      FaceSums(positions, indices, n, t + 3)
        == AddSlot(AddSlot(AddSlot(FaceSums(positions, indices, n, t), i0, c), i1, c), i2, c)
  {
  }

  /** Lines 52-67 for one triangle. */
  method AddFace(positions: array<real>, normals: array<real>, i0: int, i1: int, i2: int, ghost ps: seq<real>)
    requires normals != positions && normals.Length == positions.Length && ps == positions[..]
    requires 0 <= i0 && 3 * i0 + 2 < positions.Length
    requires 0 <= i1 && 3 * i1 + 2 < positions.Length
    requires 0 <= i2 && 3 * i2 + 2 < positions.Length
    modifies normals
    ensures var c := FaceNormal(ps, i0, i1, i2);
      normals[..] == AddSlot(AddSlot(AddSlot(old(normals[..]), i0, c), i1, c), i2, c)
  {
    var c := ComputeFaceNormal(positions, i0, i1, i2);
    AddToSlot(normals, i0, c);
    AddToSlot(normals, i1, c);
    AddToSlot(normals, i2, c);
  }

  /** Lines 52-63, the body of the normal loop up to the additions. */
  method ComputeFaceNormal(positions: array<real>, i0: int, i1: int, i2: int) returns (c: Vec3)
    requires 0 <= i0 && 3 * i0 + 2 < positions.Length
    requires 0 <= i1 && 3 * i1 + 2 < positions.Length
    requires 0 <= i2 && 3 * i2 + 2 < positions.Length
    ensures c == FaceNormal(positions[..], i0, i1, i2)
  {
    var p0x, p0y, p0z := positions[3 * i0 + 0], positions[3 * i0 + 1], positions[3 * i0 + 2];
    var p1x, p1y, p1z := positions[3 * i1 + 0], positions[3 * i1 + 1], positions[3 * i1 + 2];
    var p2x, p2y, p2z := positions[3 * i2 + 0], positions[3 * i2 + 1], positions[3 * i2 + 2];
    var e1x, e1y, e1z := p1x - p0x, p1y - p0y, p1z - p0z;
    var e2x, e2y, e2z := p2x - p0x, p2y - p0y, p2z - p0z;
    var cx := e1y * e2z - e1z * e2y;
    var cy := e1z * e2x - e1x * e2z;
    var cz := e1x * e2y - e1y * e2x;
    c := Vec3(cx, cy, cz);
  }

  /** One line of lines 65-67: three `+=` on the slot of vertex v. */
  method AddToSlot(normals: array<real>, v: int, c: Vec3)
    requires 0 <= v && 3 * v + 2 < normals.Length
    modifies normals
    ensures normals[..] == AddSlot(old(normals[..]), v, c)
  {
    normals[3 * v + 0] := normals[3 * v + 0] + c.x;
    normals[3 * v + 1] := normals[3 * v + 1] + c.y;
    normals[3 * v + 2] := normals[3 * v + 2] + c.z;
  }

  /** `Math.hypot(nx, ny, nz) || 1.0`: a zero length is replaced by 1. */
  function LengthOr1(m: Metric, n: Vec3): (len: real)
    ensures len != 0.0
    ensures m.hypot(n) != 0.0 ==> len == m.hypot(n)
  {
    var l := m.hypot(n);
    if l == 0.0 then 1.0 else l
  }

  /** Lines 70-74 for one vertex: the accumulator divided by its length. */
  function Unitize(m: Metric, n: Vec3): Vec3
  {
    DivideBy(n, LengthOr1(m, n))
  }

  /** The normalised slot k of the accumulated buffer. */
  function UnitTable(m: Metric, acc: seq<real>): nat -> Vec3
  {
    (k: nat) => if 3 * k + 2 < |acc| then Unitize(m, PosAt(acc, k)) else Zero
  }

  /** Lines 69-75: normalise every slot in place. */
  method NormalizeNormals(m: Metric, normals: array<real>, n: nat)
    requires normals.Length == 3 * n
    modifies normals
    ensures normals[..] == Flatten(n, UnitTable(m, old(normals[..])))
  {
    ghost var acc := normals[..];
    ghost var rec := Triples(UnitTable(m, acc));
    var v := 0;
    while v < n
      invariant 0 <= v <= n
      invariant normals[..3 * v] == Gen(v, rec)
      invariant normals[3 * v..] == acc[3 * v..]
    {
      var nx, ny, nz := normals[3 * v + 0], normals[3 * v + 1], normals[3 * v + 2];
      var unit := ComputeUnit(m, nx, ny, nz);
      UnitAt(m, acc, v, Vec3(nx, ny, nz)) by {
        assert normals[3 * v..][0] == nx && normals[3 * v..][1] == ny && normals[3 * v..][2] == nz;
      }
      ghost var prefix := normals[..3 * v];
      WriteTriple(normals, 3 * v, unit);
      GenPush(v, rec);
      assert normals[..3 * (v + 1)] == prefix + rec(v);
      assert normals[3 * (v + 1)..] == acc[3 * (v + 1)..];
      v := v + 1;
    }
    assert normals[..] == normals[..3 * n];
  }

  /** Slot v of the normalised buffer is the accumulator there, normalised. */
  lemma UnitAt(m: Metric, acc: seq<real>, v: nat, a: Vec3)
    requires 3 * v + 2 < |acc| && a == PosAt(acc, v)
    ensures Triples(UnitTable(m, acc))(v) == Triple(Unitize(m, a))
  {
    assert Triples(UnitTable(m, acc))(v) == Triple(UnitTable(m, acc)(v));
  }

  /** Lines 70-74 for one vertex. */
  method ComputeUnit(m: Metric, nx: real, ny: real, nz: real) returns (unit: Vec3)
    ensures unit == Unitize(m, Vec3(nx, ny, nz))
  {
    var len := m.hypot(Vec3(nx, ny, nz));
    if len == 0.0 {
      len := 1.0;
    }
    unit := Vec3(nx / len, ny / len, nz / len);
  }

  /** The normals the generator returns. */
  function SmoothNormals(m: Metric, positions: seq<real>, indices: seq<int>, n: nat): seq<real>
    requires Accumulable(positions, indices, n)
  {
    Flatten(n, UnitTable(m, FaceSums(positions, indices, n, |indices|)))
  }

  // ---------------------------------------------------------------------
  // The whole generator

  /** buildAstroidalTorus (lines 1-78): the position, index and normal
      buffers, fresh, and the parameters as received. */
  method BuildAstroidalTorus(arg: ParamsArg, xyz: Evaluator, m: Metric)
    returns (positions: array<real>, indices: array<int>, normals: array<real>, params: Params)
    requires Wrappable(ResolveArg(arg))
    ensures fresh(positions) && fresh(indices) && fresh(normals)
    ensures params == ResolveArg(arg)
    ensures positions[..] == Positions(xyz, params) && indices[..] == StoredIndices(params)
    ensures Accumulable(positions[..], indices[..], VertexCount(params))
    ensures normals[..] == SmoothNormals(m, positions[..], indices[..], VertexCount(params))
  {
    params := ResolveArg(arg);
    positions, indices := LayBuffers(xyz, params);
    normals := ComputeNormals(m, positions, indices, params.nu * params.nv);
  }

  /** Lines 17-48: the position and index buffers of the grid. */
  method LayBuffers(xyz: Evaluator, params: Params) returns (positions: array<real>, indices: array<int>)
    requires Wrappable(params)
    ensures fresh(positions) && fresh(indices)
    ensures positions[..] == Positions(xyz, params) && indices[..] == StoredIndices(params)
    ensures Accumulable(positions[..], indices[..], VertexCount(params))
  {
    var n := params.nu * params.nv;
    assert n == VertexCount(params);
    positions := new real[n * 3](_ => 0.0);
    assert positions.Length == 3 * n && ZeroFrom(positions, 0, 0.0);
    FillPositions(xyz, params, positions);
    indices := new int[n * 6](_ => 0);
    assert indices.Length == 6 * n && ZeroFrom(indices, 0, 0);
    FillIndices(params, indices);
    StoredShape(params);
  }

  /** Lines 48-75: the normal buffer of a mesh, accumulated, then normalised. */
  method ComputeNormals(m: Metric, positions: array<real>, indices: array<int>, n: nat)
    returns (normals: array<real>)
    requires Accumulable(positions[..], indices[..], n)
    ensures fresh(normals)
    ensures normals[..] == SmoothNormals(m, positions[..], indices[..], n)
  {
    normals := new real[positions.Length](_ => 0.0);
    assert ZeroFrom(normals, 0, 0.0);
    AccumulateNormals(positions, indices, normals, n);
    NormalizeNormals(m, normals, n);
  }

  /** Every stored index names a vertex, and there are whole triangles. */
  lemma StoredShape(p: Params)
    requires Wrappable(p)
    ensures |StoredIndices(p)| == 6 * VertexCount(p)
    ensures |StoredIndices(p)| % 3 == 0 && InRange(StoredIndices(p), VertexCount(p))
  {
    assert 6 * VertexCount(p) == 3 * (2 * VertexCount(p));
    if Laid(p) {
      StoredBounded(p);
    }
  }

  lemma StoredBounded(p: Params)
    requires Laid(p)
    ensures |StoredIndices(p)| == 6 * VertexCount(p) && InRange(StoredIndices(p), VertexCount(p))
  {
    forall o, i | 0 <= o < p.nu && 0 <= i < p.nv
      ensures |StoredQuad(p)(o, i)| == 6
      ensures forall c :: 0 <= c < 6 ==> 0 <= StoredQuad(p)(o, i)[c] < VertexCount(p)
    {
      QuadBounded(p, o, i);
    }
    GridLength(p.nu, p.nv, StoredQuad(p), 6);
    GridBounded(p.nu, p.nv, StoredQuad(p), 0, VertexCount(p));
  }

  /** The stored indices of quad (i, j) name vertices. */
  lemma QuadBounded(p: Params, i: nat, j: nat)
    requires Laid(p) && i < p.nu && j < p.nv
    ensures |StoredQuad(p)(i, j)| == 6
    ensures forall c :: 0 <= c < 6 ==> 0 <= StoredQuad(p)(i, j)[c] < VertexCount(p)
  {
    var quad := QuadRec(p)(i, j);
    forall c | 0 <= c < 6
      ensures 0 <= ToUint16(quad[c]) < VertexCount(p)
    {
      var i1, j1 := (i + 1) % p.nu, (j + 1) % p.nv;
      VidInRange(p, i, j);
      VidInRange(p, i1, j);
      VidInRange(p, i, j1);
      VidInRange(p, i1, j1);
    }
  }

  /** vid(i, j) names one of the Nu*Nv vertices for 0 <= i <= Nu and
      0 <= j <= Nv. */
  lemma VidInRange(p: Params, i: int, j: int)
    requires Laid(p) && 0 <= i <= p.nu && 0 <= j <= p.nv
    ensures 0 <= Vid(p, i, j) < VertexCount(p)
  {
    var a, b := (i + p.nu) % p.nu, (j + p.nv) % p.nv;
    RecordBefore(p.nv, a, b, p.nu);
    assert p.nv * a == a * p.nv;
  }
}
