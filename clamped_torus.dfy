/** The clamped-grid tessellator of CGW/src/astroidal_torus.js.

    It clamps the resolution to at least 24 x 24 and samples (Nu+1) x (Nv+1)
    grid points row by row, duplicating the seam. It takes each normal from
    central differences of the surface at periodically wrapped neighbour
    parameters, emits two triangles per quad, and derives the tangents in two
    passes: the first accumulates per-triangle tangents into `tanAcc`; the
    second orthogonalises them against the normal or falls back to a fixed
    direction, then writes them per vertex. */
module ClampedTorus {
  import opened VecMath
  import opened Surface
  import opened Layout
  import opened JsNumber
  import opened Packed

  // ---------------------------------------------------------------------
  // Arguments (lines 25-39)

  /** The first argument: absent, null, a number, or an object whose
      properties a, r, theta, Nu, Nv may each be absent (None). */
  datatype Arg =
    | Undefined
    | Null
    | Number(value: real)
    | Object(a: Option<real>, r: Option<real>, theta: Option<real>,
             nu: Option<real>, nv: Option<real>)

  /** `Math.max(24, x | 0)`. */
  function Resolution(x: real): (n: int)
    ensures 24 <= n < TwoTo31
    ensures IsIntegral(x) && 24.0 <= x < TwoTo31 as real ==> n as real == x
    ensures IsIntegral(x) && -TwoTo31 as real <= x < 24.0 ==> n == 24
  {
    var k := ToInt32(x);
    if k < 24 then 24 else k
  }

  /** The parameters buildAstroidalTorus(arg1, arg2) works with: an object
      is destructured with defaults a=1, r=2, theta=0, Nu=64, Nv=128;
      otherwise Nu = arg1|0 and Nv = arg2|0, with arg1 and arg2 defaulting
      to 128 and null converting to 0. Both resolutions are then clamped. */
  function ResolveArgs(arg1: Arg, arg2: Option<real>): (p: Params)
    ensures 24 <= p.nu < TwoTo31 && 24 <= p.nv < TwoTo31
    ensures arg1 == Undefined && arg2 == None ==> p == Params(1.0, 2.0, 0.0, 128, 128)
    ensures arg1 == Object(None, None, None, None, None) ==> p == Params(1.0, 2.0, 0.0, 64, 128)
    ensures !arg1.Object? ==> p.ShapeOf() == Shape(1.0, 2.0, 0.0)
    ensures arg1 == Number(1.0) ==> p.nu == 24
    ensures arg1.Number? ==> p.nu == Resolution(arg1.value)
    ensures arg1 == Null ==> p.nu == 24
    ensures arg1 == Undefined ==> p.nu == 128
    ensures !arg1.Object? ==> p.nv == Resolution(arg2.GetOr(128.0))
    ensures arg1.Object? ==> p.a == arg1.a.GetOr(1.0) && p.r == arg1.r.GetOr(2.0) && p.theta == arg1.theta.GetOr(0.0)
    ensures arg1.Object? ==> p.nu == Resolution(arg1.nu.GetOr(64.0)) && p.nv == Resolution(arg1.nv.GetOr(128.0))
  {
    match arg1
    case Object(a, r, theta, nu, nv) =>
      Params(a.GetOr(1.0), r.GetOr(2.0), theta.GetOr(0.0),
             Resolution(nu.GetOr(64.0)), Resolution(nv.GetOr(128.0)))
    case _ =>
      var x := match arg1 case Number(v) => v case Null => 0.0 case _ => 128.0;
      ToInt32Twice(x);
      ToInt32Twice(arg2.GetOr(128.0));
      Params(1.0, 2.0, 0.0,
             Resolution(ToInt32(x) as real), Resolution(ToInt32(arg2.GetOr(128.0)) as real))
  }

  /** `(x | 0) | 0 == x | 0`: clamping after the first conversion is
      clamping x itself. */
  lemma ToInt32Twice(x: real)
    ensures Resolution(ToInt32(x) as real) == Resolution(x)
  {
    ToInt32Keeps(ToInt32(x) as real);
  }

  // ---------------------------------------------------------------------
  // Sampling (lines 19-23, 43-54, 62-89)

  /** Resolutions the grid can be built for; ResolveArgs always gives one. */
  predicate Resolved(p: Params)
  {
    p.nu >= 1 && p.nv >= 1
  }

  /** u01 = i / Nu. */
  function U01(p: Params, i: int): real
    requires Resolved(p)
  {
    i as real / p.nu as real
  }

  /** v01 = j / Nv. */
  function V01(p: Params, j: int): real
    requires Resolved(p)
  {
    j as real / p.nv as real
  }

  /** surface(u01, v01): u = -pi + 2 pi u01, v = 2 pi v01, then XYZ(u, v). */
  function SurfaceAt(xyz: Evaluator, p: Params, u01: real, v01: real): Vec3
  {
    xyz(p.ShapeOf(), -MathPI + 2.0 * MathPI * u01, 2.0 * MathPI * v01)
  }

  /** The fractional part of x: x minus its floor, in [0, 1). */
  function Wrap01(x: real): (r: real)
    ensures 0.0 <= r < 1.0
    ensures IsIntegral(x - r)
  {
    x - x.Floor as real
  }

  /** wrap01 as written (lines 19-23): `x % 1`, plus one when negative. It
      is the fractional part of x for negative and positive x alike. */
  function JsWrap01(x: real): (r: real)
    ensures r == Wrap01(x)
  {
    var y := Rem1(x);
    if y < 0.0 then y + 1.0 else y
  }

  /** The central difference along u at grid point (i, j), lines 72-77:
      the surface one column to each side, the neighbours' u01 wrapped
      into [0, 1). */
  function USpan(xyz: Evaluator, p: Params, i: int, j: int): Vec3
    requires Resolved(p)
  {
    var u01, v01 := U01(p, i), V01(p, j);
    var eps := 1.0 / p.nu as real;
    Sub(SurfaceAt(xyz, p, Wrap01(u01 + eps), v01), SurfaceAt(xyz, p, Wrap01(u01 - eps), v01))
  }

  /** The central difference along v at grid point (i, j), lines 72-79. */
  function VSpan(xyz: Evaluator, p: Params, i: int, j: int): Vec3
    requires Resolved(p)
  {
    var u01, v01 := U01(p, i), V01(p, j);
    var eps := 1.0 / p.nv as real;
    Sub(SurfaceAt(xyz, p, u01, Wrap01(v01 + eps)), SurfaceAt(xyz, p, u01, Wrap01(v01 - eps)))
  }

  /** The normal of vertex (i, j), lines 72-84: the cross product of the
      two central differences, normalised, and (0, 0, 1) when the result
      has (almost) no length. */
  function VertexNormal(xyz: Evaluator, m: Metric, p: Params, i: int, j: int): Vec3
    requires Resolved(p)
  {
    NormalOf(m, Cross(USpan(xyz, p, i, j), VSpan(xyz, p, i, j)))
  }

  /** Lines 80-84: c normalised, or (0, 0, 1) when that has (almost) no
      length. When hypot gives the zero vector length 0 the result is
      (0, 0, 1) or points along c. */
  function NormalOf(m: Metric, c: Vec3): (n: Vec3)
    ensures ZeroHasLengthZero(m) ==> n == Vec3(0.0, 0.0, 1.0) || (m.hypot(c) > 0.0 && Scale(n, m.hypot(c)) == c)
  {
    var n := Normalize(m, c);
    if m.hypot(n) < 1e-8 then Vec3(0.0, 0.0, 1.0) else n
  }

  // ---------------------------------------------------------------------
  // The vertex loop (lines 56-89)

  /** What the vertex loop computes for grid point (i, j). */
  datatype Vertex = Vertex(position: Vec3, normal: Vec3, u01: real, v01: real)

  function VertexAt(xyz: Evaluator, m: Metric, p: Params, i: int, j: int): Vertex
    requires Resolved(p)
  {
    Vertex(SurfaceAt(xyz, p, U01(p, i), V01(p, j)), VertexNormal(xyz, m, p, i, j), U01(p, i), V01(p, j))
  }

  /** The grid's vertices as one function of (i, j). */
  function VertexTable(xyz: Evaluator, m: Metric, p: Params): (int, int) -> Vertex
    requires Resolved(p)
  {
    (i: int, j: int) => VertexAt(xyz, m, p, i, j)
  }

  /** vt gives the vertex of every grid point for these inputs. The loops
      below are proved for any such vt, so that they reason about where each
      vertex goes and not about how it is computed. */
  ghost predicate Tabulates(vt: (int, int) -> Vertex, xyz: Evaluator, m: Metric, p: Params)
  {
    Resolved(p) && forall i: int, j: int {:trigger VertexAt(xyz, m, p, i, j)} :: vt(i, j) == VertexAt(xyz, m, p, i, j)
  }

  lemma TableTabulates(xyz: Evaluator, m: Metric, p: Params)
    requires Resolved(p)
    ensures Tabulates(VertexTable(xyz, m, p), xyz, m, p)
  {
  }

  /** The four per-vertex buffers. */
  datatype Buffers = Buffers(positions: seq<real>, normals: seq<real>, uvs: seq<real>, tangents: seq<real>)
  {
    /** The pushes of one iteration: position, uv, normal, and the placeholder tangent (1, 0, 0). */
    function Push(v: Vertex): Buffers
    {
      Buffers(positions + Triple(v.position), normals + Triple(v.normal),
              uvs + [v.u01, v.v01], tangents + [1.0, 0.0, 0.0])
    }

    function Append(b: Buffers): Buffers
    {
      Buffers(positions + b.positions, normals + b.normals, uvs + b.uvs, tangents + b.tangents)
    }
  }

  const NoBuffers := Buffers([], [], [], [])

  /** Row j after its vertices 0..i-1. */
  function RowPrefix(vt: (int, int) -> Vertex, j: int, i: nat): Buffers
  {
    if i == 0 then NoBuffers else RowPrefix(vt, j, i - 1).Push(vt(i - 1, j))
  }

  /** The buffers after rows 0..j-1 of width `row`. */
  function LaidRows(vt: (int, int) -> Vertex, row: nat, j: nat): Buffers
  {
    if j == 0 then NoBuffers else LaidRows(vt, row, j - 1).Append(RowPrefix(vt, j - 1, row))
  }

  /** The buffers of the whole (Nu+1) x (Nv+1) grid. */
  function VertexBuffers(xyz: Evaluator, m: Metric, p: Params): Buffers
    requires Resolved(p)
  {
    LaidRows(VertexTable(xyz, m, p), p.nu + 1, p.nv + 1)
  }

  /** Lines 62-89: for j in 0..Nv, for i in 0..Nu, push the position, the
      uv, the normal and a placeholder tangent of vertex (i, j). */
  method LayVertices(xyz: Evaluator, m: Metric, p: Params) returns (b: Buffers)
    requires Resolved(p)
    ensures b == VertexBuffers(xyz, m, p)
  {
    TableTabulates(xyz, m, p);
    b := LayRows(xyz, m, p, VertexTable(xyz, m, p));
  }

  method LayRows(xyz: Evaluator, m: Metric, p: Params, ghost vt: (int, int) -> Vertex) returns (b: Buffers)
    requires Tabulates(vt, xyz, m, p)
    ensures b == LaidRows(vt, p.nu + 1, p.nv + 1)
  {
    b := NoBuffers;
    var j := 0;
    while j <= p.nv
      invariant 0 <= j <= p.nv + 1
      invariant b == LaidRows(vt, p.nu + 1, j)
    {
      var r := LayRow(xyz, m, p, vt, j);
      b := b.Append(r);
      j := j + 1;
    }
  }

  /** The inner loop of lines 66-88, for row j. */
  method LayRow(xyz: Evaluator, m: Metric, p: Params, ghost vt: (int, int) -> Vertex, j: int) returns (b: Buffers)
    requires Tabulates(vt, xyz, m, p)
    ensures b == RowPrefix(vt, j, p.nu + 1)
  {
    b := NoBuffers;
    var i := 0;
    while i <= p.nu
      invariant 0 <= i <= p.nu + 1
      invariant b == RowPrefix(vt, j, i)
    {
      var v := ComputeVertex(xyz, m, p, vt, i, j);
      b := b.Push(v);
      i := i + 1;
    }
  }

  /** The body of the inner loop, lines 65-85: the sample, its uv, and its
      normal from central differences at the wrapped neighbours. */
  method ComputeVertex(xyz: Evaluator, m: Metric, p: Params, ghost vt: (int, int) -> Vertex, i: int, j: int)
    returns (vertex: Vertex)
    requires Tabulates(vt, xyz, m, p)
    ensures vertex == vt(i, j)
  {
    var epsU := 1.0 / p.nu as real;
    var epsV := 1.0 / p.nv as real;
    var v01 := j as real / p.nv as real;
    var u01 := i as real / p.nu as real;
    var q := SurfaceAt(xyz, p, u01, v01);
    var uP := JsWrap01(u01 + epsU);
    var uM := JsWrap01(u01 - epsU);
    var vP := JsWrap01(v01 + epsV);
    var vM := JsWrap01(v01 - epsV);
    var du := Sub(SurfaceAt(xyz, p, uP, v01), SurfaceAt(xyz, p, uM, v01));
    var dv := Sub(SurfaceAt(xyz, p, u01, vP), SurfaceAt(xyz, p, u01, vM));
    var n := Normalize(m, Cross(du, dv));
    if m.hypot(n) < 1e-8 {
      n := Vec3(0.0, 0.0, 1.0);
    }
    vertex := Vertex(q, n, u01, v01);
    assert vertex == VertexAt(xyz, m, p, i, j);
  }

  // ---------------------------------------------------------------------
  // The index loop (lines 91-102)

  /** The six indices of quad (i, j), with a0 = j*row + i its lower-left
      vertex: triangles (a0, c0, b0) and (b0, c0, d0). */
  function QuadRec(row: nat): (nat, nat) -> seq<int>
  {
    (j: nat, i: nat) =>
      var a0 := j * row + i;
      var b0 := a0 + 1;
      var c0 := a0 + row;
      var d0 := c0 + 1;
      [a0, c0, b0, b0, c0, d0]
  }

  /** The index buffer: Nv rows of Nu quads, in row order. */
  function Indices(p: Params): seq<int>
    requires Resolved(p)
  {
    Grid(p.nv, p.nu, QuadRec(p.nu + 1))
  }

  method LayIndices(p: Params) returns (indices: seq<int>)
    requires Resolved(p)
    ensures indices == Indices(p)
  {
    var row := p.nu + 1;
    indices := [];
    var j := 0;
    while j < p.nv
      invariant 0 <= j <= p.nv
      invariant indices == Gen(j, Rows(p.nu, QuadRec(row)))
    {
      var i := 0;
      while i < p.nu
        invariant 0 <= i <= p.nu
        invariant indices == Gen(j, Rows(p.nu, QuadRec(row))) + Gen(i, RowOf(QuadRec(row), j))
      {
        var a0 := j * row + i;
        var b0 := a0 + 1;
        var c0 := a0 + row;
        var d0 := c0 + 1;
        indices := indices + [a0, c0, b0];
        indices := indices + [b0, c0, d0];
        GridPush(p.nu, QuadRec(row), j, i);
        i := i + 1;
      }
      GridRowDone(p.nu, QuadRec(row), j);
      j := j + 1;
    }
  }

  // ---------------------------------------------------------------------
  // Tangent accumulation (lines 104-138)

  /** Buffers the accumulation can read: v vertices, whole triangles, and
      every index naming one of the v vertices. */
  predicate Readable(positions: seq<real>, uvs: seq<real>, indices: seq<int>, v: nat)
  {
    |positions| == 3 * v && |uvs| == 2 * v && |indices| % 3 == 0 && InRange(indices, v)
  }

  /** A texture coordinate pair. */
  datatype Uv = Uv(u: real, v: real)

  /** getUV */
  function UvAt(uvs: seq<real>, k: int): Uv
    requires 0 <= k && 2 * k + 1 < |uvs|
  {
    Uv(uvs[2 * k], uvs[2 * k + 1])
  }

  /** Lines 129-133: the tangent from the edges e1, e2 and the uv deltas,
      or None when the uv determinant is below 1e-10 in magnitude. */
  function UvTangent(e1: Vec3, e2: Vec3, du1: real, dv1: real, du2: real, dv2: real): Option<Vec3>
  {
    var denom := du1 * dv2 - dv1 * du2;
    if Abs(denom) < 1e-10 then None
    else
      var inv := 1.0 / denom;
      Some(Scale(Sub(Scale(e1, dv2), Scale(e2, dv1)), inv))
  }

  /** Lines 121-133 for a triangle with corners p0, p1, p2 and uvs w0, w1, w2. */
  function TriangleTangent(p0: Vec3, p1: Vec3, p2: Vec3, w0: Uv, w1: Uv, w2: Uv): Option<Vec3>
  {
    UvTangent(Sub(p1, p0), Sub(p2, p0), w1.u - w0.u, w1.v - w0.v, w2.u - w0.u, w2.v - w0.v)
  }

  /** The tangent of triangle number t of the index buffer. */
  function TangentOf(positions: seq<real>, uvs: seq<real>, indices: seq<int>, v: nat, t: nat): Option<Vec3>
    requires Readable(positions, uvs, indices, v) && 3 * t + 2 < |indices|
  {
    var i0, i1, i2 := indices[3 * t], indices[3 * t + 1], indices[3 * t + 2];
    TriangleTangent(PosAt(positions, i0), PosAt(positions, i1), PosAt(positions, i2),
                    UvAt(uvs, i0), UvAt(uvs, i1), UvAt(uvs, i2))
  }

  /** tanAcc[k] := tanAcc[k] + t. */
  function AddAt(acc: seq<Vec3>, k: int, t: Vec3): (r: seq<Vec3>)
    requires 0 <= k < |acc|
    ensures |r| == |acc| && r[k] == Add(acc[k], t)
    ensures forall q :: 0 <= q < |acc| && q != k ==> r[q] == acc[q]
  {
    acc[k := Add(acc[k], t)]
  }

  /** tanAcc after the first n triangles, given the tangent tt(t) of each
      triangle t (None for a skipped one): a triangle's tangent is added to
      its three vertices, in the order i0, i1, i2. */
  function SumTangents(tt: nat -> Option<Vec3>, indices: seq<int>, v: nat, n: nat): (acc: seq<Vec3>)
    requires InRange(indices, v) && 3 * n <= |indices|
    ensures |acc| == v
  {
    if n == 0 then seq(v, _ => Zero)
    else
      var prev := SumTangents(tt, indices, v, n - 1);
      var t := 3 * (n - 1);
      match tt(n - 1)
      case None => prev
      case Some(tan) => AddAt(AddAt(AddAt(prev, indices[t], tan), indices[t + 1], tan), indices[t + 2], tan)
  }

  /** The tangent of every triangle of the buffers. */
  function TangentTable(positions: seq<real>, uvs: seq<real>, indices: seq<int>, v: nat): nat -> Option<Vec3>
    requires Readable(positions, uvs, indices, v)
  {
    (t: nat) => if 3 * t + 2 < |indices| then TangentOf(positions, uvs, indices, v, t) else None
  }

  /** tanAcc after the whole accumulation loop. */
  function TangentSums(positions: seq<real>, uvs: seq<real>, indices: seq<int>, v: nat): seq<Vec3>
    requires Readable(positions, uvs, indices, v)
  {
    SumTangents(TangentTable(positions, uvs, indices, v), indices, v, |indices| / 3)
  }

  /** tt gives the tangent of every triangle of the buffers. */
  ghost predicate ListsTangents(tt: nat -> Option<Vec3>, positions: seq<real>, uvs: seq<real>, indices: seq<int>, v: nat)
  {
    && Readable(positions, uvs, indices, v)
    && forall t: nat {:trigger TangentOf(positions, uvs, indices, v, t)} ::
         3 * t + 2 < |indices| ==> tt(t) == TangentOf(positions, uvs, indices, v, t)
  }

  /** Lines 104 and 115-138, with tanAcc an array of v vectors. */
  method AccumulateTangents(positions: seq<real>, uvs: seq<real>, indices: seq<int>, v: nat) returns (acc: seq<Vec3>)
    requires Readable(positions, uvs, indices, v)
    ensures acc == TangentSums(positions, uvs, indices, v)
  {
    acc := Accumulate(positions, uvs, indices, v, TangentTable(positions, uvs, indices, v));
  }

  method Accumulate(positions: seq<real>, uvs: seq<real>, indices: seq<int>, v: nat, ghost tt: nat -> Option<Vec3>)
    returns (acc: seq<Vec3>)
    requires ListsTangents(tt, positions, uvs, indices, v)
    ensures acc == SumTangents(tt, indices, v, |indices| / 3)
  {
    var tanAcc := new Vec3[v](_ => Zero);
    assert tanAcc[..] == SumTangents(tt, indices, v, 0);
    var t := 0;
    while t < |indices|
      invariant 0 <= t <= |indices| && t % 3 == 0
      invariant tanAcc[..] == SumTangents(tt, indices, v, t / 3)
    {
      var i0, i1, i2 := indices[t], indices[t + 1], indices[t + 2];
      var tangent := ComputeTangent(positions, uvs, indices, v, tt, t);
      assert t / 3 + 1 == (t + 3) / 3 && 3 * (t / 3) == t;
      if tangent.Some? {
        AddToCorners(tanAcc, i0, i1, i2, tangent.value);
      }
      t := t + 3;
    }
    acc := tanAcc[..];
  }

  /** Lines 121-133: the edges, the uv deltas, and the tangent unless the
      uv determinant is too small. */
  method TangentOfCorners(p0: Vec3, p1: Vec3, p2: Vec3, w0: Uv, w1: Uv, w2: Uv) returns (tangent: Option<Vec3>)
    ensures tangent == TriangleTangent(p0, p1, p2, w0, w1, w2)
  {
    var e1 := Sub(p1, p0);
    var e2 := Sub(p2, p0);
    var du1 := w1.u - w0.u;
    var dv1 := w1.v - w0.v;
    var du2 := w2.u - w0.u;
    var dv2 := w2.v - w0.v;
    var denom := du1 * dv2 - dv1 * du2;
    if Abs(denom) < 1e-10 {
      tangent := None;
    } else {
      var inv := 1.0 / denom;
      tangent := Some(Scale(Sub(Scale(e1, dv2), Scale(e2, dv1)), inv));
    }
    assert tangent == UvTangent(e1, e2, du1, dv1, du2, dv2);
  }

  /** Lines 135-137: the triangle's tangent added to its three vertices. */
  method AddToCorners(tanAcc: array<Vec3>, i0: int, i1: int, i2: int, tan: Vec3)
    requires 0 <= i0 < tanAcc.Length && 0 <= i1 < tanAcc.Length && 0 <= i2 < tanAcc.Length
    modifies tanAcc
    ensures tanAcc[..] == AddAt(AddAt(AddAt(old(tanAcc[..]), i0, tan), i1, tan), i2, tan)
  {
    tanAcc[i0] := Add(tanAcc[i0], tan);
    tanAcc[i1] := Add(tanAcc[i1], tan);
    tanAcc[i2] := Add(tanAcc[i2], tan);
  }

  /** The body of the accumulation loop up to the `continue`, lines 116-133,
      for the triangle at offset t. */
  method ComputeTangent(positions: seq<real>, uvs: seq<real>, indices: seq<int>, v: nat,
                        ghost tt: nat -> Option<Vec3>, t: nat) returns (tangent: Option<Vec3>)
    requires ListsTangents(tt, positions, uvs, indices, v) && t % 3 == 0 && t < |indices|
    ensures tangent == tt(t / 3)
  {
    var i0, i1, i2 := indices[t], indices[t + 1], indices[t + 2];
    var p0, p1, p2 := PosAt(positions, i0), PosAt(positions, i1), PosAt(positions, i2);
    var w0, w1, w2 := UvAt(uvs, i0), UvAt(uvs, i1), UvAt(uvs, i2);
    tangent := TangentOfCorners(p0, p1, p2, w0, w1, w2);
    ghost var k := t / 3;
    assert 3 * k == t && 3 * k + 2 < |indices|;
    assert TangentOf(positions, uvs, indices, v, k) == TriangleTangent(p0, p1, p2, w0, w1, w2);
  }

  // ---------------------------------------------------------------------
  // Tangent orthonormalisation (lines 140-159)

  /** Lines 141-154 for one vertex with unit normal n and accumulated
      tangent acc: Gram-Schmidt against n, normalised; when that leaves a
      tiny or non-finite length, cross(up, n) for an up axis away from n,
      divided by its length (or by 1 when that is 0). */
  function FinalTangent(m: Metric, n: Vec3, acc: Vec3): Vec3
  {
    var t := Sub(acc, Scale(n, Dot(n, acc)));
    var tl := m.hypot(t);
    if Tiny(m, tl, 1e-8) then FallbackTangent(m, n) else DivideBy(t, tl)
  }

  /** Lines 148-153: cross(up, n) for the axis up = (0, 1, 0) unless n is
      almost vertical, then (1, 0, 0); divided by its length, or by 1 when
      that is 0. */
  function FallbackTangent(m: Metric, n: Vec3): Vec3
  {
    var up := if Abs(n.y) < 0.999 then Vec3(0.0, 1.0, 0.0) else Vec3(1.0, 0.0, 0.0);
    var f := Cross(up, n);
    var fl := m.hypot(f);
    DivideBy(f, if fl == 0.0 then 1.0 else fl)
  }

  /** The final tangent of every vertex, from the normals buffer and tanAcc. */
  function FinalTable(m: Metric, normals: seq<real>, acc: seq<Vec3>): nat -> Vec3
  {
    (k: nat) => if k < |acc| && 3 * k + 2 < |normals| then FinalTangent(m, PosAt(normals, k), acc[k]) else Zero
  }

  /** ft gives the final tangent of each of the |acc| vertices. */
  ghost predicate ListsFinal(ft: nat -> Vec3, m: Metric, normals: seq<real>, acc: seq<Vec3>)
  {
    && |normals| == 3 * |acc|
    && forall k: nat {:trigger FinalTangent(m, PosAt(normals, k), acc[k])} ::
         k < |acc| ==> ft(k) == FinalTangent(m, PosAt(normals, k), acc[k])
  }

  /** Lines 140-159: every vertex's placeholder tangent overwritten by its
      final tangent. */
  method OrthonormalizeTangents(m: Metric, normals: seq<real>, acc: seq<Vec3>, tangents: seq<real>)
    returns (out: seq<real>)
    requires |normals| == 3 * |acc| && |tangents| == 3 * |acc|
    ensures out == Flatten(|acc|, FinalTable(m, normals, acc))
  {
    out := Overwrite(m, normals, acc, tangents, FinalTable(m, normals, acc));
  }

  method Overwrite(m: Metric, normals: seq<real>, acc: seq<Vec3>, tangents: seq<real>, ghost ft: nat -> Vec3)
    returns (out: seq<real>)
    requires ListsFinal(ft, m, normals, acc) && |tangents| == 3 * |acc|
    ensures out == Flatten(|acc|, ft)
  {
    ghost var rec := Triples(ft);
    out := tangents;
    var i := 0;
    while i < |acc|
      invariant 0 <= i <= |acc| && |out| == 3 * |acc|
      invariant out[..3 * i] == Gen(i, rec)
    {
      var t := ComputeFinal(m, normals, acc, ft, i);
      var prefix := out[..3 * i];
      out := out[3 * i := t.x][3 * i + 1 := t.y][3 * i + 2 := t.z];
      assert out[..3 * (i + 1)] == prefix + Triple(t);
      i := i + 1;
    }
    assert out == out[..3 * |acc|];
  }

  /** The body of the orthonormalisation loop, lines 141-154. */
  method ComputeFinal(m: Metric, normals: seq<real>, acc: seq<Vec3>, ghost ft: nat -> Vec3, i: nat)
    returns (tangent: Vec3)
    requires ListsFinal(ft, m, normals, acc) && i < |acc|
    ensures tangent == ft(i)
  {
    var n := Vec3(normals[i * 3], normals[i * 3 + 1], normals[i * 3 + 2]);
    var t := acc[i];
    t := Sub(t, Scale(n, Dot(n, t)));
    var tl := m.hypot(t);
    if !m.isFinite(tl) || tl < 1e-8 {
      var up := if Abs(n.y) < 0.999 then Vec3(0.0, 1.0, 0.0) else Vec3(1.0, 0.0, 0.0);
      t := Cross(up, n);
      tl := m.hypot(t);
      if tl == 0.0 {
        tl := 1.0;
      }
    }
    tangent := Vec3(t.x / tl, t.y / tl, t.z / tl);
    assert n == PosAt(normals, i);
    assert tangent == FinalTangent(m, PosAt(normals, i), acc[i]);
  }

  // ---------------------------------------------------------------------
  // The whole generator

  /** The record buildAstroidalTorus returns. */
  datatype Mesh = Mesh(positions: seq<real>, normals: seq<real>, uvs: seq<real>,
                       tangents: seq<real>, indices: seq<int>, params: Params)

  /** (Nu+1)(Nv+1) vertices: the seam column and row are duplicated. */
  function VertexCount(p: Params): nat
    requires Resolved(p)
  {
    (p.nu + 1) * (p.nv + 1)
  }

  /** What buildAstroidalTorus returns for the resolved parameters p. */
  function ClampedMesh(xyz: Evaluator, m: Metric, p: Params): Mesh
    requires Resolved(p)
  {
    MeshReadable(xyz, m, p);
    Assemble(m, VertexBuffers(xyz, m, p), Indices(p), p)
  }

  /** The record of lines 161-168, once the vertex and index buffers are
      laid out: the tangents are accumulated and orthonormalised. */
  function Assemble(m: Metric, b: Buffers, indices: seq<int>, p: Params): Mesh
    requires Resolved(p)
    requires Readable(b.positions, b.uvs, indices, VertexCount(p)) && |b.normals| == 3 * VertexCount(p)
  {
    var acc := TangentSums(b.positions, b.uvs, indices, VertexCount(p));
    Mesh(b.positions, b.normals, b.uvs, Flatten(VertexCount(p), FinalTable(m, b.normals, acc)), indices, p)
  }

  /** buildAstroidalTorus(arg1, arg2) (lines 25-169). */
  method BuildAstroidalTorus(arg1: Arg, arg2: Option<real>, xyz: Evaluator, m: Metric) returns (mesh: Mesh)
    ensures mesh == ClampedMesh(xyz, m, ResolveArgs(arg1, arg2))
  {
    var p := ResolveArgs(arg1, arg2);
    mesh := Tessellate(xyz, m, p);
  }

  /** Lines 56-168, once the parameters are resolved. */
  method Tessellate(xyz: Evaluator, m: Metric, p: Params) returns (mesh: Mesh)
    requires Resolved(p)
    ensures mesh == ClampedMesh(xyz, m, p)
  {
    var b := LayVertices(xyz, m, p);
    var indices := LayIndices(p);
    MeshReadable(xyz, m, p);
    mesh := AssembleMesh(m, b, indices, p);
  }

  /** Lines 104-168. */
  method AssembleMesh(m: Metric, b: Buffers, indices: seq<int>, p: Params) returns (mesh: Mesh)
    requires Resolved(p)
    requires Readable(b.positions, b.uvs, indices, VertexCount(p))
    requires |b.normals| == 3 * VertexCount(p) && |b.tangents| == 3 * VertexCount(p)
    ensures mesh == Assemble(m, b, indices, p)
  {
    var acc := AccumulateTangents(b.positions, b.uvs, indices, (p.nu + 1) * (p.nv + 1));
    var tangents := OrthonormalizeTangents(m, b.normals, acc, b.tangents);
    mesh := Mesh(b.positions, b.normals, b.uvs, tangents, indices, p);
  }

  // ---------------------------------------------------------------------
  // Shape of the buffers

  /** Row j after i vertices holds 3i, 3i, 2i and 3i numbers. */
  lemma {:induction false} RowPrefixLength(vt: (int, int) -> Vertex, j: int, i: nat)
    ensures var b := RowPrefix(vt, j, i);
      |b.positions| == 3 * i && |b.normals| == 3 * i && |b.uvs| == 2 * i && |b.tangents| == 3 * i
  {
    if i > 0 {
      RowPrefixLength(vt, j, i - 1);
    }
  }

  /** j rows of `row` vertices hold 3, 3, 2 and 3 numbers per vertex. */
  lemma {:induction false} LaidRowsLength(vt: (int, int) -> Vertex, row: nat, j: nat)
    ensures var b := LaidRows(vt, row, j);
      |b.positions| == 3 * (row * j) && |b.normals| == 3 * (row * j)
      && |b.uvs| == 2 * (row * j) && |b.tangents| == 3 * (row * j)
  {
    if j > 0 {
      LaidRowsLength(vt, row, j - 1);
      RowPrefixLength(vt, j - 1, row);
      assert row * j == row * (j - 1) + row;
    }
  }

  /** The buffers the accumulation reads are well formed. */
  lemma MeshReadable(xyz: Evaluator, m: Metric, p: Params)
    requires Resolved(p)
    ensures var b := VertexBuffers(xyz, m, p);
      && Readable(b.positions, b.uvs, Indices(p), VertexCount(p))
      && |b.normals| == 3 * VertexCount(p) && |b.tangents| == 3 * VertexCount(p)
  {
    VertexBuffersLength(xyz, m, p);
    IndicesInRange(p);
  }

  /** Three positions, normals and tangents and two uvs per vertex. */
  lemma VertexBuffersLength(xyz: Evaluator, m: Metric, p: Params)
    requires Resolved(p)
    ensures var b := VertexBuffers(xyz, m, p);
      && |b.positions| == 3 * VertexCount(p) && |b.normals| == 3 * VertexCount(p)
      && |b.uvs| == 2 * VertexCount(p) && |b.tangents| == 3 * VertexCount(p)
  {
    LaidRowsLength(VertexTable(xyz, m, p), p.nu + 1, p.nv + 1);
  }

  /** Indices(p) holds 6 Nu Nv indices, each naming one of the vertices. */
  lemma IndicesInRange(p: Params)
    requires Resolved(p)
    ensures |Indices(p)| == 6 * (p.nu * p.nv) && |Indices(p)| % 3 == 0
    ensures InRange(Indices(p), VertexCount(p))
  {
    var row := p.nu + 1;
    forall j: nat, i: nat | j < p.nv && i < p.nu
      ensures |QuadRec(row)(j, i)| == 6
      ensures forall c :: 0 <= c < 6 ==> 0 <= QuadRec(row)(j, i)[c] < VertexCount(p)
    {
      QuadBounds(p.nu, p.nv, j, i);
    }
    assert GridUniform(p.nv, p.nu, QuadRec(row), 6);
    GridLength(p.nv, p.nu, QuadRec(row), 6);
    assert 6 * (p.nv * p.nu) == 6 * (p.nu * p.nv);
    GridBounded(p.nv, p.nu, QuadRec(row), 0, VertexCount(p));
    ThreeDivides(2 * (p.nu * p.nv));
  }

  lemma ThreeDivides(k: int)
    ensures (3 * k) % 3 == 0
  {
  }

  /** The corners of quad (i, j) lie between 0 and the last vertex. */
  lemma QuadBounds(nu: nat, nv: nat, j: nat, i: nat)
    requires j < nv && i < nu
    ensures 0 <= j * (nu + 1) + i
    ensures j * (nu + 1) + i + (nu + 1) + 1 < (nu + 1) * (nv + 1)
  {
    MulMono(nu + 1, j + 1, nv);
    assert (j + 1) * (nu + 1) == j * (nu + 1) + (nu + 1);
    assert (nu + 1) * (nv + 1) == nv * (nu + 1) + (nu + 1);
  }
}
