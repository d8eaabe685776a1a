/** The iso-curve sampler of PA1/src/astroidal_torus.js: instead of a mesh
    it returns Nu polylines of constant u (the u-curves) and Nv polylines of
    constant v (the v-curves), each a flat list of x, y, z triples. */
module IsoCurves {
  import opened VecMath
  import opened Surface
  import opened Layout

  datatype Curves = Curves(uCurves: seq<seq<real>>, vCurves: seq<seq<real>>, params: Params)

  /** u_i = uMin + (uMax - uMin) * (i / (Nu - 1)), both ends included. */
  function USample(nu: int, i: int): real
    requires nu != 1
  {
    Lerp(UMin, UMax, i as real / (nu - 1) as real)
  }

  /** v_j = vMin + (vMax - vMin) * (j / (Nv - 1)), both ends included. */
  function VSample(nv: int, j: int): real
    requires nv != 1
  {
    Lerp(VMin, VMax, j as real / (nv - 1) as real)
  }

  /** Sampling needs Nu - 1 and Nv - 1 to be non-zero. */
  predicate Sampleable(p: Params)
  {
    p.nu != 1 && p.nv != 1
  }

  /** The three numbers `...XYZ(u_i, v_j)` pushes. */
  function GridPoint(xyz: Evaluator, p: Params, i: int, j: int): seq<real>
    requires Sampleable(p)
  {
    var q := xyz(p.ShapeOf(), USample(p.nu, i), VSample(p.nv, j));
    [q.x, q.y, q.z]
  }

  /** The points of u-curve i, indexed by j. */
  function AlongV(xyz: Evaluator, p: Params, i: int): nat -> seq<real>
    requires Sampleable(p)
  {
    j => GridPoint(xyz, p, i, j)
  }

  /** The points of v-curve j, indexed by i. */
  function AlongU(xyz: Evaluator, p: Params, j: int): nat -> seq<real>
    requires Sampleable(p)
  {
    i => GridPoint(xyz, p, i, j)
  }

  function UCurve(xyz: Evaluator, p: Params, i: int): seq<real>
    requires Sampleable(p)
  {
    Gen(Count(p.nv), AlongV(xyz, p, i))
  }

  function VCurve(xyz: Evaluator, p: Params, j: int): seq<real>
    requires Sampleable(p)
  {
    Gen(Count(p.nu), AlongU(xyz, p, j))
  }

  /** What PA1's buildAstroidalTorus returns for the resolved parameters p. */
  function SampledCurves(xyz: Evaluator, p: Params): Curves
    requires Sampleable(p)
  {
    Curves(seq(Count(p.nu), i => UCurve(xyz, p, i)),
           seq(Count(p.nv), j => VCurve(xyz, p, j)),
           p)
  }

  /** buildAstroidalTorus (PA1/src/astroidal_torus.js:1-37): the u-curve
      loops, then the v-curve loops, then the record with `params`. */
  method BuildAstroidalTorus(arg: ParamsArg, xyz: Evaluator) returns (c: Curves)
    requires Sampleable(ResolveArg(arg))
    ensures c == SampledCurves(xyz, ResolveArg(arg))
  {
    var p := ResolveArg(arg);
    var uCurves := SampleUCurves(xyz, p);
    var vCurves := SampleVCurves(xyz, p);
    c := Curves(uCurves, vCurves, p);
  }

  /** Lines 14-23: for each i, a curve of the points (u_i, v_j) pushed in j order. */
  method SampleUCurves(xyz: Evaluator, p: Params) returns (uCurves: seq<seq<real>>)
    requires Sampleable(p)
    ensures uCurves == SampledCurves(xyz, p).uCurves
  {
    var shape := p.ShapeOf();
    uCurves := [];
    var i := 0;
    while i < p.nu
      invariant 0 <= i <= Count(p.nu)
      invariant |uCurves| == i
      invariant forall k :: 0 <= k < i ==> uCurves[k] == UCurve(xyz, p, k)
    {
      var u := USample(p.nu, i);
      var curve: seq<real> := [];
      var j := 0;
      while j < p.nv
        invariant 0 <= j <= Count(p.nv)
        invariant curve == Gen(j, AlongV(xyz, p, i))
      {
        var v := VSample(p.nv, j);
        var q := xyz(shape, u, v);
        curve := curve + [q.x, q.y, q.z];
        j := j + 1;
      }
      assert j == Count(p.nv);
      assert curve == UCurve(xyz, p, i);
      uCurves := uCurves + [curve];
      i := i + 1;
    }
  }

  /** Lines 25-34: for each j, a curve of the points (u_i, v_j) pushed in i order. */
  method SampleVCurves(xyz: Evaluator, p: Params) returns (vCurves: seq<seq<real>>)
    requires Sampleable(p)
    ensures vCurves == SampledCurves(xyz, p).vCurves
  {
    var shape := p.ShapeOf();
    vCurves := [];
    var j := 0;
    while j < p.nv
      invariant 0 <= j <= Count(p.nv)
      invariant |vCurves| == j
      invariant forall k :: 0 <= k < j ==> vCurves[k] == VCurve(xyz, p, k)
    {
      var v := VSample(p.nv, j);
      var curve: seq<real> := [];
      var i := 0;
      while i < p.nu
        invariant 0 <= i <= Count(p.nu)
        invariant curve == Gen(i, AlongU(xyz, p, j))
      {
        var u := USample(p.nu, i);
        var q := xyz(shape, u, v);
        curve := curve + [q.x, q.y, q.z];
        i := i + 1;
      }
      assert i == Count(p.nu);
      assert curve == VCurve(xyz, p, j);
      vCurves := vCurves + [curve];
      j := j + 1;
    }
  }

  /** Nu u-curves of 3*Nv numbers each and Nv v-curves of 3*Nu numbers each
      (a negative count gives no curves, as the loops do not run). */
  lemma CurveShape(xyz: Evaluator, p: Params)
    requires Sampleable(p)
    ensures var c := SampledCurves(xyz, p);
      && |c.uCurves| == Count(p.nu) && |c.vCurves| == Count(p.nv)
      && (forall i :: 0 <= i < |c.uCurves| ==> |c.uCurves[i]| == 3 * Count(p.nv))
      && (forall j :: 0 <= j < |c.vCurves| ==> |c.vCurves[j]| == 3 * Count(p.nu))
  {
    var c := SampledCurves(xyz, p);
    forall i | 0 <= i < |c.uCurves|
      ensures |c.uCurves[i]| == 3 * Count(p.nv)
    {
      GenLength(Count(p.nv), AlongV(xyz, p, i), 3);
    }
    forall j | 0 <= j < |c.vCurves|
      ensures |c.vCurves[j]| == 3 * Count(p.nu)
    {
      GenLength(Count(p.nu), AlongU(xyz, p, j), 3);
    }
  }

  /** Sampling includes both ends: index 0 is at uMin (vMin) and index N-1 at uMax (vMax). */
  lemma EndpointsIncluded(nu: int, nv: int)
    requires nu >= 2 && nv >= 2
    ensures USample(nu, 0) == UMin && USample(nu, nu - 1) == UMax
    ensures VSample(nv, 0) == VMin && VSample(nv, nv - 1) == VMax
  {
  }

  /** Point j of u-curve i and point i of v-curve j are the same sample
      XYZ(u_i, v_j): the two families are one grid read in transposed order. */
  lemma {:induction false} Transposed(xyz: Evaluator, p: Params, i: nat, j: nat, k: nat)
    requires Sampleable(p) && i < Count(p.nu) && j < Count(p.nv) && k < 3
    ensures var c := SampledCurves(xyz, p);
      && 3 * j + k < |c.uCurves[i]| && 3 * i + k < |c.vCurves[j]|
      && c.uCurves[i][3 * j + k] == c.vCurves[j][3 * i + k]
      && c.uCurves[i][3 * j + k] == GridPoint(xyz, p, i, j)[k]
  {
    GenAt(Count(p.nv), AlongV(xyz, p, i), 3, j, k, 3 * j + k);
    GenAt(Count(p.nu), AlongU(xyz, p, j), 3, i, k, 3 * i + k);
  }
}
