/** What the three generators share: the shape parameters, the parameter
    record they return, and the surface evaluator.

    The evaluator `XYZ(u, v)` (PA1/src/astroidal_torus.js:6-12,
    PA2/src/astroidal_torus.js:6-15, and lines 46-53 of CGW's `surface`) is
    trigonometry over floating point; it is a parameter of every generator
    here, so that only how and where it is sampled is modelled. */
module Surface {
  import opened VecMath

  datatype Option<T> = None | Some(value: T) {
    function GetOr(default: T): T
    {
      match this
      case Some(v) => v
      case None => default
    }
  }

  /** The cross-section scale a, the major radius r and the profile rotation theta. */
  datatype Shape = Shape(a: real, r: real, theta: real)

  /** XYZ(u, v) for the given shape, u in radians around the tube and v around the axis. */
  type Evaluator = (Shape, real, real) -> Vec3

  /** The double closest to pi, which is what Math.PI holds, written out exactly. */
  const MathPI: real := 3.141592653589793115997963468544185161590576171875

  /** The `params` record every generator returns. */
  datatype Params = Params(a: real, r: real, theta: real, nu: int, nv: int) {
    function ShapeOf(): Shape
    {
      Shape(a, r, theta)
    }
  }

  /** An argument object `{a, r, theta, Nu, Nv}`; None stands for an absent
      (undefined) property, and a missing argument is the empty object. */
  datatype ParamsArg = ParamsArg(a: Option<real>, r: Option<real>, theta: Option<real>,
                                 nu: Option<int>, nv: Option<int>)

  /** The destructuring `{ a=1, r=2, theta=0, Nu=64, Nv=128 } = {}` of
      PA1/PA2: a present property is taken as it is, an absent one defaults. */
  function ResolveArg(arg: ParamsArg): (p: Params)
    ensures arg.a.Some? ==> p.a == arg.a.value
    ensures arg.r.Some? ==> p.r == arg.r.value
    ensures arg.theta.Some? ==> p.theta == arg.theta.value
    ensures arg.nu.Some? ==> p.nu == arg.nu.value
    ensures arg.nv.Some? ==> p.nv == arg.nv.value
    ensures arg.a.None? ==> p.a == 1.0
    ensures arg.r.None? ==> p.r == 2.0
    ensures arg.theta.None? ==> p.theta == 0.0
    ensures arg.nu.None? ==> p.nu == 64
    ensures arg.nv.None? ==> p.nv == 128
  {
    Params(arg.a.GetOr(1.0), arg.r.GetOr(2.0), arg.theta.GetOr(0.0),
           arg.nu.GetOr(64), arg.nv.GetOr(128))
  }

  /** `lo + (hi - lo) * t`: the parameter at fraction t of [lo, hi]. */
  function Lerp(lo: real, hi: real, t: real): (r: real)
    ensures t == 0.0 ==> r == lo
    ensures t == 1.0 ==> r == hi
  {
    lo + (hi - lo) * t
  }

  /** A fraction in [0, 1] gives a parameter inside [lo, hi]. */
  lemma LerpWithin(lo: real, hi: real, t: real)
    requires lo <= hi && 0.0 <= t <= 1.0
    ensures lo <= Lerp(lo, hi, t) <= hi
  {
    assert (hi - lo) - (hi - lo) * t == (hi - lo) * (1.0 - t);
    ProductNonNegative(hi - lo, t);
    ProductNonNegative(hi - lo, 1.0 - t);
  }

  lemma ProductNonNegative(x: real, y: real)
    requires x >= 0.0 && y >= 0.0
    ensures x * y >= 0.0
  {
  }

  /** The u range [-pi, pi] and v range [0, 2 pi] of the PA variants. */
  const UMin: real := -MathPI
  const UMax: real := MathPI
  const VMin: real := 0.0
  const VMax: real := 2.0 * MathPI
}
