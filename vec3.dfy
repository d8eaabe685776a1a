/** The three-component vector helpers of the clamped-grid generator
    (CGW/src/astroidal_torus.js:1-17), over exact reals.

    `Math.hypot` and `isFinite` are floating-point primitives; they enter
    the model as the two fields of a `Metric` so that only the branches that
    depend on them are modelled, not their values. */
module VecMath {

  datatype Vec3 = Vec3(x: real, y: real, z: real)

  const Zero := Vec3(0.0, 0.0, 0.0)

  /** The floating-point primitives the generators branch on. */
  datatype Metric = Metric(hypot: Vec3 -> real, isFinite: real -> bool)

  /** A metric whose length of the zero vector is 0, as Math.hypot(0, 0, 0) is. */
  predicate ZeroHasLengthZero(m: Metric)
  {
    m.hypot(Zero) == 0.0
  }

  /** Math.abs on exact reals. */
  function Abs(x: real): real
  {
    if x < 0.0 then -x else x
  }

  function Sub(a: Vec3, b: Vec3): (r: Vec3)
    ensures Add(r, b) == a
  {
    Vec3(a.x - b.x, a.y - b.y, a.z - b.z)
  }

  function Add(a: Vec3, b: Vec3): Vec3
  {
    Vec3(a.x + b.x, a.y + b.y, a.z + b.z)
  }

  /** mul3: every component multiplied by s. */
  function Scale(a: Vec3, s: real): (r: Vec3)
    ensures s == 1.0 ==> r == a
    ensures s == 0.0 ==> r == Zero
  {
    Vec3(a.x * s, a.y * s, a.z * s)
  }

  function Dot(a: Vec3, b: Vec3): real
  {
    a.x * b.x + a.y * b.y + a.z * b.z
  }

  function Cross(a: Vec3, b: Vec3): Vec3
  {
    Vec3(a.y * b.z - a.z * b.y,
         a.z * b.x - a.x * b.z,
         a.x * b.y - a.y * b.x)
  }

  /** The cross product is orthogonal to both of its arguments. */
  lemma CrossOrthogonal(a: Vec3, b: Vec3)
    ensures Dot(Cross(a, b), a) == 0.0
    ensures Dot(Cross(a, b), b) == 0.0
  {
  }

  lemma DotScale(a: Vec3, b: Vec3, s: real)
    ensures Dot(a, Scale(b, s)) == s * Dot(a, b)
  {
  }

  lemma DotSub(a: Vec3, b: Vec3, c: Vec3)
    ensures Dot(a, Sub(b, c)) == Dot(a, b) - Dot(a, c)
  {
  }

  /** The Gram-Schmidt step t - n*dot(n, t) of line 144 is orthogonal to a
      unit-length n. */
  lemma GramSchmidtOrthogonal(n: Vec3, t: Vec3)
    requires Dot(n, n) == 1.0
    ensures Dot(n, Sub(t, Scale(n, Dot(n, t)))) == 0.0
  {
    DotSub(n, t, Scale(n, Dot(n, t)));
    DotScale(n, n, Dot(n, t));
  }

  /** The guard of normalize3: a length that is not finite or below 1e-12. */
  predicate Tiny(m: Metric, l: real, eps: real)
  {
    !m.isFinite(l) || l < eps
  }

  /** Each component divided by d. */
  function DivideBy(v: Vec3, d: real): (r: Vec3)
    requires d != 0.0
    ensures Scale(r, d) == v
  {
    Vec3(v.x / d, v.y / d, v.z / d)
  }

  /** normalize3 (lines 1-5): the zero vector when the length is tiny or not
      finite, otherwise v divided by its length; never a division by zero. */
  function Normalize(m: Metric, v: Vec3): (r: Vec3)
    ensures Tiny(m, m.hypot(v), 1e-12) ==> r == Zero
    ensures !Tiny(m, m.hypot(v), 1e-12) ==> m.hypot(v) > 0.0 && Scale(r, m.hypot(v)) == v
  {
    var l := m.hypot(v);
    if Tiny(m, l, 1e-12) then Zero else DivideBy(v, l)
  }

  /** Dividing by a non-zero scalar keeps orthogonality. */
  lemma DivideKeepsOrthogonal(n: Vec3, v: Vec3, d: real)
    requires d != 0.0 && Dot(n, v) == 0.0
    ensures Dot(n, DivideBy(v, d)) == 0.0
  {
    DotScale(n, v, 1.0 / d);
    assert DivideBy(v, d) == Scale(v, 1.0 / d);
  }

  /** A metric whose hypot is the Euclidean length: non-negative, with
      square Dot(v, v), and 0 for the zero vector. (No floating-point
      Math.hypot is exactly this; the lemmas that assume one say what the
      generators would give under exact arithmetic.) */
  ghost predicate Euclidean(m: Metric)
  {
    && ZeroHasLengthZero(m)
    && forall v :: m.hypot(v) >= 0.0 && m.hypot(v) * m.hypot(v) == Dot(v, v)
  }

  /** Dividing by a Euclidean length gives a unit vector. */
  lemma UnitAfterDivide(v: Vec3, l: real)
    requires l > 0.0 && l * l == Dot(v, v)
    ensures Dot(DivideBy(v, l), DivideBy(v, l)) == 1.0
  {
    var s := 1.0 / l;
    assert DivideBy(v, l) == Scale(v, s);
    assert Dot(Scale(v, s), Scale(v, s)) == (s * s) * Dot(v, v);
    assert (s * s) * (l * l) == (s * l) * (s * l);
  }

  /** A non-negative root of 1 is 1. */
  lemma UnitRoot(h: real)
    requires h >= 0.0
    ensures h * h == 1.0 ==> h == 1.0
  {
    if h > 1.0 {
      PositiveProduct(h, h - 1.0);
      assert h * h > h;
    } else if 0.0 < h < 1.0 {
      PositiveProduct(h, 1.0 - h);
      assert h * h < h;
    }
  }

  lemma PositiveProduct(x: real, y: real)
    requires x > 0.0 && y > 0.0
    ensures x * y > 0.0
  {
  }
}
