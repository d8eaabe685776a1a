/** The column-major matrix helpers of CGW/src/mat4.js and PA1/src/mat4.js,
    over exact reals.

    A 4x4 matrix is the 16 numbers of a Float32Array with entry (row r,
    column c) at index c*4 + r; a 3x3 matrix likewise has entry (r, c) at
    c*3 + r. The cosine, sine, tangent and reciprocal values the helpers
    compute with Math.cos, Math.sin, Math.tan and `1 / x` are parameters. */
module Mat4 {
  import V = VecMath

  type Mat = m: seq<real> | |m| == 16
    witness [0.0, 0.0, 0.0, 0.0, 0.0, 0.0, 0.0, 0.0, 0.0, 0.0, 0.0, 0.0, 0.0, 0.0, 0.0, 0.0]
  type Mat3 = m: seq<real> | |m| == 9 witness [0.0, 0.0, 0.0, 0.0, 0.0, 0.0, 0.0, 0.0, 0.0]
  type Vec4 = v: seq<real> | |v| == 4 witness [0.0, 0.0, 0.0, 0.0]

  // ---------------------------------------------------------------------
  // identity and multiply

  function Identity(): Mat
  {
    [1.0, 0.0, 0.0, 0.0,
     0.0, 1.0, 0.0, 0.0,
     0.0, 0.0, 1.0, 0.0,
     0.0, 0.0, 0.0, 1.0]
  }

  /** Entry (r, c) of m. */
  function At(m: Mat, r: nat, c: nat): real
    requires r < 4 && c < 4
  {
    m[c * 4 + r]
  }

  /** Entry (r, c) of a*b: row r of a against column c of b. */
  function Entry(a: Mat, b: Mat, c: nat, r: nat): real
    requires c < 4 && r < 4
  {
    a[0 * 4 + r] * b[c * 4 + 0] + a[1 * 4 + r] * b[c * 4 + 1] +
    a[2 * 4 + r] * b[c * 4 + 2] + a[3 * 4 + r] * b[c * 4 + 3]
  }

  /** The matrix product a*b. */
  function Product(a: Mat, b: Mat): Mat
  {
    seq(16, t requires 0 <= t < 16 => Entry(a, b, t / 4, t % 4))
  }

  /** m applied to the column vector v: entry r is row r of m against v. */
  function Transform(m: Mat, v: Vec4): Vec4
  {
    seq(4, r requires 0 <= r < 4 => At(m, r, 0) * v[0] + At(m, r, 1) * v[1] + At(m, r, 2) * v[2] + At(m, r, 3) * v[3])
  }

  /** Lines 10-22: the double loop fills out[c*4 + r] with entry (r, c) of
      a*b, column by column. */
  method Multiply(a: Mat, b: Mat) returns (out: array<real>)
    ensures out.Length == 16 && out[..] == Product(a, b)
  {
    out := new real[16](_ => 0.0);
    for c := 0 to 4
      invariant forall t :: 0 <= t < 4 * c ==> out[t] == Product(a, b)[t]
    {
      for r := 0 to 4
        invariant forall t :: 0 <= t < 4 * c + r ==> out[t] == Product(a, b)[t]
      {
        out[c * 4 + r] :=
          a[0 * 4 + r] * b[c * 4 + 0] +
          a[1 * 4 + r] * b[c * 4 + 1] +
          a[2 * 4 + r] * b[c * 4 + 2] +
          a[3 * 4 + r] * b[c * 4 + 3];
        ProductAt(a, b, c, r);
      }
    }
  }

  /** Index c*4 + r of a*b holds row r of a against column c of b. */
  lemma ProductAt(a: Mat, b: Mat, c: nat, r: nat)
    requires c < 4 && r < 4
    ensures Product(a, b)[c * 4 + r]
         == a[0 * 4 + r] * b[c * 4 + 0] + a[1 * 4 + r] * b[c * 4 + 1]
          + a[2 * 4 + r] * b[c * 4 + 2] + a[3 * 4 + r] * b[c * 4 + 3]
  {
    assert (c * 4 + r) / 4 == c && (c * 4 + r) % 4 == r;
  }

  /** ProductAt, with the entries of row r of a and column c of b named. */
  lemma EntryIs(a: Mat, b: Mat, r: nat, c: nat,
                x0: real, x1: real, x2: real, x3: real, y0: real, y1: real, y2: real, y3: real)
    requires r < 4 && c < 4
    requires At(a, r, 0) == x0 && At(a, r, 1) == x1 && At(a, r, 2) == x2 && At(a, r, 3) == x3
    requires At(b, 0, c) == y0 && At(b, 1, c) == y1 && At(b, 2, c) == y2 && At(b, 3, c) == y3
    ensures At(Product(a, b), r, c) == x0 * y0 + x1 * y1 + x2 * y2 + x3 * y3
  {
    ProductAt(a, b, c, r);
  }

  /** Column j of m*q is m applied to column j of q, here (y0, y1, y2, y3). */
  lemma ProductColumn(m: Mat, q: Mat, j: nat, y0: real, y1: real, y2: real, y3: real)
    requires j < 4
    requires At(q, 0, j) == y0 && At(q, 1, j) == y1 && At(q, 2, j) == y2 && At(q, 3, j) == y3
    ensures forall r :: 0 <= r < 4 ==>
      At(Product(m, q), r, j) == At(m, r, 0) * y0 + At(m, r, 1) * y1 + At(m, r, 2) * y2 + At(m, r, 3) * y3
  {
    forall r | 0 <= r < 4
      ensures At(Product(m, q), r, j) == At(m, r, 0) * y0 + At(m, r, 1) * y1 + At(m, r, 2) * y2 + At(m, r, 3) * y3
    {
      EntryIs(m, q, r, j, At(m, r, 0), At(m, r, 1), At(m, r, 2), At(m, r, 3), y0, y1, y2, y3);
    }
  }

  /** Two matrices with the same entries are equal. */
  lemma SameEntries(x: Mat, y: Mat)
    requires forall r, c :: 0 <= r < 4 && 0 <= c < 4 ==> At(x, r, c) == At(y, r, c)
    ensures x == y
  {
    forall t | 0 <= t < 16
      ensures x[t] == y[t]
    {
      assert At(x, t % 4, t / 4) == At(y, t % 4, t / 4);
    }
  }

  /** identity() is neutral on both sides of multiply. */
  lemma IdentityNeutral(m: Mat)
    ensures Product(Identity(), m) == m
    ensures Product(m, Identity()) == m
  {
    IdentityLeft(m);
    IdentityRight(m);
  }

  lemma IdentityLeft(m: Mat)
    ensures Product(Identity(), m) == m
  {
    var i, p := Identity(), Product(Identity(), m);
    forall r, c | 0 <= r < 4 && 0 <= c < 4
      ensures At(p, r, c) == At(m, r, c)
    {
      var x0, x1, x2, x3 := At(i, r, 0), At(i, r, 1), At(i, r, 2), At(i, r, 3);
      assert x0 == (if r == 0 then 1.0 else 0.0) && x1 == (if r == 1 then 1.0 else 0.0);
      assert x2 == (if r == 2 then 1.0 else 0.0) && x3 == (if r == 3 then 1.0 else 0.0);
      EntryIs(i, m, r, c, x0, x1, x2, x3, At(m, 0, c), At(m, 1, c), At(m, 2, c), At(m, 3, c));
    }
    SameEntries(p, m);
  }

  lemma IdentityRight(m: Mat)
    ensures Product(m, Identity()) == m
  {
    var i, p := Identity(), Product(m, Identity());
    forall r, c | 0 <= r < 4 && 0 <= c < 4
      ensures At(p, r, c) == At(m, r, c)
    {
      var y0, y1, y2, y3 := At(i, 0, c), At(i, 1, c), At(i, 2, c), At(i, 3, c);
      assert y0 == (if c == 0 then 1.0 else 0.0) && y1 == (if c == 1 then 1.0 else 0.0);
      assert y2 == (if c == 2 then 1.0 else 0.0) && y3 == (if c == 3 then 1.0 else 0.0);
      EntryIs(m, i, r, c, At(m, r, 0), At(m, r, 1), At(m, r, 2), At(m, r, 3), y0, y1, y2, y3);
    }
    SameEntries(p, m);
  }

  /** Applying a*b is applying b, then a: so P*MV maps eye coordinates
      through MV and then P. */
  lemma ProductTransform(a: Mat, b: Mat, v: Vec4)
    ensures Transform(Product(a, b), v) == Transform(a, Transform(b, v))
  {
    forall r | 0 <= r < 4
      ensures Transform(Product(a, b), v)[r] == Transform(a, Transform(b, v))[r]
    {
      ProductRow(a, b, v, r);
    }
  }

  /** Row r of (a*b)v and of a(bv). */
  lemma ProductRow(a: Mat, b: Mat, v: Vec4, r: nat)
    requires r < 4
    ensures Transform(Product(a, b), v)[r] == Transform(a, Transform(b, v))[r]
  {
    var p, w := Product(a, b), Transform(b, v);
    var x0, x1, x2, x3 := At(a, r, 0), At(a, r, 1), At(a, r, 2), At(a, r, 3);
    var b00, b01, b02, b03 := At(b, 0, 0), At(b, 0, 1), At(b, 0, 2), At(b, 0, 3);
    var b10, b11, b12, b13 := At(b, 1, 0), At(b, 1, 1), At(b, 1, 2), At(b, 1, 3);
    var b20, b21, b22, b23 := At(b, 2, 0), At(b, 2, 1), At(b, 2, 2), At(b, 2, 3);
    var b30, b31, b32, b33 := At(b, 3, 0), At(b, 3, 1), At(b, 3, 2), At(b, 3, 3);
    var v0, v1, v2, v3 := v[0], v[1], v[2], v[3];
    var p0, p1, p2, p3 := At(p, r, 0), At(p, r, 1), At(p, r, 2), At(p, r, 3);
    var w0, w1, w2, w3 := w[0], w[1], w[2], w[3];
    EntryIs(a, b, r, 0, x0, x1, x2, x3, b00, b10, b20, b30);
    EntryIs(a, b, r, 1, x0, x1, x2, x3, b01, b11, b21, b31);
    EntryIs(a, b, r, 2, x0, x1, x2, x3, b02, b12, b22, b32);
    EntryIs(a, b, r, 3, x0, x1, x2, x3, b03, b13, b23, b33);
    TransformIs(b, v, 0, b00, b01, b02, b03, v0, v1, v2, v3);
    TransformIs(b, v, 1, b10, b11, b12, b13, v0, v1, v2, v3);
    TransformIs(b, v, 2, b20, b21, b22, b23, v0, v1, v2, v3);
    TransformIs(b, v, 3, b30, b31, b32, b33, v0, v1, v2, v3);
    TransformIs(p, v, r, p0, p1, p2, p3, v0, v1, v2, v3);
    TransformIs(a, w, r, x0, x1, x2, x3, w0, w1, w2, w3);
    Regroup(x0, x1, x2, x3, b00, b01, b02, b03, b10, b11, b12, b13, b20, b21, b22, b23, b30, b31, b32, b33,
            v0, v1, v2, v3, p0, p1, p2, p3, w0, w1, w2, w3);
  }

  /** Entry r of m applied to v, with row r of m and v named. */
  lemma TransformIs(m: Mat, v: Vec4, r: nat, y0: real, y1: real, y2: real, y3: real, z0: real, z1: real, z2: real, z3: real)
    requires r < 4
    requires At(m, r, 0) == y0 && At(m, r, 1) == y1 && At(m, r, 2) == y2 && At(m, r, 3) == y3
    requires v[0] == z0 && v[1] == z1 && v[2] == z2 && v[3] == z3
    ensures Transform(m, v)[r] == y0 * z0 + y1 * z1 + y2 * z2 + y3 * z3
  {
  }

  /** x(Bv) = (xB)v for a row x, a 4x4 block B (bkj) and a column v, with
      p = xB and w = Bv: both sides are the sum of all x_k * b_kj * v_j. */
  lemma Regroup(x0: real, x1: real, x2: real, x3: real,
                   b00: real, b01: real, b02: real, b03: real,
                   b10: real, b11: real, b12: real, b13: real,
                   b20: real, b21: real, b22: real, b23: real,
                   b30: real, b31: real, b32: real, b33: real,
                   v0: real, v1: real, v2: real, v3: real,
                p0: real, p1: real, p2: real, p3: real, w0: real, w1: real, w2: real, w3: real)
    requires p0 == x0 * b00 + x1 * b10 + x2 * b20 + x3 * b30
    requires p1 == x0 * b01 + x1 * b11 + x2 * b21 + x3 * b31
    requires p2 == x0 * b02 + x1 * b12 + x2 * b22 + x3 * b32
    requires p3 == x0 * b03 + x1 * b13 + x2 * b23 + x3 * b33
    requires w0 == b00 * v0 + b01 * v1 + b02 * v2 + b03 * v3
    requires w1 == b10 * v0 + b11 * v1 + b12 * v2 + b13 * v3
    requires w2 == b20 * v0 + b21 * v1 + b22 * v2 + b23 * v3
    requires w3 == b30 * v0 + b31 * v1 + b32 * v2 + b33 * v3
    ensures p0 * v0 + p1 * v1 + p2 * v2 + p3 * v3 == x0 * w0 + x1 * w1 + x2 * w2 + x3 * w3
  {
    ExpandLeft(x0, x1, x2, x3, b00, b01, b02, b03, b10, b11, b12, b13, b20, b21, b22, b23, b30, b31, b32, b33, v0, v1, v2, v3, p0, p1, p2, p3);
    ExpandRight(x0, x1, x2, x3, b00, b01, b02, b03, b10, b11, b12, b13, b20, b21, b22, b23, b30, b31, b32, b33, v0, v1, v2, v3, w0, w1, w2, w3);
  }

  lemma ExpandLeft(x0: real, x1: real, x2: real, x3: real,
                   b00: real, b01: real, b02: real, b03: real,
                   b10: real, b11: real, b12: real, b13: real,
                   b20: real, b21: real, b22: real, b23: real,
                   b30: real, b31: real, b32: real, b33: real,
                   v0: real, v1: real, v2: real, v3: real,
                   p0: real, p1: real, p2: real, p3: real)
    requires p0 == x0 * b00 + x1 * b10 + x2 * b20 + x3 * b30
    requires p1 == x0 * b01 + x1 * b11 + x2 * b21 + x3 * b31
    requires p2 == x0 * b02 + x1 * b12 + x2 * b22 + x3 * b32
    requires p3 == x0 * b03 + x1 * b13 + x2 * b23 + x3 * b33
    ensures p0 * v0 + p1 * v1 + p2 * v2 + p3 * v3
         == x0 * b00 * v0 + x1 * b10 * v0 + x2 * b20 * v0 + x3 * b30 * v0
          + x0 * b01 * v1 + x1 * b11 * v1 + x2 * b21 * v1 + x3 * b31 * v1
          + x0 * b02 * v2 + x1 * b12 * v2 + x2 * b22 * v2 + x3 * b32 * v2
          + x0 * b03 * v3 + x1 * b13 * v3 + x2 * b23 * v3 + x3 * b33 * v3
  {
    MulSum(p0, x0, x1, x2, x3, b00, b10, b20, b30, v0);
    MulSum(p1, x0, x1, x2, x3, b01, b11, b21, b31, v1);
    MulSum(p2, x0, x1, x2, x3, b02, b12, b22, b32, v2);
    MulSum(p3, x0, x1, x2, x3, b03, b13, b23, b33, v3);
  }

  lemma ExpandRight(x0: real, x1: real, x2: real, x3: real,
                   b00: real, b01: real, b02: real, b03: real,
                   b10: real, b11: real, b12: real, b13: real,
                   b20: real, b21: real, b22: real, b23: real,
                   b30: real, b31: real, b32: real, b33: real,
                   v0: real, v1: real, v2: real, v3: real,
                    w0: real, w1: real, w2: real, w3: real)
    requires w0 == b00 * v0 + b01 * v1 + b02 * v2 + b03 * v3
    requires w1 == b10 * v0 + b11 * v1 + b12 * v2 + b13 * v3
    requires w2 == b20 * v0 + b21 * v1 + b22 * v2 + b23 * v3
    requires w3 == b30 * v0 + b31 * v1 + b32 * v2 + b33 * v3
    ensures x0 * w0 + x1 * w1 + x2 * w2 + x3 * w3
         == x0 * b00 * v0 + x1 * b10 * v0 + x2 * b20 * v0 + x3 * b30 * v0
          + x0 * b01 * v1 + x1 * b11 * v1 + x2 * b21 * v1 + x3 * b31 * v1
          + x0 * b02 * v2 + x1 * b12 * v2 + x2 * b22 * v2 + x3 * b32 * v2
          + x0 * b03 * v3 + x1 * b13 * v3 + x2 * b23 * v3 + x3 * b33 * v3
  {
    MulSumLeft(w0, b00, b01, b02, b03, v0, v1, v2, v3, x0);
    MulSumLeft(w1, b10, b11, b12, b13, v0, v1, v2, v3, x1);
    MulSumLeft(w2, b20, b21, b22, b23, v0, v1, v2, v3, x2);
    MulSumLeft(w3, b30, b31, b32, b33, v0, v1, v2, v3, x3);
  }

  /** Multiplying a four-term sum of products by x on the left. */
  lemma MulSumLeft(s: real, y0: real, y1: real, y2: real, y3: real, z0: real, z1: real, z2: real, z3: real, x: real)
    requires s == y0 * z0 + y1 * z1 + y2 * z2 + y3 * z3
    ensures x * s == x * y0 * z0 + x * y1 * z1 + x * y2 * z2 + x * y3 * z3
  {
  }

  /** Multiplying a four-term sum of products by z. */
  lemma MulSum(s: real, x0: real, x1: real, x2: real, x3: real, y0: real, y1: real, y2: real, y3: real, z: real)
    requires s == x0 * y0 + x1 * y1 + x2 * y2 + x3 * y3
    ensures s * z == x0 * y0 * z + x1 * y1 * z + x2 * y2 * z + x3 * y3 * z
  {
  }

  // ---------------------------------------------------------------------
  // rotateX, rotateY, scale

  /** The matrix r of rotateY, given c = cos(rad) and s = sin(rad). */
  function RotationY(c: real, s: real): Mat
  {
    Identity()[0 := c][8 := -s][2 := s][10 := c]
  }

  /** The matrix r of rotateX. */
  function RotationX(c: real, s: real): Mat
  {
    Identity()[5 := c][9 := -s][6 := s][10 := c]
  }

  /** The matrix r of scale. */
  function Scaling(sx: real, sy: real, sz: real): Mat
  {
    Identity()[0 := sx][5 := sy][10 := sz]
  }

  function RotateY(m: Mat, c: real, s: real): Mat
  {
    Product(m, RotationY(c, s))
  }

  function RotateX(m: Mat, c: real, s: real): Mat
  {
    Product(m, RotationX(c, s))
  }

  function Scale(m: Mat, sx: real, sy: real, sz: real): Mat
  {
    Product(m, Scaling(sx, sy, sz))
  }

  /** The entries of the three matrices, column by column. */
  lemma RotationYEntries(c: real, s: real)
    ensures var q := RotationY(c, s);
      && At(q, 0, 0) == c && At(q, 1, 0) == 0.0 && At(q, 2, 0) == s && At(q, 3, 0) == 0.0
      && At(q, 0, 1) == 0.0 && At(q, 1, 1) == 1.0 && At(q, 2, 1) == 0.0 && At(q, 3, 1) == 0.0
      && At(q, 0, 2) == -s && At(q, 1, 2) == 0.0 && At(q, 2, 2) == c && At(q, 3, 2) == 0.0
      && At(q, 0, 3) == 0.0 && At(q, 1, 3) == 0.0 && At(q, 2, 3) == 0.0 && At(q, 3, 3) == 1.0
  {
  }

  lemma RotationXEntries(c: real, s: real)
    ensures var q := RotationX(c, s);
      && At(q, 0, 0) == 1.0 && At(q, 1, 0) == 0.0 && At(q, 2, 0) == 0.0 && At(q, 3, 0) == 0.0
      && At(q, 0, 1) == 0.0 && At(q, 1, 1) == c && At(q, 2, 1) == s && At(q, 3, 1) == 0.0
      && At(q, 0, 2) == 0.0 && At(q, 1, 2) == -s && At(q, 2, 2) == c && At(q, 3, 2) == 0.0
      && At(q, 0, 3) == 0.0 && At(q, 1, 3) == 0.0 && At(q, 2, 3) == 0.0 && At(q, 3, 3) == 1.0
  {
  }

  lemma ScalingEntries(sx: real, sy: real, sz: real)
    ensures var q := Scaling(sx, sy, sz);
      && At(q, 0, 0) == sx && At(q, 1, 0) == 0.0 && At(q, 2, 0) == 0.0 && At(q, 3, 0) == 0.0
      && At(q, 0, 1) == 0.0 && At(q, 1, 1) == sy && At(q, 2, 1) == 0.0 && At(q, 3, 1) == 0.0
      && At(q, 0, 2) == 0.0 && At(q, 1, 2) == 0.0 && At(q, 2, 2) == sz && At(q, 3, 2) == 0.0
      && At(q, 0, 3) == 0.0 && At(q, 1, 3) == 0.0 && At(q, 2, 3) == 0.0 && At(q, 3, 3) == 1.0
  {
  }

  /** rotateY keeps columns 1 and 3 of m and turns columns 0 and 2 into
      c*m0 + s*m2 and c*m2 - s*m0, whatever c and s are. */
  lemma RotateYColumns(m: Mat, c: real, s: real)
    ensures var p := RotateY(m, c, s);
      forall r :: 0 <= r < 4 ==>
        && At(p, r, 0) == c * At(m, r, 0) + s * At(m, r, 2)
        && At(p, r, 1) == At(m, r, 1)
        && At(p, r, 2) == c * At(m, r, 2) - s * At(m, r, 0)
        && At(p, r, 3) == At(m, r, 3)
  {
    forall r | 0 <= r < 4 {
      RotateYRow(m, c, s, r);
    }
  }

  lemma RotateYRow(m: Mat, c: real, s: real, r: nat)
    requires r < 4
    ensures var p := RotateY(m, c, s);
      && At(p, r, 0) == c * At(m, r, 0) + s * At(m, r, 2)
      && At(p, r, 1) == At(m, r, 1)
      && At(p, r, 2) == c * At(m, r, 2) - s * At(m, r, 0)
      && At(p, r, 3) == At(m, r, 3)
  {
    var q := RotationY(c, s);
    RotationYEntries(c, s);
    RotateYColumn0(m, c, s, r);
    RotateYColumn2(m, c, s, r);
    EntryIs(m, q, r, 1, At(m, r, 0), At(m, r, 1), At(m, r, 2), At(m, r, 3), 0.0, 1.0, 0.0, 0.0);
    EntryIs(m, q, r, 3, At(m, r, 0), At(m, r, 1), At(m, r, 2), At(m, r, 3), 0.0, 0.0, 0.0, 1.0);
  }

  lemma RotateYColumn0(m: Mat, c: real, s: real, r: nat)
    requires r < 4
    ensures At(RotateY(m, c, s), r, 0) == c * At(m, r, 0) + s * At(m, r, 2)
  {
    RotationYEntries(c, s);
    EntryIs(m, RotationY(c, s), r, 0, At(m, r, 0), At(m, r, 1), At(m, r, 2), At(m, r, 3), c, 0.0, s, 0.0);
  }

  lemma RotateYColumn2(m: Mat, c: real, s: real, r: nat)
    requires r < 4
    ensures At(RotateY(m, c, s), r, 2) == c * At(m, r, 2) - s * At(m, r, 0)
  {
    RotationYEntries(c, s);
    EntryIs(m, RotationY(c, s), r, 2, At(m, r, 0), At(m, r, 1), At(m, r, 2), At(m, r, 3), -s, 0.0, c, 0.0);
  }

  /** rotateX keeps columns 0 and 3 of m and turns columns 1 and 2 into
      c*m1 + s*m2 and c*m2 - s*m1, whatever c and s are. */
  lemma RotateXColumns(m: Mat, c: real, s: real)
    ensures var p := RotateX(m, c, s);
      forall r :: 0 <= r < 4 ==>
        && At(p, r, 0) == At(m, r, 0)
        && At(p, r, 1) == c * At(m, r, 1) + s * At(m, r, 2)
        && At(p, r, 2) == c * At(m, r, 2) - s * At(m, r, 1)
        && At(p, r, 3) == At(m, r, 3)
  {
    forall r | 0 <= r < 4 {
      RotateXRow(m, c, s, r);
    }
  }

  lemma RotateXRow(m: Mat, c: real, s: real, r: nat)
    requires r < 4
    ensures var p := RotateX(m, c, s);
      && At(p, r, 0) == At(m, r, 0)
      && At(p, r, 1) == c * At(m, r, 1) + s * At(m, r, 2)
      && At(p, r, 2) == c * At(m, r, 2) - s * At(m, r, 1)
      && At(p, r, 3) == At(m, r, 3)
  {
    var q := RotationX(c, s);
    RotationXEntries(c, s);
    RotateXColumn1(m, c, s, r);
    RotateXColumn2(m, c, s, r);
    EntryIs(m, q, r, 0, At(m, r, 0), At(m, r, 1), At(m, r, 2), At(m, r, 3), 1.0, 0.0, 0.0, 0.0);
    EntryIs(m, q, r, 3, At(m, r, 0), At(m, r, 1), At(m, r, 2), At(m, r, 3), 0.0, 0.0, 0.0, 1.0);
  }

  lemma RotateXColumn1(m: Mat, c: real, s: real, r: nat)
    requires r < 4
    ensures At(RotateX(m, c, s), r, 1) == c * At(m, r, 1) + s * At(m, r, 2)
  {
    RotationXEntries(c, s);
    EntryIs(m, RotationX(c, s), r, 1, At(m, r, 0), At(m, r, 1), At(m, r, 2), At(m, r, 3), 0.0, c, s, 0.0);
  }

  lemma RotateXColumn2(m: Mat, c: real, s: real, r: nat)
    requires r < 4
    ensures At(RotateX(m, c, s), r, 2) == c * At(m, r, 2) - s * At(m, r, 1)
  {
    RotationXEntries(c, s);
    EntryIs(m, RotationX(c, s), r, 2, At(m, r, 0), At(m, r, 1), At(m, r, 2), At(m, r, 3), 0.0, -s, c, 0.0);
  }

  /** scale multiplies columns 0, 1 and 2 of m by sx, sy and sz and keeps
      column 3. */
  lemma ScaleColumns(m: Mat, sx: real, sy: real, sz: real)
    ensures var p := Scale(m, sx, sy, sz);
      forall r :: 0 <= r < 4 ==>
        && At(p, r, 0) == sx * At(m, r, 0)
        && At(p, r, 1) == sy * At(m, r, 1)
        && At(p, r, 2) == sz * At(m, r, 2)
        && At(p, r, 3) == At(m, r, 3)
  {
    var q := Scaling(sx, sy, sz);
    ScalingEntries(sx, sy, sz);
    ProductColumn(m, q, 0, sx, 0.0, 0.0, 0.0);
    ProductColumn(m, q, 1, 0.0, sy, 0.0, 0.0);
    ProductColumn(m, q, 2, 0.0, 0.0, sz, 0.0);
    ProductColumn(m, q, 3, 0.0, 0.0, 0.0, 1.0);
  }

  /** scale(m, 1, 1, 1) is m. */
  lemma ScaleOne(m: Mat)
    ensures Scale(m, 1.0, 1.0, 1.0) == m
  {
    var q := Scaling(1.0, 1.0, 1.0);
    forall t | 0 <= t < 16
      ensures q[t] == Identity()[t]
    {
    }
    assert q == Identity();
    IdentityRight(m);
  }

  // ---------------------------------------------------------------------
  // perspective

  /** perspective, given the quotients it computes: xScale = f / aspect,
      f = 1 / tan(fovy / 2) and nf = 1 / (near - far). */
  function Perspective(xScale: real, f: real, near: real, far: real, nf: real): Mat
  {
    [xScale, 0.0, 0.0, 0.0,
     0.0, f, 0.0, 0.0,
     0.0, 0.0, (far + near) * nf, -1.0,
     0.0, 0.0, (2.0 * far * near) * nf, 0.0]
  }

  /** Only entries 0, 5, 10, 11 and 14 can be non-zero, and entry 11 is -1:
      the clip w is minus the eye-space z. */
  lemma PerspectivePattern(xScale: real, f: real, near: real, far: real, nf: real, v: Vec4)
    ensures var p := Perspective(xScale, f, near, far, nf);
      && p[11] == -1.0
      && forall t :: 0 <= t < 16 && p[t] != 0.0 ==> t == 0 || t == 5 || t == 10 || t == 11 || t == 14
    ensures Transform(Perspective(xScale, f, near, far, nf), v)[3] == -v[2]
  {
  }

  /** When nf is the exact reciprocal of near - far, a point on the near
      plane (eye z = -near) lands at clip depth z = -w, and one on the far
      plane at z = w: normalised depths -1 and 1. */
  lemma PerspectiveDepth(xScale: real, f: real, near: real, far: real, nf: real)
    requires nf * (near - far) == 1.0
    ensures var q := Transform(Perspective(xScale, f, near, far, nf), [0.0, 0.0, -near, 1.0]);
      q[2] == -q[3]
    ensures var q := Transform(Perspective(xScale, f, near, far, nf), [0.0, 0.0, -far, 1.0]);
      q[2] == q[3]
  {
    var p := Perspective(xScale, f, near, far, nf);
    assert p[10] * -near + p[14] == near * (nf * (near - far)) * -1.0 + 0.0 by {
      assert p[10] * -near + p[14] == -near * nf * (near - far);
    }
    assert p[10] * -far + p[14] == far * (nf * (near - far)) by {
      assert p[10] * -far + p[14] == far * nf * (near - far);
    }
  }

  // ---------------------------------------------------------------------
  // mat3FromMat4 and 3x3 algebra

  /** Lines 66-72: entries 0, 1, 2, 4, 5, 6, 8, 9 and 10 of m. */
  function Mat3FromMat4(m: Mat): Mat3
  {
    [m[0], m[1], m[2], m[4], m[5], m[6], m[8], m[9], m[10]]
  }

  /** Entry (r, c) of a 3x3 matrix. */
  function At3(m: Mat3, r: nat, c: nat): real
    requires r < 3 && c < 3
  {
    m[c * 3 + r]
  }

  /** Entry (r, c) of the 3x3 product a*b. */
  function Entry3(a: Mat3, b: Mat3, c: nat, r: nat): real
    requires c < 3 && r < 3
  {
    a[0 * 3 + r] * b[c * 3 + 0] + a[1 * 3 + r] * b[c * 3 + 1] + a[2 * 3 + r] * b[c * 3 + 2]
  }

  function Product3(a: Mat3, b: Mat3): Mat3
  {
    seq(9, t requires 0 <= t < 9 => Entry3(a, b, t / 3, t % 3))
  }

  function Identity3(): Mat3
  {
    [1.0, 0.0, 0.0, 0.0, 1.0, 0.0, 0.0, 0.0, 1.0]
  }

  function Transpose3(m: Mat3): Mat3
  {
    [m[0], m[3], m[6], m[1], m[4], m[7], m[2], m[5], m[8]]
  }

  /** Entry (r, c) of a*b, with row r of a and column c of b named. */
  lemma EntryIs3(a: Mat3, b: Mat3, r: nat, c: nat, x0: real, x1: real, x2: real, y0: real, y1: real, y2: real)
    requires r < 3 && c < 3
    requires At3(a, r, 0) == x0 && At3(a, r, 1) == x1 && At3(a, r, 2) == x2
    requires At3(b, 0, c) == y0 && At3(b, 1, c) == y1 && At3(b, 2, c) == y2
    ensures At3(Product3(a, b), r, c) == x0 * y0 + x1 * y1 + x2 * y2
  {
    assert (c * 3 + r) / 3 == c && (c * 3 + r) % 3 == r;
  }

  /** Two 3x3 matrices with the same entries are equal. */
  lemma SameEntries3(x: Mat3, y: Mat3)
    requires forall r, c :: 0 <= r < 3 && 0 <= c < 3 ==> At3(x, r, c) == At3(y, r, c)
    ensures x == y
  {
    forall t | 0 <= t < 9
      ensures x[t] == y[t]
    {
      assert At3(x, t % 3, t / 3) == At3(y, t % 3, t / 3);
    }
  }

  /** Two 3x3 matrices with the same nine entries are equal. */
  lemma SameNine(x: Mat3, y: Mat3)
    requires x[0] == y[0] && x[1] == y[1] && x[2] == y[2] && x[3] == y[3] && x[4] == y[4]
    requires x[5] == y[5] && x[6] == y[6] && x[7] == y[7] && x[8] == y[8]
    ensures x == y
  {
    assert forall t | 0 <= t < 9 :: x[t] == y[t];
  }

  /** Entry (r, c) of the transpose is entry (c, r). */
  lemma TransposeAt(m: Mat3, r: nat, c: nat)
    requires r < 3 && c < 3
    ensures At3(Transpose3(m), r, c) == At3(m, c, r)
  {
    assert r == 0 || r == 1 || r == 2;
  }

  /** The transpose of a*b is b^T * a^T. */
  lemma TransposeProduct(a: Mat3, b: Mat3)
    ensures Transpose3(Product3(a, b)) == Product3(Transpose3(b), Transpose3(a))
  {
    var x, y := Transpose3(Product3(a, b)), Product3(Transpose3(b), Transpose3(a));
    forall r, c | 0 <= r < 3 && 0 <= c < 3
      ensures At3(x, r, c) == At3(y, r, c)
    {
      TransposeProductAt(a, b, r, c);
    }
    SameEntries3(x, y);
  }

  /** Entry (r, c) of both sides: row c of a against column r of b. */
  lemma TransposeProductAt(a: Mat3, b: Mat3, r: nat, c: nat)
    requires r < 3 && c < 3
    ensures At3(Transpose3(Product3(a, b)), r, c) == At3(Product3(Transpose3(b), Transpose3(a)), r, c)
  {
    var at, bt := Transpose3(a), Transpose3(b);
    var a0, a1, a2 := At3(a, c, 0), At3(a, c, 1), At3(a, c, 2);
    var b0, b1, b2 := At3(b, 0, r), At3(b, 1, r), At3(b, 2, r);
    TransposeAt(Product3(a, b), r, c);
    EntryIs3(a, b, c, r, a0, a1, a2, b0, b1, b2);
    TransposeAt(b, r, 0);
    TransposeAt(b, r, 1);
    TransposeAt(b, r, 2);
    TransposeAt(a, 0, c);
    TransposeAt(a, 1, c);
    TransposeAt(a, 2, c);
    EntryIs3(bt, at, r, c, b0, b1, b2, a0, a1, a2);
    Commute3(a0, a1, a2, b0, b1, b2);
  }

  lemma Commute3(x0: real, x1: real, x2: real, y0: real, y1: real, y2: real)
    ensures x0 * y0 + x1 * y1 + x2 * y2 == y0 * x0 + y1 * x1 + y2 * x2
  {
  }

  /** The transpose of an inverse is the inverse of the transpose. */
  lemma TransposeInverse(m: Mat3, n: Mat3)
    requires Product3(m, n) == Identity3() && Product3(n, m) == Identity3()
    ensures Product3(Transpose3(m), Transpose3(n)) == Identity3()
    ensures Product3(Transpose3(n), Transpose3(m)) == Identity3()
  {
    TransposeProduct(n, m);
    TransposeProduct(m, n);
    assert Transpose3(Identity3()) == Identity3();
  }

  /** Entry (r, c) of the upper-left block is entry (r, c) of m. */
  lemma UpperLeft(m: Mat, r: nat, c: nat)
    requires r < 3 && c < 3
    ensures At3(Mat3FromMat4(m), r, c) == At(m, r, c)
  {
    assert c == 0 || c == 1 || c == 2;
  }

  /** When the bottom row of b is (0, 0, 0, *), as for rotations, scalings
      and the model-view matrices built from them, the upper-left block of
      a*b is the product of the blocks. */
  lemma UpperLeftProduct(a: Mat, b: Mat)
    requires At(b, 3, 0) == 0.0 && At(b, 3, 1) == 0.0 && At(b, 3, 2) == 0.0
    ensures Mat3FromMat4(Product(a, b)) == Product3(Mat3FromMat4(a), Mat3FromMat4(b))
  {
    var x, y := Mat3FromMat4(Product(a, b)), Product3(Mat3FromMat4(a), Mat3FromMat4(b));
    forall r, c | 0 <= r < 3 && 0 <= c < 3
      ensures At3(x, r, c) == At3(y, r, c)
    {
      UpperLeftProductAt(a, b, r, c);
    }
    SameEntries3(x, y);
  }

  /** Entry (r, c) of both sides: the fourth term of row r of a against
      column c of b vanishes. */
  lemma UpperLeftProductAt(a: Mat, b: Mat, r: nat, c: nat)
    requires r < 3 && c < 3
    requires At(b, 3, 0) == 0.0 && At(b, 3, 1) == 0.0 && At(b, 3, 2) == 0.0
    ensures At3(Mat3FromMat4(Product(a, b)), r, c) == At3(Product3(Mat3FromMat4(a), Mat3FromMat4(b)), r, c)
  {
    var a3, b3 := Mat3FromMat4(a), Mat3FromMat4(b);
    var x0, x1, x2, x3 := At(a, r, 0), At(a, r, 1), At(a, r, 2), At(a, r, 3);
    var y0, y1, y2 := At(b, 0, c), At(b, 1, c), At(b, 2, c);
    var z := At(b, 3, c);
    assert z == 0.0;
    UpperLeft(Product(a, b), r, c);
    EntryIs(a, b, r, c, x0, x1, x2, x3, y0, y1, y2, z);
    UpperLeft(a, r, 0);
    UpperLeft(a, r, 1);
    UpperLeft(a, r, 2);
    UpperLeft(b, 0, c);
    UpperLeft(b, 1, c);
    UpperLeft(b, 2, c);
    EntryIs3(a3, b3, r, c, x0, x1, x2, y0, y1, y2);
    DropLast(x0, x1, x2, x3, y0, y1, y2, z);
  }

  lemma DropLast(x0: real, x1: real, x2: real, x3: real, y0: real, y1: real, y2: real, z: real)
    requires z == 0.0
    ensures x0 * y0 + x1 * y1 + x2 * y2 + x3 * z == x0 * y0 + x1 * y1 + x2 * y2
  {
  }

  /** The 3x3 determinant by the rule of Sarrus. */
  function Det3(m: Mat3): real
  {
    Sarrus(m[0], m[1], m[2], m[3], m[4], m[5], m[6], m[7], m[8])
  }

  /** The determinant of the matrix with columns (a, b, c), (d, e, f) and
      (g, h, i). */
  function Sarrus(a: real, b: real, c: real, d: real, e: real, f: real, g: real, h: real, i: real): real
  {
    a * e * i + d * h * c + g * b * f - g * e * c - d * b * i - a * h * f
  }

  /** The threshold 1e-8 below which the determinant is replaced. */
  const Eps: real := 0.00000001

  // ---------------------------------------------------------------------
  // mat3InverseTranspose

  /** Lines 75-86: A..I, each the signed cofactor of the entry a..i of the
      same letter, kept at that entry's index. */
  function Cofactors(m: Mat3): Mat3
  {
    CofactorsOf(m[0], m[1], m[2], m[3], m[4], m[5], m[6], m[7], m[8])
  }

  /** The signed cofactor of each of a..i, at the same index. */
  function CofactorsOf(a: real, b: real, c: real, d: real, e: real, f: real, g: real, h: real, i: real): Mat3
  {
    [ (e * i - f * h), -(d * i - f * g),  (d * h - e * g),
     -(b * i - c * h),  (a * i - c * g), -(a * h - b * g),
      (b * f - c * e), -(a * f - c * d),  (a * e - b * d)]
  }

  /** The determinant as line 87 computes it: a*A + b*B + c*C. */
  function Expanded(m: Mat3): real
  {
    ExpandedOf(m[0], m[1], m[2], m[3], m[4], m[5], m[6], m[7], m[8])
  }

  /** a*A + b*B + c*C, with A, B and C the first three entries of
      CofactorsOf. */
  function ExpandedOf(a: real, b: real, c: real, d: real, e: real, f: real, g: real, h: real, i: real): real
  {
    a * (e * i - f * h) + b * -(d * i - f * g) + c * (d * h - e * g)
  }

  /** Lines 87-88: det = a*A + b*B + c*C, replaced by 1e-8 when its absolute
      value is below 1e-8. It is never zero; it is the determinant unless
      that is tiny. */
  function Divisor(m: Mat3): (det: real)
    ensures det != 0.0
    ensures V.Abs(Det3(m)) >= Eps ==> det == Det3(m)
    ensures V.Abs(Det3(m)) < Eps ==> det == Eps
  {
    ExpandedIsDet(m);
    if V.Abs(Expanded(m)) < Eps then Eps else Expanded(m)
  }

  /** Expanding along the first column gives the Sarrus determinant. */
  lemma ExpandedIsDet(m: Mat3)
    ensures Expanded(m) == Det3(m)
  {
    ExpandedIsSarrus(m[0], m[1], m[2], m[3], m[4], m[5], m[6], m[7], m[8]);
  }

  lemma ExpandedIsSarrus(a: real, b: real, c: real, d: real, e: real, f: real, g: real, h: real, i: real)
    ensures ExpandedOf(a, b, c, d, e, f, g, h, i) == Sarrus(a, b, c, d, e, f, g, h, i)
  {
  }

  /** Line 89 as written: [A, D, G, B, E, H, C, F, I] / det, that is the
      cofactor matrix TRANSPOSED over det. */
  function Mat3InverseTranspose(m: Mat3): Mat3
  {
    var q, det := Cofactors(m), Divisor(m);
    [q[0] / det, q[3] / det, q[6] / det, q[1] / det, q[4] / det, q[7] / det, q[2] / det, q[5] / det, q[8] / det]
  }

  /** The normal matrix the shader needs: the cofactor matrix over det, in
      the cofactors' own order [A, B, C, D, E, F, G, H, I]. */
  function NormalMatrix(m: Mat3): Mat3
  {
    var q, det := Cofactors(m), Divisor(m);
    [q[0] / det, q[1] / det, q[2] / det, q[3] / det, q[4] / det, q[5] / det, q[6] / det, q[7] / det, q[8] / det]
  }

  /** Entry (k, c) of what line 89 returns is cofactor (c, k) over det. */
  lemma WrittenLayout(m: Mat3)
    ensures forall k, c :: 0 <= k < 3 && 0 <= c < 3 ==>
      At3(Mat3InverseTranspose(m), k, c) == At3(Cofactors(m), c, k) / Divisor(m)
  {
    var n, q, det := Mat3InverseTranspose(m), Cofactors(m), Divisor(m);
    forall k, c | 0 <= k < 3 && 0 <= c < 3
      ensures At3(n, k, c) == At3(q, c, k) / det
    {
      assert k == 0 || k == 1 || k == 2;
      assert c == 0 || c == 1 || c == 2;
    }
  }

  /** The cofactors of m = [a, b, ..., i], one polynomial per entry. */
  lemma CofactorsAre(m: Mat3, a: real, b: real, c: real, d: real, e: real, f: real, g: real, h: real, i: real)
    requires m[0] == a && m[1] == b && m[2] == c && m[3] == d && m[4] == e
    requires m[5] == f && m[6] == g && m[7] == h && m[8] == i
    ensures Cofactors(m) == [ (e * i - f * h), -(d * i - f * g),  (d * h - e * g),
                             -(b * i - c * h),  (a * i - c * g), -(a * h - b * g),
                              (b * f - c * e), -(a * f - c * d),  (a * e - b * d)]
  {
  }

  /** The determinant of m = [a, b, ..., i]. */
  lemma DetIs(m: Mat3, a: real, b: real, c: real, d: real, e: real, f: real, g: real, h: real, i: real)
    requires m[0] == a && m[1] == b && m[2] == c && m[3] == d && m[4] == e
    requires m[5] == f && m[6] == g && m[7] == h && m[8] == i
    ensures Det3(m) == a * e * i + d * h * c + g * b * f - g * e * c - d * b * i - a * h * f
  {
  }

  /** Line 89 with the cofactors and the divisor named. */
  lemma WrittenEntries(m: Mat3, A: real, B: real, C: real, D: real, E: real, F: real, G: real, H: real, I: real, det: real)
    requires Cofactors(m) == [A, B, C, D, E, F, G, H, I] && Divisor(m) == det
    ensures Mat3InverseTranspose(m) == [A / det, D / det, G / det, B / det, E / det, H / det, C / det, F / det, I / det]
  {
  }

  /** Cofactor row 0 (A, D, G) against the rows (a, d, g), (b, e, h) and
      (c, f, i) of m: the determinant, then 0 twice. */
  lemma AdjugateRow0(a: real, b: real, c: real, d: real, e: real, f: real, g: real, h: real, i: real, A: real, D: real, G: real, det: real)
    requires A == (e * i - f * h) && D == -(b * i - c * h) && G == (b * f - c * e)
    requires det == a * e * i + d * h * c + g * b * f - g * e * c - d * b * i - a * h * f
    ensures a * A + d * D + g * G == det
    ensures b * A + e * D + h * G == 0.0
    ensures c * A + f * D + i * G == 0.0
  {
  }

  /** Cofactor row 1 (B, E, H) against the rows of m. */
  lemma AdjugateRow1(a: real, b: real, c: real, d: real, e: real, f: real, g: real, h: real, i: real, B: real, E: real, H: real, det: real)
    requires B == -(d * i - f * g) && E == (a * i - c * g) && H == -(a * f - c * d)
    requires det == a * e * i + d * h * c + g * b * f - g * e * c - d * b * i - a * h * f
    ensures a * B + d * E + g * H == 0.0
    ensures b * B + e * E + h * H == det
    ensures c * B + f * E + i * H == 0.0
  {
  }

  /** Cofactor row 2 (C, F, I) against the rows of m. */
  lemma AdjugateRow2(a: real, b: real, c: real, d: real, e: real, f: real, g: real, h: real, i: real, C: real, F: real, I: real, det: real)
    requires C == (d * h - e * g) && F == -(a * h - b * g) && I == (a * e - b * d)
    requires det == a * e * i + d * h * c + g * b * f - g * e * c - d * b * i - a * h * f
    ensures a * C + d * F + g * I == 0.0
    ensures b * C + e * F + h * I == 0.0
    ensures c * C + f * F + i * I == det
  {
  }

  /** Cofactor column 0 (A, B, C) against the columns (a, b, c), (d, e, f)
      and (g, h, i) of m: the determinant, then 0 twice. */
  lemma AdjugateColumn0(a: real, b: real, c: real, d: real, e: real, f: real, g: real, h: real, i: real, A: real, B: real, C: real, det: real)
    requires A == (e * i - f * h) && B == -(d * i - f * g) && C == (d * h - e * g)
    requires det == a * e * i + d * h * c + g * b * f - g * e * c - d * b * i - a * h * f
    ensures A * a + B * b + C * c == det
    ensures A * d + B * e + C * f == 0.0
    ensures A * g + B * h + C * i == 0.0
  {
  }

  /** Cofactor column 1 (D, E, F) against the columns of m. */
  lemma AdjugateColumn1(a: real, b: real, c: real, d: real, e: real, f: real, g: real, h: real, i: real, D: real, E: real, F: real, det: real)
    requires D == -(b * i - c * h) && E == (a * i - c * g) && F == -(a * h - b * g)
    requires det == a * e * i + d * h * c + g * b * f - g * e * c - d * b * i - a * h * f
    ensures D * a + E * b + F * c == 0.0
    ensures D * d + E * e + F * f == det
    ensures D * g + E * h + F * i == 0.0
  {
  }

  /** Cofactor column 2 (G, H, I) against the columns of m. */
  lemma AdjugateColumn2(a: real, b: real, c: real, d: real, e: real, f: real, g: real, h: real, i: real, G: real, H: real, I: real, det: real)
    requires G == (b * f - c * e) && H == -(a * f - c * d) && I == (a * e - b * d)
    requires det == a * e * i + d * h * c + g * b * f - g * e * c - d * b * i - a * h * f
    ensures G * a + H * b + I * c == 0.0
    ensures G * d + H * e + I * f == 0.0
    ensures G * g + H * h + I * i == det
  {
  }

  /** Dividing a dot product that is det or 0 by det term by term. */
  lemma DivDot(x0: real, x1: real, x2: real, y0: real, y1: real, y2: real,
               z0: real, z1: real, z2: real, det: real, one: bool)
    requires det != 0.0 && z0 == y0 / det && z1 == y1 / det && z2 == y2 / det
    requires x0 * y0 + x1 * y1 + x2 * y2 == (if one then det else 0.0)
    ensures x0 * z0 + x1 * z1 + x2 * z2 == (if one then 1.0 else 0.0)
  {
    assert x0 * (y0 / det) + x1 * (y1 / det) + x2 * (y2 / det) == (x0 * y0 + x1 * y1 + x2 * y2) / det;
  }

  /** The same with the divided factor on the left. */
  lemma DivDotLeft(y0: real, y1: real, y2: real, x0: real, x1: real, x2: real,
                   z0: real, z1: real, z2: real, det: real, one: bool)
    requires det != 0.0 && z0 == y0 / det && z1 == y1 / det && z2 == y2 / det
    requires y0 * x0 + y1 * x1 + y2 * x2 == (if one then det else 0.0)
    ensures z0 * x0 + z1 * x1 + z2 * x2 == (if one then 1.0 else 0.0)
  {
    assert (y0 / det) * x0 + (y1 / det) * x1 + (y2 / det) * x2 == (y0 * x0 + y1 * x1 + y2 * x2) / det;
  }

  /** Entry (r, c) of m*n, where row r of m is (x0, x1, x2), column c of n
      is (y0, y1, y2) over det, and their dot product is det or 0. */
  lemma RowDot(m: Mat3, n: Mat3, r: nat, c: nat, x0: real, x1: real, x2: real,
               y0: real, y1: real, y2: real, det: real, one: bool)
    requires r < 3 && c < 3 && det != 0.0
    requires At3(m, r, 0) == x0 && At3(m, r, 1) == x1 && At3(m, r, 2) == x2
    requires At3(n, 0, c) == y0 / det && At3(n, 1, c) == y1 / det && At3(n, 2, c) == y2 / det
    requires x0 * y0 + x1 * y1 + x2 * y2 == (if one then det else 0.0)
    ensures At3(Product3(m, n), r, c) == (if one then 1.0 else 0.0)
  {
    var z0, z1, z2 := At3(n, 0, c), At3(n, 1, c), At3(n, 2, c);
    EntryIs3(m, n, r, c, x0, x1, x2, z0, z1, z2);
    DivDot(x0, x1, x2, y0, y1, y2, z0, z1, z2, det, one);
  }

  /** Entry (r, c) of n*m, where row r of n is (y0, y1, y2) over det,
      column c of m is (x0, x1, x2), and their dot product is det or 0. */
  lemma ColumnDot(n: Mat3, m: Mat3, r: nat, c: nat, y0: real, y1: real, y2: real,
                  x0: real, x1: real, x2: real, det: real, one: bool)
    requires r < 3 && c < 3 && det != 0.0
    requires At3(n, r, 0) == y0 / det && At3(n, r, 1) == y1 / det && At3(n, r, 2) == y2 / det
    requires At3(m, 0, c) == x0 && At3(m, 1, c) == x1 && At3(m, 2, c) == x2
    requires y0 * x0 + y1 * x1 + y2 * x2 == (if one then det else 0.0)
    ensures At3(Product3(n, m), r, c) == (if one then 1.0 else 0.0)
  {
    var z0, z1, z2 := At3(n, r, 0), At3(n, r, 1), At3(n, r, 2);
    EntryIs3(n, m, r, c, z0, z1, z2, x0, x1, x2);
    DivDotLeft(y0, y1, y2, x0, x1, x2, z0, z1, z2, det, one);
  }

  /** m times what line 89 returns is the identity whenever |det| >= 1e-8:
      each row of m against each row of cofactors gives det or 0. */
  lemma InverseRight(m: Mat3)
    requires V.Abs(Det3(m)) >= Eps
    ensures Product3(m, Mat3InverseTranspose(m)) == Identity3()
  {
    var n, det := Mat3InverseTranspose(m), Divisor(m);
    var a, b, c, d, e, f, g, h, i := m[0], m[1], m[2], m[3], m[4], m[5], m[6], m[7], m[8];
    CofactorsAre(m, a, b, c, d, e, f, g, h, i);
    DetIs(m, a, b, c, d, e, f, g, h, i);
    var q := Cofactors(m);
    var A, B, C, D, E, F, G, H, I := q[0], q[1], q[2], q[3], q[4], q[5], q[6], q[7], q[8];
    WrittenEntries(m, A, B, C, D, E, F, G, H, I, det);
    AdjugateRow0(a, b, c, d, e, f, g, h, i, A, D, G, det);
    AdjugateRow1(a, b, c, d, e, f, g, h, i, B, E, H, det);
    AdjugateRow2(a, b, c, d, e, f, g, h, i, C, F, I, det);
    RowDot(m, n, 0, 0, a, d, g, A, D, G, det, true);
    RowDot(m, n, 1, 0, b, e, h, A, D, G, det, false);
    RowDot(m, n, 2, 0, c, f, i, A, D, G, det, false);
    RowDot(m, n, 0, 1, a, d, g, B, E, H, det, false);
    RowDot(m, n, 1, 1, b, e, h, B, E, H, det, true);
    RowDot(m, n, 2, 1, c, f, i, B, E, H, det, false);
    RowDot(m, n, 0, 2, a, d, g, C, F, I, det, false);
    RowDot(m, n, 1, 2, b, e, h, C, F, I, det, false);
    RowDot(m, n, 2, 2, c, f, i, C, F, I, det, true);
    SameNine(Product3(m, n), Identity3());
  }

  /** What line 89 returns times m is the identity whenever |det| >= 1e-8:
      each column of cofactors against each column of m gives det or 0. */
  lemma InverseLeft(m: Mat3)
    requires V.Abs(Det3(m)) >= Eps
    ensures Product3(Mat3InverseTranspose(m), m) == Identity3()
  {
    var n, det := Mat3InverseTranspose(m), Divisor(m);
    var a, b, c, d, e, f, g, h, i := m[0], m[1], m[2], m[3], m[4], m[5], m[6], m[7], m[8];
    CofactorsAre(m, a, b, c, d, e, f, g, h, i);
    DetIs(m, a, b, c, d, e, f, g, h, i);
    var q := Cofactors(m);
    var A, B, C, D, E, F, G, H, I := q[0], q[1], q[2], q[3], q[4], q[5], q[6], q[7], q[8];
    WrittenEntries(m, A, B, C, D, E, F, G, H, I, det);
    AdjugateColumn0(a, b, c, d, e, f, g, h, i, A, B, C, det);
    AdjugateColumn1(a, b, c, d, e, f, g, h, i, D, E, F, det);
    AdjugateColumn2(a, b, c, d, e, f, g, h, i, G, H, I, det);
    ColumnDot(n, m, 0, 0, A, B, C, a, b, c, det, true);
    ColumnDot(n, m, 0, 1, A, B, C, d, e, f, det, false);
    ColumnDot(n, m, 0, 2, A, B, C, g, h, i, det, false);
    ColumnDot(n, m, 1, 0, D, E, F, a, b, c, det, false);
    ColumnDot(n, m, 1, 1, D, E, F, d, e, f, det, true);
    ColumnDot(n, m, 1, 2, D, E, F, g, h, i, det, false);
    ColumnDot(n, m, 2, 0, G, H, I, a, b, c, det, false);
    ColumnDot(n, m, 2, 1, G, H, I, d, e, f, det, false);
    ColumnDot(n, m, 2, 2, G, H, I, g, h, i, det, true);
    SameNine(Product3(n, m), Identity3());
  }

  /** mat3InverseTranspose as written returns the inverse of m: m times it,
      and it times m, is the identity whenever |det| >= 1e-8. */
  lemma InverseAsWritten(m: Mat3)
    requires V.Abs(Det3(m)) >= Eps
    ensures Product3(m, Mat3InverseTranspose(m)) == Identity3()
    ensures Product3(Mat3InverseTranspose(m), m) == Identity3()
  {
    InverseRight(m);
    InverseLeft(m);
  }

  /** The corrected matrix is the transpose of what is written. */
  lemma NormalIsTransposed(m: Mat3)
    ensures NormalMatrix(m) == Transpose3(Mat3InverseTranspose(m))
  {
  }

  /** The corrected matrix is the inverse of the transpose of m, which is
      what the shader's u_normalMat * a_normal needs. */
  lemma NormalMatrixInverts(m: Mat3)
    requires V.Abs(Det3(m)) >= Eps
    ensures Product3(Transpose3(m), NormalMatrix(m)) == Identity3()
    ensures Product3(NormalMatrix(m), Transpose3(m)) == Identity3()
  {
    InverseAsWritten(m);
    TransposeInverse(m, Mat3InverseTranspose(m));
    NormalIsTransposed(m);
  }

  // ---------------------------------------------------------------------
  // what the vertex shader does with u_normalMat

  /** The matrix with columns (a, b, c), (d, e, f) and (g, h, i) applied to
      (x, y, z). */
  function MulVec(a: real, b: real, c: real, d: real, e: real, f: real, g: real, h: real, i: real, x: real, y: real, z: real): V.Vec3
  {
    V.Vec3(a * x + d * y + g * z, b * x + e * y + h * z, c * x + f * y + i * z)
  }

  /** GLSL's mat3 * vec3 on the column-major entries of m. */
  function Apply3(m: Mat3, v: V.Vec3): V.Vec3
  {
    MulVec(m[0], m[1], m[2], m[3], m[4], m[5], m[6], m[7], m[8], v.x, v.y, v.z)
  }

  /** Moving a matrix across a dot product transposes it. */
  lemma DotTranspose(m: Mat3, u: V.Vec3, w: V.Vec3)
    ensures V.Dot(Apply3(m, u), w) == V.Dot(u, Apply3(Transpose3(m), w))
  {
    DotMulVec(m[0], m[1], m[2], m[3], m[4], m[5], m[6], m[7], m[8], u.x, u.y, u.z, w.x, w.y, w.z);
  }

  lemma DotMulVec(a: real, b: real, c: real, d: real, e: real, f: real, g: real, h: real, i: real, x: real, y: real, z: real, p: real, q: real, r: real)
    ensures V.Dot(MulVec(a, b, c, d, e, f, g, h, i, x, y, z), V.Vec3(p, q, r))
         == V.Dot(V.Vec3(x, y, z), MulVec(a, d, g, b, e, h, c, f, i, p, q, r))
  {
  }

  /** Applying b and then a is applying a*b. */
  lemma ApplyProduct(a: Mat3, b: Mat3, v: V.Vec3)
    ensures Apply3(a, Apply3(b, v)) == Apply3(Product3(a, b), v)
  {
    var p := Product3(a, b);
    var a0, a1, a2, a3, a4, a5, a6, a7, a8 := a[0], a[1], a[2], a[3], a[4], a[5], a[6], a[7], a[8];
    var b0, b1, b2, b3, b4, b5, b6, b7, b8 := b[0], b[1], b[2], b[3], b[4], b[5], b[6], b[7], b[8];
    EntryIs3(a, b, 0, 0, a0, a3, a6, b0, b1, b2);
    EntryIs3(a, b, 1, 0, a1, a4, a7, b0, b1, b2);
    EntryIs3(a, b, 2, 0, a2, a5, a8, b0, b1, b2);
    EntryIs3(a, b, 0, 1, a0, a3, a6, b3, b4, b5);
    EntryIs3(a, b, 1, 1, a1, a4, a7, b3, b4, b5);
    EntryIs3(a, b, 2, 1, a2, a5, a8, b3, b4, b5);
    EntryIs3(a, b, 0, 2, a0, a3, a6, b6, b7, b8);
    EntryIs3(a, b, 1, 2, a1, a4, a7, b6, b7, b8);
    EntryIs3(a, b, 2, 2, a2, a5, a8, b6, b7, b8);
    var x, y, z := v.x, v.y, v.z;
    Compose(a0, a1, a2, a3, a4, a5, a6, a7, a8, b0, b1, b2, b3, b4, b5, b6, b7, b8, x, y, z);
  }

  /** The same on the entries: b's columns are (b0, b1, b2), (b3, b4, b5)
      and (b6, b7, b8), and entry (r, c) of a*b is row r of a against
      column c of b. */
  lemma Compose(a0: real, a1: real, a2: real, a3: real, a4: real, a5: real, a6: real, a7: real, a8: real, b0: real, b1: real, b2: real, b3: real, b4: real, b5: real, b6: real, b7: real, b8: real, x: real, y: real, z: real)
    ensures var w := MulVec(b0, b1, b2, b3, b4, b5, b6, b7, b8, x, y, z);
      MulVec(a0, a1, a2, a3, a4, a5, a6, a7, a8, w.x, w.y, w.z)
      == MulVec(a0 * b0 + a3 * b1 + a6 * b2, a1 * b0 + a4 * b1 + a7 * b2, a2 * b0 + a5 * b1 + a8 * b2,
                a0 * b3 + a3 * b4 + a6 * b5, a1 * b3 + a4 * b4 + a7 * b5, a2 * b3 + a5 * b4 + a8 * b5,
                a0 * b6 + a3 * b7 + a6 * b8, a1 * b6 + a4 * b7 + a7 * b8, a2 * b6 + a5 * b7 + a8 * b8,
                x, y, z)
  {
  }

  lemma ApplyIdentity(v: V.Vec3)
    ensures Apply3(Identity3(), v) == v
  {
  }

  lemma TransposeTwice(m: Mat3)
    ensures Transpose3(Transpose3(m)) == m
  {
  }

  /** The corrected normal matrix keeps normals normal: a normal n
      perpendicular to a tangent t stays perpendicular to the tangent m*t
      of the transformed surface. */
  lemma NormalKeepsPerpendicular(m: Mat3, n: V.Vec3, t: V.Vec3)
    requires V.Abs(Det3(m)) >= Eps && V.Dot(n, t) == 0.0
    ensures V.Dot(Apply3(NormalMatrix(m), n), Apply3(m, t)) == 0.0
  {
    var w := Mat3InverseTranspose(m);
    NormalIsTransposed(m);
    DotTranspose(NormalMatrix(m), n, Apply3(m, t));
    TransposeTwice(w);
    ApplyProduct(w, m, t);
    InverseLeft(m);
    ApplyIdentity(t);
  }

  /** The upper-left 3x3 block of the rotation lines 57-60 build from
      cos 0.6 and sin 0.8. */
  lemma TiltedRotation()
    ensures Mat3FromMat4(RotationX(0.6, 0.8)) == [1.0, 0.0, 0.0, 0.0, 0.6, 0.8, 0.0, -0.8, 0.6]
  {
    RotationXEntries(0.6, 0.8);
    SameNine(Mat3FromMat4(RotationX(0.6, 0.8)), [1.0, 0.0, 0.0, 0.0, 0.6, 0.8, 0.0, -0.8, 0.6]);
  }

  /** What line 89 returns for that rotation is its transpose; the
      corrected matrix is the rotation itself. */
  lemma TiltedInverse()
    ensures V.Abs(Det3([1.0, 0.0, 0.0, 0.0, 0.6, 0.8, 0.0, -0.8, 0.6])) >= Eps
    ensures Mat3InverseTranspose([1.0, 0.0, 0.0, 0.0, 0.6, 0.8, 0.0, -0.8, 0.6]) == [1.0, 0.0, 0.0, 0.0, 0.6, -0.8, 0.0, 0.8, 0.6]
  {
    var r: Mat3 := [1.0, 0.0, 0.0, 0.0, 0.6, 0.8, 0.0, -0.8, 0.6];
    assert Det3(r) == 1.0;
    assert Divisor(r) == 1.0;
    assert Cofactors(r) == r;
    WrittenEntries(r, 1.0, 0.0, 0.0, 0.0, 0.6, 0.8, 0.0, -0.8, 0.6, 1.0);
  }

  /** Any rotation, or more generally any m whose transpose is its
      inverse: what line 89 returns is the transpose of m, so the shader
      turns normals by the inverse rotation. */
  lemma OrthogonalInverse(m: Mat3)
    requires Product3(Transpose3(m), m) == Identity3() && V.Abs(Det3(m)) >= Eps
    ensures Mat3InverseTranspose(m) == Transpose3(m)
  {
    var n, mt := Mat3InverseTranspose(m), Transpose3(m);
    InverseRight(m);
    SameColumn(m, n, mt, V.Vec3(1.0, 0.0, 0.0));
    SameColumn(m, n, mt, V.Vec3(0.0, 1.0, 0.0));
    SameColumn(m, n, mt, V.Vec3(0.0, 0.0, 1.0));
    SameNine(n, mt);
  }

  /** Every rotation about x, with c^2 + s^2 = 1, is such a matrix: for
      it line 89 returns the transposed rotation, by the angle's negative. */
  lemma RotationXInverse(c: real, s: real)
    requires c * c + s * s == 1.0
    ensures var r := Mat3FromMat4(RotationX(c, s));
      Mat3InverseTranspose(r) == Transpose3(r)
  {
    RotationXEntries(c, s);
    var r: Mat3 := [1.0, 0.0, 0.0, 0.0, c, s, 0.0, -s, c];
    SameNine(Mat3FromMat4(RotationX(c, s)), r);
    assert Det3(r) == c * c + s * s;
    var p := Product3(Transpose3(r), r);
    assert p[4] == c * c + s * s && p[8] == s * s + c * c;
    SameNine(p, Identity3());
    OrthogonalInverse(r);
  }

  /** The same for every rotation about y. */
  lemma RotationYInverse(c: real, s: real)
    requires c * c + s * s == 1.0
    ensures var r := Mat3FromMat4(RotationY(c, s));
      Mat3InverseTranspose(r) == Transpose3(r)
  {
    RotationYEntries(c, s);
    var r: Mat3 := [c, 0.0, s, 0.0, 1.0, 0.0, -s, 0.0, c];
    SameNine(Mat3FromMat4(RotationY(c, s)), r);
    assert Det3(r) == c * c + s * s;
    var p := Product3(Transpose3(r), r);
    assert p[0] == c * c + s * s && p[8] == s * s + c * c;
    SameNine(p, Identity3());
    OrthogonalInverse(r);
  }

  /** A right inverse n of m and a left inverse mt of m act alike. */
  lemma SameColumn(m: Mat3, n: Mat3, mt: Mat3, e: V.Vec3)
    requires Product3(m, n) == Identity3() && Product3(mt, m) == Identity3()
    ensures Apply3(n, e) == Apply3(mt, e)
  {
    ApplyProduct(mt, m, Apply3(n, e));
    ApplyIdentity(Apply3(n, e));
    ApplyProduct(m, n, e);
    ApplyIdentity(e);
  }

  /** For that rotation r, the normal n = (0, 1, 0) and the tangent
      t = (0, 0, 1), which are perpendicular: what line 89 returns turns n
      away from the rotated tangent r*t (dot product -0.96), where
      NormalKeepsPerpendicular keeps them at 0. */
  lemma WrittenTiltsNormals(r: Mat3, n: V.Vec3, t: V.Vec3)
    requires r == Mat3FromMat4(RotationX(0.6, 0.8))
    requires n == V.Vec3(0.0, 1.0, 0.0) && t == V.Vec3(0.0, 0.0, 1.0)
    ensures V.Dot(n, t) == 0.0 && V.Abs(Det3(r)) >= Eps
    ensures V.Dot(Apply3(Mat3InverseTranspose(r), n), Apply3(r, t)) == -0.96
  {
    TiltedRotation();
    TiltedInverse();
    var w: Mat3 := [1.0, 0.0, 0.0, 0.0, 0.6, -0.8, 0.0, 0.8, 0.6];
    assert Apply3(r, t) == V.Vec3(0.0, -0.8, 0.6);
    assert Apply3(w, n) == V.Vec3(0.0, 0.6, -0.8);
  }
}
