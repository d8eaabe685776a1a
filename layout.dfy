/** Flat attribute buffers.

    Every mesh generator fills its vertex and index buffers by appending a
    fixed-width record per loop iteration (three coordinates per vertex, six
    indices per quad, ...). `Gen(n, f)` is the buffer after the records
    f(0), f(1), ..., f(n-1) have been appended in that order. */
module Layout {

  /** How many times `for (let i = 0; i < n; i++)` runs. */
  function Count(n: int): (c: nat)
    ensures n >= 0 ==> c == n
    ensures n <= 0 ==> c == 0
  {
    if n < 0 then 0 else n
  }

  /** The concatenation f(0) + f(1) + ... + f(n-1). */
  function Gen<T>(n: nat, f: nat -> seq<T>): seq<T>
  {
    if n == 0 then [] else Gen(n - 1, f) + f(n - 1)
  }

  /** f has records of width w on 0..n-1. */
  ghost predicate Uniform<T>(n: nat, f: nat -> seq<T>, w: nat)
  {
    forall k :: 0 <= k < n ==> |f(k)| == w
  }

  /** n records of width w make a buffer of length w*n. */
  lemma {:induction false} GenLength<T>(n: nat, f: nat -> seq<T>, w: nat)
    requires Uniform(n, f, w)
    ensures |Gen(n, f)| == w * n
  {
    if n > 0 {
      GenLength(n - 1, f, w);
      assert |Gen(n, f)| == w * (n - 1) + w;
    }
  }

  /** Entry c of record k sits at flat offset t = w*k + c. */
  lemma {:induction false} GenAt<T>(n: nat, f: nat -> seq<T>, w: nat, k: nat, c: nat, t: nat)
    requires Uniform(n, f, w)
    requires k < n && c < w && t == w * k + c
    ensures t < |Gen(n, f)| && c < |f(k)| && Gen(n, f)[t] == f(k)[c]
  {
    GenLength(n, f, w);
    GenLength(n - 1, f, w);
    var prefix := Gen(n - 1, f);
    assert Gen(n, f) == prefix + f(n - 1);
    RecordBefore(w, k, c, n);
    if k == n - 1 {
      assert t == |prefix| + c;
    } else {
      GenAt(n - 1, f, w, k, c, t);
      RecordBefore(w, k, c, n - 1);
    }
  }

  /** Offset w*k + c of record k < m lies before the m-th record. */
  lemma RecordBefore(w: nat, k: nat, c: nat, m: nat)
    requires k < m && c < w
    ensures w * k + c < w * m
  {
    assert w * k + w == w * (k + 1);
    MulMono(w, k + 1, m);
  }

  lemma MulMono(w: nat, a: nat, b: nat)
    requires a <= b
    ensures w * a <= w * b
  {
    assert w * b == w * a + w * (b - a);
  }

  /** Record (o, i) of a grid filled by two nested loops, o outer and i inner. */
  function RowOf<T>(rec: (nat, nat) -> seq<T>, o: nat): nat -> seq<T>
  {
    (i: nat) => rec(o, i)
  }

  /** The records of the inner loop for each value of the outer one. */
  function Rows<T>(inner: nat, rec: (nat, nat) -> seq<T>): nat -> seq<T>
  {
    (o: nat) => Gen(inner, RowOf(rec, o))
  }

  /** The buffer after `for o < outer { for i < inner { push rec(o, i) } }`. */
  function Grid<T>(outer: nat, inner: nat, rec: (nat, nat) -> seq<T>): seq<T>
  {
    Gen(outer, Rows(inner, rec))
  }

  /** rec has records of width w on the whole grid. */
  ghost predicate GridUniform<T>(outer: nat, inner: nat, rec: (nat, nat) -> seq<T>, w: nat)
  {
    forall o, i :: 0 <= o < outer && 0 <= i < inner ==> |rec(o, i)| == w
  }

  lemma RowsUniform<T>(outer: nat, inner: nat, rec: (nat, nat) -> seq<T>, w: nat)
    requires GridUniform(outer, inner, rec, w)
    ensures Uniform(outer, Rows(inner, rec), w * inner)
  {
    forall o | 0 <= o < outer
      ensures |Rows(inner, rec)(o)| == w * inner
    {
      GenLength(inner, RowOf(rec, o), w);
    }
  }

  /** Record (o, i) sits at flat offset t = w*(o*inner + i) + c. */
  lemma GridAt<T>(outer: nat, inner: nat, rec: (nat, nat) -> seq<T>, w: nat, o: nat, i: nat, c: nat, t: nat)
    requires GridUniform(outer, inner, rec, w)
    requires o < outer && i < inner && c < w && t == w * (o * inner + i) + c
    ensures t < |Grid(outer, inner, rec)| && c < |rec(o, i)|
    ensures Grid(outer, inner, rec)[t] == rec(o, i)[c]
  {
    var W, d := w * inner, w * i + c;
    assert d < W by {
      RecordBefore(w, i, c, inner);
    }
    assert t == W * o + d by {
      FlatOffset(w, inner, outer, o, i, c);
    }
    RowsUniform(outer, inner, rec, w);
    assert Uniform(inner, RowOf(rec, o), w);
    GridCore(outer, inner, rec, w, o, i, c, W, d, t);
  }

  lemma GridCore<T>(outer: nat, inner: nat, rec: (nat, nat) -> seq<T>, w: nat,
                    o: nat, i: nat, c: nat, W: nat, d: nat, t: nat)
    requires Uniform(outer, Rows(inner, rec), W) && Uniform(inner, RowOf(rec, o), w)
    requires o < outer && i < inner && c < w && d < W && d == w * i + c && t == W * o + d
    ensures t < |Grid(outer, inner, rec)| && c < |rec(o, i)|
    ensures Grid(outer, inner, rec)[t] == rec(o, i)[c]
  {
    GenAt(outer, Rows(inner, rec), W, o, d, t);
    GenAt(inner, RowOf(rec, o), w, i, c, d);
  }

  /** A grid of outer*inner records of width w has length w*(outer*inner). */
  lemma GridLength<T>(outer: nat, inner: nat, rec: (nat, nat) -> seq<T>, w: nat)
    requires GridUniform(outer, inner, rec, w)
    ensures |Grid(outer, inner, rec)| == w * (outer * inner)
  {
    RowsUniform(outer, inner, rec, w);
    GenLength(outer, Rows(inner, rec), w * inner);
    assert (w * inner) * outer == w * (outer * inner);
  }

  lemma FlatOffset(w: nat, inner: nat, outer: nat, o: nat, i: nat, c: nat)
    ensures (w * inner) * o + (w * i + c) == w * (o * inner + i) + c
  {
  }

  /** One record appended. */
  lemma GenPush<T>(n: nat, f: nat -> seq<T>)
    ensures Gen(n + 1, f) == Gen(n, f) + f(n)
  {
  }

  /** One record appended inside the inner loop. */
  lemma GridPush<T>(inner: nat, rec: (nat, nat) -> seq<T>, o: nat, i: nat)
    ensures Gen(o, Rows(inner, rec)) + Gen(i + 1, RowOf(rec, o))
         == Gen(o, Rows(inner, rec)) + Gen(i, RowOf(rec, o)) + rec(o, i)
  {
  }

  /** The inner loop finished: its row is complete. */
  lemma GridRowDone<T>(inner: nat, rec: (nat, nat) -> seq<T>, o: nat)
    ensures Gen(o, Rows(inner, rec)) + Gen(inner, RowOf(rec, o)) == Gen(o + 1, Rows(inner, rec))
  {
  }

  /** Every entry of Gen(n, f) lies in [lo, hi) when every entry of every record does. */
  lemma {:induction false} GenBounded(n: nat, f: nat -> seq<int>, lo: int, hi: int)
    requires forall k, c :: 0 <= k < n && 0 <= c < |f(k)| ==> lo <= f(k)[c] < hi
    ensures forall t :: 0 <= t < |Gen(n, f)| ==> lo <= Gen(n, f)[t] < hi
  {
    if n > 0 {
      GenBounded(n - 1, f, lo, hi);
      var prefix := Gen(n - 1, f);
      forall t | 0 <= t < |Gen(n, f)|
        ensures lo <= Gen(n, f)[t] < hi
      {
        if t >= |prefix| {
          assert Gen(n, f)[t] == f(n - 1)[t - |prefix|];
        }
      }
    }
  }

  /** The same for a grid of records. */
  lemma GridBounded(outer: nat, inner: nat, rec: (nat, nat) -> seq<int>, lo: int, hi: int)
    requires forall o, i, c :: 0 <= o < outer && 0 <= i < inner && 0 <= c < |rec(o, i)| ==> lo <= rec(o, i)[c] < hi
    ensures forall t :: 0 <= t < |Grid(outer, inner, rec)| ==> lo <= Grid(outer, inner, rec)[t] < hi
  {
    forall o | 0 <= o < outer
      ensures forall d :: 0 <= d < |Rows(inner, rec)(o)| ==> lo <= Rows(inner, rec)(o)[d] < hi
    {
      GenBounded(inner, RowOf(rec, o), lo, hi);
    }
    GenBounded(outer, Rows(inner, rec), lo, hi);
  }

  /** Records that agree give the same buffer. */
  lemma {:induction false} GenCongruence<T>(n: nat, f: nat -> seq<T>, g: nat -> seq<T>)
    requires forall k :: 0 <= k < n ==> f(k) == g(k)
    ensures Gen(n, f) == Gen(n, g)
  {
    if n > 0 {
      GenCongruence(n - 1, f, g);
    }
  }

  /** The same for a grid of records. */
  lemma GridCongruence<T>(outer: nat, inner: nat, rec: (nat, nat) -> seq<T>, rec2: (nat, nat) -> seq<T>)
    requires forall o, i :: 0 <= o < outer && 0 <= i < inner ==> rec(o, i) == rec2(o, i)
    ensures Grid(outer, inner, rec) == Grid(outer, inner, rec2)
  {
    forall o | 0 <= o < outer
      ensures Rows(inner, rec)(o) == Rows(inner, rec2)(o)
    {
      GenCongruence(inner, RowOf(rec, o), RowOf(rec2, o));
    }
    GenCongruence(outer, Rows(inner, rec), Rows(inner, rec2));
  }

  /** Adding n to the dividend leaves the remainder unchanged. */
  lemma ModShift(a: int, n: int)
    requires n >= 1
    ensures (n + a) % n == (0 + a) % n
  {
    var q, r := a / n, a % n;
    assert n + a == (q + 1) * n + r;
    ModUnique(n + a, n, q + 1, r);
  }

  /** The remainder is the r of any decomposition x == k*n + r with 0 <= r < n. */
  lemma ModUnique(x: int, n: int, k: int, r: int)
    requires n >= 1 && x == k * n + r && 0 <= r < n
    ensures x % n == r
  {
    var q, s := x / n, x % n;
    assert (q - k) * n == r - s;
    ZeroMultiple(q - k, n);
  }

  /** A multiple of n strictly between -n and n is 0 times n. */
  lemma ZeroMultiple(d: int, n: int)
    requires n >= 1 && -n < d * n < n
    ensures d == 0
  {
    if d != 0 {
      var e := if d > 0 then d else -d;
      MulMono(n, 1, e);
    }
  }
}
