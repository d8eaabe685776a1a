/** Vectors packed into flat number buffers: vertex k of a position or
    normal buffer is the triple at offsets 3k, 3k+1 and 3k+2, as in the
    `positions[3*i0+0]` reads of both mesh generators. */
module Packed {
  import opened VecMath
  import opened Layout

  /** The vector stored at slot k (getPos in CGW/src/astroidal_torus.js:106-109). */
  function PosAt(buffer: seq<real>, k: int): Vec3
    requires 0 <= k && 3 * k + 2 < |buffer|
  {
    Vec3(buffer[3 * k], buffer[3 * k + 1], buffer[3 * k + 2])
  }

  /** The three numbers a vector is pushed as. */
  function Triple(v: Vec3): seq<real>
  {
    [v.x, v.y, v.z]
  }

  function Triples(f: nat -> Vec3): nat -> seq<real>
  {
    (k: nat) => Triple(f(k))
  }

  /** The x, y, z triples of f(0), ..., f(n-1). */
  function Flatten(n: nat, f: nat -> Vec3): seq<real>
  {
    Gen(n, Triples(f))
  }

  /** Every index of the buffer names one of v vertices. */
  predicate InRange(indices: seq<int>, v: nat)
  {
    forall k :: 0 <= k < |indices| ==> 0 <= indices[k] < v
  }

  lemma TriplesUniform(n: nat, f: nat -> Vec3)
    ensures Uniform(n, Triples(f), 3)
  {
    forall k | 0 <= k < n
      ensures |Triples(f)(k)| == 3
    {
      assert Triples(f)(k) == Triple(f(k));
    }
  }

  /** Slot k of the flattened triples is f(k). */
  lemma FlattenAt(n: nat, f: nat -> Vec3, k: nat)
    requires k < n
    ensures 3 * k + 2 < |Flatten(n, f)| && PosAt(Flatten(n, f), k) == f(k)
  {
    TriplesUniform(n, f);
    GenAt(n, Triples(f), 3, k, 0, 3 * k);
    GenAt(n, Triples(f), 3, k, 1, 3 * k + 1);
    GenAt(n, Triples(f), 3, k, 2, 3 * k + 2);
  }

  /** n triples make 3n numbers. */
  lemma FlattenLength(n: nat, f: nat -> Vec3)
    ensures |Flatten(n, f)| == 3 * n
  {
    TriplesUniform(n, f);
    GenLength(n, Triples(f), 3);
  }

  /** How many of a triangle's corners are vertex w. */
  function Hits(w: int, i0: int, i1: int, i2: int): (h: nat)
    ensures h <= 3
    ensures h == 0 <==> w != i0 && w != i1 && w != i2
  {
    (if w == i0 then 1 else 0) + (if w == i1 then 1 else 0) + (if w == i2 then 1 else 0)
  }

  /** Adding c once per true flag adds c times the number of flags. */
  lemma SumOfHits(b: Vec3, c: Vec3, h0: bool, h1: bool, h2: bool)
    ensures var s0 := if h0 then Add(b, c) else b;
      var s1 := if h1 then Add(s0, c) else s0;
      var s2 := if h2 then Add(s1, c) else s1;
      s2 == Add(b, Scale(c, ((if h0 then 1 else 0) + (if h1 then 1 else 0) + (if h2 then 1 else 0)) as real))
  {
  }
}
