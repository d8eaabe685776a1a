/** The JavaScript number conversions the generators rely on, over exact
    reals and unbounded integers: truncation toward zero, the `x | 0`
    conversion to a signed 32-bit integer, the store into a Uint16Array,
    and the remainder `x % 1` (whose sign follows the dividend). NaN and the
    infinities are not modelled. */
module JsNumber {

  const TwoTo16: int := 0x1_0000
  const TwoTo31: int := 0x8000_0000
  const TwoTo32: int := 0x1_0000_0000

  predicate IsIntegral(x: real)
  {
    x == x.Floor as real
  }

  /** Math.trunc: rounds toward zero. */
  function Trunc(x: real): (n: int)
    ensures x >= 0.0 ==> n as real <= x < n as real + 1.0
    ensures x < 0.0 ==> n as real - 1.0 < x <= n as real
    ensures IsIntegral(x) ==> n as real == x
  {
    if x >= 0.0 then x.Floor
    else
      assert IsIntegral(x) ==> -x == (-x.Floor) as real;
      FloorOfIntegral(-x.Floor);
      -((-x).Floor)
  }

  lemma FloorOfIntegral(k: int)
    ensures (k as real).Floor == k
  {
  }

  /** `x | 0`: ToInt32, truncation followed by wrap-around into [-2^31, 2^31). */
  function ToInt32(x: real): (n: int)
    ensures -TwoTo31 <= n < TwoTo31
    ensures (n - Trunc(x)) % TwoTo32 == 0
  {
    var m := Trunc(x) % TwoTo32;
    if m >= TwoTo31 then m - TwoTo32 else m
  }

  /** An integral value already in the signed 32-bit range is kept as is. */
  lemma ToInt32Keeps(x: real)
    requires IsIntegral(x) && -TwoTo31 as real <= x < TwoTo31 as real
    ensures ToInt32(x) as real == x
  {
  }

  /** A store into a Uint16Array keeps the value modulo 2^16. */
  function ToUint16(n: int): (r: int)
    ensures 0 <= r < TwoTo16
    ensures 0 <= n < TwoTo16 ==> r == n
    ensures n >= 0 ==> r <= n
  {
    n % TwoTo16
  }

  /** `x % 1` on a number: the fractional part, with the sign of x. */
  function Rem1(x: real): (r: real)
    ensures -1.0 < r < 1.0
    ensures x >= 0.0 ==> r >= 0.0
    ensures x <= 0.0 ==> r <= 0.0
    ensures IsIntegral(x - r)
  {
    x - Trunc(x) as real
  }
}
