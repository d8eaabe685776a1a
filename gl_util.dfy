/** The small integer helpers of PA3/src/gl.js: the bit trick isPowerOf2,
    the texture parameters loadTexture2D picks once its image has loaded,
    and resizeToDisplaySize on a canvas.

    JavaScript's `&` converts both operands to signed 32-bit integers and
    combines their two's-complement bit patterns; it is modelled on the
    unsigned pattern (the value modulo 2^32), which is 0 exactly when the
    signed result is 0. The WebGL calls themselves are not modelled: the
    decision is the record of the values passed to texParameteri. */
module GlUtil {
  import opened JsNumber
  import Layout

  // ---------------------------------------------------------------------
  // isPowerOf2

  /** The 32 bits of a signed 32-bit integer, read as an unsigned number. */
  function Bits32(n: int): (u: nat)
    ensures u < TwoTo32
    ensures 0 <= n < TwoTo32 ==> u == n
  {
    n % TwoTo32
  }

  /** Bitwise and of two non-negative integers, one bit at a time. */
  function BitAnd(x: nat, y: nat): nat
  {
    if x == 0 || y == 0 then 0
    else 2 * BitAnd(x / 2, y / 2) + (if x % 2 == 1 && y % 2 == 1 then 1 else 0)
  }

  /** Lines 49-51: `(v & (v - 1)) === 0`. */
  function IsPowerOf2(v: int): bool
  {
    BitAnd(Bits32(ToInt32(v as real)), Bits32(ToInt32((v - 1) as real))) == 0
  }

  /** The reference definition: 1, 2, 4, 8, ... */
  predicate PowerOfTwo(v: int)
    decreases if v < 0 then 0 else v
  {
    v == 1 || (v >= 2 && v % 2 == 0 && PowerOfTwo(v / 2))
  }

  /** A number and'ed with itself is the number. */
  lemma {:induction false} BitAndSelf(x: nat)
    ensures BitAnd(x, x) == x
  {
    if x != 0 {
      BitAndSelf(x / 2);
    }
  }

  /** The bit trick on unbounded integers: v & (v - 1) clears the lowest set
      bit of v, so it is 0 exactly when v has a single set bit. */
  lemma {:induction false} ClearLowestBit(v: nat)
    requires v >= 1
    ensures BitAnd(v, v - 1) == 0 <==> PowerOfTwo(v)
  {
    if v == 1 {
    } else if v % 2 == 0 {
      assert (v - 1) / 2 == v / 2 - 1 && (v - 1) % 2 == 1;
      ClearLowestBit(v / 2);
    } else {
      assert (v - 1) / 2 == v / 2 && (v - 1) % 2 == 0;
      BitAndSelf(v / 2);
    }
  }

  /** An integer in [0, 2^32) keeps its value as the bit pattern of `v | 0`. */
  lemma PatternOf(v: int)
    requires 0 <= v < TwoTo32
    ensures Bits32(ToInt32(v as real)) == v
  {
    var t := Trunc(v as real);
    assert t == v;
    var n := ToInt32(v as real);
    if v >= TwoTo31 {
      assert n == v - TwoTo32;
      Layout.ModShift(n, TwoTo32);
    }
  }

  /** For 1 <= v < 2^32, isPowerOf2(v) is true exactly for the powers of
      two. */
  lemma IsPowerOf2Correct(v: int)
    requires 1 <= v < TwoTo32
    ensures IsPowerOf2(v) <==> PowerOfTwo(v)
  {
    PatternOf(v);
    PatternOf(v - 1);
    ClearLowestBit(v);
  }

  /** isPowerOf2(0) is true, though 0 is not a power of two: 0 & -1 is 0. */
  lemma IsPowerOf2Zero()
    ensures IsPowerOf2(0) && !PowerOfTwo(0)
  {
  }

  // ---------------------------------------------------------------------
  // the texture parameters of loadTexture2D

  datatype Filter = Linear | LinearMipmapLinear
  datatype Wrap = Repeat | ClampToEdge

  /** Whether generateMipmap is called, and the filters and wrap modes set
      with texParameteri. */
  datatype TextureSetup = TextureSetup(mipmap: bool, minFilter: Filter, magFilter: Filter, wrapS: Wrap, wrapT: Wrap)

  /** Lines 71-82: the branch on the loaded image's width and height. */
  function TextureFor(width: int, height: int): TextureSetup
  {
    if IsPowerOf2(width) && IsPowerOf2(height) then
      TextureSetup(true, LinearMipmapLinear, Linear, Repeat, Repeat)
    else
      TextureSetup(false, Linear, Linear, ClampToEdge, ClampToEdge)
  }

  /** An image with positive dimensions below 2^32 gets a mipmap, the
      mipmapped minification filter and REPEAT on both axes exactly when
      both dimensions are powers of two; otherwise no mipmap, LINEAR and
      CLAMP_TO_EDGE. Magnification is LINEAR either way. */
  lemma TextureForImage(width: int, height: int)
    requires 1 <= width < TwoTo32 && 1 <= height < TwoTo32
    ensures var s := TextureFor(width, height);
      && (s.mipmap <==> PowerOfTwo(width) && PowerOfTwo(height))
      && (s.minFilter == LinearMipmapLinear <==> s.mipmap)
      && (s.wrapS == Repeat <==> s.mipmap)
      && (s.wrapT == Repeat <==> s.mipmap)
      && s.magFilter == Linear
  {
    IsPowerOf2Correct(width);
    IsPowerOf2Correct(height);
  }

  // ---------------------------------------------------------------------
  // resizeToDisplaySize

  /** Line 9: `Math.max(1, window.devicePixelRatio || 1)`; a ratio of 0
      stands for the falsy values that `|| 1` replaces. */
  function PixelRatio(devicePixelRatio: real): (dpr: real)
    ensures dpr >= 1.0
    ensures devicePixelRatio >= 1.0 ==> dpr == devicePixelRatio
    ensures devicePixelRatio < 1.0 ==> dpr == 1.0
  {
    var r := if devicePixelRatio == 0.0 then 1.0 else devicePixelRatio;
    if r < 1.0 then 1.0 else r
  }

  /** Lines 10-11: `Math.floor(client * dpr)`. */
  function DisplayLength(client: nat, devicePixelRatio: real): int
  {
    (client as real * PixelRatio(devicePixelRatio)).Floor
  }

  /** The canvas fields resizeToDisplaySize reads and writes. */
  datatype CanvasSize = CanvasSize(width: int, height: int, clientWidth: nat, clientHeight: nat)

  /** Lines 8-18 on a value: the new size and whether it changed. */
  function Resize(s: CanvasSize, devicePixelRatio: real): (CanvasSize, bool)
  {
    var w := DisplayLength(s.clientWidth, devicePixelRatio);
    var h := DisplayLength(s.clientHeight, devicePixelRatio);
    if s.width != w || s.height != h then (s.(width := w, height := h), true) else (s, false)
  }

  /** The drawing buffer is the client size times the pixel ratio, rounded
      down: never smaller than the client size, less than one pixel short of
      the exact product; the client size is not touched. */
  lemma ResizeSets(s: CanvasSize, devicePixelRatio: real)
    ensures var (t, _) := Resize(s, devicePixelRatio);
      var dpr := PixelRatio(devicePixelRatio);
      && t.clientWidth == s.clientWidth && t.clientHeight == s.clientHeight
      && t.width as real <= s.clientWidth as real * dpr < t.width as real + 1.0
      && t.height as real <= s.clientHeight as real * dpr < t.height as real + 1.0
      && t.width >= s.clientWidth && t.height >= s.clientHeight
  {
    var dpr := PixelRatio(devicePixelRatio);
    ScaledAtLeast(s.clientWidth, dpr);
    ScaledAtLeast(s.clientHeight, dpr);
  }

  lemma ScaledAtLeast(client: nat, dpr: real)
    requires dpr >= 1.0
    ensures (client as real * dpr).Floor >= client
  {
    assert client as real * dpr >= client as real * 1.0;
    FloorOfIntegral(client);
  }

  /** The result is true exactly when a dimension differed beforehand. */
  lemma ResizeReportsChange(s: CanvasSize, devicePixelRatio: real)
    ensures Resize(s, devicePixelRatio).1 <==>
      s.width != DisplayLength(s.clientWidth, devicePixelRatio)
      || s.height != DisplayLength(s.clientHeight, devicePixelRatio)
    ensures !Resize(s, devicePixelRatio).1 ==> Resize(s, devicePixelRatio).0 == s
  {
  }

  /** A second call with the same client size and pixel ratio returns false
      and changes nothing. */
  lemma ResizeIdempotent(s: CanvasSize, devicePixelRatio: real)
    ensures var t := Resize(s, devicePixelRatio).0;
      Resize(t, devicePixelRatio) == (t, false)
  {
  }

  /** The canvas element, with the two attributes resizeToDisplaySize
      assigns and the two layout sizes it reads. */
  class Canvas {
    var width: int
    var height: int
    var clientWidth: nat
    var clientHeight: nat

    constructor (width: int, height: int, clientWidth: nat, clientHeight: nat)
      ensures this.width == width && this.height == height
      ensures this.clientWidth == clientWidth && this.clientHeight == clientHeight
    {
      this.width, this.height := width, height;
      this.clientWidth, this.clientHeight := clientWidth, clientHeight;
    }

    function Size(): CanvasSize
      reads this
    {
      CanvasSize(width, height, clientWidth, clientHeight)
    }

    /** Lines 8-18. */
    method ResizeToDisplaySize(devicePixelRatio: real) returns (changed: bool)
      modifies this
      ensures (Size(), changed) == Resize(old(Size()), devicePixelRatio)
    {
      var dpr := PixelRatio(devicePixelRatio);
      var w := (clientWidth as real * dpr).Floor;
      var h := (clientHeight as real * dpr).Floor;
      assert w == DisplayLength(clientWidth, devicePixelRatio) && h == DisplayLength(clientHeight, devicePixelRatio);
      if width != w || height != h {
        width := w;
        height := h;
        return true;
      }
      return false;
    }
  }
}
