/**
 * The RGBA pixel buffer the analyser reads, and the JavaScript semantics of
 * reading it: `data[idx]` is `undefined` unless idx is an integer index inside
 * the buffer, and a luma built from an undefined read is NaN.
 */
module Pixels {
  import opened Wrappers
  import opened JsNumber

  /** The browser's `ImageData`: width, height and a row-major RGBA byte buffer. */
  class ImageData {
    const width: nat
    const height: nat
    const data: array<Byte>

    constructor (w: nat, h: nat, d: array<Byte>)
      requires 1 <= w && 1 <= h && d.Length == 4 * (w * h)
      ensures width == w && height == h && data == d
      ensures Valid()
    {
      width, height, data := w, h, d;
    }

    /** A canvas never yields an empty `ImageData`, and the buffer holds four bytes per pixel. */
    predicate Valid()
      reads this
    {
      IsImageShape(data.Length, width, height)
    }
  }

  predicate IsImageShape(len: int, w: nat, h: nat) {
    1 <= w && 1 <= h && len == 4 * (w * h)
  }

  /** A buffer of at least one whole RGBA pixel. */
  predicate IsPixels(s: seq<Byte>) {
    4 <= |s| && |s| % 4 == 0
  }

  function PixelCount(s: seq<Byte>): nat {
    |s| / 4
  }

  lemma {:induction false} ImageIsPixels(s: seq<Byte>, w: nat, h: nat)
    requires IsImageShape(|s|, w, h)
    ensures IsPixels(s) && PixelCount(s) == w * h && w * h >= 1
  {
    assert w * h >= 1 by {
      assert w * h >= 1 * h;
    }
  }

  /** `(data[i] + data[i+1] + data[i+2]) / 3` for pixel p, i = 4p. */
  function Luma(s: seq<Byte>, p: nat): (l: real)
    requires 4 * p + 2 < |s|
    ensures 0.0 <= l <= 255.0
  {
    (s[4 * p] as int + s[4 * p + 1] + s[4 * p + 2]) as real / 3.0
  }

  /** `data[idx]` for a JavaScript number idx. */
  function Read(s: seq<Byte>, idx: real): (r: Option<Byte>)
    ensures r.Some? <==> IsInteger(idx) && 0.0 <= idx < |s| as real
  {
    if IsInteger(idx) && 0.0 <= idx < |s| as real then Some(s[idx.Floor]) else None
  }

  /** `(data[idx] + data[idx+1] + data[idx+2]) / 3`: NaN once a read is undefined. */
  function LumaAt(s: seq<Byte>, idx: real): (r: Num)
    ensures r.Finite? <==> IsInteger(idx) && 0.0 <= idx && idx + 2.0 < |s| as real
    ensures r.Finite? ==> 0.0 <= r.v <= 255.0
  {
    var a, b, c := Read(s, idx), Read(s, idx + 1.0), Read(s, idx + 2.0);
    FloorShift(idx, 1);
    FloorShift(idx, 2);
    if a.Some? && b.Some? && c.Some? then Finite((a.value as int + b.value + c.value) as real / 3.0) else NaN
  }

  /** Adding an integer to a real shifts its floor by that integer. */
  lemma {:induction false} FloorShift(x: real, k: int)
    ensures (x + k as real).Floor == x.Floor + k
    ensures IsInteger(x + k as real) <==> IsInteger(x)
  {
  }

  /** `(y * width + x) * 4` on JavaScript numbers. */
  function Index(w: nat, y: real, x: real): real {
    (y * w as real + x) * 4.0
  }

  /** At an integer pixel index the JavaScript luma is the luma of that pixel. */
  lemma {:induction false} LumaAtPixel(s: seq<Byte>, p: nat)
    requires 4 * p + 2 < |s|
    ensures LumaAt(s, (4 * p) as real) == Finite(Luma(s, p))
  {
    assert IsInteger((4 * p) as real) && IsInteger((4 * p + 1) as real) && IsInteger((4 * p + 2) as real);
  }

  /** A luma at a non-integer index is NaN. */
  lemma {:induction false} LumaAtFraction(s: seq<Byte>, idx: real)
    requires !IsInteger(idx)
    ensures LumaAt(s, idx) == NaN
  {
  }

  /** Pixel (x, y) of a w-by-h image lies inside the buffer. */
  lemma {:induction false} PixelInImage(w: nat, h: nat, x: nat, y: nat)
    requires x < w && y < h
    ensures y * w + x < w * h
  {
    assert y * w <= (h - 1) * w by {
      assert (h - 1) * w == y * w + (h - 1 - y) * w;
    }
    assert (h - 1) * w + w == h * w;
  }

  /** The four bytes of pixel (x, y) lie inside a w-by-h buffer. */
  lemma {:induction false} PixelBytesInBuffer(w: nat, h: nat, x: nat, y: nat)
    requires x < w && y < h
    ensures 0 <= (y * w + x) * 4 && (y * w + x) * 4 + 3 < 4 * (w * h)
  {
    PixelInImage(w, h, x, y);
  }

  /** Pixel (x, y) of a w-by-h image as a JavaScript index is the integer 4 * (y * w + x). */
  lemma {:induction false} IndexOfPixel(w: nat, x: int, y: int)
    ensures Index(w, y as real, x as real) == (4 * (y * w + x)) as real
  {
  }
}
