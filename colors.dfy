/**
 * Colour statistics of a frame (`analyzeColors`, `getColorTemperature`,
 * `calculateBrightness`): running sums over the RGBA buffer, specified by
 * recursive sums over the first k pixels.
 */
module Colors {
  import opened JsNumber
  import opened Pixels

  datatype Temperature = Warm | Cool | Neutral

  /**
   * The colour part of a frame's features. `dominant` holds the three
   * rounded channel averages that the source renders as `rgb(r, g, b)`.
   */
  datatype ColorStats = ColorStats(
    dominant: (int, int, int),
    brightness: real,
    saturation: real,
    temperature: Temperature)

  /** Warm when red leads both other channels by more than 30, cool when blue does. */
  function ColorTemperature(r: int, g: int, b: int): (t: Temperature)
    ensures t == Warm <==> r > g + 30 && r > b + 30
    ensures t == Cool <==> b > r + 30 && b > g + 30
  {
    if r > g + 30 && r > b + 30 then Warm
    else if b > r + 30 && b > g + 30 then Cool
    else Neutral
  }

  // `Math.max` and `Math.min` of three bytes. The bytes of a pixel are always
  // defined, so these integer versions need none of the NaN cases that
  // JsNumber.Max3 and JsNumber.Min3 carry.
  function Max3Int(a: int, b: int, c: int): int {
    if a >= b && a >= c then a else if b >= c then b else c
  }

  function Min3Int(a: int, b: int, c: int): int {
    if a <= b && a <= c then a else if b <= c then b else c
  }

  /** `(max - min) / max || 0`: a black pixel gives 0/0 = NaN, which `|| 0` turns into 0. */
  function Saturation(r: Byte, g: Byte, b: Byte): (x: real)
    ensures 0.0 <= x <= 1.0
    ensures x == 0.0 <==> r == g == b
  {
    var mx, mn := Max3Int(r, g, b), Min3Int(r, g, b);
    if mx == 0 then 0.0 else MeanBounded((mx - mn) as real, mx as real, 1.0); (mx - mn) as real / mx as real
  }

  function PixelSaturation(s: seq<Byte>, p: nat): real
    requires 4 * p + 2 < |s|
  {
    Saturation(s[4 * p], s[4 * p + 1], s[4 * p + 2])
  }

  /** The sum of channel c (0 red, 1 green, 2 blue) over the first k pixels. */
  function ChannelSum(s: seq<Byte>, c: nat, k: nat): (sum: int)
    requires c < 3 && 4 * k <= |s|
    ensures 0 <= sum <= 255 * k
  {
    if k == 0 then 0 else ChannelSum(s, c, k - 1) + s[4 * (k - 1) + c]
  }

  /** The sum of the per-pixel saturations over the first k pixels. */
  function SaturationSum(s: seq<Byte>, k: nat): (sum: real)
    requires 4 * k <= |s|
    ensures 0.0 <= sum <= k as real
  {
    if k == 0 then 0.0 else SaturationSum(s, k - 1) + PixelSaturation(s, k - 1)
  }

  /** The sum of the per-pixel lumas over the first k pixels. */
  function LumaSum(s: seq<Byte>, k: nat): (sum: real)
    requires 4 * k <= |s|
    ensures 0.0 <= sum <= 255.0 * k as real
  {
    if k == 0 then 0.0 else LumaSum(s, k - 1) + Luma(s, k - 1)
  }

  /** `calculateBrightness`: the mean luma over all pixels. */
  function Brightness(s: seq<Byte>): real
    requires IsPixels(s)
  {
    LumaSum(s, PixelCount(s)) / PixelCount(s) as real
  }

  /** The colour statistics `analyzeColors` returns for buffer s. */
  function ColorsOf(s: seq<Byte>): ColorStats
    requires IsPixels(s)
  {
    var n := PixelCount(s);
    var r, g, b := ChannelSum(s, 0, n), ChannelSum(s, 1, n), ChannelSum(s, 2, n);
    var avgR, avgG, avgB := Round(r as real / n as real), Round(g as real / n as real), Round(b as real / n as real);
    ColorStats(
      (avgR, avgG, avgB),
      (r + g + b) as real / (3 * n) as real,
      SaturationSum(s, n) / n as real,
      ColorTemperature(avgR, avgG, avgB))
  }

  /** `analyzeColors`. */
  method AnalyzeColors(img: ImageData) returns (c: ColorStats)
    requires img.Valid()
    ensures c == ColorsOf(img.data[..])
    ensures 0.0 <= c.saturation <= 1.0
    ensures c.brightness == Brightness(img.data[..])
  {
    var data := img.data;
    ghost var s := data[..];
    var r: int, g: int, b: int := 0, 0, 0;
    var saturation := 0.0;
    var i := 0;
    ghost var p := 0;
    while i < data.Length
      invariant i == 4 * p && i <= data.Length
      invariant r == ChannelSum(s, 0, p) && g == ChannelSum(s, 1, p) && b == ChannelSum(s, 2, p)
      invariant saturation == SaturationSum(s, p)
    {
      r := r + data[i];
      g := g + data[i + 1];
      b := b + data[i + 2];
      saturation := saturation + Saturation(data[i], data[i + 1], data[i + 2]);
      i, p := i + 4, p + 1;
    }
    var total := data.Length / 4;
    var avgR, avgG, avgB := Round(r as real / total as real), Round(g as real / total as real), Round(b as real / total as real);
    c := ColorStats(
      (avgR, avgG, avgB),
      (r + g + b) as real / (3 * total) as real,
      saturation / total as real,
      ColorTemperature(avgR, avgG, avgB));
    AverageSaturationInUnitRange(s);
    BrightnessAgrees(s);
  }

  /** `calculateBrightness`. */
  method CalculateBrightness(img: ImageData) returns (brightness: real)
    requires img.Valid()
    ensures brightness == Brightness(img.data[..])
    ensures 0.0 <= brightness <= 255.0
  {
    var data := img.data;
    ghost var s := data[..];
    var total := 0.0;
    var i := 0;
    ghost var p := 0;
    while i < data.Length
      invariant i == 4 * p && i <= data.Length
      invariant total == LumaSum(s, p)
    {
      var luma := (data[i] as int + data[i + 1] + data[i + 2]) as real / 3.0;
      assert luma == Luma(s, p) && LumaSum(s, p + 1) == LumaSum(s, p) + Luma(s, p);
      total := total + luma;
      i, p := i + 4, p + 1;
    }
    brightness := total / (data.Length / 4) as real;
    MeanBounded(total, p as real, 255.0);
  }

  /** The luma sum is a third of the sum of the three channel sums. */
  lemma {:induction false} LumaSumIsChannelSum(s: seq<Byte>, k: nat)
    requires 4 * k <= |s|
    ensures LumaSum(s, k) == (ChannelSum(s, 0, k) + ChannelSum(s, 1, k) + ChannelSum(s, 2, k)) as real / 3.0
  {
    if k > 0 {
      LumaSumIsChannelSum(s, k - 1);
    }
  }

  /** The brightness inside `analyzeColors` equals `calculateBrightness` on the same buffer. */
  lemma {:induction false} BrightnessAgrees(s: seq<Byte>)
    requires IsPixels(s)
    ensures ColorsOf(s).brightness == Brightness(s)
  {
    var n := PixelCount(s);
    var t := (ChannelSum(s, 0, n) + ChannelSum(s, 1, n) + ChannelSum(s, 2, n)) as real;
    LumaSumIsChannelSum(s, n);
    assert ColorsOf(s).brightness == t / (3 * n) as real;
    assert Brightness(s) == (t / 3.0) / n as real;
    ThirdOfMean(t, n as real);
  }

  lemma {:induction false} ThirdOfMean(t: real, n: real)
    requires n > 0.0
    ensures t / (3.0 * n) == (t / 3.0) / n
  {
  }

  /** The average saturation lies in [0, 1]. */
  lemma {:induction false} AverageSaturationInUnitRange(s: seq<Byte>)
    requires IsPixels(s)
    ensures 0.0 <= ColorsOf(s).saturation <= 1.0
  {
    var n := PixelCount(s);
    assert ColorsOf(s).saturation == SaturationSum(s, n) / n as real;
    MeanBounded(SaturationSum(s, n), n as real, 1.0);
  }

  /** The rounded channel averages are byte values. */
  lemma {:induction false} AveragesAreBytes(s: seq<Byte>)
    requires IsPixels(s)
    ensures var (r, g, b) := ColorsOf(s).dominant; 0 <= r <= 255 && 0 <= g <= 255 && 0 <= b <= 255
  {
    var n := PixelCount(s);
    RoundedMeanIsByte(ChannelSum(s, 0, n), n);
    RoundedMeanIsByte(ChannelSum(s, 1, n), n);
    RoundedMeanIsByte(ChannelSum(s, 2, n), n);
  }

  /** The rounded mean of n values in [0, 255] lies in [0, 255]. */
  lemma {:induction false} RoundedMeanIsByte(sum: int, n: nat)
    requires n > 0 && 0 <= sum <= 255 * n
    ensures 0 <= Round(sum as real / n as real) <= 255
  {
    MeanBounded(sum as real, n as real, 255.0);
  }
  /** The pixel that lands at position i when pixels p and q trade places. */
  function Partner(i: nat, p: nat, q: nat): nat {
    if i == p then q else if i == q then p else i
  }

  /** Buffer s with the four bytes of pixels p and q exchanged. */
  function SwapPixels(s: seq<Byte>, p: nat, q: nat): (t: seq<Byte>)
    requires 4 * p + 3 < |s| && 4 * q + 3 < |s|
    ensures |t| == |s|
  {
    seq(|s|, i requires 0 <= i < |s| => if i / 4 == p then s[4 * q + i % 4] else if i / 4 == q then s[4 * p + i % 4] else s[i])
  }

  /** After the exchange, pixel i of the new buffer holds the bytes of pixel Partner(i). */
  lemma {:induction false} SwappedPixel(s: seq<Byte>, p: nat, q: nat, i: nat)
    requires 4 * p + 3 < |s| && 4 * q + 3 < |s| && 4 * i + 3 < |s|
    ensures Luma(SwapPixels(s, p, q), i) == Luma(s, Partner(i, p, q))
    ensures PixelSaturation(SwapPixels(s, p, q), i) == PixelSaturation(s, Partner(i, p, q))
  {
    var t := SwapPixels(s, p, q);
    var j := Partner(i, p, q);
    assert (4 * i) / 4 == i && (4 * i + 1) / 4 == i && (4 * i + 2) / 4 == i;
    assert t[4 * i] == s[4 * j] && t[4 * i + 1] == s[4 * j + 1] && t[4 * i + 2] == s[4 * j + 2];
  }

  /**
   * The luma sum over the first k pixels after exchanging pixels p < q:
   * unchanged outside [p, q), and off by the two lumas' difference inside.
   */
  lemma {:induction false} SwappedLumaSum(s: seq<Byte>, p: nat, q: nat, k: nat)
    requires p < q && 4 * q + 3 < |s| && 4 * k <= |s|
    ensures k <= p || q < k ==> LumaSum(SwapPixels(s, p, q), k) == LumaSum(s, k)
    ensures p < k <= q ==> LumaSum(SwapPixels(s, p, q), k) == LumaSum(s, k) - Luma(s, p) + Luma(s, q)
  {
    if k > 0 {
      SwappedLumaSum(s, p, q, k - 1);
      SwappedPixel(s, p, q, k - 1);
    }
  }

  /** The same for the saturation sum. */
  lemma {:induction false} SwappedSaturationSum(s: seq<Byte>, p: nat, q: nat, k: nat)
    requires p < q && 4 * q + 3 < |s| && 4 * k <= |s|
    ensures k <= p || q < k ==> SaturationSum(SwapPixels(s, p, q), k) == SaturationSum(s, k)
    ensures p < k <= q ==>
      SaturationSum(SwapPixels(s, p, q), k) == SaturationSum(s, k) - PixelSaturation(s, p) + PixelSaturation(s, q)
  {
    if k > 0 {
      SwappedSaturationSum(s, p, q, k - 1);
      SwappedPixel(s, p, q, k - 1);
    }
  }

  /**
   * Brightness and average saturation do not depend on the order of the
   * pixels: exchanging any two pixels leaves both unchanged.
   */
  lemma {:induction false} SwapKeepsBrightnessAndSaturation(s: seq<Byte>, p: nat, q: nat)
    requires IsPixels(s) && p < PixelCount(s) && q < PixelCount(s)
    ensures IsPixels(SwapPixels(s, p, q))
    ensures Brightness(SwapPixels(s, p, q)) == Brightness(s)
    ensures ColorsOf(SwapPixels(s, p, q)).saturation == ColorsOf(s).saturation
  {
    var t := SwapPixels(s, p, q);
    var n := PixelCount(s);
    assert PixelCount(t) == n;
    if p == q {
      assert t == s by {
        forall i | 0 <= i < |s|
          ensures t[i] == s[i]
        {
          assert 4 * (i / 4) + i % 4 == i;
        }
      }
    } else {
      var lo, hi := if p < q then p else q, if p < q then q else p;
      assert t == SwapPixels(s, lo, hi);
      SwappedLumaSum(s, lo, hi, n);
      SwappedSaturationSum(s, lo, hi, n);
    }
  }
}
