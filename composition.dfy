/**
 * Composition statistics of a frame (`analyzeComposition`,
 * `getRegionBrightness`, `evaluateComposition`, `calculateSymmetry`,
 * `detectFocusArea`, `countEdgesInRegion`).
 *
 * The region loops of the source start at bounds such as `width / 3` or
 * `centerX - centerSize / 2`, which need not be integers; the loop
 * variable then stays fractional, `data[idx]` is undefined and the luma is
 * NaN. The model keeps the loop variables as reals to capture this.
 */
module Composition {
  import opened JsNumber
  import opened Pixels

  datatype ThirdsVerdict = Balanced | Dynamic

  datatype Focus = Centered | Distributed

  datatype CompositionStats = CompositionStats(ruleOfThirds: ThirdsVerdict, symmetry: Num, focus: Focus)

  // ---------------------------------------------------------------- region brightness

  /** The sum of the lumas at columns x1, x1 + 1, ... (cols of them) of row y. */
  function RowLuma(s: seq<Byte>, w: nat, y: real, x1: real, cols: nat): Num {
    if cols == 0 then Finite(0.0)
    else Add(RowLuma(s, w, y, x1, cols - 1), LumaAt(s, Index(w, y, x1 + (cols - 1) as real)))
  }

  /** The sum of RowLuma over rows y1, y1 + 1, ... (rows of them). */
  function RegionLuma(s: seq<Byte>, w: nat, y1: real, x1: real, rows: nat, cols: nat): Num {
    if rows == 0 then Finite(0.0)
    else Add(RegionLuma(s, w, y1, x1, rows - 1, cols), RowLuma(s, w, y1 + (rows - 1) as real, x1, cols))
  }

  /** What `getRegionBrightness(x1, x2, y1, y2)` returns: the mean luma, or NaN. */
  function RegionBrightness(s: seq<Byte>, w: nat, x1: real, x2: real, y1: real, y2: real): Num {
    var rows, cols := Steps(y1, y2), Steps(x1, x2);
    DivByCount(RegionLuma(s, w, y1, x1, rows, cols), rows * cols)
  }

  /** `getRegionBrightness`. */
  method GetRegionBrightness(img: ImageData, x1: real, x2: real, y1: real, y2: real) returns (b: Num)
    requires img.Valid()
    ensures b == RegionBrightness(img.data[..], img.width, x1, x2, y1, y2)
  {
    var data := img.data;
    ghost var s := data[..];
    ghost var cols := Steps(x1, x2);
    var total := Finite(0.0);
    var count := 0;
    var y := y1;
    ghost var i := 0;
    StepsExact(y1, y2, 0);
    while y < y2
      invariant 0 <= i <= Steps(y1, y2) && y == y1 + i as real
      invariant total == RegionLuma(s, img.width, y1, x1, i, cols)
      invariant count == i * cols
      decreases Steps(y1, y2) - i
    {
      StepsExact(y1, y2, i);
      var x := x1;
      ghost var j := 0;
      StepsExact(x1, x2, 0);
      while x < x2
        invariant 0 <= j <= cols && x == x1 + j as real
        invariant total == Add(RegionLuma(s, img.width, y1, x1, i, cols), RowLuma(s, img.width, y, x1, j))
        invariant count == i * cols + j
        decreases cols - j
      {
        StepsExact(x1, x2, j);
        var idx := Index(img.width, y, x);
        total := Add(total, LumaAt(data[..], idx));
        count := count + 1;
        x, j := x + 1.0, j + 1;
      }
      StepsExact(x1, x2, j);
      assert count == (i + 1) * cols;
      y, i := y + 1.0, i + 1;
    }
    StepsExact(y1, y2, i);
    b := DivByCount(total, count);
  }

  /** A NaN luma at the first column makes the whole row sum NaN. */
  lemma {:induction false} RowLumaNaN(s: seq<Byte>, w: nat, y: real, x1: real, cols: nat)
    requires cols >= 1 && LumaAt(s, Index(w, y, x1)) == NaN
    ensures RowLuma(s, w, y, x1, cols) == NaN
  {
    if cols > 1 {
      RowLumaNaN(s, w, y, x1, cols - 1);
    }
  }

  /** A NaN first row makes the whole region sum NaN. */
  lemma {:induction false} RegionLumaNaN(s: seq<Byte>, w: nat, y1: real, x1: real, rows: nat, cols: nat)
    requires rows >= 1 && RowLuma(s, w, y1, x1, cols) == NaN
    ensures RegionLuma(s, w, y1, x1, rows, cols) == NaN
  {
    if rows > 1 {
      RegionLumaNaN(s, w, y1, x1, rows - 1, cols);
    }
  }

  /** When the width is not a multiple of 3 the middle band starts at a fraction and its mean is NaN. */
  lemma {:induction false} MiddleBandNaN(s: seq<Byte>, w: nat, h: nat)
    requires IsImageShape(|s|, w, h) && w % 3 != 0
    ensures RegionBrightness(s, w, w as real / 3.0, 2.0 * w as real / 3.0, 0.0, h as real) == NaN
  {
    var x1 := w as real / 3.0;
    var idx := Index(w, 0.0, x1);
    assert idx == 4.0 * w as real / 3.0;
    LumaAtFraction(s, idx);
    StepsExact(x1, 2.0 * w as real / 3.0, 0);
    StepsExact(0.0, h as real, 0);
    RowLumaNaN(s, w, 0.0, x1, Steps(x1, 2.0 * w as real / 3.0));
    RegionLumaNaN(s, w, 0.0, x1, Steps(0.0, h as real), Steps(x1, 2.0 * w as real / 3.0));
  }

  /** Over whole pixels inside the image every read is defined: the row sum is finite and at most 255 per column. */
  lemma {:induction false} RowLumaOfPixels(s: seq<Byte>, w: nat, h: nat, y: nat, x1: nat, cols: nat)
    requires IsImageShape(|s|, w, h) && y < h && x1 + cols <= w
    ensures RowLuma(s, w, y as real, x1 as real, cols).Finite?
    ensures 0.0 <= RowLuma(s, w, y as real, x1 as real, cols).v <= 255.0 * cols as real
  {
    if cols > 0 {
      RowLumaOfPixels(s, w, h, y, x1, cols - 1);
      var x := x1 + cols - 1;
      PixelInImage(w, h, x, y);
      IndexOfPixel(w, x, y);
      LumaAtPixel(s, y * w + x);
    }
  }

  lemma {:induction false} RegionLumaOfPixels(s: seq<Byte>, w: nat, h: nat, y1: nat, x1: nat, rows: nat, cols: nat)
    requires IsImageShape(|s|, w, h) && y1 + rows <= h && x1 + cols <= w
    ensures RegionLuma(s, w, y1 as real, x1 as real, rows, cols).Finite?
    ensures 0.0 <= RegionLuma(s, w, y1 as real, x1 as real, rows, cols).v <= 255.0 * (rows * cols) as real
  {
    if rows > 0 {
      RegionLumaOfPixels(s, w, h, y1, x1, rows - 1, cols);
      RowLumaOfPixels(s, w, h, y1 + rows - 1, x1, cols);
      MulStep(rows - 1, cols);
    }
  }

  /** A non-empty region with integer bounds inside the image has a finite mean luma in [0, 255]. */
  lemma {:induction false} RegionBrightnessOfPixels(s: seq<Byte>, w: nat, h: nat, x1: nat, x2: nat, y1: nat, y2: nat)
    requires IsImageShape(|s|, w, h) && x1 < x2 <= w && y1 < y2 <= h
    ensures RegionBrightness(s, w, x1 as real, x2 as real, y1 as real, y2 as real).Finite?
    ensures 0.0 <= RegionBrightness(s, w, x1 as real, x2 as real, y1 as real, y2 as real).v <= 255.0
  {
    StepsOfIntegers(x1, x2);
    StepsOfIntegers(y1, y2);
    var rows, cols := y2 - y1, x2 - x1;
    RegionLumaOfPixels(s, w, h, y1, x1, rows, cols);
    ProductAtLeastOne(rows, cols);
    MeanBounded(RegionLuma(s, w, y1 as real, x1 as real, rows, cols).v, (rows * cols) as real, 255.0);
  }

  // ---------------------------------------------------------------- rule of thirds

  /** The three band means are defined and pairwise closer than 40. */
  predicate WithinForty(t: (Num, Num, Num)) {
    t.0.Finite? && t.1.Finite? && t.2.Finite? &&
    Abs(t.0.v - t.1.v) < 40.0 && Abs(t.0.v - t.2.v) < 40.0 && Abs(t.1.v - t.2.v) < 40.0
  }

  /** `Math.max(...t) - Math.min(...t)`. */
  function Spread(t: (Num, Num, Num)): Num {
    Sub(Max3(t.0, t.1, t.2), Min3(t.0, t.1, t.2))
  }

  /** `evaluateComposition`: balanced exactly when both triples are defined and pairwise within 40. */
  function EvaluateComposition(horizontal: (Num, Num, Num), vertical: (Num, Num, Num)): (v: ThirdsVerdict)
    ensures v == Balanced <==> WithinForty(horizontal) && WithinForty(vertical)
  {
    if Less(Spread(horizontal), 40.0) && Less(Spread(vertical), 40.0) then Balanced else Dynamic
  }

  /** The three vertical bands (left, centre, right) of `analyzeComposition`. */
  function HorizontalThirds(s: seq<Byte>, w: nat, h: nat): (Num, Num, Num) {
    var W, H := w as real, h as real;
    (RegionBrightness(s, w, 0.0, W / 3.0, 0.0, H),
     RegionBrightness(s, w, W / 3.0, 2.0 * W / 3.0, 0.0, H),
     RegionBrightness(s, w, 2.0 * W / 3.0, W, 0.0, H))
  }

  /** The three horizontal bands (top, middle, bottom) of `analyzeComposition`. */
  function VerticalThirds(s: seq<Byte>, w: nat, h: nat): (Num, Num, Num) {
    var W, H := w as real, h as real;
    (RegionBrightness(s, w, 0.0, W, 0.0, H / 3.0),
     RegionBrightness(s, w, 0.0, W, H / 3.0, 2.0 * H / 3.0),
     RegionBrightness(s, w, 0.0, W, 2.0 * H / 3.0, H))
  }

  /** A width that is not a multiple of 3 always yields 'dynamic'. */
  lemma {:induction false} FractionalThirdsAreDynamic(s: seq<Byte>, w: nat, h: nat)
    requires IsImageShape(|s|, w, h) && w % 3 != 0
    ensures EvaluateComposition(HorizontalThirds(s, w, h), VerticalThirds(s, w, h)) == Dynamic
  {
    MiddleBandNaN(s, w, h);
  }

  /** A finite band mean in [0, 255]. */
  predicate IsBandMean(b: Num) {
    b.Finite? && 0.0 <= b.v <= 255.0
  }

  /** When the width is a multiple of 3 the left, centre and right band means are defined. */
  lemma {:induction false} DivisibleWidthBandsDefined(s: seq<Byte>, w: nat, h: nat)
    requires IsImageShape(|s|, w, h) && w % 3 == 0
    ensures IsBandMean(HorizontalThirds(s, w, h).0)
    ensures IsBandMean(HorizontalThirds(s, w, h).1)
    ensures IsBandMean(HorizontalThirds(s, w, h).2)
  {
    var w3 := w / 3;
    ThirdsOfMultiple(w);
    RegionBrightnessOfPixels(s, w, h, 0, w3, 0, h);
    RegionBrightnessOfPixels(s, w, h, w3, 2 * w3, 0, h);
    RegionBrightnessOfPixels(s, w, h, 2 * w3, w, 0, h);
  }

  /** When the height is a multiple of 3 the top, middle and bottom band means are defined. */
  lemma {:induction false} DivisibleHeightBandsDefined(s: seq<Byte>, w: nat, h: nat)
    requires IsImageShape(|s|, w, h) && h % 3 == 0
    ensures IsBandMean(VerticalThirds(s, w, h).0)
    ensures IsBandMean(VerticalThirds(s, w, h).1)
    ensures IsBandMean(VerticalThirds(s, w, h).2)
  {
    var h3 := h / 3;
    ThirdsOfMultiple(h);
    RegionBrightnessOfPixels(s, w, h, 0, w, 0, h3);
    RegionBrightnessOfPixels(s, w, h, 0, w, h3, 2 * h3);
    RegionBrightnessOfPixels(s, w, h, 0, w, 2 * h3, h);
  }

  // ---------------------------------------------------------------- symmetry

  /** The luma of pixel (x, y). */
  function PixelLuma(s: seq<Byte>, w: nat, h: nat, x: nat, y: nat): real
    requires IsImageShape(|s|, w, h) && x < w && y < h
  {
    PixelInImage(w, h, x, y);
    Luma(s, y * w + x)
  }

  /** `1 - |luma(x, y) - luma(w - 1 - x, y)| / 255`. */
  function SymmetryTerm(s: seq<Byte>, w: nat, h: nat, x: nat, y: nat): (t: real)
    requires IsImageShape(|s|, w, h) && x < w && y < h
    ensures 0.0 <= t <= 1.0
  {
    1.0 - Abs(PixelLuma(s, w, h, x, y) - PixelLuma(s, w, h, w - 1 - x, y)) / 255.0
  }

  /** The sum of the symmetry terms of columns x < k of row y. */
  function SymmetryRow(s: seq<Byte>, w: nat, h: nat, y: nat, k: nat): (sum: real)
    requires IsImageShape(|s|, w, h) && y < h && k <= w
    ensures 0.0 <= sum <= k as real
  {
    if k == 0 then 0.0 else SymmetryRow(s, w, h, y, k - 1) + SymmetryTerm(s, w, h, k - 1, y)
  }

  /** The sum of SymmetryRow over rows y < rows, for the left half of each row. */
  function SymmetrySum(s: seq<Byte>, w: nat, h: nat, rows: nat): (sum: real)
    requires IsImageShape(|s|, w, h) && rows <= h
    ensures 0.0 <= sum <= (rows * (w / 2)) as real
  {
    if rows == 0 then 0.0
    else
      MulStep(rows - 1, w / 2);
      SymmetrySum(s, w, h, rows - 1) + SymmetryRow(s, w, h, rows - 1, w / 2)
  }

  /** What `calculateSymmetry` returns: the mean term over the left half, NaN for width 1. */
  function SymmetryOf(s: seq<Byte>, w: nat, h: nat): Num
    requires IsImageShape(|s|, w, h)
  {
    DivByCount(Finite(SymmetrySum(s, w, h, h)), (w / 2) * h)
  }

  /** `calculateSymmetry`. */
  method CalculateSymmetry(img: ImageData) returns (symmetry: Num)
    requires img.Valid()
    ensures symmetry == SymmetryOf(img.data[..], img.width, img.height)
  {
    ghost var s := img.data[..];
    var width, height := img.width, img.height;
    var sum := 0.0;
    var y := 0;
    while y < height
      invariant 0 <= y <= height
      invariant sum == SymmetrySum(s, width, height, y)
    {
      var row := RowSymmetry(img, y);
      sum := sum + row;
      y := y + 1;
    }
    var count := (width / 2) * height;
    symmetry := DivByCount(Finite(sum), count);
  }

  /** The inner loop of `calculateSymmetry` over the left half of row y. */
  method RowSymmetry(img: ImageData, y: nat) returns (sum: real)
    requires img.Valid() && y < img.height
    ensures sum == SymmetryRow(img.data[..], img.width, img.height, y, img.width / 2)
  {
    var data := img.data;
    ghost var s := data[..];
    var width := img.width;
    var half := width / 2;
    sum := 0.0;
    var x := 0;
    while x < half
      invariant 0 <= x <= half
      invariant sum == SymmetryRow(s, width, img.height, y, x)
    {
      var leftIdx := (y * width + x) * 4;
      var rightIdx := (y * width + (width - 1 - x)) * 4;
      PixelBytesInBuffer(width, img.height, x, y);
      PixelBytesInBuffer(width, img.height, width - 1 - x, y);
      var leftBright := (data[leftIdx] as int + data[leftIdx + 1] + data[leftIdx + 2]) as real / 3.0;
      var rightBright := (data[rightIdx] as int + data[rightIdx + 1] + data[rightIdx + 2]) as real / 3.0;
      assert leftBright == PixelLuma(s, width, img.height, x, y);
      assert rightBright == PixelLuma(s, width, img.height, width - 1 - x, y);
      sum := sum + (1.0 - Abs(leftBright - rightBright) / 255.0);
      x := x + 1;
    }
  }

  /** For width at least 2 the symmetry score is defined and lies in [0, 1]. */
  lemma {:induction false} SymmetryInUnitRange(s: seq<Byte>, w: nat, h: nat)
    requires IsImageShape(|s|, w, h) && w >= 2
    ensures SymmetryOf(s, w, h).Finite?
    ensures 0.0 <= SymmetryOf(s, w, h).v <= 1.0
  {
    var n := (w / 2) * h;
    ProductAtLeastOne(w / 2, h);
    MeanBounded(SymmetrySum(s, w, h, h), n as real, 1.0);
  }

  /** For width 1 the left half is empty and the score is 0 / 0 = NaN. */
  lemma {:induction false} SymmetryOfWidthOne(s: seq<Byte>, h: nat)
    requires IsImageShape(|s|, 1, h)
    ensures SymmetryOf(s, 1, h) == NaN
  {
  }

  /** Every row's luma is mirrored about the vertical centre line. */
  predicate Mirrored(s: seq<Byte>, w: nat, h: nat)
    requires IsImageShape(|s|, w, h)
  {
    forall x: nat, y: nat :: x < w && y < h ==> PixelLuma(s, w, h, x, y) == PixelLuma(s, w, h, w - 1 - x, y)
  }

  lemma {:induction false} MirroredRow(s: seq<Byte>, w: nat, h: nat, y: nat, k: nat)
    requires IsImageShape(|s|, w, h) && Mirrored(s, w, h) && y < h && k <= w
    ensures SymmetryRow(s, w, h, y, k) == k as real
  {
    if k > 0 {
      MirroredRow(s, w, h, y, k - 1);
      assert PixelLuma(s, w, h, k - 1, y) == PixelLuma(s, w, h, w - 1 - (k - 1), y);
    }
  }

  lemma {:induction false} MirroredSum(s: seq<Byte>, w: nat, h: nat, rows: nat)
    requires IsImageShape(|s|, w, h) && Mirrored(s, w, h) && rows <= h
    ensures SymmetrySum(s, w, h, rows) == (rows * (w / 2)) as real
  {
    if rows > 0 {
      MirroredSum(s, w, h, rows - 1);
      MirroredRow(s, w, h, rows - 1, w / 2);
      MulStep(rows - 1, w / 2);
    }
  }

  /** A mirrored image of width at least 2 scores exactly 1. */
  lemma {:induction false} MirroredIsFullySymmetric(s: seq<Byte>, w: nat, h: nat)
    requires IsImageShape(|s|, w, h) && Mirrored(s, w, h) && w >= 2
    ensures SymmetryOf(s, w, h) == Finite(1.0)
  {
    MirroredSum(s, w, h, h);
    MulCommutes(h, w / 2);
    ProductAtLeastOne(w / 2, h);
    DivByOwnCount((w / 2) * h);
  }

  // ---------------------------------------------------------------- focus

  /**
   * The test inside `countEdgesInRegion` at (x, y): only columns left of
   * `width - 1` are compared with their right neighbour, and a comparison
   * involving NaN is false.
   */
  predicate EdgeAt(s: seq<Byte>, w: nat, y: real, x: real) {
    x < w as real - 1.0 &&
    var a, b := LumaAt(s, Index(w, y, x)), LumaAt(s, Index(w, y, x + 1.0));
    a.Finite? && b.Finite? && Abs(a.v - b.v) > 25.0
  }

  /** The edges at columns x1, x1 + 1, ... (cols of them) of row y. */
  function RowEdges(s: seq<Byte>, w: nat, y: real, x1: real, cols: nat): nat {
    if cols == 0 then 0
    else RowEdges(s, w, y, x1, cols - 1) + (if EdgeAt(s, w, y, x1 + (cols - 1) as real) then 1 else 0)
  }

  /** The edges of rows y1, y1 + 1, ... (rows of them). */
  function RegionEdges(s: seq<Byte>, w: nat, y1: real, x1: real, rows: nat, cols: nat): nat {
    if rows == 0 then 0
    else RegionEdges(s, w, y1, x1, rows - 1, cols) + RowEdges(s, w, y1 + (rows - 1) as real, x1, cols)
  }

  /** What `countEdgesInRegion(x1, x2, y1, y2)` returns: the loops start at max(0, .) and stop below min(size, .). */
  function EdgesInRegion(s: seq<Byte>, w: nat, h: nat, x1: real, x2: real, y1: real, y2: real): nat {
    var ys, xs := MaxReal(0.0, y1), MaxReal(0.0, x1);
    RegionEdges(s, w, ys, xs, Steps(ys, MinReal(h as real, y2)), Steps(xs, MinReal(w as real, x2)))
  }

  /** `countEdgesInRegion`. */
  method CountEdgesInRegion(img: ImageData, x1: real, x2: real, y1: real, y2: real) returns (edges: nat)
    requires img.Valid()
    ensures edges == EdgesInRegion(img.data[..], img.width, img.height, x1, x2, y1, y2)
  {
    ghost var s := img.data[..];
    ghost var ys, xs := MaxReal(0.0, y1), MaxReal(0.0, x1);
    ghost var rows, cols := Steps(ys, MinReal(img.height as real, y2)), Steps(xs, MinReal(img.width as real, x2));
    edges := 0;
    var y := MaxReal(0.0, y1);
    ghost var i := 0;
    StepsExact(ys, MinReal(img.height as real, y2), 0);
    while y < MinReal(img.height as real, y2)
      invariant 0 <= i <= rows && y == ys + i as real
      invariant edges == RegionEdges(s, img.width, ys, xs, i, cols)
      decreases rows - i
    {
      StepsExact(ys, MinReal(img.height as real, y2), i);
      var n := CountRowEdges(img, y, x1, x2);
      edges, y, i := edges + n, y + 1.0, i + 1;
    }
    StepsExact(ys, MinReal(img.height as real, y2), i);
  }

  /** The inner loop of `countEdgesInRegion`: the edges of row y between max(0, x1) and min(width, x2). */
  method CountRowEdges(img: ImageData, y: real, x1: real, x2: real) returns (edges: nat)
    requires img.Valid()
    ensures edges == RowEdges(img.data[..], img.width, y, MaxReal(0.0, x1), Steps(MaxReal(0.0, x1), MinReal(img.width as real, x2)))
  {
    var data := img.data;
    ghost var s := data[..];
    var width := img.width;
    ghost var xs := MaxReal(0.0, x1);
    ghost var cols := Steps(xs, MinReal(width as real, x2));
    edges := 0;
    var x := MaxReal(0.0, x1);
    ghost var j := 0;
    StepsExact(xs, MinReal(width as real, x2), 0);
    while x < MinReal(width as real, x2)
      invariant 0 <= j <= cols && x == xs + j as real
      invariant edges == RowEdges(s, width, y, xs, j)
      decreases cols - j
    {
      StepsExact(xs, MinReal(width as real, x2), j);
      var idx := Index(width, y, x);
      if x < width as real - 1.0 {
        var nextIdx := Index(width, y, x + 1.0);
        var brightness := LumaAt(data[..], idx);
        var nextBrightness := LumaAt(data[..], nextIdx);
        if brightness.Finite? && nextBrightness.Finite? && Abs(brightness.v - nextBrightness.v) > 25.0 {
          edges := edges + 1;
        }
      }
      x, j := x + 1.0, j + 1;
    }
    StepsExact(xs, MinReal(width as real, x2), j);
  }

  /** `centerEdges / totalEdges > t` for counts and t > 0: x / 0 is +Infinity for x > 0 and NaN for x = 0. */
  function RatioAbove(a: nat, b: nat, t: real): (r: bool)
    ensures b > 0 ==> (r <==> a as real > t * b as real)
    ensures b == 0 ==> (r <==> a > 0)
  {
    if b == 0 then a > 0 else a as real / b as real > t
  }

  /** The centre square of `detectFocusArea`: side min(w, h) / 4 around (w / 2, h / 2), as (x1, x2, y1, y2). */
  function CenterSquare(w: nat, h: nat): (real, real, real, real) {
    var cx, cy := w as real / 2.0, h as real / 2.0;
    var cs := MinReal(w as real, h as real) / 4.0;
    (cx - cs / 2.0, cx + cs / 2.0, cy - cs / 2.0, cy + cs / 2.0)
  }

  function CenterEdges(s: seq<Byte>, w: nat, h: nat): nat {
    var (x1, x2, y1, y2) := CenterSquare(w, h);
    EdgesInRegion(s, w, h, x1, x2, y1, y2)
  }

  function TotalEdges(s: seq<Byte>, w: nat, h: nat): nat {
    EdgesInRegion(s, w, h, 0.0, w as real, 0.0, h as real)
  }

  /** What `detectFocusArea` returns. */
  function FocusOf(s: seq<Byte>, w: nat, h: nat): Focus {
    if RatioAbove(CenterEdges(s, w, h), TotalEdges(s, w, h), 0.3) then Centered else Distributed
  }

  /** `detectFocusArea`. */
  method DetectFocusArea(img: ImageData) returns (focus: Focus)
    requires img.Valid()
    ensures focus == FocusOf(img.data[..], img.width, img.height)
  {
    var centerX := img.width as real / 2.0;
    var centerY := img.height as real / 2.0;
    var centerSize := MinReal(img.width as real, img.height as real) / 4.0;
    var centerEdges := CountEdgesInRegion(img, centerX - centerSize / 2.0, centerX + centerSize / 2.0,
                                              centerY - centerSize / 2.0, centerY + centerSize / 2.0);
    var totalEdges := CountEdgesInRegion(img, 0.0, img.width as real, 0.0, img.height as real);
    focus := if RatioAbove(centerEdges, totalEdges, 0.3) then Centered else Distributed;
  }

  lemma {:induction false} RowEdgesSplit(s: seq<Byte>, w: nat, y: real, x1: real, a: nat, b: nat)
    ensures RowEdges(s, w, y, x1, a + b) == RowEdges(s, w, y, x1, a) + RowEdges(s, w, y, x1 + a as real, b)
  {
    if b > 0 {
      RowEdgesSplit(s, w, y, x1, a, b - 1);
      assert x1 + (a + b - 1) as real == (x1 + a as real) + (b - 1) as real;
    }
  }

  /** A run of columns starting at an integer column inside the row counts no more than the whole row. */
  lemma {:induction false} RowEdgesWithinRow(s: seq<Byte>, w: nat, y: real, x1: nat, cols: nat)
    requires x1 + cols <= w
    ensures RowEdges(s, w, y, x1 as real, cols) <= RowEdges(s, w, y, 0.0, w)
  {
    RowEdgesSplit(s, w, y, 0.0, x1, w - x1);
    RowEdgesSplit(s, w, y, x1 as real, cols, w - x1 - cols);
  }

  lemma {:induction false} RegionEdgesSplit(s: seq<Byte>, w: nat, y1: real, x1: real, a: nat, b: nat, cols: nat)
    ensures RegionEdges(s, w, y1, x1, a + b, cols)
         == RegionEdges(s, w, y1, x1, a, cols) + RegionEdges(s, w, y1 + a as real, x1, b, cols)
  {
    if b > 0 {
      RegionEdgesSplit(s, w, y1, x1, a, b - 1, cols);
      assert y1 + (a + b - 1) as real == (y1 + a as real) + (b - 1) as real;
    }
  }

  lemma {:induction false} RegionEdgesWithinRows(s: seq<Byte>, w: nat, y1: real, x1: nat, rows: nat, cols: nat)
    requires x1 + cols <= w
    ensures RegionEdges(s, w, y1, x1 as real, rows, cols) <= RegionEdges(s, w, y1, 0.0, rows, w)
  {
    if rows > 0 {
      RegionEdgesWithinRows(s, w, y1, x1, rows - 1, cols);
      RowEdgesWithinRow(s, w, y1 + (rows - 1) as real, x1, cols);
    }
  }

  lemma {:induction false} RegionEdgesNoColumns(s: seq<Byte>, w: nat, y1: real, x1: real, rows: nat)
    ensures RegionEdges(s, w, y1, x1, rows, 0) == 0
  {
    if rows > 0 {
      RegionEdgesNoColumns(s, w, y1, x1, rows - 1);
    }
  }

  /** A region with integer bounds never counts more edges than the whole image. */
  lemma {:induction false} IntegralRegionWithinTotal(s: seq<Byte>, w: nat, h: nat, x1: int, x2: int, y1: int, y2: int)
    ensures EdgesInRegion(s, w, h, x1 as real, x2 as real, y1 as real, y2 as real) <= TotalEdges(s, w, h)
  {
    var xs: nat, ys: nat := if x1 < 0 then 0 else x1, if y1 < 0 then 0 else y1;
    var xe, ye := if x2 < w then x2 else w, if y2 < h then y2 else h;
    assert MaxReal(0.0, x1 as real) == xs as real && MaxReal(0.0, y1 as real) == ys as real;
    assert MinReal(w as real, x2 as real) == xe as real && MinReal(h as real, y2 as real) == ye as real;
    StepsOfIntegers(xs, xe);
    StepsOfIntegers(ys, ye);
    StepsOfIntegers(0, w);
    StepsOfIntegers(0, h);
    var rows, cols := Steps(ys as real, ye as real), Steps(xs as real, xe as real);
    assert TotalEdges(s, w, h) == RegionEdges(s, w, 0.0, 0.0, h, w);
    if cols == 0 {
      RegionEdgesNoColumns(s, w, ys as real, xs as real, rows);
    } else if rows > 0 {
      SubRegionWithinTotal(s, w, h, ys, rows, xs, cols);
    }
  }

  /** A block of whole rows and columns inside the image counts no more edges than the whole image. */
  lemma {:induction false} SubRegionWithinTotal(s: seq<Byte>, w: nat, h: nat, ys: nat, rows: nat, xs: nat, cols: nat)
    requires ys + rows <= h && xs + cols <= w
    ensures RegionEdges(s, w, ys as real, xs as real, rows, cols) <= RegionEdges(s, w, 0.0, 0.0, h, w)
  {
    if cols == 0 {
      RegionEdgesNoColumns(s, w, ys as real, xs as real, rows);
    } else {
      RegionEdgesWithinRows(s, w, ys as real, xs, rows, cols);
    }
    if rows > 0 {
      RegionEdgesSplit(s, w, 0.0, 0.0, ys, h - ys, w);
      RegionEdgesSplit(s, w, ys as real, 0.0, rows, h - ys - rows, w);
    }
  }

  /** The centre square has integer bounds. */
  predicate IntegralCenter(w: nat, h: nat) {
    var (x1, x2, y1, y2) := CenterSquare(w, h);
    IsInteger(x1) && IsInteger(x2) && IsInteger(y1) && IsInteger(y2)
  }

  /** With integer centre bounds the centre count is part of the total count, so zero edges give 'distributed'. */
  lemma {:induction false} ZeroEdgesAreDistributed(s: seq<Byte>, w: nat, h: nat)
    requires IntegralCenter(w, h)
    ensures CenterEdges(s, w, h) <= TotalEdges(s, w, h)
    ensures TotalEdges(s, w, h) == 0 ==> FocusOf(s, w, h) == Distributed
  {
    var (x1, x2, y1, y2) := CenterSquare(w, h);
    IntegralRegionWithinTotal(s, w, h, x1.Floor, x2.Floor, y1.Floor, y2.Floor);
  }

  /** Sides that are multiples of 8 give integer centre bounds. */
  lemma {:induction false} MultiplesOfEightHaveIntegralCenter(w: nat, h: nat)
    requires w % 8 == 0 && h % 8 == 0
    ensures IntegralCenter(w, h)
  {
    var p, q := w / 8, h / 8;
    assert w == 8 * p && h == 8 * q;
    var m, k := if w <= h then w else h, if p <= q then p else q;
    assert m == 8 * k;
    var a, b := 4 * p, 4 * q;
    assert w as real / 2.0 == a as real;
    assert h as real / 2.0 == b as real;
    assert MinReal(w as real, h as real) == m as real;
    assert m as real / 4.0 / 2.0 == k as real;
    var (x1, x2, y1, y2) := CenterSquare(w, h);
    assert x1 == (a - k) as real && x2 == (a + k) as real;
    assert y1 == (b - k) as real && y2 == (b + k) as real;
    IntegersAreIntegral(a - k, a + k, b - k, b + k);
  }

  lemma {:induction false} IntegersAreIntegral(p: int, q: int, r: int, t: int)
    ensures IsInteger(p as real) && IsInteger(q as real) && IsInteger(r as real) && IsInteger(t as real)
  {
  }

  /** A 2x2 image: a black top row, then a dark red and a dark green pixel of equal brightness. */
  function TinyImage(): seq<Byte> {
    [0, 0, 0, 255,  0, 0, 0, 255,  90, 0, 0, 255,  0, 90, 0, 255]
  }

  /**
   * On a 2x2 image the centre square spans 0.75 .. 1.25, so its single probe
   * reads bytes 9 .. 11 and 13 .. 15 (green, blue and alpha of the bottom
   * pixels): the centre finds an edge the whole-image scan does not, and
   * 1 / 0 = Infinity makes the focus 'centered'.
   */
  lemma {:induction false} TinyImageIsCentered()
    ensures TotalEdges(TinyImage(), 2, 2) == 0
    ensures CenterEdges(TinyImage(), 2, 2) == 1
    ensures FocusOf(TinyImage(), 2, 2) == Centered
  {
    TinyImageHasNoEdges();
    TinyCenterHasOneEdge();
  }

  /** On whole pixels the 2x2 image has no luma step above 25: its lumas are 0, 0, 30 and 30. */
  lemma {:induction false} TinyImageHasNoEdges()
    ensures TotalEdges(TinyImage(), 2, 2) == 0
  {
    var s := TinyImage();
    StepsOfIntegers(0, 2);
    LumaAtPixel(s, 0);
    LumaAtPixel(s, 1);
    LumaAtPixel(s, 2);
    LumaAtPixel(s, 3);
    assert Index(2, 0.0, 0.0) == 0.0 && Index(2, 0.0, 1.0) == 4.0;
    assert Index(2, 1.0, 0.0) == 8.0 && Index(2, 1.0, 1.0) == 12.0;
    assert !EdgeAt(s, 2, 0.0, 0.0) && !EdgeAt(s, 2, 1.0, 0.0);
    assert TotalEdges(s, 2, 2) == RegionEdges(s, 2, 0.0, 0.0, 2, 2);
  }

  /** The single probe of the 2x2 centre square compares 85 with 115 and counts an edge. */
  lemma {:induction false} TinyCenterHasOneEdge()
    ensures CenterEdges(TinyImage(), 2, 2) == 1
  {
    var s := TinyImage();
    assert CenterSquare(2, 2) == (0.75, 1.25, 0.75, 1.25);
    assert Steps(0.75, 1.25) == 1;
    assert Index(2, 0.75, 0.75) == 9.0 && Index(2, 0.75, 1.75) == 13.0;
    assert IsInteger(9.0) && IsInteger(10.0) && IsInteger(11.0);
    assert IsInteger(13.0) && IsInteger(14.0) && IsInteger(15.0);
    assert LumaAt(s, 9.0) == Finite(85.0) && LumaAt(s, 13.0) == Finite(115.0);
    assert EdgeAt(s, 2, 0.75, 0.75);
    assert CenterEdges(s, 2, 2) == RegionEdges(s, 2, 0.75, 0.75, 1, 1);
  }

  // ---------------------------------------------------------------- analyzeComposition

  /** What `analyzeComposition` returns. */
  function CompositionOf(s: seq<Byte>, w: nat, h: nat): CompositionStats
    requires IsImageShape(|s|, w, h)
  {
    CompositionStats(EvaluateComposition(HorizontalThirds(s, w, h), VerticalThirds(s, w, h)),
                     SymmetryOf(s, w, h), FocusOf(s, w, h))
  }

  /** The `horizontalThirds` array of `analyzeComposition`. */
  method MeasureHorizontalThirds(img: ImageData) returns (t: (Num, Num, Num))
    requires img.Valid()
    ensures t == HorizontalThirds(img.data[..], img.width, img.height)
  {
    var width, height := img.width as real, img.height as real;
    var left := GetRegionBrightness(img, 0.0, width / 3.0, 0.0, height);
    var center := GetRegionBrightness(img, width / 3.0, 2.0 * width / 3.0, 0.0, height);
    var right := GetRegionBrightness(img, 2.0 * width / 3.0, width, 0.0, height);
    t := (left, center, right);
  }

  /** The `verticalThirds` array of `analyzeComposition`. */
  method MeasureVerticalThirds(img: ImageData) returns (t: (Num, Num, Num))
    requires img.Valid()
    ensures t == VerticalThirds(img.data[..], img.width, img.height)
  {
    var width, height := img.width as real, img.height as real;
    var top := GetRegionBrightness(img, 0.0, width, 0.0, height / 3.0);
    var middle := GetRegionBrightness(img, 0.0, width, height / 3.0, 2.0 * height / 3.0);
    var bottom := GetRegionBrightness(img, 0.0, width, 2.0 * height / 3.0, height);
    t := (top, middle, bottom);
  }

  /** `analyzeComposition`: six band means, the symmetry score and the focus. */
  method AnalyzeComposition(img: ImageData) returns (c: CompositionStats)
    requires img.Valid()
    ensures c == CompositionOf(img.data[..], img.width, img.height)
    ensures c.ruleOfThirds == Balanced <==>
              WithinForty(HorizontalThirds(img.data[..], img.width, img.height)) &&
              WithinForty(VerticalThirds(img.data[..], img.width, img.height))
  {
    var horizontal := MeasureHorizontalThirds(img);
    var vertical := MeasureVerticalThirds(img);
    var symmetry := CalculateSymmetry(img);
    var focus := DetectFocusArea(img);
    c := CompositionStats(EvaluateComposition(horizontal, vertical), symmetry, focus);
  }
}
