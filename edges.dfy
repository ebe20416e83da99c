/**
 * Edge statistics of a frame (`analyzeEdges`): every pair of consecutive
 * pixels of the flat buffer is compared, so the last pixel of a row is
 * compared with the first pixel of the next row.
 */
module Edges {
  import opened JsNumber
  import opened Pixels

  datatype Complexity = Low | Medium | High

  datatype EdgeStats = EdgeStats(edgeDensity: real, complexity: Complexity)

  /** Pixels p and p + 1 of the flat buffer differ in luma by more than 25. */
  predicate IsEdge(s: seq<Byte>, p: nat)
    requires 4 * p + 6 < |s|
  {
    Abs(Luma(s, p) - Luma(s, p + 1)) > 25.0
  }

  /** The number of edges among the pairs (p, p + 1) with p < k. */
  function EdgeCount(s: seq<Byte>, k: nat): (c: nat)
    requires 4 * k + 4 <= |s|
    ensures c <= k
  {
    if k == 0 then 0 else EdgeCount(s, k - 1) + (if IsEdge(s, k - 1) then 1 else 0)
  }

  /** High above a density of 0.1, medium above 0.05, low otherwise. */
  function ComplexityOf(density: real): (c: Complexity)
    ensures c == High <==> density > 0.1
    ensures c == Medium <==> 0.05 < density <= 0.1
    ensures c == Low <==> density <= 0.05
  {
    if density > 0.1 then High else if density > 0.05 then Medium else Low
  }

  /** The edge statistics `analyzeEdges` returns for a w-by-h buffer s. */
  function EdgesOf(s: seq<Byte>, w: nat, h: nat): EdgeStats
    requires IsImageShape(|s|, w, h)
  {
    ImageIsPixels(s, w, h);
    var density := EdgeCount(s, PixelCount(s) - 1) as real / (w * h) as real;
    EdgeStats(density, ComplexityOf(density))
  }

  /** `analyzeEdges`. */
  method AnalyzeEdges(img: ImageData) returns (e: EdgeStats)
    requires img.Valid()
    ensures e == EdgesOf(img.data[..], img.width, img.height)
    ensures 0.0 <= e.edgeDensity < 1.0
  {
    var data := img.data;
    ghost var s := data[..];
    ImageIsPixels(s, img.width, img.height);
    var edgeCount := 0;
    var i := 0;
    ghost var p := 0;
    while i < data.Length - 4
      invariant i == 4 * p && 0 <= i <= data.Length - 4
      invariant edgeCount == EdgeCount(s, p)
    {
      var brightness := (data[i] as int + data[i + 1] + data[i + 2]) as real / 3.0;
      var nextBrightness := (data[i + 4] as int + data[i + 5] + data[i + 6]) as real / 3.0;
      if Abs(brightness - nextBrightness) > 25.0 {
        edgeCount := edgeCount + 1;
      }
      i, p := i + 4, p + 1;
    }
    var edgeDensity := edgeCount as real / (img.width * img.height) as real;
    e := EdgeStats(edgeDensity, ComplexityOf(edgeDensity));
    DensityBelowOne(s, img.width, img.height);
  }

  /** At most n - 1 of the n pixels start an edge, so the density lies in [0, 1). */
  lemma {:induction false} DensityBelowOne(s: seq<Byte>, w: nat, h: nat)
    requires IsImageShape(|s|, w, h)
    ensures 0.0 <= EdgesOf(s, w, h).edgeDensity < 1.0
  {
    ImageIsPixels(s, w, h);
    var n := PixelCount(s);
    FractionBelowOne(EdgeCount(s, n - 1) as real, n as real);
  }

  /** All pixels share one luma. */
  predicate UniformLuma(s: seq<Byte>)
    requires IsPixels(s)
  {
    forall p :: 0 <= p < PixelCount(s) ==> Luma(s, p) == Luma(s, 0)
  }

  lemma {:induction false} UniformHasNoEdgePairs(s: seq<Byte>, k: nat)
    requires IsPixels(s) && UniformLuma(s) && 4 * k + 4 <= |s|
    ensures EdgeCount(s, k) == 0
  {
    if k > 0 {
      UniformHasNoEdgePairs(s, k - 1);
      assert Luma(s, k - 1) == Luma(s, 0) == Luma(s, k);
    }
  }

  /** A buffer of one uniform luma has density 0 and low complexity. */
  lemma {:induction false} UniformImageIsLow(s: seq<Byte>, w: nat, h: nat)
    requires IsImageShape(|s|, w, h) && UniformLuma(s)
    ensures EdgesOf(s, w, h) == EdgeStats(0.0, Low)
  {
    ImageIsPixels(s, w, h);
    UniformHasNoEdgePairs(s, PixelCount(s) - 1);
  }
}
