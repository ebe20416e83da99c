/**
 * `consolidateAnalyses`: the per-frame analyses are merged by appending
 * their tag lists, dropping repeats in order of first appearance, and
 * averaging the confidences; the technical features are the first frame's.
 */
module Consolidate {
  import opened Wrappers
  import opened Collections
  import opened Analysis

  /** The styles of the frames, appended in frame order. */
  function AllStyles(frames: seq<FrameAnalysis>): seq<string> {
    if frames == [] then [] else AllStyles(frames[..|frames| - 1]) + frames[|frames| - 1].styles
  }

  /** The elements of the frames, appended in frame order. */
  function AllElements(frames: seq<FrameAnalysis>): seq<string> {
    if frames == [] then [] else AllElements(frames[..|frames| - 1]) + frames[|frames| - 1].elements
  }

  /** The raw labels of the frames that have some, appended in frame order. */
  function AllLabels(frames: seq<FrameAnalysis>): seq<string> {
    if frames == [] then []
    else
      var last := frames[|frames| - 1];
      AllLabels(frames[..|frames| - 1]) + (if last.rawLabels.Some? then last.rawLabels.value else [])
  }

  /** The sum of the confidences. */
  function TotalConfidence(frames: seq<FrameAnalysis>): real {
    if frames == [] then 0.0 else TotalConfidence(frames[..|frames| - 1]) + frames[|frames| - 1].confidence
  }

  /** What `consolidateAnalyses` returns for a non-empty list of analyses. */
  function Consolidation(frames: seq<FrameAnalysis>): FrameAnalysis
    requires frames != []
  {
    FrameAnalysis(Dedup(AllStyles(frames)), Dedup(AllElements(frames)),
                  TotalConfidence(frames) / |frames| as real,
                  Some(Dedup(AllLabels(frames))), frames[0].technical)
  }

  /** `consolidateAnalyses`: one pass over the analyses, then the repeats are dropped and the sum divided. */
  method ConsolidateAnalyses(frames: seq<FrameAnalysis>) returns (c: FrameAnalysis)
    requires frames != []
    ensures c == Consolidation(frames)
  {
    var styles: seq<string> := [];
    var elements: seq<string> := [];
    var confidence := 0.0;
    var labels: seq<string> := [];
    var i := 0;
    while i < |frames|
      invariant 0 <= i <= |frames|
      invariant styles == AllStyles(frames[..i])
      invariant elements == AllElements(frames[..i])
      invariant labels == AllLabels(frames[..i])
      invariant confidence == TotalConfidence(frames[..i])
    {
      var a := frames[i];
      assert frames[..i + 1][..i] == frames[..i];
      styles := styles + a.styles;
      elements := elements + a.elements;
      confidence := confidence + a.confidence;
      if a.rawLabels.Some? {
        labels := labels + a.rawLabels.value;
      }
      i := i + 1;
    }
    assert frames[..i] == frames;
    c := FrameAnalysis(Dedup(styles), Dedup(elements), confidence / |frames| as real, Some(Dedup(labels)), frames[0].technical);
  }

  /** A style is in the appended list exactly when some frame has it. */
  lemma {:induction false} AllStylesMembers(frames: seq<FrameAnalysis>, x: string)
    ensures x in AllStyles(frames) <==> exists i :: 0 <= i < |frames| && x in frames[i].styles
  {
    if frames != [] {
      var p := frames[..|frames| - 1];
      AllStylesMembers(p, x);
      assert forall i :: 0 <= i < |p| ==> p[i] == frames[i];
    }
  }

  /** An element is in the appended list exactly when some frame has it. */
  lemma {:induction false} AllElementsMembers(frames: seq<FrameAnalysis>, x: string)
    ensures x in AllElements(frames) <==> exists i :: 0 <= i < |frames| && x in frames[i].elements
  {
    if frames != [] {
      var p := frames[..|frames| - 1];
      AllElementsMembers(p, x);
      assert forall i :: 0 <= i < |p| ==> p[i] == frames[i];
    }
  }

  /** A label is in the appended list exactly when some frame with raw labels has it. */
  lemma {:induction false} AllLabelsMembers(frames: seq<FrameAnalysis>, x: string)
    ensures x in AllLabels(frames) <==>
      exists i :: 0 <= i < |frames| && frames[i].rawLabels.Some? && x in frames[i].rawLabels.value
  {
    if frames != [] {
      var p := frames[..|frames| - 1];
      AllLabelsMembers(p, x);
      assert forall i :: 0 <= i < |p| ==> p[i] == frames[i];
    }
  }

  /**
   * The consolidated styles, elements and raw labels are free of repeats
   * and hold exactly the union of the frames' lists.
   */
  lemma {:induction false} ConsolidationIsUnion(frames: seq<FrameAnalysis>, x: string)
    requires frames != []
    ensures NoDuplicates(Consolidation(frames).styles)
    ensures NoDuplicates(Consolidation(frames).elements)
    ensures NoDuplicates(Consolidation(frames).rawLabels.value)
    ensures x in Consolidation(frames).styles <==> exists i :: 0 <= i < |frames| && x in frames[i].styles
    ensures x in Consolidation(frames).elements <==> exists i :: 0 <= i < |frames| && x in frames[i].elements
    ensures x in Consolidation(frames).rawLabels.value <==>
      exists i :: 0 <= i < |frames| && frames[i].rawLabels.Some? && x in frames[i].rawLabels.value
  {
    AllStylesMembers(frames, x);
    AllElementsMembers(frames, x);
    AllLabelsMembers(frames, x);
    DedupMeaning(AllStyles(frames));
    DedupMeaning(AllElements(frames));
    DedupMeaning(AllLabels(frames));
  }

  /** A single analysis keeps its confidence and technical features; its tags only lose repeats. */
  lemma {:induction false} SingleFrameConsolidation(a: FrameAnalysis)
    ensures Consolidation([a]).confidence == a.confidence
    ensures Consolidation([a]).technical == a.technical
    ensures Consolidation([a]).styles == Dedup(a.styles)
    ensures Consolidation([a]).elements == Dedup(a.elements)
    ensures Consolidation([a]).rawLabels == Some(Dedup(if a.rawLabels.Some? then a.rawLabels.value else []))
  {
    assert [a][..0] == [];
    assert [] + a.styles == a.styles && [] + a.elements == a.elements;
    assert AllStyles([a]) == a.styles;
    assert AllElements([a]) == a.elements;
    var labels := if a.rawLabels.Some? then a.rawLabels.value else [];
    assert [] + labels == labels;
    assert AllLabels([a]) == labels;
    assert TotalConfidence([a]) == a.confidence;
    assert |[a]| as real == 1.0;
  }

  /** The sum of n confidences in [lo, hi] lies in [n lo, n hi]. */
  lemma {:induction false} TotalConfidenceBounds(frames: seq<FrameAnalysis>, lo: real, hi: real)
    requires forall i :: 0 <= i < |frames| ==> lo <= frames[i].confidence <= hi
    ensures |frames| as real * lo <= TotalConfidence(frames) <= |frames| as real * hi
  {
    if frames != [] {
      var p := frames[..|frames| - 1];
      assert forall i :: 0 <= i < |p| ==> p[i] == frames[i];
      TotalConfidenceBounds(p, lo, hi);
    }
  }

  /** The mean of confidences in [lo, hi] lies in [lo, hi]: local frames consolidate to [70, 90]. */
  lemma {:induction false} ConsolidatedConfidenceBounds(frames: seq<FrameAnalysis>, lo: real, hi: real)
    requires frames != []
    requires forall i :: 0 <= i < |frames| ==> lo <= frames[i].confidence <= hi
    ensures lo <= Consolidation(frames).confidence <= hi
  {
    var n := |frames| as real;
    var t := TotalConfidence(frames);
    TotalConfidenceBounds(frames, lo, hi);
    MeanBetween(t, n, lo, hi);
  }

  lemma {:induction false} MeanBetween(t: real, n: real, lo: real, hi: real)
    requires n > 0.0 && n * lo <= t <= n * hi
    ensures lo <= t / n <= hi
  {
    var q := t / n;
    assert q * n == t;
  }
}
