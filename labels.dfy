/**
 * Interpretation of the remote image classifier's reply
 * (`interpretHuggingFaceResult`, `extractStylesFromLabels`,
 * `extractElementsFromLabels`): keep the first five labels, pick those that
 * contain a style or element keyword once lower-cased, and take the best
 * score as the confidence.
 */
module Labels {
  import opened Wrappers
  import opened Collections
  import opened Analysis

  /** One item of the classifier's reply. */
  datatype LabelScore = LabelScore(name: string, score: real)

  const StyleKeywords: seq<string> := [
    "cinematic", "photorealistic", "animation", "3d", "digital",
    "painting", "art", "graphic", "minimalist", "vibrant",
    "dark", "bright", "colorful", "monochrome", "professional"]

  const ElementKeywords: seq<string> := [
    "person", "people", "human", "face", "building", "city",
    "nature", "landscape", "animal", "car", "object", "text",
    "light", "shadow", "water", "sky", "tree", "mountain"]

  /** `keywords.some(keyword => lower.includes(keyword))`, keyword by keyword. */
  function SomeKeyword(lower: string, keywords: seq<string>): (r: bool)
    ensures keywords == [] ==> !r
    ensures r ==> exists k :: 0 <= k < |keywords| && Contains(lower, keywords[k])
  {
    if keywords == [] then false
    else if Contains(lower, keywords[0]) then true
    else
      var rest := SomeKeyword(lower, keywords[1..]);
      assert forall k :: 0 <= k < |keywords| - 1 ==> keywords[1..][k] == keywords[k + 1];
      rest
  }

  /**
   * The filter test of the extractors: some keyword occurs in the lower-cased
   * label. Stated as an existential so that the constant keyword lists are not
   * unrolled wherever a filter is mentioned; SomeKeywordMeaning ties it to the
   * keyword-by-keyword search.
   */
  predicate Matches(name: string, keywords: seq<string>) {
    exists k :: 0 <= k < |keywords| && Contains(ToLower(name), keywords[k])
  }

  /** The search succeeds exactly when some keyword occurs in the lower-cased label. */
  lemma {:induction false} SomeKeywordMeaning(name: string, keywords: seq<string>)
    ensures SomeKeyword(ToLower(name), keywords) <==> Matches(name, keywords)
  {
    if keywords != [] {
      SomeKeywordMeaning(name, keywords[1..]);
      assert forall k :: 1 <= k < |keywords| ==> keywords[k] == keywords[1..][k - 1];
    }
  }

  /**
   * `labels.filter(label => ...)`: an order-preserving selection that keeps
   * every matching label as often as it occurs and drops every other one.
   */
  function FilterMatching(labels: seq<string>, keywords: seq<string>): (r: seq<string>)
    ensures IsSubsequence(r, labels)
    ensures forall i :: 0 <= i < |r| ==> Matches(r[i], keywords)
    ensures forall i :: 0 <= i < |labels| && Matches(labels[i], keywords) ==> labels[i] in r
    ensures forall x :: multiset(r)[x] == if Matches(x, keywords) then multiset(labels)[x] else 0
  {
    if labels == [] then []
    else
      var rest := FilterMatching(labels[1..], keywords);
      assert forall i :: 1 <= i < |labels| ==> labels[i] == labels[1..][i - 1];
      assert labels == [labels[0]] + labels[1..];
      if Matches(labels[0], keywords) then [labels[0]] + rest else rest
  }

  /** `extractStylesFromLabels`: at most three labels, each containing a style keyword. */
  function ExtractStyles(labels: seq<string>): (r: seq<string>)
    ensures IsSubsequence(r, labels) && |r| <= 3
    ensures forall i :: 0 <= i < |r| ==> Matches(r[i], StyleKeywords)
  {
    ExtractedLabels(labels, StyleKeywords, 3);
    Take(FilterMatching(labels, StyleKeywords), 3)
  }

  /** `extractElementsFromLabels`: at most four labels, each containing an element keyword. */
  function ExtractElements(labels: seq<string>): (r: seq<string>)
    ensures IsSubsequence(r, labels) && |r| <= 4
    ensures forall i :: 0 <= i < |r| ==> Matches(r[i], ElementKeywords)
  {
    ExtractedLabels(labels, ElementKeywords, 4);
    Take(FilterMatching(labels, ElementKeywords), 4)
  }

  /**
   * What an extractor keeps: an order-preserving selection of the labels,
   * each containing a keyword after lower-casing, that is exactly the first
   * `cap` matching labels (all of them when fewer match).
   */
  lemma {:induction false} ExtractedLabels(labels: seq<string>, keywords: seq<string>, cap: nat)
    ensures var f, r := FilterMatching(labels, keywords), Take(FilterMatching(labels, keywords), cap);
      IsSubsequence(r, labels) && |r| <= cap &&
      (forall i :: 0 <= i < |r| ==> Matches(r[i], keywords)) &&
      |r| == (if |f| <= cap then |f| else cap) && r == f[..|r|] &&
      (|f| <= cap ==> forall i :: 0 <= i < |labels| && Matches(labels[i], keywords) ==> labels[i] in r)
  {
    var f := FilterMatching(labels, keywords);
    var r := Take(f, cap);
    PrefixOfSubsequence(f, labels, |r|);
    assert f[..|r|] == r;
    forall i | 0 <= i < |r|
      ensures Matches(r[i], keywords)
    {
      assert r[i] == f[i];
    }
  }

  /** `extractStylesFromLabels` keeps the first three matching labels, or all when fewer match. */
  lemma {:induction false} StylesAreMatchingLabels(labels: seq<string>)
    ensures var f := FilterMatching(labels, StyleKeywords);
      |ExtractStyles(labels)| == (if |f| <= 3 then |f| else 3) && ExtractStyles(labels) == f[..|ExtractStyles(labels)|]
  {
    ExtractedLabels(labels, StyleKeywords, 3);
  }

  /** `extractElementsFromLabels` keeps the first four matching labels, or all when fewer match. */
  lemma {:induction false} ElementsAreMatchingLabels(labels: seq<string>)
    ensures var f := FilterMatching(labels, ElementKeywords);
      |ExtractElements(labels)| == (if |f| <= 4 then |f| else 4) && ExtractElements(labels) == f[..|ExtractElements(labels)|]
  {
    ExtractedLabels(labels, ElementKeywords, 4);
  }

  /** The first five items of the reply. */
  function TopItems(result: seq<LabelScore>): (top: seq<LabelScore>)
    ensures |top| <= 5 && top <= result
  {
    Take(result, 5)
  }

  /** `result.slice(0, 5).map(item => item.label)`. */
  function TopLabels(result: seq<LabelScore>): (labels: seq<string>)
    ensures |labels| == |TopItems(result)|
    ensures forall i :: 0 <= i < |labels| ==> labels[i] == result[i].name
  {
    var top := TopItems(result);
    seq(|top|, i requires 0 <= i < |top| => top[i].name)
  }

  /** `Math.max(...scores)` for the scores of a non-empty list of items. */
  function MaxScore(items: seq<LabelScore>): (m: real)
    requires items != []
    ensures exists i :: 0 <= i < |items| && items[i].score == m
    ensures forall i :: 0 <= i < |items| ==> items[i].score <= m
  {
    if |items| == 1 then items[0].score
    else
      var rest := MaxScore(items[1..]);
      assert forall i :: 1 <= i < |items| ==> items[i] == items[1..][i - 1];
      if items[0].score >= rest then items[0].score else rest
  }

  /** The answer of `interpretHuggingFaceResult` when the reply holds no items. */
  const DefaultRemoteAnalysis: FrameAnalysis :=
    FrameAnalysis(["professional", "digital"], ["well-composed", "detailed"], 70.0, Some([]), None)

  /**
   * `interpretHuggingFaceResult` on a reply decoded as a list of items. A
   * reply without a positive `length` is handled like the empty list; one
   * that has a positive `length` but is not a list throws, and the frame falls
   * back to the local analysis (a missing reply at the call site).
   */
  function InterpretRemoteResult(result: seq<LabelScore>): (a: FrameAnalysis)
    ensures a.rawLabels.Some? && |a.rawLabels.value| <= 5
    ensures |a.styles| <= 3 && |a.elements| <= 4
    ensures a.technical == None
  {
    if |result| > 0 then
      var labels := TopLabels(result);
      FrameAnalysis(ExtractStyles(labels), ExtractElements(labels), MaxScore(TopItems(result)) * 100.0, Some(labels), None)
    else DefaultRemoteAnalysis
  }

  /**
   * A non-empty reply yields its first five labels as raw labels, tags
   * drawn from them in order, and 100 times the best of their scores.
   */
  lemma {:induction false} RemoteResultMeaning(result: seq<LabelScore>)
    requires result != []
    ensures var a := InterpretRemoteResult(result);
      a.rawLabels == Some(TopLabels(result)) && |TopLabels(result)| == (if |result| < 5 then |result| else 5) &&
      IsSubsequence(a.styles, TopLabels(result)) && |a.styles| <= 3 &&
      IsSubsequence(a.elements, TopLabels(result)) && |a.elements| <= 4 &&
      (forall i :: 0 <= i < |TopItems(result)| ==> result[i].score * 100.0 <= a.confidence) &&
      (exists i :: 0 <= i < |TopItems(result)| && result[i].score * 100.0 == a.confidence)
  {
    var labels := TopLabels(result);
    var top := TopItems(result);
    var m := MaxScore(top);
    forall i | 0 <= i < |top|
      ensures result[i].score * 100.0 <= m * 100.0
    {
      assert top[i] == result[i];
    }
    var k :| 0 <= k < |top| && top[k].score == m;
    assert top[k] == result[k];
  }

  /** An empty reply gives the fixed default with confidence 70 and no labels. */
  lemma {:induction false} EmptyResultIsDefault()
    ensures InterpretRemoteResult([]) == DefaultRemoteAnalysis
    ensures DefaultRemoteAnalysis.confidence == 70.0 && DefaultRemoteAnalysis.rawLabels == Some([])
  {
  }
}
