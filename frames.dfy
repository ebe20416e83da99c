/**
 * The per-frame pipeline (`analyzeSingleFrame`, `analyzeFrames`,
 * `analyzeVideoFrames`): each frame goes to the remote classifier first
 * and falls back to the local analysis when the call throws; the results
 * are consolidated and turned into a prompt. The frame capture of
 * `extractFrames` is reduced to its seek times.
 */
module Frames {
  import opened Wrappers
  import opened JsNumber
  import opened Pixels
  import opened Analysis
  import opened Labels
  import opened Consolidate
  import opened Prompt

  /** Which path produced a frame's analysis. */
  datatype FrameOutcome = Remote(analysis: FrameAnalysis) | Fallback(analysis: FrameAnalysis)

  /**
   * One captured frame as values: the classifier's reply (None when the
   * request, the status check or the JSON decoding throws) and the pixels
   * the local analysis would decode.
   */
  datatype Capture = Capture(reply: Option<seq<LabelScore>>, pixels: seq<Byte>, width: nat, height: nat)

  predicate IsCapture(c: Capture) {
    IsImageShape(|c.pixels|, c.width, c.height)
  }

  /** What `analyzeSingleFrame` resolves to. */
  function OutcomeOf(c: Capture): FrameOutcome
    requires IsCapture(c)
  {
    match c.reply
    case Some(result) => Remote(InterpretRemoteResult(result))
    case None => Fallback(Interpretation(FeaturesOf(c.pixels, c.width, c.height)))
  }

  /** `analyzeSingleFrame`: the remote answer when there is one, the local analysis otherwise. */
  method AnalyzeSingleFrame(reply: Option<seq<LabelScore>>, img: ImageData) returns (o: FrameOutcome)
    requires img.Valid()
    ensures o == OutcomeOf(Capture(reply, img.data[..], img.width, img.height))
  {
    match reply {
      case Some(result) =>
        o := Remote(InterpretRemoteResult(result));
      case None =>
        var features := ExtractVisualFeatures(img);
        var a := InterpretFeatures(features);
        o := Fallback(a);
    }
  }

  /** The remote path is taken exactly when the classifier answered, and the fallback carries its features. */
  lemma {:induction false} OutcomeFollowsReply(c: Capture)
    requires IsCapture(c)
    ensures OutcomeOf(c).Remote? <==> c.reply.Some?
    ensures OutcomeOf(c).Remote? ==> OutcomeOf(c).analysis.rawLabels.Some? && OutcomeOf(c).analysis.technical.None?
    ensures OutcomeOf(c).Fallback? ==>
      OutcomeOf(c).analysis.rawLabels.None? && 70.0 <= OutcomeOf(c).analysis.confidence <= 90.0
  {
    if c.reply.None? {
      FrameConfidenceInRange(c.pixels, c.width, c.height);
    }
  }

  /** The analyses pushed by `analyzeFrames`, one per frame, in order. */
  function Analyses(cs: seq<Capture>): (as_: seq<FrameAnalysis>)
    requires forall i :: 0 <= i < |cs| ==> IsCapture(cs[i])
    ensures |as_| == |cs|
  {
    if cs == [] then [] else Analyses(cs[..|cs| - 1]) + [OutcomeOf(cs[|cs| - 1]).analysis]
  }

  /** The i-th analysis is the outcome of the i-th frame. */
  lemma {:induction false} AnalysesAt(cs: seq<Capture>, i: nat)
    requires forall k :: 0 <= k < |cs| ==> IsCapture(cs[k])
    requires i < |cs|
    ensures Analyses(cs)[i] == OutcomeOf(cs[i]).analysis
  {
    if i < |cs| - 1 {
      var p := cs[..|cs| - 1];
      AnalysesAt(p, i);
      assert p[i] == cs[i];
    }
  }

  /** The loop of `analyzeFrames`: each frame's analysis is pushed in order. */
  method AnalyzeEach(replies: seq<Option<seq<LabelScore>>>, images: seq<ImageData>, ghost cs: seq<Capture>)
    returns (analyses: seq<FrameAnalysis>)
    requires |replies| == |images| == |cs|
    requires forall i :: 0 <= i < |images| ==> images[i].Valid()
    requires forall i :: 0 <= i < |images| ==>
      cs[i] == Capture(replies[i], images[i].data[..], images[i].width, images[i].height)
    ensures forall i :: 0 <= i < |cs| ==> IsCapture(cs[i])
    ensures analyses == Analyses(cs)
  {
    assert forall i :: 0 <= i < |cs| ==> IsCapture(cs[i]);
    analyses := [];
    var i := 0;
    while i < |images|
      invariant 0 <= i <= |images|
      invariant analyses == Analyses(cs[..i])
      invariant forall k :: 0 <= k < |images| ==>
        cs[k] == Capture(replies[k], images[k].data[..], images[k].width, images[k].height)
    {
      assert cs[i] == Capture(replies[i], images[i].data[..], images[i].width, images[i].height);
      var o := AnalyzeSingleFrame(replies[i], images[i]);
      assert cs[..i + 1][..i] == cs[..i];
      analyses := analyses + [o.analysis];
      i := i + 1;
      assert forall k :: 0 <= k < |images| ==>
        cs[k] == Capture(replies[k], images[k].data[..], images[k].width, images[k].height);
    }
    assert cs[..i] == cs;
  }

  /**
   * `analyzeFrames`: analyse the frames one after another, then consolidate.
   * `cs` holds the same frames as values.
   */
  method AnalyzeFrames(replies: seq<Option<seq<LabelScore>>>, images: seq<ImageData>, ghost cs: seq<Capture>)
    returns (c: FrameAnalysis)
    requires |replies| == |images| == |cs| > 0
    requires forall i :: 0 <= i < |images| ==> images[i].Valid()
    requires forall i :: 0 <= i < |images| ==>
      cs[i] == Capture(replies[i], images[i].data[..], images[i].width, images[i].height)
    ensures forall i :: 0 <= i < |cs| ==> IsCapture(cs[i])
    ensures c == Consolidation(Analyses(cs))
  {
    var analyses := AnalyzeEach(replies, images, cs);
    c := ConsolidateAnalyses(analyses);
  }

  /** `analyzeVideoFrames` once the frames are captured: analyse, consolidate, write the prompt. */
  method AnalyzeVideoFrames(replies: seq<Option<seq<LabelScore>>>, images: seq<ImageData>, ghost cs: seq<Capture>)
    returns (r: PromptResult)
    requires |replies| == |images| == |cs| > 0
    requires forall i :: 0 <= i < |images| ==> images[i].Valid()
    requires forall i :: 0 <= i < |images| ==>
      cs[i] == Capture(replies[i], images[i].data[..], images[i].width, images[i].height)
    ensures forall i :: 0 <= i < |cs| ==> IsCapture(cs[i])
    ensures r == PromptOf(Consolidation(Analyses(cs)))
    ensures r.details.aiModel == RemoteModelName
  {
    var analysis := AnalyzeFrames(replies, images, cs);
    r := GeneratePromptFromAnalysis(analysis);
    ConsolidatedModelName(Analyses(cs));
  }

  /**
   * Consolidation always produces a raw-label list, possibly empty, so the
   * prompt of a consolidated analysis always names the remote model, even
   * when every frame fell back to the local analysis.
   */
  lemma {:induction false} ConsolidatedModelName(frames: seq<FrameAnalysis>)
    requires frames != []
    ensures DetailsOf(Consolidation(frames)).aiModel == RemoteModelName
    ensures DetailsOf(Consolidation(frames)).processingMethod == "Frame-by-frame AI analysis"
  {
  }

  /** When every frame falls back, the consolidated confidence stays in [70, 90]. */
  lemma {:induction false} AllFallbackConfidence(cs: seq<Capture>)
    requires cs != []
    requires forall i :: 0 <= i < |cs| ==> IsCapture(cs[i]) && cs[i].reply.None?
    ensures 70.0 <= Consolidation(Analyses(cs)).confidence <= 90.0
  {
    FallbackConfidences(cs);
    ConsolidatedConfidenceBounds(Analyses(cs), 70.0, 90.0);
  }

  lemma {:induction false} FallbackConfidences(cs: seq<Capture>)
    requires forall i :: 0 <= i < |cs| ==> IsCapture(cs[i]) && cs[i].reply.None?
    ensures forall i :: 0 <= i < |Analyses(cs)| ==> 70.0 <= Analyses(cs)[i].confidence <= 90.0
  {
    forall i | 0 <= i < |cs|
      ensures 70.0 <= Analyses(cs)[i].confidence <= 90.0
    {
      AnalysesAt(cs, i);
      OutcomeFollowsReply(cs[i]);
    }
  }

  // ---------------------------------------------------------------- frame sampling

  /** `Math.max(1, duration / frameCount)`. */
  function SampleInterval(duration: real, count: nat): (d: real)
    requires count > 0
    ensures d >= 1.0 && d >= duration / count as real
    ensures d == 1.0 || d == duration / count as real
  {
    MaxReal(1.0, duration / count as real)
  }

  /** The seek times `i * interval` of `extractFrames`, for i below the frame count. */
  function SampleTimes(duration: real, count: nat): (ts: seq<real>)
    ensures |ts| == count
  {
    if count == 0 then []
    else seq(count, i requires 0 <= i < count => i as real * SampleInterval(duration, count))
  }

  /** Seek times start at 0 and grow by at least one second per frame. */
  lemma {:induction false} SampleTimesIncrease(duration: real, count: nat, i: nat)
    requires i + 1 < count
    ensures SampleTimes(duration, count)[0] == 0.0
    ensures SampleTimes(duration, count)[i + 1] >= SampleTimes(duration, count)[i] + 1.0
  {
    var d := SampleInterval(duration, count);
    assert (i + 1) as real * d == i as real * d + d;
  }

  /** With at least one second of video per frame, every seek time lies inside the video. */
  lemma {:induction false} SampleTimesWithinLongVideo(duration: real, count: nat, i: nat)
    requires count > 0 && duration >= count as real && i < count
    ensures 0.0 <= SampleTimes(duration, count)[i] < duration
  {
    var n := count as real;
    var d := duration / n;
    assert d >= 1.0 by {
      assert d * n == duration;
    }
    assert SampleInterval(duration, count) == d;
    assert i as real * d <= (n - 1.0) * d;
    assert (n - 1.0) * d == duration - d;
  }

  /**
   * The last seek time reaches the end of the video exactly when the video
   * lasts at most one second less than the frame count, and passes it
   * exactly when the video is shorter than that.
   */
  lemma {:induction false} LastSeekReachesEnd(duration: real, count: nat)
    requires count >= 1
    ensures SampleTimes(duration, count)[count - 1] >= duration <==> duration <= (count - 1) as real
    ensures SampleTimes(duration, count)[count - 1] > duration <==> duration < (count - 1) as real
  {
    var n := count as real;
    var q := duration / n;
    var d := SampleInterval(duration, count);
    assert q * n == duration;
    assert SampleTimes(duration, count)[count - 1] == (n - 1.0) * d;
    if duration <= n - 1.0 {
      assert q < 1.0;
      assert d == 1.0;
    } else if d == q {
      assert (n - 1.0) * q == duration - q;
    }
  }

  /**
   * An instance: with less than a second per frame the interval is 1, so 6
   * frames of a 2-second clip get the requested seek times 0, 1, 2, 3, 4 and
   * 5 seconds. A media element clamps the ones past the end to the duration.
   */
  lemma {:induction false} ShortVideoSeeksPastEnd()
    ensures SampleTimes(2.0, 6) == [0.0, 1.0, 2.0, 3.0, 4.0, 5.0]
    ensures SampleTimes(2.0, 6)[5] > 2.0
  {
    assert SampleInterval(2.0, 6) == 1.0;
  }
}
