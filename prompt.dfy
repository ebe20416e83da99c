/**
 * `generatePromptFromAnalysis`: a fixed sentence template filled with the
 * joined tags, three optional clauses in a fixed order, and a fixed tail;
 * plus the `details` record shown beside the prompt.
 */
module Prompt {
  import opened Wrappers
  import opened JsNumber
  import opened Collections
  import opened Analysis

  datatype PromptDetails = PromptDetails(
    detectedStyles: seq<string>,
    visualElements: seq<string>,
    confidence: int,
    technicalAnalysis: Option<Features>,
    aiModel: string,
    processingMethod: string,
    rawAnalysis: seq<string>)

  datatype PromptResult = PromptResult(prompt: string, details: PromptDetails)

  // The fixed texts are written as short pieces so that the verifier can
  // look at their leading characters.
  const CinematicClause: string := ", " + "cinematic lighting" + ", dramatic atmosphere"
  const VibrantClause: string := ", " + "vibrant colors" + ", well-lit"
  const SaturatedClause: string := ", " + "highly saturated colors"
  const Tail: string := ", " + "trending on ArtStation" + ", masterpiece" + ", 8K resolution"

  const RemoteModelName: string := "Hugging Face CLIP + Computer Vision"
  const LocalModelName: string := "Computer Vision Analysis"

  /** `parts.join(', ') || fallback`: an empty join is falsy. */
  function JoinOr(parts: seq<string>, fallback: string): (r: string)
    ensures parts == [] ==> r == fallback
    ensures Join(parts, ", ") != "" ==> r == Join(parts, ", ")
    ensures Join(parts, ", ") == "" ==> r == fallback
  {
    var joined := Join(parts, ", ");
    if joined == "" then fallback else joined
  }

  /** The `basePrompt` template. */
  function BasePrompt(a: FrameAnalysis): string {
    "A " + JoinOr(a.styles, "professional") + " video featuring " + JoinOr(a.elements, "well-composed") +
    ", professional quality, high detail"
  }

  predicate WantsCinematic(a: FrameAnalysis) {
    "cinematic" in a.styles || "dramatic" in a.styles
  }

  predicate WantsVibrant(a: FrameAnalysis) {
    "bright" in a.styles || "vibrant" in a.styles
  }

  /** `analysis.technical?.colors?.saturation > 0.6`. */
  predicate WantsSaturated(a: FrameAnalysis) {
    a.technical.Some? && a.technical.value.colors.saturation > 0.6
  }

  /** The optional clauses, in the order the source appends them. */
  function Clauses(cinematic: bool, vibrant: bool, saturated: bool): string {
    (if cinematic then CinematicClause else "") +
    (if vibrant then VibrantClause else "") +
    (if saturated then SaturatedClause else "")
  }

  /** The finished `detailedPrompt`. */
  function PromptText(a: FrameAnalysis): string {
    BasePrompt(a) + Clauses(WantsCinematic(a), WantsVibrant(a), WantsSaturated(a)) + Tail
  }

  /** The `details` record. */
  function DetailsOf(a: FrameAnalysis): PromptDetails {
    PromptDetails(
      if |a.styles| > 0 then a.styles else ["professional", "high-quality"],
      if |a.elements| > 0 then a.elements else ["well-composed", "detailed"],
      Round(a.confidence),
      a.technical,
      if a.rawLabels.Some? then RemoteModelName else LocalModelName,
      "Frame-by-frame AI analysis",
      if a.rawLabels.Some? then a.rawLabels.value else [])
  }

  /** What `generatePromptFromAnalysis` returns. */
  function PromptOf(a: FrameAnalysis): PromptResult {
    PromptResult(PromptText(a), DetailsOf(a))
  }

  /** The three conditional `+=` steps of `generatePromptFromAnalysis`. */
  method AppendClauses(prompt: string, a: FrameAnalysis) returns (detailedPrompt: string)
    ensures detailedPrompt == prompt + Clauses(WantsCinematic(a), WantsVibrant(a), WantsSaturated(a))
  {
    detailedPrompt := prompt;
    ghost var c1 := if WantsCinematic(a) then CinematicClause else "";
    ghost var c2 := if WantsVibrant(a) then VibrantClause else "";
    ghost var c3 := if WantsSaturated(a) then SaturatedClause else "";
    ConcatParts(prompt, "");
    if "cinematic" in a.styles || "dramatic" in a.styles {
      detailedPrompt := detailedPrompt + CinematicClause;
    }
    assert detailedPrompt == prompt + c1;
    ConcatParts(prompt + c1, "");
    if "bright" in a.styles || "vibrant" in a.styles {
      detailedPrompt := detailedPrompt + VibrantClause;
    }
    assert detailedPrompt == prompt + c1 + c2;
    ConcatParts(prompt + c1 + c2, "");
    if a.technical.Some? && a.technical.value.colors.saturation > 0.6 {
      detailedPrompt := detailedPrompt + SaturatedClause;
    }
    ConcatAssoc(prompt, c1, c2);
    ConcatAssoc(prompt, c1 + c2, c3);
  }

  /** `generatePromptFromAnalysis`: the base sentence, the clauses, then the fixed tail. */
  method GeneratePromptFromAnalysis(a: FrameAnalysis) returns (r: PromptResult)
    ensures r == PromptOf(a)
  {
    var style := JoinOr(a.styles, "professional");
    var elements := JoinOr(a.elements, "well-composed");
    var confidence := Round(a.confidence);
    var basePrompt := "A " + style + " video featuring " + elements + ", professional quality, high detail";
    var detailedPrompt := AppendClauses(basePrompt, a);
    detailedPrompt := detailedPrompt + Tail;
    r := PromptResult(detailedPrompt, PromptDetails(
      if |a.styles| > 0 then a.styles else ["professional", "high-quality"],
      if |a.elements| > 0 then a.elements else ["well-composed", "detailed"],
      confidence,
      a.technical,
      if a.rawLabels.Some? then RemoteModelName else LocalModelName,
      "Frame-by-frame AI analysis",
      if a.rawLabels.Some? then a.rawLabels.value else []));
  }

  /** Reads back which optional clauses open t, in the fixed order. */
  function ParseClauses(t: string): (bool, bool, bool) {
    var cinematic := CinematicClause <= t;
    var t1 := if cinematic then t[|CinematicClause|..] else t;
    var vibrant := VibrantClause <= t1;
    var t2 := if vibrant then t1[|VibrantClause|..] else t1;
    (cinematic, vibrant, SaturatedClause <= t2)
  }

  /** The clause texts and the tail differ at their third character, so none is a prefix of another's text. */
  lemma {:induction false} ClausesDiffer(cinematic: bool, vibrant: bool, saturated: bool)
    ensures var t := Clauses(cinematic, vibrant, saturated) + Tail;
      ParseClauses(t) == (cinematic, vibrant, saturated)
  {
    var t2 := (if saturated then SaturatedClause else "") + Tail;
    var t1 := (if vibrant then VibrantClause else "") + t2;
    var t := (if cinematic then CinematicClause else "") + t1;
    var c, v, h := if cinematic then CinematicClause else "", if vibrant then VibrantClause else "", if saturated then SaturatedClause else "";
    ConcatAssoc(c + v, h, Tail);
    ConcatAssoc(c, v, h + Tail);
    assert SaturatedClause[2] == 'h' && Tail[2] == 't' && VibrantClause[2] == 'v' && CinematicClause[2] == 'c';
    OptionalClause(saturated, SaturatedClause, Tail);
    OptionalClause(vibrant, VibrantClause, t2);
    OptionalClause(cinematic, CinematicClause, t1);
  }

  /** A clause written or not in front of a text that differs from it at the third character is read back exactly. */
  lemma {:induction false} OptionalClause(on: bool, clause: string, rest: string)
    requires |clause| >= 3 && |rest| >= 3 && clause[2] != rest[2]
    ensures var t := (if on then clause else "") + rest;
      (clause <= t <==> on) && (if on then t[|clause|..] else t) == rest && t[2] == (if on then clause[2] else rest[2])
  {
    var t := (if on then clause else "") + rest;
    if on {
      ConcatParts(clause, rest);
    } else {
      assert t == rest;
      assert t[2] != clause[2];
    }
  }

  /**
   * The prompt opens with "A ", closes with the fixed tail, and between the
   * base sentence and the tail holds exactly the clauses whose conditions
   * hold, in the fixed order.
   */
  lemma {:induction false} PromptShape(a: FrameAnalysis)
    ensures "A " <= PromptText(a)
    ensures |Tail| <= |PromptText(a)| && PromptText(a)[|PromptText(a)| - |Tail|..] == Tail
    ensures BasePrompt(a) <= PromptText(a)
    ensures ParseClauses(PromptText(a)[|BasePrompt(a)|..]) == (WantsCinematic(a), WantsVibrant(a), WantsSaturated(a))
  {
    BaseOpensWithA(a);
    ThreePartShape(BasePrompt(a), Clauses(WantsCinematic(a), WantsVibrant(a), WantsSaturated(a)), Tail);
    ClausesDiffer(WantsCinematic(a), WantsVibrant(a), WantsSaturated(a));
  }

  lemma {:induction false} BaseOpensWithA(a: FrameAnalysis)
    ensures "A " <= BasePrompt(a)
  {
    var base := BasePrompt(a);
    assert base[..2] == "A ";
  }

  /** Where the three parts of x + y + z sit. */
  lemma {:induction false} ThreePartShape(x: string, y: string, z: string)
    ensures x <= x + y + z
    ensures (x + y + z)[|x|..] == y + z
    ensures |z| <= |x + y + z| && (x + y + z)[|x + y + z| - |z|..] == z
  {
    ConcatAssoc(x, y, z);
    ConcatParts(x, y + z);
    ConcatParts(x + y, z);
  }

  /** Empty tag lists render as "professional" and "well-composed", and the details fall back to fixed tags. */
  lemma {:induction false} EmptyTagsUseDefaults(a: FrameAnalysis)
    requires a.styles == [] && a.elements == []
    ensures BasePrompt(a) == "A " + "professional" + " video featuring " + "well-composed" + ", professional quality, high detail"
    ensures DetailsOf(a).detectedStyles == ["professional", "high-quality"]
    ensures DetailsOf(a).visualElements == ["well-composed", "detailed"]
  {
  }

  /** The shown confidence is the analysis confidence rounded to the nearest integer, ties upwards. */
  lemma {:induction false} ShownConfidence(a: FrameAnalysis)
    ensures a.confidence - 0.5 < DetailsOf(a).confidence as real <= a.confidence + 0.5
  {
  }

  /** Any analysis carrying raw labels, even an empty list, is credited to the remote model. */
  lemma {:induction false} ModelNameFollowsRawLabels(a: FrameAnalysis)
    ensures DetailsOf(a).aiModel == RemoteModelName <==> a.rawLabels.Some?
  {
  }
}
