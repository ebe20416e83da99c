/**
 * The local computer-vision analysis of one frame: the feature record of
 * `extractVisualFeatures` and the threshold rule table of
 * `interpretFeatures` that turns it into tags and a confidence.
 */
module Analysis {
  import opened Wrappers
  import opened JsNumber
  import opened Pixels
  import opened Collections
  import opened Colors
  import opened Edges
  import opened Composition

  /** The `features` object built from one decoded frame. */
  datatype Features = Features(
    colors: ColorStats,
    composition: CompositionStats,
    edges: EdgeStats,
    brightness: real)

  /**
   * The analysis of one frame, or of several once consolidated. `rawLabels`
   * is None where the object has no such property (or it is falsy), and
   * `technical` is None where it has no `technical` or holds `{}`.
   */
  datatype FrameAnalysis = FrameAnalysis(
    styles: seq<string>,
    elements: seq<string>,
    confidence: real,
    rawLabels: Option<seq<string>>,
    technical: Option<Features>)

  // ---------------------------------------------------------------- features

  /** What `extractVisualFeatures` resolves to for a decoded w x h frame. */
  function FeaturesOf(s: seq<Byte>, w: nat, h: nat): Features
    requires IsImageShape(|s|, w, h)
  {
    ImageIsPixels(s, w, h);
    Features(ColorsOf(s), CompositionOf(s, w, h), EdgesOf(s, w, h), Brightness(s))
  }

  /** The two brightness figures of a feature record agree, and the edge density lies in [0, 1). */
  lemma {:induction false} FeaturesAreConsistent(s: seq<Byte>, w: nat, h: nat)
    requires IsImageShape(|s|, w, h)
    ensures FeaturesOf(s, w, h).colors.brightness == FeaturesOf(s, w, h).brightness
    ensures 0.0 <= FeaturesOf(s, w, h).edges.edgeDensity < 1.0
    ensures 0.0 <= FeaturesOf(s, w, h).colors.saturation <= 1.0
  {
    ImageIsPixels(s, w, h);
    BrightnessAgrees(s);
    DensityBelowOne(s, w, h);
    AverageSaturationInUnitRange(s);
  }

  /** The feature extraction of `extractVisualFeatures` once the frame is decoded into `img`. */
  method ExtractVisualFeatures(img: ImageData) returns (f: Features)
    requires img.Valid()
    ensures f == FeaturesOf(img.data[..], img.width, img.height)
  {
    var colors := AnalyzeColors(img);
    var composition := AnalyzeComposition(img);
    var edges := AnalyzeEdges(img);
    var brightness := CalculateBrightness(img);
    f := Features(colors, composition, edges, brightness);
  }

  // ---------------------------------------------------------------- interpretFeatures

  /** The style tags pushed for the brightness thresholds. */
  function BrightnessTags(brightness: real): seq<string> {
    (if brightness > 180.0 then ["bright", "vibrant"] else []) +
    (if brightness < 100.0 then ["moody", "dramatic"] else [])
  }

  /** The style tags pushed for the saturation thresholds. */
  function SaturationTags(saturation: real): seq<string> {
    (if saturation > 0.6 then ["colorful", "saturated"] else []) +
    (if saturation < 0.3 then ["muted", "desaturated"] else [])
  }

  /** The style tags pushed for the colour temperature. */
  function TemperatureTags(t: Temperature): seq<string> {
    (if t == Warm then ["warm tones"] else []) +
    (if t == Cool then ["cool tones"] else [])
  }

  /** The style tags pushed by `interpretFeatures`, in push order. */
  function StyleTags(c: ColorStats): seq<string> {
    BrightnessTags(c.brightness) + SaturationTags(c.saturation) + TemperatureTags(c.temperature)
  }

  /** A tag is a style tag exactly when one of the three groups pushes it. */
  lemma {:induction false} StyleTagsMembership(c: ColorStats, tag: string)
    ensures tag in StyleTags(c) <==>
      tag in BrightnessTags(c.brightness) || tag in SaturationTags(c.saturation) || tag in TemperatureTags(c.temperature)
  {
    var b, s, t := BrightnessTags(c.brightness), SaturationTags(c.saturation), TemperatureTags(c.temperature);
    assert StyleTags(c) == (b + s) + t;
  }

  /** The element tags pushed for the rule of thirds and the symmetry. */
  function LayoutTags(c: CompositionStats): seq<string> {
    (if c.ruleOfThirds == Balanced then ["professional composition"] else []) +
    (if Greater(c.symmetry, 0.8) then ["symmetrical"] else [])
  }

  /** The element tags pushed for the edge complexity. */
  function ComplexityTags(e: EdgeStats): seq<string> {
    (if e.complexity == High then ["detailed", "complex"] else []) +
    (if e.complexity == Low then ["minimalist", "clean"] else [])
  }

  /** The element tags pushed by `interpretFeatures`, in push order. */
  function ElementTags(f: Features): seq<string> {
    LayoutTags(f.composition) + ComplexityTags(f.edges) +
    (if f.composition.focus == Centered then ["centered subject"] else [])
  }

  /** A tag is an element tag exactly when the layout, the complexity or the focus pushes it. */
  lemma {:induction false} ElementTagsMembership(f: Features, tag: string)
    ensures tag in ElementTags(f) <==>
      tag in LayoutTags(f.composition) || tag in ComplexityTags(f.edges) ||
      (tag == "centered subject" && f.composition.focus == Centered)
  {
    var l, c := LayoutTags(f.composition), ComplexityTags(f.edges);
    var d: seq<string> := if f.composition.focus == Centered then ["centered subject"] else [];
    assert ElementTags(f) == (l + c) + d;
  }

  /** `Math.min(70 + edgeDensity * 100, 90)`. */
  function Confidence(density: real): (c: real)
    ensures c <= 90.0
    ensures density >= 0.0 ==> 70.0 <= c
    ensures c == 90.0 <==> density >= 0.2
  {
    MinReal(70.0 + density * 100.0, 90.0)
  }

  /** What `interpretFeatures` returns. */
  function Interpretation(f: Features): FrameAnalysis {
    FrameAnalysis(Dedup(StyleTags(f.colors)), Dedup(ElementTags(f)), Confidence(f.edges.edgeDensity), None, Some(f))
  }

  /** The style pushes of `interpretFeatures`. */
  method PushStyleTags(c: ColorStats) returns (styles: seq<string>)
    ensures styles == StyleTags(c)
  {
    styles := [];
    if c.brightness > 180.0 { styles := styles + ["bright", "vibrant"]; }
    if c.brightness < 100.0 { styles := styles + ["moody", "dramatic"]; }
    assert styles == BrightnessTags(c.brightness);
    if c.saturation > 0.6 { styles := styles + ["colorful", "saturated"]; }
    if c.saturation < 0.3 { styles := styles + ["muted", "desaturated"]; }
    assert styles == BrightnessTags(c.brightness) + SaturationTags(c.saturation);
    if c.temperature == Warm { styles := styles + ["warm tones"]; }
    if c.temperature == Cool { styles := styles + ["cool tones"]; }
  }

  /** The element pushes of `interpretFeatures`. */
  method PushElementTags(f: Features) returns (elements: seq<string>)
    ensures elements == ElementTags(f)
  {
    elements := [];
    if f.composition.ruleOfThirds == Balanced { elements := elements + ["professional composition"]; }
    if Greater(f.composition.symmetry, 0.8) { elements := elements + ["symmetrical"]; }
    assert elements == LayoutTags(f.composition);
    if f.edges.complexity == High { elements := elements + ["detailed", "complex"]; }
    if f.edges.complexity == Low { elements := elements + ["minimalist", "clean"]; }
    assert elements == LayoutTags(f.composition) + ComplexityTags(f.edges);
    if f.composition.focus == Centered { elements := elements + ["centered subject"]; }
  }

  /** `interpretFeatures`: push the tags whose thresholds hold, then drop repeats. */
  method InterpretFeatures(f: Features) returns (a: FrameAnalysis)
    ensures a == Interpretation(f)
  {
    var styles := PushStyleTags(f.colors);
    var elements := PushElementTags(f);
    a := FrameAnalysis(Dedup(styles), Dedup(elements), MinReal(70.0 + f.edges.edgeDensity * 100.0, 90.0), None, Some(f));
  }

  /** 'bright' and 'vibrant' are present exactly when the brightness exceeds 180. */
  lemma {:induction false} BrightTagsMeaning(c: ColorStats)
    ensures "bright" in StyleTags(c) <==> c.brightness > 180.0
    ensures "vibrant" in StyleTags(c) <==> c.brightness > 180.0
  {
    StyleTagsMembership(c, "bright");
    StyleTagsMembership(c, "vibrant");
  }

  /** 'moody' and 'dramatic' are present exactly when the brightness is below 100. */
  lemma {:induction false} MoodyTagsMeaning(c: ColorStats)
    ensures "moody" in StyleTags(c) <==> c.brightness < 100.0
    ensures "dramatic" in StyleTags(c) <==> c.brightness < 100.0
  {
    StyleTagsMembership(c, "moody");
    StyleTagsMembership(c, "dramatic");
  }

  /** 'colorful' and 'saturated' are present exactly when the saturation exceeds 0.6. */
  lemma {:induction false} ColorfulTagsMeaning(c: ColorStats)
    ensures "colorful" in StyleTags(c) <==> c.saturation > 0.6
    ensures "saturated" in StyleTags(c) <==> c.saturation > 0.6
  {
    StyleTagsMembership(c, "colorful");
    StyleTagsMembership(c, "saturated");
  }

  /** 'muted' and 'desaturated' are present exactly when the saturation is below 0.3. */
  lemma {:induction false} MutedTagsMeaning(c: ColorStats)
    ensures "muted" in StyleTags(c) <==> c.saturation < 0.3
    ensures "desaturated" in StyleTags(c) <==> c.saturation < 0.3
  {
    StyleTagsMembership(c, "muted");
    StyleTagsMembership(c, "desaturated");
  }

  /** The temperature tags are present exactly when the temperature matches. */
  lemma {:induction false} TemperatureTagsMeaning(c: ColorStats)
    ensures "warm tones" in StyleTags(c) <==> c.temperature == Warm
    ensures "cool tones" in StyleTags(c) <==> c.temperature == Cool
  {
    StyleTagsMembership(c, "warm tones");
    StyleTagsMembership(c, "cool tones");
  }

  /** The style tags are pushed at most once each, so dropping repeats changes nothing. */
  lemma {:induction false} StyleTagsDistinct(c: ColorStats)
    ensures NoDuplicates(StyleTags(c))
    ensures Dedup(StyleTags(c)) == StyleTags(c)
  {
    var bt, st, tt := BrightnessTags(c.brightness), SaturationTags(c.saturation), TemperatureTags(c.temperature);
    NoDuplicatesConcat(bt, st);
    NoDuplicatesConcat(bt + st, tt);
    DedupOfDistinct(StyleTags(c));
  }

  /** The composition tags are present exactly when their conditions hold. */
  lemma {:induction false} CompositionTagsMeaning(f: Features)
    ensures "professional composition" in ElementTags(f) <==> f.composition.ruleOfThirds == Balanced
    ensures "symmetrical" in ElementTags(f) <==> Greater(f.composition.symmetry, 0.8)
    ensures "centered subject" in ElementTags(f) <==> f.composition.focus == Centered
  {
    ElementTagsMembership(f, "professional composition");
    ElementTagsMembership(f, "symmetrical");
    ElementTagsMembership(f, "centered subject");
  }

  /** 'detailed' and 'complex' are present exactly when the edge complexity is high. */
  lemma {:induction false} DetailTagsMeaning(f: Features)
    ensures "detailed" in ElementTags(f) <==> f.edges.complexity == High
    ensures "complex" in ElementTags(f) <==> f.edges.complexity == High
  {
    ElementTagsMembership(f, "detailed");
    ElementTagsMembership(f, "complex");
  }

  /** 'minimalist' and 'clean' are present exactly when the edge complexity is low. */
  lemma {:induction false} MinimalTagsMeaning(f: Features)
    ensures "minimalist" in ElementTags(f) <==> f.edges.complexity == Low
    ensures "clean" in ElementTags(f) <==> f.edges.complexity == Low
  {
    ElementTagsMembership(f, "minimalist");
    ElementTagsMembership(f, "clean");
  }

  /** The element tags are pushed at most once each, so dropping repeats changes nothing. */
  lemma {:induction false} ElementTagsDistinct(f: Features)
    ensures NoDuplicates(ElementTags(f))
    ensures Dedup(ElementTags(f)) == ElementTags(f)
  {
    var layout, complexity := LayoutTags(f.composition), ComplexityTags(f.edges);
    var centered := if f.composition.focus == Centered then ["centered subject"] else [];
    LayoutTagsDistinct(f.composition);
    ComplexityTagsDistinct(f.edges);
    NoDuplicatesConcat(layout, complexity);
    NoDuplicatesConcat(layout + complexity, centered);
    DedupOfDistinct(ElementTags(f));
  }

  lemma {:induction false} LayoutTagsDistinct(c: CompositionStats)
    ensures NoDuplicates(LayoutTags(c))
  {
    var thirds := if c.ruleOfThirds == Balanced then ["professional composition"] else [];
    var symmetric := if Greater(c.symmetry, 0.8) then ["symmetrical"] else [];
    NoDuplicatesConcat(thirds, symmetric);
  }

  lemma {:induction false} ComplexityTagsDistinct(e: EdgeStats)
    ensures NoDuplicates(ComplexityTags(e))
  {
    var high := if e.complexity == High then ["detailed", "complex"] else [];
    var low := if e.complexity == Low then ["minimalist", "clean"] else [];
    NoDuplicatesConcat(high, low);
  }

  /**
   * The tags of `interpretFeatures` are the pushed tags themselves, and the
   * opposite tags never meet: 'bright' and 'moody', 'colorful' and 'muted',
   * 'detailed' and 'minimalist'.
   */
  lemma {:induction false} InterpretationIsConsistent(f: Features)
    ensures Interpretation(f).styles == StyleTags(f.colors)
    ensures Interpretation(f).elements == ElementTags(f)
    ensures !("bright" in Interpretation(f).styles && "moody" in Interpretation(f).styles)
    ensures !("colorful" in Interpretation(f).styles && "muted" in Interpretation(f).styles)
    ensures !("detailed" in Interpretation(f).elements && "minimalist" in Interpretation(f).elements)
  {
    StyleTagsDistinct(f.colors);
    ElementTagsDistinct(f);
    BrightTagsMeaning(f.colors);
    MoodyTagsMeaning(f.colors);
    ColorfulTagsMeaning(f.colors);
    MutedTagsMeaning(f.colors);
    DetailTagsMeaning(f);
    MinimalTagsMeaning(f);
  }

  /** The confidence of a locally analysed frame lies in [70, 90]. */
  lemma {:induction false} FrameConfidenceInRange(s: seq<Byte>, w: nat, h: nat)
    requires IsImageShape(|s|, w, h)
    ensures 70.0 <= Interpretation(FeaturesOf(s, w, h)).confidence <= 90.0
  {
    FeaturesAreConsistent(s, w, h);
  }
}
