# RealVideoAnalyzer in Dafny

This project models the analysis core of `RealVideoAnalyzer`, the class in
`ai-analyzer.js` that turns frames of a video into a text prompt for a video
generator. The modelled pipeline runs as follows:

- each frame goes to a remote image classifier (Hugging Face CLIP) first;
- when that call fails, the frame's RGBA pixels are analysed locally:
  - colour averages, saturation and temperature;
  - the edge density;
  - rule-of-thirds balance, symmetry and focus;
- the local statistics become style and element tags through a fixed threshold table;
- the per-frame analyses are consolidated into one analysis (tags deduplicated, confidence averaged);
- the consolidated analysis is rendered through a fixed sentence template.

Modules, in dependency order:

| module | file | what it holds |
|---|---|---|
| `Wrappers` | wrappers.dfy | `Option`, for `undefined` and absent fields |
| `JsNumber` | jsnumber.dfy | JavaScript numbers as `Finite(real) \| NaN`, `Math.round`, iteration counts of `for` loops with fractional bounds |
| `Collections` | collections.dfy | `[...new Set(xs)]`, `join`, `slice`, `includes`, ASCII `toLowerCase` |
| `Pixels` | pixels.dfy | the `ImageData` class (width, height, `array<Byte>`), luma, and reads at JavaScript indices |
| `Colors` | colors.dfy | `analyzeColors`, `getColorTemperature`, `calculateBrightness` |
| `Edges` | edges.dfy | `analyzeEdges` |
| `Composition` | composition.dfy | `getRegionBrightness`, `evaluateComposition`, `calculateSymmetry`, `countEdgesInRegion`, `detectFocusArea`, `analyzeComposition` |
| `Analysis` | analysis.dfy | the feature record and `interpretFeatures` |
| `Labels` | labels.dfy | `interpretHuggingFaceResult`, `extractStylesFromLabels`, `extractElementsFromLabels` |
| `Consolidate` | consolidate.dfy | `consolidateAnalyses` |
| `Prompt` | prompt.dfy | `generatePromptFromAnalysis` |
| `Frames` | frames.dfy | `analyzeSingleFrame`, `analyzeFrames`, `analyzeVideoFrames`, and the seek times of `extractFrames` |

The loops over the pixel buffer are methods with `while` loops over
`ImageData.data`. Each is proved equal to a recursive specification function
on `data[..]`, and the source's promises are proved as lemmas about those
functions. The tag pushes, the consolidation pass and the prompt's `+=`
steps are methods as well. The expression-only parts are functions:
temperature, thirds verdict, label filtering and the remote-reply interpretation.

JavaScript number behaviour the source depends on is modelled explicitly:

- A region loop such as `for (x = width/3; x < 2*width/3; x++)` keeps a fractional
  loop variable. The model's loop variables are reals, and `data[idx]` at a
  non-integer or out-of-range index is `undefined` (`Pixels.Read`). A luma
  built from it is `NaN`.
- `NaN` propagates through sums and divisions (`JsNumber.Add`, `JsNumber.DivByCount`).
  `DivByCount` covers the divisions by a pixel or frame count. There a zero
  count always comes with a zero total, so `0 / 0 = NaN` is the only
  division by zero it meets. It maps a non-zero total over a zero count to
  `NaN` as well, where JavaScript gives an infinity.
- Every comparison with `NaN` is false (`JsNumber.Less`, `JsNumber.Greater`).
- `Math.max`/`Math.min` of a list holding `NaN` give `NaN`.
- `x / 0` is `+Infinity` for `x > 0` and `NaN` for `x = 0` (`Composition.RatioAbove`).
- Other arithmetic is exact (rationals and unbounded integers).

Two properties of the code are easy to miss:

- The prompt's detail record names a model (`aiModel`), not a per-frame
  provenance. Consolidation always sets `rawLabels` to an array, and an empty
  array is truthy. So a consolidated analysis is always credited to
  "Hugging Face CLIP + Computer Vision", even when every frame fell back to
  the local analysis (`Frames.ConsolidatedModelName`).
- The frame sampling interval is `Math.max(1, duration / frameCount)`, so it
  is never shorter than one second (`Frames.SampleInterval`). With N frames,
  the last requested seek time (the value assigned to `currentTime`) reaches
  the end of the clip exactly when the clip lasts at most N - 1 seconds. It
  passes the end exactly when the clip is shorter than that
  (`Frames.LastSeekReachesEnd`). A media element clamps such a seek to the
  duration, so the later frames repeat the last picture.

## Model

| member | source | states |
|---|---|---|
| JsNumber.Add | ai-analyzer.js:380 | `a + b` is finite exactly when both operands are, and is then their sum: one `NaN` luma poisons a running total |
| JsNumber.DivByCount | ai-analyzer.js:385 | `total / count` is finite exactly when the total is finite and the count positive, and then multiplies back to the total |
| JsNumber.Max3 | ai-analyzer.js:389 | `Math.max` of three is `NaN` if any argument is, else one of the arguments and at least each of them |
| JsNumber.Min3 | ai-analyzer.js:389 | `Math.min` of three is `NaN` if any argument is, else one of the arguments and at most each of them |
| JsNumber.Round | ai-analyzer.js:231-233 | `Math.round(x)` is the integer within half a unit of x, ties going up |
| JsNumber.Steps | ai-analyzer.js:377-378 | the iteration count k of `for (v = a; v < b; v++)` is the least k with `a + k >= b` |
| JsNumber.StepsExact | ai-analyzer.js:377-378 | the loop variable `a + k` is still below the bound exactly while k is below the iteration count |
| JsNumber.StepsOfIntegers | ai-analyzer.js:377-378 | with integer bounds the loop runs `b - a` times, or not at all |
| JsNumber.MeanBounded | ai-analyzer.js:234 | a total of n terms in [0, hi], divided by n, lies in [0, hi] |
| Pixels.ImageData.constructor | ai-analyzer.js:201 | a decoded frame has positive width and height and four bytes per pixel |
| Pixels.ImageIsPixels | ai-analyzer.js:230 | a w-by-h buffer holds w·h ≥ 1 whole pixels |
| Pixels.Luma | ai-analyzer.js:280 | the luma `(r + g + b) / 3` of a pixel lies in [0, 255] |
| Pixels.Read | ai-analyzer.js:380 | `data[idx]` is defined exactly when idx is an integer inside the buffer |
| Pixels.LumaAt | ai-analyzer.js:380 | the luma at a JavaScript index is finite exactly when the index is an integer and its three channel bytes lie in the buffer, and then it lies in [0, 255] |
| Pixels.LumaAtPixel | ai-analyzer.js:379-380 | at the integer index of a pixel the JavaScript luma is that pixel's luma |
| Pixels.LumaAtFraction | ai-analyzer.js:379-380 | at a non-integer index the luma is `NaN` |
| Pixels.PixelBytesInBuffer | ai-analyzer.js:401-402 | every byte of pixel (x, y) of a w-by-h image lies inside the buffer |
| Colors.ColorTemperature | ai-analyzer.js:244-249 | warm exactly when red leads green and blue by more than 30, cool exactly when blue leads both by more than 30, so never both |
| Colors.Saturation | ai-analyzer.js:225-227 | a pixel's saturation lies in [0, 1] and is 0 exactly for grey pixels, black (`0/0 \|\| 0`) included |
| Colors.ChannelSum | ai-analyzer.js:220-223 | the sum of one channel over k pixels lies in [0, 255k] |
| Colors.SaturationSum | ai-analyzer.js:225-227 | the summed saturation of k pixels lies in [0, k] |
| Colors.AnalyzeColors | ai-analyzer.js:215-242 | the loop computes the colour statistics of the buffer; the average saturation lies in [0, 1] and the brightness equals `calculateBrightness`'s |
| Colors.CalculateBrightness | ai-analyzer.js:296-305 | the loop computes the mean luma of the buffer, which lies in [0, 255] |
| Colors.BrightnessAgrees | ai-analyzer.js:296-305 | `(r + g + b) / (3 n)` of `analyzeColors` equals the mean luma of `calculateBrightness` on the same buffer |
| Colors.LumaSumIsChannelSum | ai-analyzer.js:301 | the luma sum is a third of the three channel sums together |
| Colors.SwapKeepsBrightnessAndSaturation | ai-analyzer.js:234-240 | exchanging any two pixels leaves the brightness and the average saturation unchanged: they do not depend on pixel order |
| Colors.SwappedLumaSum | ai-analyzer.js:296-305 | after exchanging pixels p < q, the luma sum over the first k pixels changes only for p < k <= q, by the difference of the two lumas |
| Colors.SwappedSaturationSum | ai-analyzer.js:220-228 | the same for the saturation sum |
| Colors.AverageSaturationInUnitRange | ai-analyzer.js:230-234 | the average saturation lies in [0, 1] |
| Colors.AveragesAreBytes | ai-analyzer.js:230-233 | the rounded channel averages that feed the temperature rule lie in [0, 255] |
| Edges.EdgeCount | ai-analyzer.js:279-286 | the edges among the first k pixel pairs number at most k |
| Edges.ComplexityOf | ai-analyzer.js:292 | high exactly above 0.1, medium exactly in (0.05, 0.1], low exactly at or below 0.05 |
| Edges.AnalyzeEdges | ai-analyzer.js:275-294 | the loop compares every consecutive pair of the flat buffer, across row ends too; the density lies in [0, 1) |
| Edges.DensityBelowOne | ai-analyzer.js:279-288 | at most n − 1 of n pixels start an edge, so the density lies in [0, 1) |
| Edges.UniformImageIsLow | ai-analyzer.js:275-293 | a buffer of one luma has density 0 and low complexity |
| Composition.GetRegionBrightness | ai-analyzer.js:373-386 | the nested loop returns the mean JavaScript luma over the region, `NaN` once a read is undefined or the region is empty |
| Composition.RegionBrightnessOfPixels | ai-analyzer.js:373-386 | a non-empty region with integer bounds inside the image has a finite mean in [0, 255] |
| Composition.MiddleBandNaN | ai-analyzer.js:258 | when the width is not a multiple of 3 the centre band starts at a fraction and its mean is `NaN` |
| Composition.EvaluateComposition | ai-analyzer.js:388-392 | balanced exactly when both triples are defined and pairwise closer than 40 |
| Composition.FractionalThirdsAreDynamic | ai-analyzer.js:256-269 | a width that is not a multiple of 3 always yields 'dynamic' |
| Composition.DivisibleWidthBandsDefined | ai-analyzer.js:256-260 | when 3 divides the width the three vertical bands have finite means in [0, 255] |
| Composition.DivisibleHeightBandsDefined | ai-analyzer.js:262-266 | when 3 divides the height the three horizontal bands have finite means in [0, 255] |
| Composition.SymmetryTerm | ai-analyzer.js:407 | each mirrored-pair term lies in [0, 1] |
| Composition.SymmetryRow | ai-analyzer.js:400-408 | the terms of k columns sum to a value in [0, k] |
| Composition.SymmetrySum | ai-analyzer.js:399-409 | the terms over the left halves of `rows` rows sum to at most `rows · ⌊w/2⌋` |
| Composition.CalculateSymmetry | ai-analyzer.js:394-412 | the nested loop returns the mean mirrored-pair term |
| Composition.RowSymmetry | ai-analyzer.js:400-408 | the inner loop sums the terms of the left half of row y |
| Composition.SymmetryInUnitRange | ai-analyzer.js:394-412 | for width ≥ 2 the score is defined and lies in [0, 1] |
| Composition.SymmetryOfWidthOne | ai-analyzer.js:411 | for width 1 the score is `0 / 0 = NaN` |
| Composition.MirroredIsFullySymmetric | ai-analyzer.js:394-412 | a buffer of width >= 2 whose rows are mirrored in luma scores exactly 1 |
| Composition.CountEdgesInRegion | ai-analyzer.js:425-443 | the nested loop counts the edges of the region clipped to the image, skipping the last column |
| Composition.CountRowEdges | ai-analyzer.js:430-439 | the inner loop counts the edges of one row of the region |
| Composition.RatioAbove | ai-analyzer.js:422 | `a / b > t` holds, for a positive count b, exactly when `a > t * b`, and, for b = 0, exactly when a > 0 (`+Infinity`; `0 / 0` is `NaN`) |
| Composition.DetectFocusArea | ai-analyzer.js:414-423 | returns 'centered' exactly when the centre-to-total ratio exceeds 0.3 under JavaScript division |
| Composition.IntegralRegionWithinTotal | ai-analyzer.js:425-443 | a region with integer bounds never counts more edges than the whole image |
| Composition.SubRegionWithinTotal | ai-analyzer.js:429-430 | a block of whole rows and columns counts no more edges than the image |
| Composition.ZeroEdgesAreDistributed | ai-analyzer.js:419-422 | with integer centre bounds the centre count is at most the total, and zero total edges give 'distributed' |
| Composition.MultiplesOfEightHaveIntegralCenter | ai-analyzer.js:415-419 | sides that are multiples of 8 give integer centre-square bounds |
| Composition.TinyImageIsCentered | ai-analyzer.js:414-437 | on a 2x2 frame the fractional centre probe reads bytes across pixels and finds an edge the whole scan does not, and `1 / 0` makes the focus 'centered' |
| Composition.MeasureHorizontalThirds | ai-analyzer.js:256-260 | the three vertical band means, left to right |
| Composition.MeasureVerticalThirds | ai-analyzer.js:262-266 | the three horizontal band means, top to bottom |
| Composition.AnalyzeComposition | ai-analyzer.js:251-273 | the composition record; balanced exactly when both band triples are pairwise within 40 |
| Analysis.ExtractVisualFeatures | ai-analyzer.js:201-207 | the feature record of a decoded frame |
| Analysis.FeaturesAreConsistent | ai-analyzer.js:202-207 | the two brightness figures agree, the edge density lies in [0, 1) and the saturation in [0, 1] |
| Analysis.Confidence | ai-analyzer.js:329 | the local confidence is at most 90, at least 70 for a non-negative density, and exactly 90 from density 0.2 |
| Analysis.PushStyleTags | ai-analyzer.js:312-317 | the style pushes, in source order |
| Analysis.PushElementTags | ai-analyzer.js:320-324 | the element pushes, in source order |
| Analysis.InterpretFeatures | ai-analyzer.js:307-332 | the pushed tags with repeats dropped, the capped confidence, no raw labels, and the features as technical data |
| Analysis.BrightTagsMeaning | ai-analyzer.js:312 | 'bright' and 'vibrant' are present exactly when the brightness exceeds 180 |
| Analysis.MoodyTagsMeaning | ai-analyzer.js:313 | 'moody' and 'dramatic' are present exactly when the brightness is below 100 |
| Analysis.ColorfulTagsMeaning | ai-analyzer.js:314 | 'colorful' and 'saturated' are present exactly when the saturation exceeds 0.6 |
| Analysis.MutedTagsMeaning | ai-analyzer.js:315 | 'muted' and 'desaturated' are present exactly when the saturation is below 0.3 |
| Analysis.TemperatureTagsMeaning | ai-analyzer.js:316-317 | 'warm tones' and 'cool tones' are present exactly for the matching temperature |
| Analysis.CompositionTagsMeaning | ai-analyzer.js:320-324 | 'professional composition', 'symmetrical' and 'centered subject' are present exactly when balanced, symmetry > 0.8 and centred focus |
| Analysis.DetailTagsMeaning | ai-analyzer.js:322 | 'detailed' and 'complex' are present exactly for high complexity |
| Analysis.MinimalTagsMeaning | ai-analyzer.js:323 | 'minimalist' and 'clean' are present exactly for low complexity |
| Analysis.StyleTagsDistinct | ai-analyzer.js:312-327 | the style pushes never repeat a tag, so the `Set` pass keeps them as pushed |
| Analysis.ElementTagsDistinct | ai-analyzer.js:320-328 | the element pushes never repeat a tag, so the `Set` pass keeps them as pushed |
| Analysis.InterpretationIsConsistent | ai-analyzer.js:307-331 | opposite tags never meet: not 'bright' with 'moody', 'colorful' with 'muted', or 'detailed' with 'minimalist' |
| Analysis.FrameConfidenceInRange | ai-analyzer.js:329 | a locally analysed frame has confidence in [70, 90] |
| Collections.Dedup | ai-analyzer.js:327 | `[...new Set(xs)]` is no longer than xs and keeps xs's first element first |
| Collections.DedupMeaning | ai-analyzer.js:327 | `[...new Set(xs)]` has no repeats and holds exactly the elements of xs |
| Collections.DedupKeepsFirstAppearanceOrder | ai-analyzer.js:463-465 | the kept elements appear in the order of their first appearance in the input |
| Collections.DedupOfDistinct | ai-analyzer.js:327-328 | on a list without repeats the `Set` pass changes nothing |
| Collections.Take | ai-analyzer.js:166 | `slice(0, n)` is the prefix of length min(n, \|s\|) |
| Collections.Join | ai-analyzer.js:335 | joining nothing gives "", joining one part gives that part |
| Collections.Contains | ai-analyzer.js:164 | `includes` holds when the substring is a prefix, and only when it is no longer than the text |
| Collections.ContainsIffOccurs | ai-analyzer.js:164 | `includes` holds exactly when the substring occurs at some position |
| Collections.ToLower | ai-analyzer.js:164 | lower-casing keeps the length and maps each character, ASCII letters only (see "Left out") |
| Labels.SomeKeyword | ai-analyzer.js:163-165 | `some` fails on no keywords, and succeeds only when some keyword occurs in the text |
| Labels.SomeKeywordMeaning | ai-analyzer.js:163-165 | the keyword-by-keyword `some` succeeds exactly when some keyword occurs in the lower-cased label |
| Labels.FilterMatching | ai-analyzer.js:162-165 | the filter keeps an order-preserving selection of the labels, each matching label exactly as often as it occurs and no other label |
| Labels.ExtractedLabels | ai-analyzer.js:162-166 | an extractor keeps exactly the first min(`cap`, number of matches) matching labels, in order |
| Labels.ExtractStyles | ai-analyzer.js:155-167 | at most three labels, in order, each containing a style keyword |
| Labels.ExtractElements | ai-analyzer.js:169-181 | at most four labels, in order, each containing an element keyword |
| Labels.StylesAreMatchingLabels | ai-analyzer.js:155-167 | the style tags are the first three matching labels, or all of them when fewer match |
| Labels.ElementsAreMatchingLabels | ai-analyzer.js:169-181 | the element tags are the first four matching labels, or all of them when fewer match |
| Labels.InterpretRemoteResult | ai-analyzer.js:130-153 | the remote interpretation always carries raw labels (at most five), at most three styles and four elements, and no technical features |
| Labels.TopItems | ai-analyzer.js:133 | the first five items of the reply |
| Labels.TopLabels | ai-analyzer.js:133 | the labels of the first five items, in order |
| Labels.MaxScore | ai-analyzer.js:136 | `Math.max(...scores)` is one of the scores and at least each of them |
| Labels.RemoteResultMeaning | ai-analyzer.js:132-143 | a non-empty reply gives its first five labels as raw labels, tags selected from them, and 100 times the best of their scores |
| Labels.EmptyResultIsDefault | ai-analyzer.js:147-152 | an empty reply gives the fixed default with confidence 70 and an empty label list |
| Consolidate.ConsolidateAnalyses | ai-analyzer.js:445-469 | the `forEach` pass computes the consolidation: tags and labels appended then deduplicated, confidences summed then averaged |
| Consolidate.AllStylesMembers | ai-analyzer.js:455 | a style is appended exactly when some frame has it |
| Consolidate.AllElementsMembers | ai-analyzer.js:456 | an element is appended exactly when some frame has it |
| Consolidate.AllLabelsMembers | ai-analyzer.js:458-460 | a label is appended exactly when some frame with raw labels has it |
| Consolidate.ConsolidationIsUnion | ai-analyzer.js:454-465 | consolidated styles, elements and labels have no repeats and hold exactly the union of the frames' lists |
| Consolidate.SingleFrameConsolidation | ai-analyzer.js:445-469 | one frame keeps its confidence and technical data, and its tags only lose repeats |
| Consolidate.TotalConfidenceBounds | ai-analyzer.js:457 | n confidences in [lo, hi] sum to a value in [n·lo, n·hi] |
| Consolidate.ConsolidatedConfidenceBounds | ai-analyzer.js:466 | the mean of confidences in [lo, hi] lies in [lo, hi] |
| Prompt.JoinOr | ai-analyzer.js:335-336 | a non-empty join is used as it is, and an empty join (always so for an empty tag list) renders as the fallback word |
| Prompt.AppendClauses | ai-analyzer.js:342-354 | the three `+=` steps append exactly the clauses whose conditions hold, in order |
| Prompt.GeneratePromptFromAnalysis | ai-analyzer.js:334-370 | the prompt and its detail record |
| Prompt.ClausesDiffer | ai-analyzer.js:344-356 | the clause texts and the tail can be read back unambiguously, so the clause flags are recoverable from the text |
| Prompt.PromptShape | ai-analyzer.js:339-356 | the prompt opens with "A " and the base sentence, ends with the fixed tail, and between them holds exactly the clauses whose conditions hold |
| Prompt.EmptyTagsUseDefaults | ai-analyzer.js:335-362 | empty tags render as "professional" and "well-composed", and the details fall back to fixed tag lists |
| Prompt.ShownConfidence | ai-analyzer.js:337 | the shown confidence is the analysis confidence rounded to the nearest integer |
| Prompt.ModelNameFollowsRawLabels | ai-analyzer.js:365 | the remote model is named exactly when the analysis carries raw labels, even an empty list |
| Frames.AnalyzeSingleFrame | ai-analyzer.js:84-92 | the remote interpretation when the classifier answered, the local analysis otherwise |
| Frames.OutcomeFollowsReply | ai-analyzer.js:84-92 | the remote path is taken exactly when there is a reply; a fallback has no raw labels and confidence in [70, 90] |
| Frames.AnalysesAt | ai-analyzer.js:75-79 | the i-th pushed analysis is the outcome of the i-th frame |
| Frames.AnalyzeEach | ai-analyzer.js:73-79 | the loop pushes one analysis per frame, in frame order |
| Frames.AnalyzeFrames | ai-analyzer.js:71-82 | the consolidation of the per-frame analyses |
| Frames.AnalyzeVideoFrames | ai-analyzer.js:12-27 | the prompt of the consolidated analysis, always credited to the remote model |
| Frames.ConsolidatedModelName | ai-analyzer.js:358-368 | a consolidated analysis always names "Hugging Face CLIP + Computer Vision" as its model |
| Frames.FallbackConfidences | ai-analyzer.js:75-79 | when every frame falls back, every pushed confidence lies in [70, 90] |
| Frames.AllFallbackConfidence | ai-analyzer.js:71-82 | when every frame falls back, the consolidated confidence lies in [70, 90] |
| Frames.SampleInterval | ai-analyzer.js:40 | the interval is the larger of 1 second and duration / count: at least both, and one of them |
| Frames.SampleTimes | ai-analyzer.js:42-43 | one seek time per requested frame |
| Frames.SampleTimesIncrease | ai-analyzer.js:40-43 | seek times start at 0 and grow by at least one second per frame |
| Frames.SampleTimesWithinLongVideo | ai-analyzer.js:40-43 | with at least one second per frame every seek time lies inside the video |
| Frames.LastSeekReachesEnd | ai-analyzer.js:40-43 | with N frames the last seek time reaches the end of the clip exactly when it lasts at most N - 1 seconds, and passes it exactly when it is shorter |
| Frames.ShortVideoSeeksPastEnd | ai-analyzer.js:40-43 | 6 frames of a 2-second clip get the requested seek times 0, 1, 2, 3, 4 and 5 seconds, the last four past the end |

## Left out

- Frame capture in `extractFrames` (video element, canvas, `toDataURL`, event listeners) is browser I/O. Only its seek times are modelled.
- Image decoding in `extractVisualFeatures` (`Image`, object URLs, canvas) is browser I/O. The model starts from the decoded `ImageData`.
- The `fetch` calls to the classifier, the blob conversions, the HTTP status check and JSON decoding are network I/O. Their outcome is a parameter: `Some(items)` for a decoded reply, `None` for any thrown error.
- Frames.AnalyzeFrames: the frames are given as `ImageData` objects with a ghost list of value captures describing them; the JPEG round trip of `toDataURL` is not modelled.
- Errors thrown by the fallback path, and the rethrow in `analyzeVideoFrames`, are not modelled: the local analysis of a decoded frame cannot fail in the model.
- Consolidate.ConsolidateAnalyses requires a non-empty list: the source divides by `analyses.length` unguarded, and `analyzeFrames` always receives the requested frames.
- `analyses[0]?.technical || {}`: an absent technical record and the empty object `{}` are both `None`.
- A decoded classifier reply that is not an array is not a separate case. One without a positive `length` behaves like the empty list and is passed as `Some([])`. One with a positive `length`, such as a non-empty string, throws in `slice` or `map`; the frame then falls back to the local analysis and is passed as `None`. Items are assumed to carry a string label and a numeric score.
- Collections.ToLower: covers ASCII letters only, without Unicode case mapping. JavaScript's `toLowerCase` maps more: U+212A KELVIN SIGN becomes "k", so "DAR\u212A" matches "dark" in the source but not in the model.
- Colors.AnalyzeColors: the dominant colour is kept as the three rounded averages, not as the `rgb(r, g, b)` string.
- JsNumber.DivByCount: a non-zero total over a zero count gives `NaN`, not `+-Infinity`; no division in the analyser meets that case.
- Floating-point rounding is not modelled: averages, indices and ratios are exact rationals. `NaN` from undefined reads at fractional indices and from `0 / 0`, and comparisons with infinity after `x / 0`, are modelled only where exact arithmetic produces them.
- Composition.GetRegionBrightness: cannot produce a `NaN` band caused by double rounding of the loop variable. For a 720x1280 frame the middle row band starts at `1280/3`; at row 86 of the band JavaScript computes the index 1476480.0000000002, reads `undefined` and makes the band `NaN`, so the source answers 'dynamic' for every such frame. The model's index is the integer 1476480, the band is finite and the verdict can be 'balanced'. Frames of 360x640, 480x854, 576x1024 and 600x800 are affected the same way.
- Edges.AnalyzeEdges: cannot produce an edge flipped by double rounding of the `> 25` test. Channel sums 22 and 97 give `Math.abs(22/3 - 97/3)` = 25.000000000000004 in JavaScript, an edge; the model's exact difference is 25, no edge. Composition.CountEdgesInRegion uses the same test and differs in the same way.
- Frames.SampleTimes: the default `frameCount = 6` of `analyzeVideoFrames` is not modelled; the frame count is always an explicit argument, as both callers in the page pass one.
- A `NaN` or infinite video duration is not modelled: durations are reals.
- The constructor's token and model table, `console` tracing, and the async/Promise structure are left out. Frames are analysed sequentially, as `analyzeFrames` awaits each one.
- `script.js` (the page's UI wiring) is not part of this model.
