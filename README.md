# Infant monitor: audio rules, emotion summary and status line

This project models the decision logic of a baby monitor. The monitor is a Next.js page plus one API route. The page records a five-second clip and computes features from it:

- a loudness value (RMS);
- four "cry band" energies and two ratios of them, from a 2048-point analyser;
- a frame-by-frame energy pattern: transients, rhythm, and sustained loud frames;
- an `isCrying` verdict.

The page posts these features as JSON, with a camera snapshot, to `/api/analyzeBabyStatus`. The route then does three things:

- it summarises the first face the face detector returns: the two most confident emotions, and the eyes, mouth and smile flags;
- it re-derives `hasCrying`, `hasLaughter`, `intensity` and `duration` from the posted features;
- after asking a language model for a `<STATUS>…</STATUS>` verdict, it decides `needsAttention`.

The page shows the text captured by `/<STATUS>(.*?)<\/STATUS>/` as the status line.

Modules:

- `JsValues` (`js_values.dfy`) models the JavaScript values the code works with. This covers IEEE division, addition and comparison on the non-negative numbers, including NaN and Infinity, plus `Math.sign`, `Math.min`, `JSON.stringify` and `String.prototype.includes`.
- `EnergyPatterns` (`energy_pattern.dfy`) models `analyzeEnergyPattern`. The method `AnalyzeEnergyPattern` runs the first loop and calls `CountRhythmic` for the second; together they are proved equal to a counting specification `PatternOf`.
- `Spectrum` (`spectrum.dfy`) models `getBandEnergy` and `calculateDetailedSpectralFeatures`. The band loop is proved against `BandValue`, and the straight-line sequence of band calls against `SpectralOf`.
- `MonitorPage` (`monitor_page.dfy`) models the whole-clip RMS, the `isCrying` rule, the `audioFeatures` object and its JSON form.
- `StatusLine` (`status_line.dfy`) models the status regular expression: leftmost match, lazy group, and `.` not matching line terminators.
- `StatusRoute` (`status_route.dfy`) models the POST handler's rules:
  - the emotion sort, as an in-place sort of an array;
  - the top-two slice;
  - the no-face early return;
  - the 500 answer when `Emotions` is an empty array;
  - the `audioAnalysis` block;
  - `needsAttention`.
- `CrossChecks` (`cross_checks.dfy`) states what the route's rules mean for features the page actually posts.

Notes on number semantics:

- NaN and Infinity are kept explicit, because the code really produces them:
  - `0 / 0` for a silent spectrum;
  - `x / 0` after a silent frame;
  - reading past the analyser's 1024 bins when the sample rate is below 8 kHz.
- `JSON.stringify` turns NaN into `null`. The route's `>`, `<`, `*` and `+` then read `null` as 0.
- Doubles are read as exact reals. RMS is a parameter `rms` that returns a value ≥ 0. The analyser output is given as linear magnitudes (`10^(dB/20)`), 1024 values, each ≥ 0.

Edge cases the code leaves unguarded, as the model states them:

- **Silent spectrum.** A total spectral energy of 0 is not guarded: the code divides and both ratios are NaN (`Spectrum.SilentSpectrumRatios`). NaN makes every `>` threshold test false, and after JSON it reaches the route as `null`, which reads as 0.
- **Zero previous energy.** A previous frame energy of 0 is not guarded: the code divides, and `x / 0` is Infinity.
  - A frame with any energy after a silent frame counts as a transient.
  - Two silent frames in a row give NaN, which does not count (`EnergyPatterns.TransientIff`).
- **Empty and short clips.** `calculateRMS` alone returns NaN on an empty array (`MonitorPage.CalculateRms`). The page never posts features for an empty clip: a decoded AudioBuffer holds at least one sample frame, and `createBuffer(1, data.length, sampleRate)` at app/page.tsx:183 would throw for length 0 before anything is posted. The clip-level members therefore take a non-empty channel. A clip shorter than one 512-sample frame is not guarded: both temporal ratios are 0 / 0, NaN (`EnergyPatterns.PatternBounds`, `MonitorPage.ShortClipNotCrying`).
- **Silent analyser.** As written, the page connects a buffer source to the analyser but never starts it. The analyser therefore most likely reports silence (every bin at −∞ dB, magnitude 0). `MonitorPage.SilentSpectrumNotCrying` shows that the page's `isCrying` is then always false. The route's fallback rule is then false too, because the NaN ratios arrive as `null`.

## Model

| member | source | states |
|---|---|---|
| JsValues.Div | app/page.tsx:216-217 | IEEE division on non-negative numbers: NaN exactly for a NaN operand, ∞/∞ or 0/0; Infinity exactly for ∞/finite or positive/0; a finite quotient times the divisor gives the dividend |
| JsValues.Add | app/page.tsx:199 | IEEE addition: NaN propagates, the sum is finite only when both operands are, and a finite sum is at least each non-negative operand |
| JsValues.Sign | app/page.tsx:260 | `Math.sign` is −1, 0 or 1; it is 0 exactly for 0 and positive exactly for positive arguments |
| JsValues.Greater | app/page.tsx:278-289 | a `>` test is false for NaN, true for +Infinity, and the real comparison for a finite number |
| JsValues.ToNumber | app/api/analyzeBabyStatus/route.ts:109-123 | the route reads `null` as 0 and a number as itself |
| JsValues.ComparisonThroughJson | app/api/analyzeBabyStatus/route.ts:109-119 | a threshold test at or above 0 gives the same answer after the JSON round trip for finite numbers and NaN; +Infinity passes before and fails after |
| JsValues.ToJson | app/page.tsx:322-327 | `JSON.stringify` keeps a number exactly when it is finite and writes `null` otherwise |
| JsValues.Min | app/api/analyzeBabyStatus/route.ts:123 | `Math.min` is one of its arguments and at most both |
| JsValues.Includes | app/api/analyzeBabyStatus/route.ts:191-193 | `includes` holds exactly when the needle occurs at some index of the text |
| JsValues.IncludesExtends | app/api/analyzeBabyStatus/route.ts:191-193 | text added before or after never removes an occurrence |
| EnergyPatterns.Frame | app/page.tsx:235 | frame `i` is the 512 samples starting at `512 * i` |
| EnergyPatterns.Frames | app/page.tsx:228-235 | there are `floor(n / 512)` frames and frame `i` is `Frame(i)` |
| EnergyPatterns.FramesTile | app/page.tsx:228-235 | the first `k` frames, laid end to end, are exactly the first `512 * k` samples |
| EnergyPatterns.Energies | app/page.tsx:234-237 | one energy per whole frame, the RMS of that frame |
| EnergyPatterns.IsTransient | app/page.tsx:240-245 | a silent frame is never a transient, and after a silent frame any energy is one |
| EnergyPatterns.IsRhythmic | app/page.tsx:257-262 | a frame repeats the rhythm exactly when the energy rises twice, falls twice, or stays flat twice |
| EnergyPatterns.PatternOf | app/page.tsx:265-269 | neither ratio is ever Infinity, and each is NaN exactly when the clip has no whole frame |
| EnergyPatterns.FrameStep | app/page.tsx:234-253 | one pass of the first loop extends the energies and adds to the transient and loud counts as the test of that frame says |
| EnergyPatterns.CountRhythmic | app/page.tsx:256-263 | the second loop counts exactly the frames, from the third on, whose delta repeats the previous delta's sign |
| EnergyPatterns.ShareBelow | app/page.tsx:267-268 | a count of at most `frames` frames over `frames` lies in [0, 1], and below 1 when the count is below `frames` |
| EnergyPatterns.AnalyzeEnergyPattern | app/page.tsx:222-270 | the first loop, with `CountRhythmic` for the second, computes `PatternOf` the frame energies: transients counted from frame 1, loud frames (> 0.1), sign repeats counted from frame 2, each ratio divided by the frame count |
| EnergyPatterns.CountBelowFirst | app/page.tsx:240-263 | no frame before a test's first frame (1 for transients, 2 for rhythm) is counted |
| EnergyPatterns.CountBound | app/page.tsx:240-263 | a count over `n` frames is at most `n` minus the test's first frame |
| EnergyPatterns.CountIsSize | app/page.tsx:234-263 | each loop counter is the number of frames at which its test holds |
| EnergyPatterns.QuietCount | app/page.tsx:248-250 | no frame above 0.1 means no loud frame is counted |
| EnergyPatterns.QuietClipNotSustained | app/page.tsx:248-268 | a clip with every frame at most 0.1 has `sustainedEnergy` 0, or NaN without frames |
| EnergyPatterns.TransientIff | app/page.tsx:240-245 | a transient is a rise above 1.5 times a non-zero previous energy, or any energy after a silent frame; two silent frames never count |
| EnergyPatterns.PatternBounds | app/page.tsx:265-269 | `transientCount <= frames - 1`, `sustainedEnergy` in [0, 1], `rhythmicPattern` in [0, 1); with no frame both ratios are NaN and the count is 0 |
| EnergyPatterns.TrailingSamplesIgnored | app/page.tsx:228-235 | samples after the last whole frame do not affect any frame energy |
| Spectrum.Bin | app/page.tsx:195-196 | the bin is the floor of `freq * 2048 / sampleRate`: at most that value and more than that value minus 1 |
| Spectrum.Term | app/page.tsx:199 | a bin's term is its magnitude inside the analyser's 1024 bins and NaN outside (`undefined` read past the array) |
| Spectrum.BandValue | app/page.tsx:197-201 | a band is never Infinity; it is NaN exactly when its non-empty range leaves the array, and otherwise the sum of its bins |
| Spectrum.GetBandEnergy | app/page.tsx:194-202 | the loop's result is the sum of the magnitudes of bins `[floor(lo*2048/sr), floor(hi*2048/sr))`, 0 for an empty range, NaN if a bin lies outside the analyser's array |
| Spectrum.CalculateDetailedSpectralFeatures | app/page.tsx:180-219 | the four cry bands, the total over `[0, sr/2)` and the two ratios are those of `SpectralOf` |
| Spectrum.BandStep | app/page.tsx:198-199 | one loop step adds the next bin's term to the band value |
| Spectrum.SumNotNegative | app/page.tsx:198-199 | a sum of magnitudes is never negative |
| Spectrum.SumSplit | app/page.tsx:198-199 | a bin sum splits at any middle bin |
| Spectrum.SumWithin | app/page.tsx:198-199 | a sub-range's sum is at most the enclosing range's |
| Spectrum.BandsNotNegative | app/page.tsx:205-214 | no band and no total is a negative number |
| Spectrum.BinMonotone | app/page.tsx:195-196 | a higher frequency never maps to a lower bin |
| Spectrum.BinNotNegative | app/page.tsx:195-196 | non-negative frequencies map to non-negative bins |
| Spectrum.NyquistBin | app/page.tsx:214 | the total's end bin `floor((sr/2)*2048/sr)` is 1024 at every sample rate |
| Spectrum.TopBandBin | app/page.tsx:209 | from 8 kHz on, the highest band ends within the analyser's 1024 bins |
| Spectrum.TotalIsWholeSpectrum | app/page.tsx:214 | the total is the finite sum of all 1024 bins |
| Spectrum.BandEdgesOrdered | app/page.tsx:205-210 | the band edges' bins are ordered, so the four bands do not overlap |
| Spectrum.BandsInRange | app/page.tsx:205-210 | from 8 kHz on, every band is finite |
| Spectrum.BandsWithinTotal | app/page.tsx:205-214 | from 8 kHz on, the four bands together are at most the total |
| Spectrum.RatiosWithinUnit | app/page.tsx:216-217 | from 8 kHz on with energy present, both ratios are finite, non-negative and sum to at most 1 |
| Spectrum.RatiosOfParts | app/page.tsx:216-217 | the page's two divisions of parts of a positive total give shares summing to at most 1 |
| Spectrum.ShareOfWhole | app/page.tsx:216-217 | the shares `x / t` and `y / t` of two parts of a positive whole are non-negative and sum to at most 1 |
| Spectrum.FiniteBandWithinTotal | app/page.tsx:205-214 | at any sample rate, a band that reads only existing bins is at most the total |
| Spectrum.RatiosNeverInfinite | app/page.tsx:216-217 | neither ratio is ever Infinity |
| Spectrum.SilentSpectrumRatios | app/page.tsx:216-217 | a total of 0 makes both ratios NaN (0 / 0) |
| MonitorPage.CalculateRms | app/page.tsx:171-177 | the whole-clip RMS is NaN exactly for an empty clip, never Infinity, and otherwise non-negative |
| MonitorPage.IsCrying | app/page.tsx:278-289 | crying needs none of the five values to be NaN, and a clip no louder than 0.08 is never crying |
| MonitorPage.AnalyzeAudio | app/page.tsx:273-297 | for a (never empty) decoded channel, the `audioFeatures` object is `FeaturesOf` the clip: RMS, spectral features, energy pattern, duration and the `isCrying` conjunction |
| MonitorPage.ToWire | app/page.tsx:322-327 | the posted JSON keeps the `isCrying` flag and the transient count unchanged |
| MonitorPage.FeaturesNeverInfinite | app/page.tsx:273-289 | none of the five compared values is Infinity; the RMS of a non-empty clip is a finite non-negative number and `sustainedEnergy` is in [0, 1] |
| MonitorPage.IsCryingIff | app/page.tsx:278-289 | `isCrying` holds exactly when all five values are finite and strictly above 0.2, 0.15, 0.08, 0.3 and 0.4 |
| MonitorPage.ShortClipNotCrying | app/page.tsx:278-289 | a clip shorter than one 512-sample frame is never crying |
| MonitorPage.SilentSpectrumNotCrying | app/page.tsx:278-289 | a silent spectrum is never crying |
| StatusLine.FindClose | app/page.tsx:386 | the lazy group stops at the first closing tag on the same line, or fails at a line terminator or the end |
| StatusLine.Search | app/page.tsx:386 | the match starts at the leftmost position from which a capture exists, with the shortest capture there |
| StatusLine.Captured | app/page.tsx:386 | group 1 is the text of the leftmost, shortest match; no group when no opening tag has a closing tag on its line |
| StatusLine.StatusOf | app/page.tsx:386 | the status line is never empty; it is `Unknown` without analysis, without a match, or for an empty capture, and otherwise the captured text |
| StatusLine.FirstCaptureUnique | app/page.tsx:386 | the regular expression's match is unique |
| StatusLine.StatusShowsCapture | app/page.tsx:386 | a non-empty capture is exactly what the status line shows |
| StatusRoute.FallbackCrying | app/api/analyzeBabyStatus/route.ts:109-111 | the fallback rule never passes on a `null` ratio or a `null` sustained energy |
| StatusRoute.HasLaughter | app/api/analyzeBabyStatus/route.ts:115-120 | laughter needs a loudness number and more than five transients, and excludes the fallback crying rule |
| StatusRoute.NeedsAttention | app/api/analyzeBabyStatus/route.ts:191-196 | any of the three status tags is enough; without one, attention needs an intensity above 0.3 |
| StatusRoute.HasCrying | app/api/analyzeBabyStatus/route.ts:107-112 | the posted flag or the fallback rule (ratios above 0.2 and 0.15, sustained above 0.3) gives crying, and nothing else does |
| StatusRoute.Intensity | app/api/analyzeBabyStatus/route.ts:123 | intensity is at most 1, non-negative for non-negative inputs, and 0 for a silent clip |
| StatusRoute.Duration | app/api/analyzeBabyStatus/route.ts:129 | `duration || 5`: a missing, non-finite or zero duration becomes 5, any other is kept |
| StatusRoute.AudioAnalysisOf | app/api/analyzeBabyStatus/route.ts:96-131 | without features the analysis is all false and 0; with them, intensity is at most 1 and duration non-zero |
| StatusRoute.Labels | app/api/analyzeBabyStatus/route.ts:71 | the labels (`Type`, or '' when absent) keep the emotions' length and order |
| StatusRoute.SortByConfidence | app/api/analyzeBabyStatus/route.ts:69 | the in-place sort leaves a permutation of the emotions in non-increasing confidence (absent = 0) |
| StatusRoute.MostConfident | app/api/analyzeBabyStatus/route.ts:69 | the selected entry is at least as confident as every later one |
| StatusRoute.SwapStep | app/api/analyzeBabyStatus/route.ts:69 | moving the most confident remaining entry forward extends the sorted prefix and keeps the multiset |
| StatusRoute.RestBelowCut | app/api/analyzeBabyStatus/route.ts:69-70 | after sorting, nothing beyond the slice is more confident than its last entry |
| StatusRoute.HeadIsMost | app/api/analyzeBabyStatus/route.ts:72 | after sorting, the first entry is a most confident emotion |
| StatusRoute.PrefixRest | app/api/analyzeBabyStatus/route.ts:68-70 | the entries `slice(0, 2)` drops from a permutation of the emotions are exactly the rest of the emotions |
| StatusRoute.SortedPrefixIsTop | app/api/analyzeBabyStatus/route.ts:68-72 | `slice(0, 2)` of the sorted list is a top two of the emotions, and its head a most confident one |
| StatusRoute.RankEmotions | app/api/analyzeBabyStatus/route.ts:67-73 | the two kept emotions are a top two by confidence; the reported confidence is the maximum, absent for an empty list |
| StatusRoute.Post | app/api/analyzeBabyStatus/route.ts:40-197 | no face gives the fixed no-face answer with `needsAttention` false; an empty `Emotions` array gives the 500 answer; otherwise the answer carries the model's text, the face summary, `audioAnalysis` and the `needsAttention` disjunction |
| StatusRoute.NeedsAttentionMonotone | app/api/analyzeBabyStatus/route.ts:191-196 | more text, a crying detection or a higher intensity never turn `needsAttention` off |
| CrossChecks.PostedCryingIsFallback | app/api/analyzeBabyStatus/route.ts:107-112 | for features the page posts, its `isCrying` implies the fallback rule, so the route's `hasCrying` is exactly the fallback rule |
| CrossChecks.PostedCryingExcludesLaughter | app/api/analyzeBabyStatus/route.ts:107-120 | for posted features, crying and laughter are never both reported |
| CrossChecks.FlagCanClashWithLaughter | app/api/analyzeBabyStatus/route.ts:107-120 | a body whose `isCrying` flag is set can be reported as crying and laughing at once |
| CrossChecks.PostedIntensityInUnit | app/api/analyzeBabyStatus/route.ts:123-129 | for posted features, intensity lies in [0, 1] and the duration is the clip's, or 5 when it is 0 |
| CrossChecks.SilentClipIsCalm | app/api/analyzeBabyStatus/route.ts:103-131 | a clip whose RMS is 0 over the whole clip and every frame is reported as neither crying nor laughing, with intensity 0 |

## Left out

- Recording, decoding, the analyser's FFT and `calculateRMS` are not modelled: the clip's samples, its sample rate and duration, the 1024 bin magnitudes and an RMS function (any function with non-negative values) are inputs.
- Floating-point rounding: doubles are read as exact reals; NaN and +Infinity are modelled, negative infinity and −0 never arise in the core.
- The face detector, the language-model call and the prompt text are not modelled; their results (`FaceDetails`, `completion`) are inputs of `StatusRoute.Post`. The S3 uploads, the data store, the UI and the `<ANALYSIS>` line are outside the core.
- `imageKey` and `audioKey`, which the route only echoes back, are not modelled.
- Malformed request bodies (invalid JSON, a non-string `imageBuffer`, `audioFeatures` without `spectralFeatures` or `energyPattern`) and a completion that is not a string, which all throw into the 500 answer, are not modelled; the posted features are always shaped as the page writes them.
- StatusRoute.RankEmotions: does not state which of two equally confident emotions is kept, because `Array.prototype.sort` is stable and the model uses a selection sort; the contract says the kept ones are a top two, which holds for any sort.
- StatusRoute.SortByConfidence: does not state stability, for the same reason.
- The sample rate is modelled as a positive integer. `decodedAudio.sampleRate` is a JavaScript number, but every rate an audio context decodes to in practice is a whole number of hertz.
- The UI's loop that repeats a capture every few seconds and the recording state are not modelled.
