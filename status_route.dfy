/** The rule-based part of the `analyzeBabyStatus` POST handler: the face summary
    built from the detector's first face, the audio re-analysis of the features
    the page posted, and the `needsAttention` decision.  The face detector's
    result and the language model's reply are given as inputs. */
module StatusRoute {
  import opened JsValues
  import opened EnergyPatterns
  import opened Spectrum
  import opened MonitorPage

  /** `audioFeatures` as the route reads it from the request body. */
  type WireFeatures = AudioFeatures<JsonNumber>

  /** The route's fallback crying rule. */
  const FallbackFundamentalRatio: real := 0.2
  const FallbackHarmonicRatio: real := 0.15
  const FallbackSustained: real := 0.3
  /** The laughter rule. */
  const LaughTransients: nat := 5
  const LaughSustained: real := 0.3
  const LaughVolume: real := 0.05
  /** The duration reported when the page's is missing or 0. */
  const DefaultDuration: real := 5.0
  /** The `needsAttention` intensity thresholds. */
  const CryingIntensity: real := 0.6
  const SadIntensity: real := 0.4
  const AngryIntensity: real := 0.3

  const CryingStatus := "<STATUS>哭泣中</STATUS>"
  const UncomfortableStatus := "<STATUS>不舒服</STATUS>"
  const HungryStatus := "<STATUS>饥饿</STATUS>"
  const NoFaceText := "No face was detected in the image"

  datatype AudioAnalysis = AudioAnalysis(hasCrying: bool, hasLaughter: bool, intensity: real, duration: real)

  /** One entry of a face's `Emotions`: `Type` and `Confidence` may be absent. */
  datatype Emotion = Emotion(kind: Option<string>, confidence: Option<real>)

  /** The parts of a detected face the route reads. */
  datatype FaceDetail = FaceDetail(emotions: Option<seq<Emotion>>, eyesOpen: Option<bool>,
                                   mouthOpen: Option<bool>, smile: Option<bool>)

  datatype FaceAnalysis = FaceAnalysis(emotions: seq<string>, confidence: real,
                                       eyesOpen: bool, mouthOpen: bool, isSmiling: bool)

  /** The JSON the handler answers with; `Failed` is the 500 answer of its `catch`. */
  datatype Response =
    | NoFace(analysis: string, faceAnalysis: FaceAnalysis, needsAttention: bool)
    | Analysed(analysis: string, faceAnalysis: FaceAnalysis, audioAnalysis: AudioAnalysis, needsAttention: bool)
    | Failed

  const EmptyFace := FaceAnalysis([], 0.0, false, false, false)
  const NoAudio := AudioAnalysis(false, false, 0.0, 0.0)

  // ---------------------------------------------------------------- audio

  /** The fallback conjunction of the crying rule (no loudness test). */
  predicate FallbackCrying(f: WireFeatures): (b: bool)
    ensures b ==> && f.spectralFeatures.fundamentalRatio.Number?
                  && f.spectralFeatures.harmonicRatio.Number?
                  && f.energyPattern.sustainedEnergy.Number?
  {
    && ToNumber(f.spectralFeatures.fundamentalRatio) > FallbackFundamentalRatio
    && ToNumber(f.spectralFeatures.harmonicRatio) > FallbackHarmonicRatio
    && ToNumber(f.energyPattern.sustainedEnergy) > FallbackSustained
  }

  /** `isCrying || (fallback)`: the page's flag can only raise the result. */
  function HasCrying(f: WireFeatures): (r: bool)
    ensures f.isCrying ==> r
    ensures FallbackCrying(f) ==> r
    ensures r && !f.isCrying ==> FallbackCrying(f)
  {
    f.isCrying || FallbackCrying(f)
  }

  /** The laughter rule: more high-frequency than fundamental energy, more than
      five transients, little sustained energy, and some loudness. */
  predicate HasLaughter(f: WireFeatures): (b: bool)
    ensures b ==> !FallbackCrying(f)
    ensures b ==> f.rmsVolume.Number? && f.energyPattern.transientCount > LaughTransients
  {
    && ToNumber(f.spectralFeatures.cryBands.highFreq) > ToNumber(f.spectralFeatures.cryBands.fundamental)
    && f.energyPattern.transientCount > LaughTransients
    && ToNumber(f.energyPattern.sustainedEnergy) < LaughSustained
    && ToNumber(f.rmsVolume) > LaughVolume
  }

  /** `Math.min(1, rmsVolume * 2 * (1 + sustainedEnergy))`. */
  function Intensity(f: WireFeatures): (r: real)
    ensures r <= 1.0
    ensures ToNumber(f.rmsVolume) >= 0.0 && ToNumber(f.energyPattern.sustainedEnergy) >= 0.0 ==> r >= 0.0
    ensures ToNumber(f.rmsVolume) == 0.0 ==> r == 0.0
  {
    var v, s := ToNumber(f.rmsVolume), ToNumber(f.energyPattern.sustainedEnergy);
    ProductNotNegative(v * 2.0, 1.0 + s);
    Min(1.0, v * 2.0 * (1.0 + s))
  }

  lemma ProductNotNegative(a: real, b: real)
    ensures a >= 0.0 && b >= 0.0 ==> a * b >= 0.0
  {
  }

  /** `audioFeatures.duration || 5`: null (a missing or non-finite duration) and 0 fall back to 5. */
  function Duration(f: WireFeatures): (r: real)
    ensures r != 0.0
    ensures f.duration.Null? || f.duration == Number(0.0) ==> r == DefaultDuration
    ensures f.duration.Number? && f.duration.value != 0.0 ==> r == f.duration.value
  {
    match f.duration
    case Number(d) => if d != 0.0 then d else DefaultDuration
    case Null => DefaultDuration
  }

  /** The `audioAnalysis` object the handler builds. */
  function AudioAnalysisOf(features: Option<WireFeatures>): (a: AudioAnalysis)
    ensures features.None? ==> a == NoAudio
    ensures features.Some? ==> a.intensity <= 1.0 && a.duration != 0.0
  {
    match features
    case None => NoAudio
    case Some(f) => AudioAnalysis(HasCrying(f), HasLaughter(f), Intensity(f), Duration(f))
  }

  // ---------------------------------------------------------------- emotions

  /** `e.Confidence || 0`. */
  function Key(e: Emotion): real {
    e.confidence.GetOr(0.0)
  }

  /** `e.Type || ''`. */
  function Label(e: Emotion): string {
    e.kind.GetOr("")
  }

  function Labels(es: seq<Emotion>): (ls: seq<string>)
    ensures |ls| == |es| && forall i :: 0 <= i < |es| ==> ls[i] == Label(es[i])
  {
    seq(|es|, i requires 0 <= i < |es| => Label(es[i]))
  }

  /** Non-increasing confidence, the order of the comparator `(b||0) - (a||0)`. */
  predicate SortedByConfidence(es: seq<Emotion>) {
    forall i, j :: 0 <= i < j < |es| ==> Key(es[i]) >= Key(es[j])
  }

  /** `top` is what `sort(...).slice(0, 2)` can give: at most two emotions taken
      from `all`, in non-increasing confidence, none of the others more confident. */
  ghost predicate IsTopTwo(all: seq<Emotion>, top: seq<Emotion>) {
    && |top| == (if |all| < 2 then |all| else 2)
    && multiset(top) <= multiset(all)
    && SortedByConfidence(top)
    && (|top| > 0 ==> forall e :: e in multiset(all) - multiset(top) ==> Key(e) <= Key(top[|top| - 1]))
  }

  /** `s[..i]` is sorted and nothing after it is more confident than anything in it. */
  predicate SortedUpTo(s: seq<Emotion>, i: nat)
    requires i <= |s|
  {
    SortedByConfidence(s[..i]) && forall p, q :: 0 <= p < i <= q < |s| ==> Key(s[p]) >= Key(s[q])
  }

  /** `Emotions.sort((a, b) => (b.Confidence || 0) - (a.Confidence || 0))`, in
      place: afterwards the array is a permutation of what it held, in
      non-increasing confidence. */
  method SortByConfidence(a: array<Emotion>)
    modifies a
    ensures SortedByConfidence(a[..])
    ensures multiset(a[..]) == old(multiset(a[..]))
  {
    var i := 0;
    while i < a.Length
      invariant 0 <= i <= a.Length
      invariant SortedUpTo(a[..], i)
      invariant multiset(a[..]) == old(multiset(a[..]))
    {
      var m := MostConfident(a, i);
      SwapStep(a[..], i, m);
      a[i], a[m] := a[m], a[i];
      i := i + 1;
    }
    assert a[..a.Length] == a[..];
  }

  /** The index of a most confident entry of `a[lo..]`. */
  method MostConfident(a: array<Emotion>, lo: nat) returns (m: nat)
    requires lo < a.Length
    ensures lo <= m < a.Length
    ensures forall k :: lo <= k < a.Length ==> Key(a[k]) <= Key(a[m])
  {
    m := lo;
    var k := lo + 1;
    while k < a.Length
      invariant lo <= m < k <= a.Length
      invariant forall j :: lo <= j < k ==> Key(a[j]) <= Key(a[m])
    {
      if Key(a[m]) < Key(a[k]) {
        m := k;
      }
      k := k + 1;
    }
  }

  /** Moving a most confident entry of `s[i..]` to position `i` sorts one more entry. */
  lemma SwapStep(s: seq<Emotion>, i: nat, m: nat)
    requires i <= m < |s| && SortedUpTo(s, i)
    requires forall k :: i <= k < |s| ==> Key(s[k]) <= Key(s[m])
    ensures var t := s[i := s[m]][m := s[i]];
            SortedUpTo(t, i + 1) && multiset(t) == multiset(s)
  {
    var t := s[i := s[m]][m := s[i]];
    assert forall k :: 0 <= k < i ==> t[k] == s[k];
    assert t[i] == s[m];
    assert forall k :: i < k < |s| ==> Key(t[k]) <= Key(s[m]);
  }

  /** Nothing after position `k` of a sorted list is more confident than its `k`-th entry. */
  lemma RestBelowCut(s: seq<Emotion>, k: nat)
    requires SortedByConfidence(s) && 0 < k <= |s|
    ensures forall e :: e in multiset(s[k..]) ==> Key(e) <= Key(s[k - 1])
  {
    forall e | e in multiset(s[k..])
      ensures Key(e) <= Key(s[k - 1])
    {
      assert e in s[k..];
      var j :| 0 <= j < |s| - k && s[k..][j] == e;
      assert s[k + j] == e;
    }
  }

  /** The first entry of a sorted permutation of `all` is a most confident entry of `all`. */
  lemma HeadIsMost(all: seq<Emotion>, s: seq<Emotion>)
    requires SortedByConfidence(s) && multiset(s) == multiset(all) && |s| > 0
    ensures s[0] in all && forall e :: e in all ==> Key(e) <= Key(s[0])
  {
    assert s[0] in multiset(all);
    forall e | e in all
      ensures Key(e) <= Key(s[0])
    {
      assert e in multiset(s);
    }
  }

  /** Taking a prefix of a permutation of `all` leaves the rest of `all` as the suffix. */
  lemma PrefixRest(all: seq<Emotion>, s: seq<Emotion>, k: nat)
    requires multiset(s) == multiset(all) && k <= |s|
    ensures multiset(s[..k]) <= multiset(all)
    ensures multiset(all) - multiset(s[..k]) == multiset(s[k..])
  {
    assert s == s[..k] + s[k..];
  }

  /** The first (at most two) entries of a sorted permutation of `all` are a top two
      of `all`, and its first entry is a most confident one. */
  lemma SortedPrefixIsTop(all: seq<Emotion>, s: seq<Emotion>)
    requires SortedByConfidence(s) && multiset(s) == multiset(all)
    ensures IsTopTwo(all, s[..if |s| < 2 then |s| else 2])
    ensures |s| == |all|
    ensures |s| > 0 ==> s[0] in all && forall e :: e in all ==> Key(e) <= Key(s[0])
  {
    assert |s| == |multiset(s)| == |all|;
    var k := if |s| < 2 then |s| else 2;
    var top := s[..k];
    PrefixRest(all, s, k);
    assert SortedByConfidence(top);
    if k > 0 {
      RestBelowCut(s, k);
      assert top[k - 1] == s[k - 1];
      HeadIsMost(all, s);
    }
  }

  /** The emotion part of the face summary: the first two entries of the sorted
      list, and the first entry of the sorted list (None when the list is empty). */
  method RankEmotions(emotions: seq<Emotion>) returns (top: seq<Emotion>, first: Option<Emotion>)
    ensures IsTopTwo(emotions, top)
    ensures first.Some? <==> |emotions| > 0
    ensures first.Some? ==> first.value == top[0] && first.value in emotions
    ensures first.Some? ==> forall e :: e in emotions ==> Key(e) <= Key(first.value)
  {
    var a := new Emotion[|emotions|](i requires 0 <= i < |emotions| => emotions[i]);
    assert a[..] == emotions;
    SortByConfidence(a);
    SortedPrefixIsTop(emotions, a[..]);
    var k := if a.Length < 2 then a.Length else 2;
    top := a[..k];
    first := if a.Length > 0 then Some(a[0]) else None;
  }

  /** What the handler keeps of the first detected face. */
  ghost predicate SummarisesFace(face: FaceDetail, fa: FaceAnalysis) {
    && fa.eyesOpen == face.eyesOpen.GetOr(false)
    && fa.mouthOpen == face.mouthOpen.GetOr(false)
    && fa.isSmiling == face.smile.GetOr(false)
    && (face.emotions.None? ==> fa.emotions == [] && fa.confidence == 0.0)
    && (face.emotions.Some? ==>
          var all := face.emotions.value;
          && (forall e :: e in all ==> Key(e) <= fa.confidence)
          && exists top :: IsTopTwo(all, top) && |top| > 0 && fa.emotions == Labels(top)
                           && fa.confidence == Key(top[0]))
  }

  // ---------------------------------------------------------------- decision

  /** The `needsAttention` disjunction. */
  predicate NeedsAttention(analysis: string, face: FaceAnalysis, audio: AudioAnalysis): (b: bool)
    ensures (Includes(analysis, CryingStatus) || Includes(analysis, UncomfortableStatus)
             || Includes(analysis, HungryStatus)) ==> b
    ensures (b && !Includes(analysis, CryingStatus) && !Includes(analysis, UncomfortableStatus)
             && !Includes(analysis, HungryStatus)) ==> audio.intensity > AngryIntensity
  {
    || Includes(analysis, CryingStatus)
    || Includes(analysis, UncomfortableStatus)
    || Includes(analysis, HungryStatus)
    || (audio.hasCrying && audio.intensity > CryingIntensity)
    || ("SAD" in face.emotions && audio.intensity > SadIntensity)
    || ("ANGRY" in face.emotions && audio.intensity > AngryIntensity)
  }

  /** `POST` once the face detector has answered with `faces` and the language
      model with `completion`. */
  method Post(faces: seq<FaceDetail>, audioFeatures: Option<WireFeatures>, completion: string)
    returns (resp: Response)
    ensures |faces| == 0 ==> resp == NoFace(NoFaceText, EmptyFace, false)
    ensures |faces| > 0 && faces[0].emotions == Some([]) ==> resp == Failed
    ensures |faces| > 0 && faces[0].emotions != Some([]) ==> resp.Analysed?
    ensures resp.Analysed? ==>
              && |faces| > 0
              && resp.analysis == completion
              && SummarisesFace(faces[0], resp.faceAnalysis)
              && |resp.faceAnalysis.emotions| <= 2
              && resp.audioAnalysis == AudioAnalysisOf(audioFeatures)
              && resp.needsAttention == NeedsAttention(completion, resp.faceAnalysis, resp.audioAnalysis)
  {
    var faceAnalysis := EmptyFace;
    if |faces| > 0 {
      var face := faces[0];
      if face.emotions.Some? {
        var top, first := RankEmotions(face.emotions.value);
        faceAnalysis := faceAnalysis.(emotions := Labels(top));
        if first.None? {
          // `face.Emotions[0].Confidence` on an empty array throws.
          resp := Failed;
          return;
        }
        faceAnalysis := faceAnalysis.(confidence := Key(first.value));
      }
      faceAnalysis := faceAnalysis.(eyesOpen := face.eyesOpen.GetOr(false),
                                    mouthOpen := face.mouthOpen.GetOr(false),
                                    isSmiling := face.smile.GetOr(false));
    } else {
      resp := NoFace(NoFaceText, EmptyFace, false);
      return;
    }

    var audioAnalysis := NoAudio;
    if audioFeatures.Some? {
      var f := audioFeatures.value;
      var hasCrying := HasCrying(f);
      var hasLaughter := HasLaughter(f);
      var intensity := Intensity(f);
      audioAnalysis := AudioAnalysis(hasCrying, hasLaughter, intensity, Duration(f));
    }

    resp := Analysed(completion, faceAnalysis, audioAnalysis,
                     NeedsAttention(completion, faceAnalysis, audioAnalysis));
  }

  /** `needsAttention` is monotone: more text, a crying detection, or a higher
      intensity never turn it off. */
  lemma NeedsAttentionMonotone(analysis: string, more: string, face: FaceAnalysis,
                               audio: AudioAnalysis, audio': AudioAnalysis)
    requires NeedsAttention(analysis, face, audio)
    requires audio.hasCrying ==> audio'.hasCrying
    requires audio.intensity <= audio'.intensity
    ensures NeedsAttention(analysis + more, face, audio')
    ensures NeedsAttention(more + analysis, face, audio')
  {
    IncludesExtends(analysis, more, CryingStatus);
    IncludesExtends(analysis, more, UncomfortableStatus);
    IncludesExtends(analysis, more, HungryStatus);
  }
}
