/** The page's temporal pattern analysis (`analyzeEnergyPattern`): the clip is cut
    into whole 512-sample frames, each frame gets an RMS energy, and three loops
    count transients, loud frames and repeated energy trends. */
module EnergyPatterns {
  import opened JsValues

  const FrameSize: nat := 512
  /** A frame is a transient when its energy exceeds the previous one by this factor. */
  const TransientRatio: real := 1.5
  /** A frame counts towards sustained energy when its RMS exceeds this value. */
  const HighEnergy: real := 0.1

  /** The summary the page computes; `N` is the number representation. */
  datatype EnergyPattern<N> = EnergyPattern(transientCount: nat, rhythmicPattern: N, sustainedEnergy: N)

  /** `Math.floor(length / frameSize)`: a trailing partial frame is dropped. */
  function FrameCount(sampleCount: nat): nat {
    sampleCount / FrameSize
  }

  /** Frame `i`: samples `[512 * i, 512 * (i + 1))`. */
  function Frame(samples: seq<real>, i: nat): (f: seq<real>)
    requires i < FrameCount(|samples|)
    ensures |f| == FrameSize
    ensures forall k :: 0 <= k < FrameSize ==> f[k] == samples[FrameSize * i + k]
  {
    samples[FrameSize * i .. FrameSize * (i + 1)]
  }

  /** The frames the analysis looks at, in order. */
  function Frames(samples: seq<real>): (fs: seq<seq<real>>)
    ensures |fs| == FrameCount(|samples|)
    ensures forall i :: 0 <= i < |fs| ==> fs[i] == Frame(samples, i)
  {
    seq(FrameCount(|samples|), i requires 0 <= i < FrameCount(|samples|) => Frame(samples, i))
  }

  function Concat(fs: seq<seq<real>>): seq<real> {
    if fs == [] then [] else Concat(fs[..|fs| - 1]) + fs[|fs| - 1]
  }

  /** The frames tile the clip up to the last whole frame, with no gap and no overlap. */
  lemma {:induction false} FramesTile(samples: seq<real>, k: nat)
    requires k <= FrameCount(|samples|)
    ensures FrameSize * k <= |samples|
    ensures Concat(Frames(samples)[..k]) == samples[..FrameSize * k]
  {
    if k > 0 {
      FramesTile(samples, k - 1);
      var fs := Frames(samples)[..k];
      assert fs[..k - 1] == Frames(samples)[..k - 1];
      assert samples[..FrameSize * k] == samples[..FrameSize * (k - 1)] + Frame(samples, k - 1);
    }
  }

  /** The energy of every whole frame, as `calculateRMS` gives it (`rms` stands for it). */
  function Energies(samples: seq<real>, rms: seq<real> -> real): (e: seq<real>)
    ensures |e| == FrameCount(|samples|)
    ensures forall i :: 0 <= i < |e| ==> e[i] == rms(Frame(samples, i))
  {
    seq(FrameCount(|samples|), i requires 0 <= i < FrameCount(|samples|) => rms(Frame(samples, i)))
  }

  predicate AllNotNegative(e: seq<real>) {
    forall i :: 0 <= i < |e| ==> e[i] >= 0.0
  }

  /** `energy / previousEnergy > 1.5` for frame `i`. */
  predicate IsTransient(e: seq<real>, i: nat): (b: bool)
    requires 0 < i < |e| && AllNotNegative(e)
    ensures e[i] == 0.0 ==> !b
    ensures e[i - 1] == 0.0 ==> (b <==> e[i] > 0.0)
  {
    Greater(Div(Finite(e[i]), Finite(e[i - 1])), TransientRatio)
  }

  /** `Math.sign` of the delta into frame `i` equals that of the delta into frame `i - 1`. */
  predicate IsRhythmic(e: seq<real>, i: nat): (b: bool)
    requires 2 <= i < |e|
    ensures b <==> || (e[i - 2] < e[i - 1] && e[i - 1] < e[i])
                   || (e[i - 2] > e[i - 1] && e[i - 1] > e[i])
                   || (e[i - 2] == e[i - 1] && e[i - 1] == e[i])
  {
    Sign(e[i] - e[i - 1]) == Sign(e[i - 1] - e[i - 2])
  }

  /** The three per-frame tests the page counts. */
  datatype Test = Transient | Loud | Rhythmic

  /** The first frame index a test can hold at. */
  function First(t: Test): nat {
    match t
    case Transient => 1
    case Loud => 0
    case Rhythmic => 2
  }

  predicate Holds(t: Test, e: seq<real>, i: nat)
    requires i < |e| && AllNotNegative(e)
  {
    First(t) <= i &&
    match t
    case Transient => IsTransient(e, i)
    case Loud => e[i] > HighEnergy
    case Rhythmic => IsRhythmic(e, i)
  }

  /** The number of frames below `n` at which `t` holds. */
  function Count(t: Test, e: seq<real>, n: nat): nat
    requires n <= |e| && AllNotNegative(e)
  {
    if n == 0 then 0 else Count(t, e, n - 1) + (if Holds(t, e, n - 1) then 1 else 0)
  }

  /** What the page returns for the frame energies `e`. */
  function PatternOf(e: seq<real>): (p: EnergyPattern<Num>)
    requires AllNotNegative(e)
    ensures !p.rhythmicPattern.Infinity? && !p.sustainedEnergy.Infinity?
    ensures p.rhythmicPattern.NaN? <==> |e| == 0
    ensures p.sustainedEnergy.NaN? <==> |e| == 0
  {
    var frames := Finite(|e| as real);
    EnergyPattern(Count(Transient, e, |e|),
                  Div(Finite(Count(Rhythmic, e, |e|) as real), frames),
                  Div(Finite(Count(Loud, e, |e|) as real), frames))
  }

  /** `analyzeEnergyPattern(data)`, with `rms` standing for `calculateRMS`. */
  method AnalyzeEnergyPattern(data: seq<real>, rms: seq<real> -> real) returns (p: EnergyPattern<Num>)
    requires forall x :: rms(x) >= 0.0
    ensures p == PatternOf(Energies(data, rms))
  {
    var frames := |data| / FrameSize;
    ghost var e := Energies(data, rms);
    var transientCount := 0;
    var previousEnergy := 0.0;
    var energyPattern: seq<real> := [];
    var sustainedHighEnergyFrames := 0;

    var i := 0;
    while i < frames
      invariant 0 <= i <= frames
      invariant energyPattern == e[..i]
      invariant transientCount == Count(Transient, e, i)
      invariant sustainedHighEnergyFrames == Count(Loud, e, i)
      invariant i > 0 ==> previousEnergy == e[i - 1]
    {
      var frame := data[i * FrameSize .. (i + 1) * FrameSize];
      var energy := rms(frame);
      assert frame == Frame(data, i);
      FrameStep(e, i, energy, previousEnergy);
      energyPattern := energyPattern + [energy];

      if i > 0 {
        var energyChange := Div(Finite(energy), Finite(previousEnergy));
        if Greater(energyChange, TransientRatio) {
          transientCount := transientCount + 1;
        }
      }

      if energy > HighEnergy {
        sustainedHighEnergyFrames := sustainedHighEnergyFrames + 1;
      }

      previousEnergy := energy;
      i := i + 1;
    }

    assert energyPattern == e;
    var rhythmicCount := CountRhythmic(energyPattern);

    assert |e| == frames && rhythmicCount == Count(Rhythmic, e, |e|);
    assert transientCount == Count(Transient, e, |e|) && sustainedHighEnergyFrames == Count(Loud, e, |e|);
    p := EnergyPattern(transientCount,
                       Div(Finite(rhythmicCount as real), Finite(frames as real)),
                       Div(Finite(sustainedHighEnergyFrames as real), Finite(frames as real)));
  }

  /** The second loop of `analyzeEnergyPattern`: the number of frames, from the
      third on, whose energy delta has the sign of the previous delta. */
  method CountRhythmic(energyPattern: seq<real>) returns (rhythmicCount: nat)
    requires AllNotNegative(energyPattern)
    ensures rhythmicCount == Count(Rhythmic, energyPattern, |energyPattern|)
  {
    ghost var e := energyPattern;
    rhythmicCount := 0;
    var j := 2;
    CountBelowFirst(Rhythmic, e, if |e| < 2 then |e| else 2);
    while j < |energyPattern|
      invariant 2 <= j
      invariant j <= |e| || |e| < 2
      invariant rhythmicCount == Count(Rhythmic, e, if |e| < j then |e| else j)
    {
      var pattern1 := energyPattern[j] - energyPattern[j - 1];
      var pattern2 := energyPattern[j - 1] - energyPattern[j - 2];
      if Sign(pattern1) == Sign(pattern2) {
        rhythmicCount := rhythmicCount + 1;
      }
      j := j + 1;
    }
  }

  /** One pass of the first loop: frame `i` extends the energies seen so far and
      adds to the transient and loud counts exactly as the loop body does. */
  lemma FrameStep(e: seq<real>, i: nat, energy: real, previousEnergy: real)
    requires i < |e| && AllNotNegative(e) && e[i] == energy
    requires i > 0 ==> previousEnergy == e[i - 1]
    ensures e[..i + 1] == e[..i] + [energy]
    ensures Count(Transient, e, i + 1) == Count(Transient, e, i)
              + if i > 0 && Greater(Div(Finite(energy), Finite(previousEnergy)), TransientRatio) then 1 else 0
    ensures Count(Loud, e, i + 1) == Count(Loud, e, i) + if energy > HighEnergy then 1 else 0
  {
  }

  /** A test never holds below its first index. */
  lemma {:induction false} CountBelowFirst(t: Test, e: seq<real>, n: nat)
    requires n <= |e| && AllNotNegative(e) && n <= First(t)
    ensures Count(t, e, n) == 0
  {
    if n > 0 {
      CountBelowFirst(t, e, n - 1);
    }
  }

  /** A count over `n` frames is at most the number of frames from the test's first index on. */
  lemma {:induction false} CountBound(t: Test, e: seq<real>, n: nat)
    requires n <= |e| && AllNotNegative(e)
    ensures Count(t, e, n) <= if n <= First(t) then 0 else n - First(t)
  {
    if n > 0 {
      CountBound(t, e, n - 1);
    }
  }

  /** The count is the size of the set of frames at which the test holds. */
  lemma {:induction false} CountIsSize(t: Test, e: seq<real>, n: nat)
    requires n <= |e| && AllNotNegative(e)
    ensures Count(t, e, n) == |set i | 0 <= i < n && Holds(t, e, i)|
  {
    if n > 0 {
      CountIsSize(t, e, n - 1);
      var below := set i | 0 <= i < n - 1 && Holds(t, e, i);
      var upTo := set i | 0 <= i < n && Holds(t, e, i);
      assert n - 1 !in below;
      assert forall i :: i in upTo <==> i in below || (i == n - 1 && Holds(t, e, n - 1));
      if Holds(t, e, n - 1) {
        assert upTo == below + {n - 1};
      } else {
        assert upTo == below;
      }
    }
  }

  /** No frame above the loudness threshold means no loud frame is counted. */
  lemma {:induction false} QuietCount(e: seq<real>, n: nat)
    requires n <= |e| && AllNotNegative(e)
    requires forall i :: 0 <= i < n ==> e[i] <= HighEnergy
    ensures Count(Loud, e, n) == 0
  {
    if n > 0 {
      QuietCount(e, n - 1);
    }
  }

  /** A clip whose frames are all at most 0.1 has `sustainedEnergy` 0, or NaN when
      it has no frame at all. */
  lemma QuietClipNotSustained(e: seq<real>)
    requires AllNotNegative(e) && forall i :: 0 <= i < |e| ==> e[i] <= HighEnergy
    ensures var p := PatternOf(e);
            p.sustainedEnergy == (if |e| == 0 then NaN else Finite(0.0))
  {
    QuietCount(e, |e|);
  }

  /** The transient test spelled out: a rise by more than half when the previous
      frame had energy; any energy after a silent frame (x / 0 is Infinity); and
      never two silent frames in a row (0 / 0 is NaN). */
  lemma TransientIff(e: seq<real>, i: nat)
    requires 0 < i < |e| && AllNotNegative(e)
    ensures IsTransient(e, i) <==>
              (e[i - 1] > 0.0 && e[i] > TransientRatio * e[i - 1]) || (e[i - 1] == 0.0 && e[i] > 0.0)
  {
    var prev, cur := e[i - 1], e[i];
    if prev > 0.0 {
      var q := cur / prev;
      assert q * prev == cur;
      assert q > TransientRatio <==> cur > TransientRatio * prev;
    }
  }

  /** Bounds of the summary: `transientCount <= max(0, frames - 1)`; with at least
      one frame, `sustainedEnergy` is in [0, 1] and `rhythmicPattern` in [0, 1);
      with no frame both ratios are NaN (0 / 0) and no transient is counted. */
  lemma PatternBounds(e: seq<real>)
    requires AllNotNegative(e)
    ensures var p := PatternOf(e);
            && p.transientCount <= (if |e| == 0 then 0 else |e| - 1)
            && (|e| > 0 ==> p.sustainedEnergy.Finite? && 0.0 <= p.sustainedEnergy.value <= 1.0)
            && (|e| > 0 ==> p.rhythmicPattern.Finite? && 0.0 <= p.rhythmicPattern.value < 1.0)
            && (|e| == 0 ==> p.sustainedEnergy.NaN? && p.rhythmicPattern.NaN? && p.transientCount == 0)
  {
    CountBound(Transient, e, |e|);
    CountBound(Loud, e, |e|);
    CountBound(Rhythmic, e, |e|);
    var p := PatternOf(e);
    var n := |e| as real;
    if |e| > 0 {
      var s, r := Count(Loud, e, |e|) as real, Count(Rhythmic, e, |e|) as real;
      assert p.sustainedEnergy == Finite(s / n);
      assert p.rhythmicPattern == Finite(r / n);
      ShareBelow(s, n);
      ShareBelow(r, n);
    }
  }

  /** A count of at most `n` frames, over `n`, is a share in [0, 1]; below 1 when
      the count is below `n`. */
  lemma ShareBelow(s: real, n: real)
    requires 0.0 <= s <= n && n > 0.0
    ensures 0.0 <= s / n <= 1.0
    ensures s < n ==> s / n < 1.0
  {
    var q := s / n;
    assert q * n == s;
    assert (q - 1.0) * n == s - n;
    ProductSign(q, n);
    ProductSign(q - 1.0, n);
  }

  /** Samples after the last whole frame are never looked at: two clips with the
      same number of frames and the same samples up to `512 * frames` have the
      same frame energies, hence the same summary. */
  lemma TrailingSamplesIgnored(a: seq<real>, b: seq<real>, rms: seq<real> -> real)
    requires FrameCount(|a|) == FrameCount(|b|)
    requires a[..FrameSize * FrameCount(|a|)] == b[..FrameSize * FrameCount(|b|)]
    ensures Energies(a, rms) == Energies(b, rms)
  {
    var n := FrameCount(|a|);
    forall i | 0 <= i < n
      ensures Frame(a, i) == Frame(b, i)
    {
      assert FrameSize * (i + 1) <= FrameSize * n;
      forall k | 0 <= k < FrameSize
        ensures Frame(a, i)[k] == Frame(b, i)[k]
      {
        assert a[FrameSize * i + k] == a[..FrameSize * n][FrameSize * i + k];
        assert b[FrameSize * i + k] == b[..FrameSize * n][FrameSize * i + k];
      }
    }
  }
}
