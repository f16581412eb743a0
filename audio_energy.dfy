/** The microphone side of the fatigue analyzer: how much audio makes a
    window, and the mean-square energy that decides whether a window held a
    yawn (automind.py:24, 29, 72-77). Samples are exact reals; the float32
    rounding of the buffer is not modelled. */
module AudioEnergy {

  /** AUDIO_SAMPLE_RATE: samples per second delivered by the microphone. */
  const SampleRate: nat := 16000

  /** A window is analysed only once it holds at least three seconds of audio. */
  const WindowSamples: nat := SampleRate * 3

  /** YAWN_ENERGY_THRESHOLD: a window whose energy exceeds this is a yawn. */
  const YawnEnergyThreshold: real := 0.02

  /** The square of one sample. */
  function Square(x: real): (r: real)
    ensures r >= 0.0
  {
    x * x
  }

  /** Sum of the squared samples. */
  function SumSquares(s: seq<real>): (r: real)
    ensures r >= 0.0
  {
    if s == [] then 0.0 else Square(s[0]) + SumSquares(s[1..])
  }

  /** `np.mean(buffer ** 2)`: the mean of the squared samples of a non-empty buffer. */
  function MeanSquare(s: seq<real>): (r: real)
    requires |s| > 0
    ensures r >= 0.0
  {
    SumSquares(s) / |s| as real
  }

  /** The buffer holds a full window and its energy is above the yawn threshold. */
  predicate YawnHeard(s: seq<real>)
  {
    |s| >= WindowSamples && MeanSquare(s) > YawnEnergyThreshold
  }

  /** Energy adds up over concatenated chunks: the energy of a window does not
      depend on how the capture thread split it into chunks. */
  lemma {:induction false} SumSquaresAppend(a: seq<real>, b: seq<real>)
    ensures SumSquares(a + b) == SumSquares(a) + SumSquares(b)
  {
    if a == [] {
      assert a + b == b;
    } else {
      assert (a + b)[1..] == a[1..] + b;
      SumSquaresAppend(a[1..], b);
    }
  }

  /** Samples of equal power `p` sum to `n * p`. */
  lemma {:induction false} SteadyToneSum(s: seq<real>, p: real)
    requires forall i :: 0 <= i < |s| ==> Square(s[i]) == p
    ensures SumSquares(s) == |s| as real * p
  {
    if s != [] {
      assert Square(s[0]) == p;
      SteadyToneSum(s[1..], p);
      var n := |s| as real;
      assert SumSquares(s) == p + (n - 1.0) * p;
    }
  }

  /** A steady tone of amplitude `a` (every sample is `a` or `-a`) has energy `a * a`. */
  lemma SteadyToneEnergy(s: seq<real>, a: real)
    requires |s| > 0
    requires forall i :: 0 <= i < |s| ==> s[i] == a || s[i] == -a
    ensures MeanSquare(s) == a * a
  {
    var p, n := a * a, |s| as real;
    forall i | 0 <= i < |s| ensures Square(s[i]) == p {
      assert a * a == (-a) * (-a);
    }
    SteadyToneSum(s, p);
    assert SumSquares(s) / n == (n * p) / n == p;
  }

  /** Silence has zero energy, so a silent window is never a yawn. */
  lemma SilenceIsNoYawn(s: seq<real>)
    requires |s| > 0
    requires forall i :: 0 <= i < |s| ==> s[i] == 0.0
    ensures MeanSquare(s) == 0.0
    ensures !YawnHeard(s)
  {
    SteadyToneEnergy(s, 0.0);
  }

  /** A window of three or more seconds of a steady tone is heard as a yawn
      exactly when the tone's power is above the threshold. */
  lemma SteadyToneHeard(s: seq<real>, a: real)
    requires |s| >= WindowSamples
    requires forall i :: 0 <= i < |s| ==> s[i] == a || s[i] == -a
    ensures YawnHeard(s) <==> a * a > YawnEnergyThreshold
  {
    SteadyToneEnergy(s, a);
  }
}
