/** One receive branch of `generateSignalPoint`: the sum of the transmitted
    samples scaled by their channel gains, plus additive noise, and the SNR
    that `calculateSNR` assigns to its magnitude. */
module Channel {
  import opened Numerics

  /** `calculateSNR(signal, noise)`: the ratio in dB of `signal^2` to
      `noise^2`, or the sentinel 100 when the noise is at most EPSILON. */
  function CalculateSnr(lib: Lib, signal: real, noise: real): (snr: real)
    ensures noise <= EPSILON ==> snr == 100.0
  {
    if noise <= EPSILON then 100.0
    else 10.0 * lib.log10((signal * signal) / (noise * noise))
  }

  /** Once the noise is above EPSILON, a stronger (positive) signal gets a
      strictly higher SNR. */
  lemma SnrIncreasing(lib: Lib, a: real, b: real, noise: real)
    requires Log10Increasing(lib) && EPSILON < noise
    requires 0.0 < a < b
    ensures CalculateSnr(lib, a, noise) < CalculateSnr(lib, b, noise)
  {
    SquareRatioLess(a, b, noise);
    var x, y := (a * a) / (noise * noise), (b * b) / (noise * noise);
    assert lib.log10(x) < lib.log10(y);
  }

  /** The same, for the non-strict order. */
  lemma SnrMonotone(lib: Lib, a: real, b: real, noise: real)
    requires Log10Increasing(lib)
    requires 0.0 < a <= b
    ensures CalculateSnr(lib, a, noise) <= CalculateSnr(lib, b, noise)
  {
    if EPSILON < noise && a < b {
      SnrIncreasing(lib, a, b, noise);
    }
  }

  /** `noiseLevel <= Number.EPSILON ? 1 : Math.random()`: the gain of one
      transmit-to-receive path, given the uniform draw in [0, 1). */
  function ChannelGain(noiseLevel: real, draw: real): (g: real)
    ensures noiseLevel <= EPSILON ==> g == 1.0
    ensures 0.0 <= draw < 1.0 ==> 0.0 <= g <= 1.0
  {
    if noiseLevel <= EPSILON then 1.0 else draw
  }

  /** The gains of the paths into one branch, one per transmit antenna. */
  function PathGains(noiseLevel: real, draws: seq<real>): (g: seq<real>)
    ensures |g| == |draws|
    ensures forall j :: 0 <= j < |g| ==> g[j] == ChannelGain(noiseLevel, draws[j])
  {
    seq(|draws|, j requires 0 <= j < |draws| => ChannelGain(noiseLevel, draws[j]))
  }

  /** What the accumulation loop holds after visiting the first `|tx|`
      transmit antennas: `rxSignal += channelGain * txSignals[j]`, in order. */
  function Accumulate(tx: seq<Complex>, gains: seq<real>): (r: Complex)
    requires |gains| == |tx|
  {
    if |tx| == 0 then Zero
    else
      var n := |tx| - 1;
      var acc := Accumulate(tx[..n], gains[..n]);
      Complex(acc.re + gains[n] * tx[n].re, acc.im + gains[n] * tx[n].im)
  }

  /** The value of branch i before the magnitude is taken: the accumulated
      paths, plus the Gaussian noise sample when the noise level is above
      EPSILON. */
  function RxBranch(tx: seq<Complex>, noiseLevel: real, draws: seq<real>, noise: Complex): (r: Complex)
    requires |draws| == |tx|
    ensures noiseLevel <= EPSILON ==> r == Accumulate(tx, PathGains(noiseLevel, draws))
    ensures EPSILON < noiseLevel ==> Complex(r.re - noise.re, r.im - noise.im) == Accumulate(tx, draws)
  {
    var acc := Accumulate(tx, PathGains(noiseLevel, draws));
    assert EPSILON < noiseLevel ==> PathGains(noiseLevel, draws) == draws;
    if noiseLevel > EPSILON then Complex(acc.re + noise.re, acc.im + noise.im) else acc
  }

  /** The loop over the transmit antennas for one receive branch. */
  method ReceiveBranch(tx: seq<Complex>, noiseLevel: real, draws: seq<real>, noise: Complex) returns (rx: Complex)
    requires |draws| == |tx|
    ensures rx == RxBranch(tx, noiseLevel, draws, noise)
  {
    ghost var gains := PathGains(noiseLevel, draws);
    rx := Zero;
    var j := 0;
    while j < |tx|
      invariant 0 <= j <= |tx|
      invariant rx == Accumulate(tx[..j], gains[..j])
    {
      var channelGain := if noiseLevel <= EPSILON then 1.0 else draws[j];
      assert tx[..j + 1][..j] == tx[..j] && gains[..j + 1][..j] == gains[..j];
      rx := Complex(rx.re + channelGain * tx[j].re, rx.im + channelGain * tx[j].im);
      j := j + 1;
    }
    assert tx[..j] == tx && gains[..j] == gains;
    if noiseLevel > EPSILON {
      rx := Complex(rx.re + noise.re, rx.im + noise.im);
    }
  }

  // ---------------------------------------------------------------------
  // The accumulation is the weighted sum of the transmitted samples

  lemma {:induction false} WeightedSumSnoc(s: seq<Complex>, w: seq<real>)
    requires |s| == |w| && 0 < |s|
    ensures var n := |s| - 1; var p := WeightedSum(s[..n], w[..n]);
      WeightedSum(s, w) == Complex(p.re + s[n].re * w[n], p.im + s[n].im * w[n])
  {
    var n := |s| - 1;
    if n > 0 {
      WeightedSumSnoc(s[1..], w[1..]);
      assert s[1..][..n - 1] == s[..n][1..] && w[1..][..n - 1] == w[..n][1..];
    }
  }

  /** Accumulating in loop order gives `sum_j gain_j * tx_j`. */
  lemma {:induction false} AccumulateIsWeightedSum(tx: seq<Complex>, gains: seq<real>)
    requires |gains| == |tx|
    ensures Accumulate(tx, gains) == WeightedSum(tx, gains)
  {
    if |tx| > 0 {
      var n := |tx| - 1;
      AccumulateIsWeightedSum(tx[..n], gains[..n]);
      WeightedSumSnoc(tx, gains);
    }
  }

  /** With the noise level at most EPSILON, every gain is 1 and no noise is
      added: the branch is the plain sum of what was transmitted, whatever
      the draws. */
  lemma QuietBranch(tx: seq<Complex>, noiseLevel: real, draws: seq<real>, noise: Complex)
    requires |draws| == |tx| && noiseLevel <= EPSILON
    ensures RxBranch(tx, noiseLevel, draws, noise) == Sum(tx)
  {
    var gains := PathGains(noiseLevel, draws);
    AccumulateIsWeightedSum(tx, gains);
    WeightedSumOfOnes(tx, gains);
  }

  lemma {:induction false} WeightedSumOfOnes(s: seq<Complex>, w: seq<real>)
    requires |s| == |w|
    requires forall i :: 0 <= i < |w| ==> w[i] == 1.0
    ensures WeightedSum(s, w) == Sum(s)
  {
    if |s| > 0 {
      WeightedSumOfOnes(s[1..], w[1..]);
    }
  }

  /** Above EPSILON, the branch is the gain-weighted sum plus the noise. */
  lemma NoisyBranch(tx: seq<Complex>, noiseLevel: real, draws: seq<real>, noise: Complex)
    requires |draws| == |tx| && EPSILON < noiseLevel
    ensures var acc := WeightedSum(tx, draws);
      RxBranch(tx, noiseLevel, draws, noise) == Complex(acc.re + noise.re, acc.im + noise.im)
  {
    var gains := PathGains(noiseLevel, draws);
    AccumulateIsWeightedSum(tx, gains);
    assert gains == draws;
  }
}
