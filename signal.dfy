/** What one call of `generateSignalPoint(absoluteTime)` computes, as a
    function of the settings, the transmit strengths and the random draws of
    that call: the transmitted samples, the receive branches, their SNRs, the
    combined sample, its decision, and the chart point. */
module Signal {
  import opened Numerics
  import opened Combiner
  import opened Channel
  import opened Decoder

  /** `WINDOW_SIZE`: the length of the chart trace. */
  const WINDOW_SIZE: nat := 50

  /** The settings that `generateSignalPoint` reads besides the transmit
      antennas. */
  datatype Settings = Settings(
    mode: Mode,
    numRx: nat,
    frequency: real,
    noiseLevel: real,
    technique: Technique,
    modulation: Modulation)

  /** The ranges the sliders allow: 1 to 4 receive antennas, noise 0 to 2. */
  predicate ValidSettings(s: Settings) {
    1 <= s.numRx <= 4 && 0.0 <= s.noiseLevel <= 2.0
  }

  /** The random numbers one call consumes: `gains[i][j]` is the
      `Math.random()` of the path from transmit antenna j to receive branch
      i, and `noise[i]` the Gaussian sample added to branch i. Either is
      only used when the noise level is above EPSILON. */
  datatype Draws = Draws(gains: seq<seq<real>>, noise: seq<Complex>)

  predicate Fits(d: Draws, numRx: nat, numTx: nat) {
    && |d.gains| == numRx
    && |d.noise| == numRx
    && (forall i :: 0 <= i < numRx ==> |d.gains[i]| == numTx)
    && (forall i, j :: 0 <= i < |d.gains| && 0 <= j < |d.gains[i]| ==> 0.0 <= d.gains[i][j] < 1.0)
  }

  /** A point of the chart trace. `tx[i]` and `rx[i]` stand for the fields
      `tx{i+1}` and `rx{i+1}`. */
  datatype SignalPoint = SignalPoint(
    time: nat,
    displayTime: int,
    absoluteTime: nat,
    snr: Double<real>,
    baseSignal: real,
    ber: real,
    tx: seq<real>,
    rx: seq<real>,
    combinedSignal: Double<real>)

  /** An entry `{ x, y, antenna }` of the per-antenna constellation. */
  datatype Marker = Marker(x: real, y: real, antenna: nat)

  /** An entry `{ x, y }` of the decoded constellation. */
  datatype Dot = Dot(x: int, y: int)

  /** `antennaStrengths[i] * sin(2 pi f t 0.1 + i pi / numTx)` */
  function TxSample(lib: Lib, strength: real, frequency: real, time: nat, i: nat, numTx: nat): real
    requires 0 < numTx
  {
    strength * lib.sin(2.0 * lib.pi * frequency * (time as real) * 0.1
                       + ((i as real) * lib.pi) / (numTx as real))
  }

  /** The transmitted samples of the first `numTx` antennas. */
  function TxSignals(lib: Lib, strengths: seq<real>, frequency: real, time: nat, numTx: nat): (tx: seq<real>)
    requires 0 < numTx <= |strengths|
    ensures |tx| == numTx
    ensures forall i :: 0 <= i < numTx ==> tx[i] == TxSample(lib, strengths[i], frequency, time, i, numTx)
  {
    seq(numTx, i requires 0 <= i < numTx => TxSample(lib, strengths[i], frequency, time, i, numTx))
  }

  /** `{ real: baseSignal, imag: 0 }` for every transmitted value. */
  function Samples(tx: seq<real>): (s: seq<Complex>)
    ensures |s| == |tx|
    ensures forall j :: 0 <= j < |tx| ==> s[j] == Complex(tx[j], 0.0)
  {
    seq(|tx|, j requires 0 <= j < |tx| => Complex(tx[j], 0.0))
  }

  /** `rxSignals`: one branch per receive antenna. */
  function RxSignals(tx: seq<real>, noiseLevel: real, d: Draws): (rx: seq<Complex>)
    requires |d.noise| == |d.gains|
    requires forall i :: 0 <= i < |d.gains| ==> |d.gains[i]| == |tx|
    ensures |rx| == |d.gains|
    ensures forall i :: 0 <= i < |rx| ==> rx[i] == RxBranch(Samples(tx), noiseLevel, d.gains[i], d.noise[i])
  {
    seq(|d.gains|, i requires 0 <= i < |d.gains| => RxBranch(Samples(tx), noiseLevel, d.gains[i], d.noise[i]))
  }

  /** `rxMagnitude` of every branch. */
  function Magnitudes(lib: Lib, rx: seq<Complex>): (m: seq<real>)
    ensures |m| == |rx|
    ensures forall i :: 0 <= i < |rx| ==> m[i] == Magnitude(lib, rx[i])
  {
    seq(|rx|, i requires 0 <= i < |rx| => Magnitude(lib, rx[i]))
  }

  /** `rxSNRs`: `calculateSNR(rxMagnitude, noiseLevel)` of every branch. */
  function Snrs(lib: Lib, mags: seq<real>, noiseLevel: real): (snrs: seq<real>)
    ensures |snrs| == |mags|
    ensures forall i :: 0 <= i < |mags| ==> snrs[i] == CalculateSnr(lib, mags[i], noiseLevel)
  {
    seq(|mags|, i requires 0 <= i < |mags| => CalculateSnr(lib, mags[i], noiseLevel))
  }

  /** The constellation entries of the branches, antennas numbered from 1. */
  function Markers(rx: seq<Complex>): (ms: seq<Marker>)
    ensures |ms| == |rx|
    ensures forall i :: 0 <= i < |rx| ==> ms[i] == Marker(rx[i].re, rx[i].im, i + 1)
  {
    seq(|rx|, i requires 0 <= i < |rx| => Marker(rx[i].re, rx[i].im, i + 1))
  }

  /** `point.combinedSignal`: the magnitude of the combined sample (NaN stays
      NaN). */
  function CombinedMagnitude(lib: Lib, c: Double<Complex>): (r: Double<real>)
    ensures r.NaN? <==> c.NaN?
    ensures Lawful(lib) && c.Finite? ==> 0.0 <= r.value && (r.value == 0.0 <==> c.value == Zero)
  {
    match c
    case NaN => NaN
    case Finite(v) =>
      assert Lawful(lib) ==> 0.0 <= Magnitude(lib, v) && (Magnitude(lib, v) == 0.0 <==> v == Zero) by {
        if Lawful(lib) {
          MagnitudeLaw(lib, v);
        }
      }
      Finite(Magnitude(lib, v))
  }

  /** `point.snr`: 100 when the noise is at most EPSILON, otherwise the dB
      ratio of the combined power to the per-antenna noise power
      `noiseLevel^2 / numRx`. A NaN magnitude gives a NaN SNR. */
  function PointSnr(lib: Lib, noiseLevel: real, numRx: nat, m: Double<real>): (snr: Double<real>)
    requires 0 < numRx
    ensures noiseLevel <= EPSILON ==> snr == Finite(100.0)
    ensures EPSILON < noiseLevel ==> (snr.NaN? <==> m.NaN?)
  {
    if noiseLevel <= EPSILON then Finite(100.0)
    else
      match m
      case NaN => NaN
      case Finite(v) =>
        Finite(10.0 * lib.log10((v * v) / ((noiseLevel * noiseLevel) / (numRx as real))))
  }

  /** Above EPSILON a larger positive combined magnitude gets a strictly
      larger point SNR, for every number of receive antennas. */
  lemma PointSnrIncreasing(lib: Lib, noiseLevel: real, numRx: nat, a: real, b: real)
    requires Log10Increasing(lib) && EPSILON < noiseLevel && 0 < numRx
    requires 0.0 < a < b
    ensures PointSnr(lib, noiseLevel, numRx, Finite(a)).Finite?
    ensures PointSnr(lib, noiseLevel, numRx, Finite(a)).value < PointSnr(lib, noiseLevel, numRx, Finite(b)).value
  {
    var r := numRx as real;
    SquareOverShareLess(a, b, noiseLevel, r);
  }

  /** Everything one call produces: the chart point, the per-antenna
      constellation entries, the combined sample and its decision. */
  datatype Outcome = Outcome(point: SignalPoint, markers: seq<Marker>, combined: Double<Complex>, decoded: Decoded)

  /** `generateSignalPoint(time)` with the given draws. */
  function Generate(lib: Lib, s: Settings, strengths: seq<real>, numTx: nat, errorRate: real, time: nat, d: Draws): (o: Outcome)
    requires 0 < numTx <= |strengths| && 0 < s.numRx && Fits(d, s.numRx, numTx)
    ensures o.point.time == time && o.point.absoluteTime == time
    ensures o.point.displayTime == time % WINDOW_SIZE
    ensures o.point.baseSignal == 0.0 && o.point.ber == errorRate
    ensures |o.point.tx| == numTx && |o.point.rx| == s.numRx && |o.markers| == s.numRx
    ensures forall i :: 0 <= i < s.numRx ==> o.markers[i].antenna == i + 1
  {
    var tx := TxSignals(lib, strengths, s.frequency, time, numTx);
    var rx := RxSignals(tx, s.noiseLevel, d);
    var mags := Magnitudes(lib, rx);
    var snrs := Snrs(lib, mags, s.noiseLevel);
    var combined := Combine(s.technique, lib, rx, snrs);
    var m := CombinedMagnitude(lib, combined);
    var point := SignalPoint(time, time % WINDOW_SIZE, time, PointSnr(lib, s.noiseLevel, s.numRx, m),
                             0.0, errorRate, tx, mags, m);
    Outcome(point, Markers(rx), combined, Decide(s.mode, s.modulation, combined))
  }

  /** The receive branches of a call, from the same inputs as `Generate`. */
  function Received(lib: Lib, s: Settings, strengths: seq<real>, numTx: nat, time: nat, d: Draws): seq<Complex>
    requires 0 < numTx <= |strengths| && Fits(d, s.numRx, numTx)
  {
    RxSignals(TxSignals(lib, strengths, s.frequency, time, numTx), s.noiseLevel, d)
  }

  // ---------------------------------------------------------------------
  // The zero-noise path

  /** Real samples add up to the real sum of their values. */
  lemma {:induction false} SumOfSamples(tx: seq<real>)
    ensures Sum(Samples(tx)) == Complex(Total(tx), 0.0)
  {
    if |tx| > 0 {
      SumOfSamples(tx[1..]);
      assert Samples(tx)[1..] == Samples(tx[1..]);
    }
  }

  /** With the noise level at most EPSILON every receive branch is the same
      sample `{ sum of tx, 0 }`, whatever the draws. */
  lemma QuietBranches(tx: seq<real>, noiseLevel: real, d: Draws)
    requires noiseLevel <= EPSILON
    requires |d.noise| == |d.gains|
    requires forall i :: 0 <= i < |d.gains| ==> |d.gains[i]| == |tx|
    ensures forall i :: 0 <= i < |d.gains| ==> RxSignals(tx, noiseLevel, d)[i] == Complex(Total(tx), 0.0)
  {
    var rx := RxSignals(tx, noiseLevel, d);
    forall i | 0 <= i < |d.gains|
      ensures rx[i] == Complex(Total(tx), 0.0)
    {
      QuietBranch(Samples(tx), noiseLevel, d.gains[i], d.noise[i]);
      SumOfSamples(tx);
    }
  }

  /** With the noise level at most EPSILON every branch SNR and the point's
      SNR are 100. */
  lemma QuietSnrs(lib: Lib, s: Settings, strengths: seq<real>, numTx: nat, errorRate: real, time: nat, d: Draws)
    requires 0 < numTx <= |strengths| && 0 < s.numRx && Fits(d, s.numRx, numTx)
    requires s.noiseLevel <= EPSILON
    ensures var snrs := Snrs(lib, Magnitudes(lib, Received(lib, s, strengths, numTx, time, d)), s.noiseLevel);
      forall i :: 0 <= i < |snrs| ==> snrs[i] == 100.0
    ensures Generate(lib, s, strengths, numTx, errorRate, time, d).point.snr == Finite(100.0)
  {
  }

  /** With the noise level at most EPSILON selection combining keeps the
      first branch, that is `{ sum of tx, 0 }`. */
  lemma QuietSelection(lib: Lib, s: Settings, strengths: seq<real>, numTx: nat, errorRate: real, time: nat, d: Draws)
    requires 0 < numTx <= |strengths| && 0 < s.numRx && Fits(d, s.numRx, numTx)
    requires s.noiseLevel <= EPSILON && s.technique == SC
    ensures var tx := TxSignals(lib, strengths, s.frequency, time, numTx);
      Generate(lib, s, strengths, numTx, errorRate, time, d).combined == Finite(Complex(Total(tx), 0.0))
  {
    var tx := TxSignals(lib, strengths, s.frequency, time, numTx);
    var rx := RxSignals(tx, s.noiseLevel, d);
    var snrs := Snrs(lib, Magnitudes(lib, rx), s.noiseLevel);
    QuietBranches(tx, s.noiseLevel, d);
    SelectionOfEqualSnrs(lib, rx, snrs);
  }

  /** With the noise level at most EPSILON maximum-ratio combining returns
      the common branch `{ sum of tx, 0 }`. */
  lemma QuietMaximumRatio(lib: Lib, s: Settings, strengths: seq<real>, numTx: nat, errorRate: real, time: nat, d: Draws)
    requires Lawful(lib)
    requires 0 < numTx <= |strengths| && 0 < s.numRx && Fits(d, s.numRx, numTx)
    requires s.noiseLevel <= EPSILON && s.technique == MRC
    ensures var tx := TxSignals(lib, strengths, s.frequency, time, numTx);
      Generate(lib, s, strengths, numTx, errorRate, time, d).combined == Finite(Complex(Total(tx), 0.0))
  {
    var tx := TxSignals(lib, strengths, s.frequency, time, numTx);
    var rx := RxSignals(tx, s.noiseLevel, d);
    var snrs := Snrs(lib, Magnitudes(lib, rx), s.noiseLevel);
    QuietBranches(tx, s.noiseLevel, d);
    MaximumRatioOfEqualSamples(lib, rx, snrs, Complex(Total(tx), 0.0));
  }

  // ---------------------------------------------------------------------
  // Selection above the noise threshold

  /** Above EPSILON, and with every branch magnitude positive, selection
      combining returns the first branch of largest magnitude: the SNR is
      increasing in the magnitude, so the strongest SNR is the strongest
      branch. */
  lemma SelectionPicksStrongestBranch(lib: Lib, rx: seq<Complex>, noiseLevel: real, k: nat)
    requires Log10Increasing(lib) && EPSILON < noiseLevel
    requires k < |rx|
    requires forall i :: 0 <= i < |rx| ==> 0.0 < Magnitude(lib, rx[i])
    requires forall i :: 0 <= i < |rx| ==> Magnitude(lib, rx[i]) <= Magnitude(lib, rx[k])
    requires forall i :: 0 <= i < k ==> Magnitude(lib, rx[i]) < Magnitude(lib, rx[k])
    ensures Combine(SC, lib, rx, Snrs(lib, Magnitudes(lib, rx), noiseLevel)) == Finite(rx[k])
  {
    var mags := Magnitudes(lib, rx);
    var snrs := Snrs(lib, mags, noiseLevel);
    forall j | 0 <= j < |snrs|
      ensures snrs[j] <= snrs[k]
    {
      SnrMonotone(lib, mags[j], mags[k], noiseLevel);
    }
    forall j | 0 <= j < k
      ensures snrs[j] < snrs[k]
    {
      SnrIncreasing(lib, mags[j], mags[k], noiseLevel);
    }
    SelectionPicksFirstStrongest(lib, rx, snrs, k);
  }
}
