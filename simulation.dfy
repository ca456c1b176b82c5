/** The state of `AntennaSimulation` and the operations that change it: the
    point generator, the initial 50-point trace, the tick of the running
    simulation, and the antenna sliders. */
module Simulation {
  import opened Numerics
  import opened Combiner
  import opened Channel
  import opened Decoder
  import opened History
  import opened Signal
  import opened Trace
  import Gains

  /** The outcomes of consecutive calls at times `start`, `start + 1`, ...,
      one per entry of `draws`. */
  function Run(lib: Lib, s: Settings, strengths: seq<real>, numTx: nat, errorRate: real, start: nat, draws: seq<Draws>): (os: seq<Outcome>)
    requires 0 < numTx <= |strengths| && 0 < s.numRx
    requires forall k :: 0 <= k < |draws| ==> Fits(draws[k], s.numRx, numTx)
    ensures |os| == |draws|
  {
    seq(|draws|, k requires 0 <= k < |draws| => Generate(lib, s, strengths, numTx, errorRate, start + k, draws[k]))
  }

  /** Entry k of a run is the call at time `start + k` with the k-th draws. */
  lemma RunAt(lib: Lib, s: Settings, strengths: seq<real>, numTx: nat, errorRate: real, start: nat, draws: seq<Draws>, k: nat)
    requires 0 < numTx <= |strengths| && 0 < s.numRx
    requires forall k :: 0 <= k < |draws| ==> Fits(draws[k], s.numRx, numTx)
    requires k < |draws|
    ensures Run(lib, s, strengths, numTx, errorRate, start, draws)[k] == Generate(lib, s, strengths, numTx, errorRate, start + k, draws[k])
  {
  }

  /** The per-antenna constellation entries of several calls, in order. */
  function MarkersOf(os: seq<Outcome>): seq<Marker> {
    if |os| == 0 then [] else MarkersOf(os[..|os| - 1]) + os[|os| - 1].markers
  }

  function CombinedOf(os: seq<Outcome>): (r: seq<Double<Complex>>)
    ensures |r| == |os|
    ensures forall k :: 0 <= k < |os| ==> r[k] == os[k].combined
  {
    seq(|os|, k requires 0 <= k < |os| => os[k].combined)
  }

  /** `{ x: decodedSignal.real, y: decodedSignal.imag }` */
  function DotOf(d: Decoded): Dot {
    Dot(d.re, d.im)
  }

  function DecodedOf(os: seq<Outcome>): (r: seq<Dot>)
    ensures |r| == |os|
    ensures forall k :: 0 <= k < |os| ==> r[k] == DotOf(os[k].decoded)
  {
    seq(|os|, k requires 0 <= k < |os| => DotOf(os[k].decoded))
  }

  function PointsOf(os: seq<Outcome>): (r: seq<SignalPoint>)
    ensures |r| == |os|
    ensures forall k :: 0 <= k < |os| ==> r[k] == os[k].point
  {
    seq(|os|, k requires 0 <= k < |os| => os[k].point)
  }

  /** Taking one more outcome pushes its entries onto each history and
      appends its point to the initial trace. */
  lemma OutcomesSnoc(os: seq<Outcome>, k: nat, h: seq<Marker>, c: seq<Double<Complex>>, d: seq<Dot>)
    requires k < |os|
    ensures PushAll(h, MarkersOf(os[..k + 1])) == PushAll(PushAll(h, MarkersOf(os[..k])), os[k].markers)
    ensures PushAll(c, CombinedOf(os[..k + 1])) == Push(PushAll(c, CombinedOf(os[..k])), os[k].combined)
    ensures PushAll(d, DecodedOf(os[..k + 1])) == Push(PushAll(d, DecodedOf(os[..k])), DotOf(os[k].decoded))
    ensures Initial(PointsOf(os[..k + 1])) == Initial(PointsOf(os[..k])) + [Relabel(os[k].point, k)]
  {
    assert os[..k + 1][..k] == os[..k];
    PushAllAppend(h, MarkersOf(os[..k]), os[k].markers);
    assert CombinedOf(os[..k + 1])[..k] == CombinedOf(os[..k]);
    assert DecodedOf(os[..k + 1])[..k] == DecodedOf(os[..k]);
  }

  /** One more received branch extends the prefix of the branches, and its
      marker is pushed after the markers of the earlier ones. */
  lemma ReceivedSnoc(rxSpec: seq<Complex>, rx: seq<Complex>, x: Complex, i: nat)
    requires i < |rxSpec| && rx == rxSpec[..i] && x == rxSpec[i]
    ensures rxSpec[..i + 1] == rx + [x]
    ensures Markers(rx + [x]) == Markers(rx) + [Marker(x.re, x.im, i + 1)]
  {
    assert rxSpec[..i + 1] == rxSpec[..i] + [rxSpec[i]];
  }

  /** The transmit loop of `generateSignalPoint`: one sample per transmit
      antenna, as the chart value `tx{i+1}` and as `{ real, imag: 0 }`. */
  method Transmit(lib: Lib, strengths: seq<real>, frequency: real, time: nat, numTx: nat) returns (tx: seq<real>, txSignals: seq<Complex>)
    requires 0 < numTx <= |strengths|
    ensures tx == TxSignals(lib, strengths, frequency, time, numTx)
    ensures txSignals == Samples(tx)
  {
    ghost var txSpec := TxSignals(lib, strengths, frequency, time, numTx);
    tx, txSignals := [], [];
    var i := 0;
    while i < numTx
      invariant 0 <= i <= numTx
      invariant tx == txSpec[..i]
      invariant txSignals == Samples(tx)
    {
      var baseSignal := TxSample(lib, strengths[i], frequency, time, i, numTx);
      assert txSpec[..i + 1] == txSpec[..i] + [baseSignal];
      tx := tx + [baseSignal];
      txSignals := txSignals + [Complex(baseSignal, 0.0)];
      i := i + 1;
    }
  }

  class AntennaSimulation {
    /** The `Math` functions. */
    const lib: Lib
    var settings: Settings
    var numTxAntennas: nat
    var antennaStrengths: seq<real>
    var signalData: seq<SignalPoint>
    var constellationData: seq<Marker>
    var constellationDataCombined: seq<Double<Complex>>
    var decodedConstellationData: seq<Dot>
    var errorRate: real
    /** `timeCounterRef.current` */
    var timeCounter: nat

    /** What every operation keeps: settings in the slider ranges, a strength
        for every transmit antenna, histories of at most 51 entries, and a
        trace that is either not yet built or 50 points long with
        consecutive display times. */
    ghost predicate Valid()
      reads this
    {
      && ValidSettings(settings)
      && 1 <= numTxAntennas <= 4
      && numTxAntennas <= |antennaStrengths|
      && |constellationData| <= KEPT + 1
      && |constellationDataCombined| <= KEPT + 1
      && |decodedConstellationData| <= KEPT + 1
      && (|signalData| == 0 || |signalData| == WINDOW_SIZE)
      && Consecutive(signalData)
    }

    /** The initial `useState` values. */
    constructor(lib: Lib)
      ensures Valid()
      ensures this.lib == lib
      ensures settings == Settings(SIMO, 2, 1.0, 0.5, MRC, BPSK)
      ensures numTxAntennas == 1 && antennaStrengths == [1.0, 1.0, 1.0, 1.0]
      ensures signalData == [] && constellationData == []
      ensures constellationDataCombined == [] && decodedConstellationData == []
      ensures errorRate == 0.0 && timeCounter == 0
    {
      this.lib := lib;
      settings := Settings(SIMO, 2, 1.0, 0.5, MRC, BPSK);
      numTxAntennas := 1;
      antennaStrengths := [1.0, 1.0, 1.0, 1.0];
      signalData := [];
      constellationData := [];
      constellationDataCombined := [];
      decodedConstellationData := [];
      errorRate := 0.0;
      timeCounter := 0;
    }

    /** `generateSignalPoint(absoluteTime)`: the transmit loop, the receive
        loop with its constellation appends, the combiner, the combined and
        decoded appends, and the point's SNR. */
    method GenerateSignalPoint(time: nat, d: Draws) returns (p: SignalPoint)
      requires Valid() && Fits(d, settings.numRx, numTxAntennas)
      modifies this
      ensures Valid()
      ensures settings == old(settings) && numTxAntennas == old(numTxAntennas)
      ensures antennaStrengths == old(antennaStrengths) && signalData == old(signalData)
      ensures errorRate == old(errorRate) && timeCounter == old(timeCounter)
      ensures var o := Generate(lib, settings, antennaStrengths, numTxAntennas, errorRate, time, d);
        && p == o.point
        && constellationData == PushAll(old(constellationData), o.markers)
        && constellationDataCombined == Push(old(constellationDataCombined), o.combined)
        && decodedConstellationData == Push(old(decodedConstellationData), DotOf(o.decoded))
    {
      var tx, txSignals := Transmit(lib, antennaStrengths, settings.frequency, time, numTxAntennas);
      var rxSignals, mags, rxSnrs := ReceiveAll(tx, txSignals, d);
      var combinedSignal := Combine(settings.technique, lib, rxSignals, rxSnrs);
      var combinedMagnitude := CombinedMagnitude(lib, combinedSignal);
      PushShape(constellationDataCombined, combinedSignal);
      constellationDataCombined := Push(constellationDataCombined, combinedSignal);

      var decodedSignal := Decide(settings.mode, settings.modulation, combinedSignal);
      PushShape(decodedConstellationData, DotOf(decodedSignal));
      decodedConstellationData := Push(decodedConstellationData, DotOf(decodedSignal));

      var snr := PointSnr(lib, settings.noiseLevel, settings.numRx, combinedMagnitude);
      p := SignalPoint(time, time % WINDOW_SIZE, time, snr, 0.0, errorRate, tx, mags, combinedMagnitude);
    }

    /** The receive loop of `generateSignalPoint`: one branch per receive
        antenna, its magnitude and SNR, and its constellation entry. */
    method ReceiveAll(tx: seq<real>, txSignals: seq<Complex>, d: Draws) returns (rxSignals: seq<Complex>, mags: seq<real>, rxSnrs: seq<real>)
      requires Valid() && Fits(d, settings.numRx, |tx|) && txSignals == Samples(tx)
      modifies this`constellationData
      ensures Valid()
      ensures rxSignals == RxSignals(tx, settings.noiseLevel, d)
      ensures mags == Magnitudes(lib, rxSignals)
      ensures rxSnrs == Snrs(lib, mags, settings.noiseLevel)
      ensures constellationData == PushAll(old(constellationData), Markers(rxSignals))
    {
      ghost var rxSpec := RxSignals(tx, settings.noiseLevel, d);
      ghost var markers0 := constellationData;
      rxSignals, mags, rxSnrs := [], [], [];
      var i := 0;
      while i < settings.numRx
        invariant 0 <= i <= settings.numRx
        invariant rxSignals == rxSpec[..i]
        invariant mags == Magnitudes(lib, rxSignals)
        invariant rxSnrs == Snrs(lib, mags, settings.noiseLevel)
        invariant constellationData == PushAll(markers0, Markers(rxSignals))
      {
        var rxSignal, rxMagnitude, snr := ReceiveAntenna(txSignals, i, d);
        ReceivedSnoc(rxSpec, rxSignals, rxSignal, i);
        rxSignals := rxSignals + [rxSignal];
        mags := mags + [rxMagnitude];
        rxSnrs := rxSnrs + [snr];
        i := i + 1;
      }
      assert rxSignals == rxSpec;
      PushAllBounded(markers0, Markers(rxSignals));
    }

    /** One pass of the receive loop: branch i, its magnitude and SNR, and
        its constellation entry `{ x: real, y: imag, antenna: i + 1 }`. */
    method ReceiveAntenna(txSignals: seq<Complex>, i: nat, d: Draws) returns (rxSignal: Complex, rxMagnitude: real, snr: real)
      requires i < |d.gains| && i < |d.noise| && |d.gains[i]| == |txSignals|
      modifies this`constellationData
      ensures rxSignal == RxBranch(txSignals, settings.noiseLevel, d.gains[i], d.noise[i])
      ensures rxMagnitude == Magnitude(lib, rxSignal)
      ensures snr == CalculateSnr(lib, rxMagnitude, settings.noiseLevel)
      ensures constellationData == Push(old(constellationData), Marker(rxSignal.re, rxSignal.im, i + 1))
    {
      rxSignal := ReceiveBranch(txSignals, settings.noiseLevel, d.gains[i], d.noise[i]);
      rxMagnitude := Magnitude(lib, rxSignal);
      snr := CalculateSnr(lib, rxMagnitude, settings.noiseLevel);
      var marker := Marker(rxSignal.re, rxSignal.im, i + 1);
      constellationData := Push(constellationData, marker);
    }

    /** The initialisation effect: the counter goes back to 0 and the trace
        becomes the points generated at times 0..49, with display times
        0..49. The constellation histories receive the entries of those 50
        calls in order. */
    method Initialize(draws: seq<Draws>)
      requires Valid()
      requires |draws| == WINDOW_SIZE
      requires forall k :: 0 <= k < |draws| ==> Fits(draws[k], settings.numRx, numTxAntennas)
      modifies this
      ensures Valid()
      ensures settings == old(settings) && numTxAntennas == old(numTxAntennas)
      ensures antennaStrengths == old(antennaStrengths) && errorRate == old(errorRate)
      ensures timeCounter == 0
      ensures var os := Run(lib, settings, antennaStrengths, numTxAntennas, errorRate, 0, draws);
        && signalData == Initial(PointsOf(os))
        && constellationData == PushAll(old(constellationData), MarkersOf(os))
        && constellationDataCombined == PushAll(old(constellationDataCombined), CombinedOf(os))
        && decodedConstellationData == PushAll(old(decodedConstellationData), DecodedOf(os))
    {
      timeCounter := 0;
      var initialData := GenerateInitial(draws);
      InitialConsecutive(PointsOf(Run(lib, settings, antennaStrengths, numTxAntennas, errorRate, 0, draws)));
      signalData := initialData;
    }

    /** The `Array.from` of the initialisation effect: one point per time
        0..49, each relabelled with its index, and the history pushes of
        those calls in order. */
    method GenerateInitial(draws: seq<Draws>) returns (initialData: seq<SignalPoint>)
      requires Valid()
      requires |draws| == WINDOW_SIZE
      requires forall k :: 0 <= k < |draws| ==> Fits(draws[k], settings.numRx, numTxAntennas)
      modifies this
      ensures Valid()
      ensures settings == old(settings) && numTxAntennas == old(numTxAntennas)
      ensures antennaStrengths == old(antennaStrengths) && errorRate == old(errorRate)
      ensures signalData == old(signalData) && timeCounter == old(timeCounter)
      ensures var os := Run(lib, settings, antennaStrengths, numTxAntennas, errorRate, 0, draws);
        && initialData == Initial(PointsOf(os))
        && constellationData == PushAll(old(constellationData), MarkersOf(os))
        && constellationDataCombined == PushAll(old(constellationDataCombined), CombinedOf(os))
        && decodedConstellationData == PushAll(old(decodedConstellationData), DecodedOf(os))
    {
      ghost var os := Run(lib, settings, antennaStrengths, numTxAntennas, errorRate, 0, draws);
      ghost var h0, c0, d0 := constellationData, constellationDataCombined, decodedConstellationData;
      initialData := [];
      var index := 0;
      while index < WINDOW_SIZE
        invariant 0 <= index <= WINDOW_SIZE
        invariant Valid()
        invariant initialData == Initial(PointsOf(os[..index]))
        invariant constellationData == PushAll(h0, MarkersOf(os[..index]))
        invariant constellationDataCombined == PushAll(c0, CombinedOf(os[..index]))
        invariant decodedConstellationData == PushAll(d0, DecodedOf(os[..index]))
        invariant settings == old(settings) && numTxAntennas == old(numTxAntennas)
        invariant antennaStrengths == old(antennaStrengths) && errorRate == old(errorRate)
        invariant signalData == old(signalData) && timeCounter == old(timeCounter)
      {
        RunAt(lib, settings, antennaStrengths, numTxAntennas, errorRate, 0, draws, index);
        initialData := InitialStep(index, draws[index], os[index], initialData);
        OutcomesSnoc(os, index, h0, c0, d0);
        index := index + 1;
      }
      assert os[..WINDOW_SIZE] == os;
    }

    /** One pass of the initialisation loop: generate the point at time
        `index` and append it to the trace under construction with display
        time `index`. */
    method InitialStep(index: nat, d: Draws, ghost o: Outcome, initialData: seq<SignalPoint>) returns (r: seq<SignalPoint>)
      requires Valid() && Fits(d, settings.numRx, numTxAntennas)
      requires o == Generate(lib, settings, antennaStrengths, numTxAntennas, errorRate, index, d)
      modifies this
      ensures Valid()
      ensures settings == old(settings) && numTxAntennas == old(numTxAntennas)
      ensures antennaStrengths == old(antennaStrengths) && signalData == old(signalData)
      ensures errorRate == old(errorRate) && timeCounter == old(timeCounter)
      ensures r == initialData + [Relabel(o.point, index)]
      ensures constellationData == PushAll(old(constellationData), o.markers)
      ensures constellationDataCombined == Push(old(constellationDataCombined), o.combined)
      ensures decodedConstellationData == Push(old(decodedConstellationData), DotOf(o.decoded))
    {
      var p := GenerateSignalPoint(index, d);
      r := initialData + [Relabel(p, index)];
    }

    /** One interval tick: the counter goes up, a point is generated at the
        new time (its constellation entries are appended whatever happens
        next), and the trace advances by that point; an empty trace makes the
        updater throw and stay as it was. */
    method Tick(d: Draws)
      requires Valid() && Fits(d, settings.numRx, numTxAntennas)
      modifies this
      ensures Valid()
      ensures settings == old(settings) && numTxAntennas == old(numTxAntennas)
      ensures antennaStrengths == old(antennaStrengths) && errorRate == old(errorRate)
      ensures timeCounter == old(timeCounter) + 1
      ensures var o := Generate(lib, settings, antennaStrengths, numTxAntennas, errorRate, timeCounter, d);
        && signalData == Advance(old(signalData), o.point)
        && constellationData == PushAll(old(constellationData), o.markers)
        && constellationDataCombined == Push(old(constellationDataCombined), o.combined)
        && decodedConstellationData == Push(old(decodedConstellationData), DotOf(o.decoded))
    {
      timeCounter := timeCounter + 1;
      var newPoint := GenerateSignalPoint(timeCounter, d);
      UpdateTrace(newPoint);
    }

    /** The updater passed to `setSignalData` by the tick: drop the oldest
        point and append the new one with the next display time. On an empty
        trace `prevData[prevData.length - 1]` is undefined, the updater
        throws, and its catch returns the trace unchanged. */
    method UpdateTrace(newPoint: SignalPoint)
      requires Valid()
      modifies this`signalData
      ensures Valid()
      ensures signalData == Advance(old(signalData), newPoint)
    {
      var prevData := signalData;
      if |prevData| == 0 {
        signalData := prevData;
      } else {
        var updatedData := prevData[1..];
        updatedData := updatedData + [newPoint.(displayTime := prevData[|prevData| - 1].displayTime + 1)];
        signalData := updatedData;
      }
      AdvanceConsecutive(prevData, newPoint);
    }

    /** The Tx-antenna slider: the count becomes `n` and the strengths are
        resized to `n`, keeping the old ones and padding with 1. */
    method SetNumTxAntennas(n: nat)
      requires Valid() && 1 <= n <= 4
      modifies this
      ensures Valid()
      ensures numTxAntennas == n && |antennaStrengths| == n
      ensures forall i :: 0 <= i < n && i < |old(antennaStrengths)| ==> antennaStrengths[i] == old(antennaStrengths)[i]
      ensures forall i :: |old(antennaStrengths)| <= i < n ==> antennaStrengths[i] == 1.0
      ensures settings == old(settings) && signalData == old(signalData) && timeCounter == old(timeCounter)
      ensures constellationData == old(constellationData)
      ensures constellationDataCombined == old(constellationDataCombined)
      ensures decodedConstellationData == old(decodedConstellationData)
      ensures errorRate == old(errorRate)
    {
      numTxAntennas := n;
      antennaStrengths := Gains.ResizeStrengths(antennaStrengths, n);
    }

    /** The strength slider of transmit antenna `idx` (one is shown per
        antenna in use). */
    method SetAntennaStrength(idx: nat, v: real)
      requires Valid() && idx < numTxAntennas
      modifies this
      ensures Valid()
      ensures antennaStrengths == Gains.WithStrength(old(antennaStrengths), idx, v)
      ensures numTxAntennas == old(numTxAntennas)
      ensures settings == old(settings) && signalData == old(signalData) && timeCounter == old(timeCounter)
      ensures constellationData == old(constellationData)
      ensures constellationDataCombined == old(constellationDataCombined)
      ensures decodedConstellationData == old(decodedConstellationData)
      ensures errorRate == old(errorRate)
    {
      var newStrengths := antennaStrengths;
      newStrengths := newStrengths[idx := v];
      antennaStrengths := newStrengths;
    }

    /** The other settings controls (mode, technique, receive antennas,
        noise level); the frequency and the modulation scheme have no
        control and keep their values. */
    method Configure(mode: Mode, technique: Technique, numRx: nat, noiseLevel: real)
      requires Valid() && 1 <= numRx <= 4 && 0.0 <= noiseLevel <= 2.0
      modifies this
      ensures Valid()
      ensures settings == old(settings).(mode := mode, technique := technique, numRx := numRx, noiseLevel := noiseLevel)
      ensures numTxAntennas == old(numTxAntennas) && antennaStrengths == old(antennaStrengths)
      ensures signalData == old(signalData) && timeCounter == old(timeCounter)
      ensures constellationData == old(constellationData)
      ensures constellationDataCombined == old(constellationDataCombined)
      ensures decodedConstellationData == old(decodedConstellationData)
      ensures errorRate == old(errorRate)
    {
      settings := settings.(mode := mode, technique := technique, numRx := numRx, noiseLevel := noiseLevel);
    }
  }
}
