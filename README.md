# Antenna diversity simulation — a Dafny model

This project models the signal pipeline of the `AntennaSimulation` React
component (components/antenna-diversity-simulation.tsx) and proves
properties of it. For each time step the component does the following:

- It computes one real sinusoid per transmit antenna.
- It forms each receive branch as the sum of the gain-weighted transmit
  samples. Gaussian noise is added to a branch only above `Number.EPSILON`.
- It computes each branch's magnitude and its SNR with `calculateSNR`.
- It combines the branches by selection (SC), equal-gain (EGC) or
  maximum-ratio (MRC) combining.
- It makes a hard decision on the combined sample with the SIMO/MIMO,
  BPSK/QPSK decoder.
- It appends the per-antenna, combined and decoded points to three
  bounded constellation histories, each `[...prev.slice(-50), x]`.
- It moves the 50-point chart trace on by one point.

The slider handlers that resize and edit the transmit strengths are part of
the model too, as are the (uncalled) modulator and the Rayleigh/Rician
fading generators.

How things are represented:
- Numbers are Dafny `real`s.
- The `Math` functions (`sqrt`, `sin`, `cos`, `log10`, `pow(10, ·)`,
  `atan2`, `PI`) come as a `Lib` value of functions, where the proofs need
  them. Each proof names the law it relies on (`SqrtLaw`,
  `Log10Increasing`, `Lawful`).
- Of the non-finite IEEE values, only NaN is represented, by `Double<T>`.
  It arises from EGC on a zero-magnitude branch (0/0), and from MRC when the
  weights total zero. `-Infinity`, which `Math.log10(0)` gives for a zero
  magnitude above EPSILON, is not represented (see "## Left out").
- The random draws of one call (the `Math.random()` channel gains and the
  Gaussian noise pairs) are an explicit `Draws` parameter.

Modules, in dependency order:
- `Numerics`: complex samples, `Double`, `Lib` and its laws, sums and
  weighted sums, and the real-arithmetic lemmas.
- `Combiner`: `combineSignals`.
- `Channel`: `calculateSNR`, the channel gain and one receive branch. The
  branch is an imperative accumulation loop proved against its recursive
  specification.
- `Decoder`: the hard-decision demodulator.
- `History`: the `slice(-50)` histories.
- `Gains`: the transmit-strength updaters.
- `Signal`: one call of `generateSignalPoint` as a function of the settings
  and draws.
- `Trace`: the 50-point trace.
- `Simulation`: the component's state as a class, whose methods perform the
  same loops and state updates as the source.
- `Modulator`: `modulateSignal`, `generateRicianFading` and
  `generateFading`.

`Modulator.QpskDecoding` and its two companions record a property of the
QPSK path:
- The modulator numbers its four phases anticlockwise from the first
  quadrant.
- The decoder numbers quadrants by sign bits (3 for (+,+), 1 for (+,−),
  2 for (−,+), 0 for (−,−)).
- So for a positive amplitude a decoded QPSK symbol never equals the
  modulated one (`QpskDecoding`).
- A negative amplitude mirrors the point through the origin: symbols 0 and
  1 then come back as sent, 2 and 3 swapped (`QpskDecodingNegative`).
- A zero amplitude (a transmit strength of 0) sends the origin, which
  decodes as symbol 0 (`QpskDecodingZero`).

`modulateSignal` is never called and the decoded symbol is never compared
with anything, so this has no observable effect. It is therefore stated as
a property, not as a defect.

## Model

| member | source | states |
|---|---|---|
| Numerics.MagnitudeLaw | components/antenna-diversity-simulation.tsx:257-259 | The magnitude is non-negative, its square is re² + im², and it is zero exactly for the sample {0, 0}. |
| Numerics.SqrtOfZeroAndOne | components/antenna-diversity-simulation.tsx:100-101 | under the square-root law, √0 = 0 and √1 = 1 (the Rician amplitudes at K = 0) |
| Numerics.TotalPositive | components/antenna-diversity-simulation.tsx:190 | a total of positive weights over a non-empty list is positive |
| Combiner.Max | components/antenna-diversity-simulation.tsx:170 | `Math.max(...snrs)` is one of the SNRs and no SNR exceeds it |
| Combiner.IndexOf | components/antenna-diversity-simulation.tsx:170 | `indexOf` is -1 exactly when the value is absent, else the first position holding it |
| Combiner.Strongest | components/antenna-diversity-simulation.tsx:170 | the selected index holds a maximal SNR and every earlier SNR is strictly smaller |
| Combiner.Weights | components/antenna-diversity-simulation.tsx:188 | one weight per SNR, and branches with equal SNRs get equal weights |
| Combiner.EqualGain | components/antenna-diversity-simulation.tsx:173-186 | EGC is NaN exactly when some branch has magnitude 0 |
| Combiner.MaximumRatio | components/antenna-diversity-simulation.tsx:187-199 | MRC is NaN exactly when the weights total 0, and finite for a non-empty branch list whenever `exp10` is positive |
| Combiner.Combine | components/antenna-diversity-simulation.tsx:164-201 | no branches give {0,0}; one branch is returned as is; SC returns one of the branches; NaN only arises from EGC/MRC with two or more branches |
| Combiner.SelectionPicksFirstStrongest | components/antenna-diversity-simulation.tsx:169-172 | SC returns the branch at the first index of maximal SNR |
| Combiner.SelectionOfEqualSnrs | components/antenna-diversity-simulation.tsx:169-172 | with all SNRs equal, SC returns the first branch |
| Combiner.WeightsPositive | components/antenna-diversity-simulation.tsx:189-190 | every MRC weight 10^(snr/20) is positive, and so is their total |
| Combiner.WeightedSumOfConstant | components/antenna-diversity-simulation.tsx:193-197 | the weighted sum of identical branches is that branch scaled by the total weight |
| Combiner.WeightedSumOfEqualWeights | components/antenna-diversity-simulation.tsx:193-197 | with one common weight, the weighted sum is the plain sum scaled by it |
| Combiner.TotalOfConstant | components/antenna-diversity-simulation.tsx:190 | n equal weights x total n·x |
| Combiner.MaximumRatioValue | components/antenna-diversity-simulation.tsx:187-199 | MRC with two or more branches is finite and equals the weighted average Σ wᵢsᵢ / Σ wᵢ |
| Combiner.MaximumRatioOfEqualSamples | components/antenna-diversity-simulation.tsx:187-199 | if every branch holds the same sample, MRC returns it whatever the SNRs |
| Combiner.WeightedMeanOfEqualWeightsRe | components/antenna-diversity-simulation.tsx:193-194 | with equal positive weights, the real part of the weighted average is the mean of the real parts |
| Combiner.WeightedMeanOfEqualWeightsIm | components/antenna-diversity-simulation.tsx:196-197 | the same for the imaginary part |
| Combiner.MaximumRatioOfEqualSnrs | components/antenna-diversity-simulation.tsx:187-199 | with all SNRs equal, MRC is the arithmetic mean of the branches |
| Combiner.WeightedSumReBounds | components/antenna-diversity-simulation.tsx:193-194 | non-negative weights keep the weighted sum of real parts between lo·Σw and hi·Σw |
| Combiner.WeightedSumImBounds | components/antenna-diversity-simulation.tsx:196-197 | the same for the imaginary parts |
| Combiner.WeightedAverageReWithin | components/antenna-diversity-simulation.tsx:193-194 | dividing by the positive total weight keeps the real part of the weighted average within any bounds of the branches' real parts |
| Combiner.WeightedAverageImWithin | components/antenna-diversity-simulation.tsx:196-197 | the same for the imaginary part |
| Combiner.MaximumRatioWithinBranches | components/antenna-diversity-simulation.tsx:187-199 | MRC is finite and lies inside any box that contains every branch |
| Combiner.NormalizeIsUnit | components/antenna-diversity-simulation.tsx:174-177 | a normalised non-zero branch has unit power and both parts in [-1, 1] |
| Combiner.SumOfUnitBounded | components/antenna-diversity-simulation.tsx:180-184 | the sum of n samples in the unit square has both parts in [-n, n] |
| Combiner.EqualGainWithinUnitSquare | components/antenna-diversity-simulation.tsx:173-186 | EGC without a zero branch is finite with both parts in [-1, 1] |
| Combiner.NullBranchIff | components/antenna-diversity-simulation.tsx:175-176 | a branch has zero magnitude exactly when it is the zero sample |
| Combiner.EqualGainNaNIff | components/antenna-diversity-simulation.tsx:173-186 | EGC over two or more branches is NaN if and only if some branch is {0,0} |
| Combiner.EqualGainOfUnitBranches | components/antenna-diversity-simulation.tsx:173-186 | EGC of unit-magnitude branches is their arithmetic mean |
| Channel.CalculateSnr | components/antenna-diversity-simulation.tsx:90-95 | the sentinel 100 whenever the noise is at most EPSILON |
| Channel.SnrIncreasing | components/antenna-diversity-simulation.tsx:90-95 | above EPSILON, a strictly larger positive magnitude gets a strictly larger SNR |
| Channel.SnrMonotone | components/antenna-diversity-simulation.tsx:90-95 | for positive magnitudes the SNR is monotone at every noise level |
| Channel.ChannelGain | components/antenna-diversity-simulation.tsx:240 | the gain is 1 at or below EPSILON and lies in [0, 1] for a uniform draw |
| Channel.PathGains | components/antenna-diversity-simulation.tsx:239-240 | one gain per transmit path, each as `ChannelGain` gives it |
| Channel.Accumulate | components/antenna-diversity-simulation.tsx:239-249 | the running value of the branch loop, which `AccumulateIsWeightedSum` proves is the gain-weighted sum of the transmit samples |
| Channel.RxBranch | components/antenna-diversity-simulation.tsx:236-256 | at or below EPSILON the branch is the accumulation with unit gains and no noise; above it the gains are the draws and the noise sample is added once |
| Channel.ReceiveBranch | components/antenna-diversity-simulation.tsx:236-255 | the accumulation loop computes the branch specified by `RxBranch` |
| Channel.AccumulateIsWeightedSum | components/antenna-diversity-simulation.tsx:239-249 | the loop's running sum is the gain-weighted sum of the transmit samples |
| Channel.WeightedSumSnoc | components/antenna-diversity-simulation.tsx:247-248 | each loop step adds one gain-weighted sample to both parts |
| Channel.QuietBranch | components/antenna-diversity-simulation.tsx:239-255 | at or below EPSILON a branch is the plain sum of the transmit samples, and no noise is added |
| Channel.WeightedSumOfOnes | components/antenna-diversity-simulation.tsx:240-248 | unit gains make the weighted sum the plain sum |
| Channel.NoisyBranch | components/antenna-diversity-simulation.tsx:239-255 | above EPSILON a branch is the draw-weighted sum plus the noise sample |
| Decoder.Quadrant | components/antenna-diversity-simulation.tsx:288-295 | the quadrant number is below 4; its low bit is "real part positive" and its high bit is "imaginary part positive" |
| Decoder.Decide | components/antenna-diversity-simulation.tsx:283-323 | the real decision is ±1, and +1 exactly for a positive real part; the symbol is below 4; SIMO and MIMO-BPSK put 0 in the imaginary decision; MIMO-BPSK gives a binary symbol; MIMO-QPSK gives ±1 following the imaginary sign |
| Decoder.QuadrantDecision | components/antenna-diversity-simulation.tsx:288-311 | outside MIMO-BPSK, the symbol's bits are the two sign tests |
| Decoder.BinaryDecision | components/antenna-diversity-simulation.tsx:316-320 | under MIMO-BPSK the symbol is 1 exactly when the real part is positive, and 0 otherwise |
| Decoder.QpskPointMatchesSymbol | components/antenna-diversity-simulation.tsx:301-312 | under MIMO-QPSK the decoded point is determined by the symbol's bits |
| Decoder.QuadrantInjective | components/antenna-diversity-simulation.tsx:288-295 | distinct sign pairs get distinct quadrant numbers |
| Decoder.NaNDecision | components/antenna-diversity-simulation.tsx:283-323 | a NaN sample fails every `> 0` test and decodes as real −1, symbol 0 |
| Decoder.DecisionBySigns | components/antenna-diversity-simulation.tsx:283-323 | the decision depends only on the two signs |
| History.Push | components/antenna-diversity-simulation.tsx:266-269 | a push keeps the newest 50 old entries in order and puts the new entry last, as `PushShape` and `PushIsWindow` state |
| History.Last | components/antenna-diversity-simulation.tsx:267 | `slice(-k)` keeps min(k, length) entries, the newest ones, in order |
| History.PushShape | components/antenna-diversity-simulation.tsx:266-269 | a push puts the new entry last behind the newest 50 old ones, so at most 51 entries remain |
| History.LastOfLast | components/antenna-diversity-simulation.tsx:267 | taking the newest j of the newest k (j ≤ k) is taking the newest j |
| History.LastSnoc | components/antenna-diversity-simulation.tsx:266-269 | appending after the newest k is the newest k+1 of the extended list |
| History.PushIsWindow | components/antenna-diversity-simulation.tsx:266-269 | on a history of at most 51, a push is the newest 51 of the history plus the entry |
| History.PushAllIsWindow | components/antenna-diversity-simulation.tsx:266-269 | any run of pushes leaves exactly the newest 51 entries of everything pushed, in arrival order |
| History.PushAllAppend | components/antenna-diversity-simulation.tsx:278-281 | pushing a concatenation is pushing its parts in turn |
| History.PushAllBounded | components/antenna-diversity-simulation.tsx:325-328 | a history never grows beyond 51 entries |
| Gains.ResizeStrengths | components/antenna-diversity-simulation.tsx:489-495 | the result has exactly n entries; the old strengths keep their places as far as they reach; every added entry is 1 |
| Gains.WithStrength | components/antenna-diversity-simulation.tsx:563-566 | entry idx becomes v, and every other entry and the length stay the same |
| Signal.TxSignals | components/antenna-diversity-simulation.tsx:220-229 | one sample per transmit antenna, strength·sin(2π·f·t·0.1 + iπ/numTx) |
| Signal.Samples | components/antenna-diversity-simulation.tsx:228 | each transmit value becomes `{ real: value, imag: 0 }` |
| Signal.RxSignals | components/antenna-diversity-simulation.tsx:235-261 | one branch per receive antenna, each the `RxBranch` of its own draws |
| Signal.Magnitudes | components/antenna-diversity-simulation.tsx:257-260 | `rx{i+1}` is the magnitude of branch i |
| Signal.Snrs | components/antenna-diversity-simulation.tsx:263-264 | branch i's SNR is `calculateSNR` of its magnitude |
| Signal.Markers | components/antenna-diversity-simulation.tsx:266-269 | branch i is logged as `{ x: re, y: im, antenna: i + 1 }` |
| Signal.CombinedMagnitude | components/antenna-diversity-simulation.tsx:273-276 | NaN exactly for a NaN combined sample; otherwise, under `Lawful`, non-negative and 0 exactly for {0, 0} |
| Signal.PointSnr | components/antenna-diversity-simulation.tsx:330-336 | the sentinel 100 at or below EPSILON; above it the SNR is NaN exactly when the combined magnitude is |
| Signal.PointSnrIncreasing | components/antenna-diversity-simulation.tsx:331-336 | above EPSILON, a strictly larger positive combined magnitude gets a strictly larger finite point SNR, for any number of receive antennas |
| Signal.Generate | components/antenna-diversity-simulation.tsx:204-339 | the point's time fields are the time and the time modulo 50, `baseSignal` is 0, `ber` is the error rate, there is one tx and one rx value per antenna, and entries are numbered by antenna |
| Signal.SumOfSamples | components/antenna-diversity-simulation.tsx:228 | the sum of the transmit samples is `{ Σ tx, 0 }` |
| Signal.QuietBranches | components/antenna-diversity-simulation.tsx:239-255 | at or below EPSILON every branch is `{ Σ tx, 0 }`, whatever the draws |
| Signal.QuietSnrs | components/antenna-diversity-simulation.tsx:263-264 | at or below EPSILON every branch SNR and the point SNR are 100 |
| Signal.QuietSelection | components/antenna-diversity-simulation.tsx:169-172 | at or below EPSILON, SC returns `{ Σ tx, 0 }` |
| Signal.QuietMaximumRatio | components/antenna-diversity-simulation.tsx:187-199 | at or below EPSILON, MRC returns `{ Σ tx, 0 }` |
| Signal.SelectionPicksStrongestBranch | components/antenna-diversity-simulation.tsx:169-172 | above EPSILON, with positive magnitudes, SC returns the first branch of largest magnitude |
| Trace.Relabel | components/antenna-diversity-simulation.tsx:369-370 | the display time becomes the given value and every other field of the point is kept |
| Trace.Initial | components/antenna-diversity-simulation.tsx:345-348 | point i of the initial trace is the i-th generated point with display time i |
| Trace.Advance | components/antenna-diversity-simulation.tsx:364-377 | the length is kept; an empty trace is left unchanged; otherwise the oldest point is dropped and the new point is added with the next display time |
| Trace.InitialConsecutive | components/antenna-diversity-simulation.tsx:345-348 | the initial display times are 0, 1, …, 49 |
| Trace.AdvanceConsecutive | components/antenna-diversity-simulation.tsx:364-377 | a tick keeps the display times consecutive and moves the window on by one |
| Trace.AdvanceAllNewest | components/antenna-diversity-simulation.tsx:370 | k ticks raise the newest display time by k |
| Trace.AdvanceAllWindow | components/antenna-diversity-simulation.tsx:364-377 | after k ≤ n ticks, the trace is its newest n−k old points followed by the k new points, stamped with the next display times |
| Trace.StampedSnoc | components/antenna-diversity-simulation.tsx:370 | stamping one more point gives it the next display time |
| Simulation.Run | components/antenna-diversity-simulation.tsx:345-348 | one outcome per set of draws |
| Simulation.RunAt | components/antenna-diversity-simulation.tsx:345-348 | entry k of a run is the call at time start + k |
| Simulation.OutcomesSnoc | components/antenna-diversity-simulation.tsx:345-348 | one more call pushes its entries onto each history and appends its point to the initial trace |
| Simulation.Transmit | components/antenna-diversity-simulation.tsx:220-229 | the transmit loop computes `TxSignals` and its complex samples |
| Simulation.AntennaSimulation.constructor | components/antenna-diversity-simulation.tsx:30-51 | the initial state values: SIMO, 2 receive antennas, frequency 1, noise 0.5, MRC, BPSK, one transmit antenna, strengths [1,1,1,1], empty data, counter 0 |
| Simulation.AntennaSimulation.GenerateSignalPoint | components/antenna-diversity-simulation.tsx:204-339 | returns the point of `Generate`; pushes its per-antenna markers, combined sample and decision onto the three histories; changes nothing else |
| Simulation.AntennaSimulation.ReceiveAll | components/antenna-diversity-simulation.tsx:235-270 | the receive loop computes the branches, magnitudes and SNRs of the specification, and pushes one marker per branch |
| Simulation.AntennaSimulation.ReceiveAntenna | components/antenna-diversity-simulation.tsx:236-269 | one pass of the receive loop computes branch i, its magnitude and SNR, and pushes its marker with antenna number i + 1 |
| Simulation.ReceivedSnoc | components/antenna-diversity-simulation.tsx:261-269 | one more branch extends the received prefix and appends its marker after the earlier ones |
| Simulation.AntennaSimulation.Initialize | components/antenna-diversity-simulation.tsx:342-355 | the counter becomes 0; the trace becomes the points of times 0..49 relabelled 0..49; the histories receive those 50 calls' entries in order |
| Simulation.AntennaSimulation.GenerateInitial | components/antenna-diversity-simulation.tsx:345-348 | the points of times 0..49 relabelled 0..49, with the history pushes of those 50 calls in order; the trace and counter are untouched |
| Simulation.AntennaSimulation.InitialStep | components/antenna-diversity-simulation.tsx:345-348 | one point of the initial trace, with its history pushes |
| Simulation.AntennaSimulation.Tick | components/antenna-diversity-simulation.tsx:361-377 | the counter goes up by one; the call at the new time is pushed onto the histories; the trace advances by its point |
| Simulation.AntennaSimulation.UpdateTrace | components/antenna-diversity-simulation.tsx:364-377 | the updater computes `Advance`, including the unchanged trace when it is empty, and keeps the trace invariant |
| Simulation.AntennaSimulation.SetNumTxAntennas | components/antenna-diversity-simulation.tsx:485-495 | the count becomes n and the strengths are resized to n as `ResizeStrengths` states |
| Simulation.AntennaSimulation.SetAntennaStrength | components/antenna-diversity-simulation.tsx:563-566 | the strengths become `WithStrength(old, idx, v)`; nothing else changes |
| Simulation.AntennaSimulation.Configure | components/antenna-diversity-simulation.tsx:426-547 | mode, technique, receive count and noise level take the new values; nothing else changes |
| Modulator.Modulate | components/antenna-diversity-simulation.tsx:135-161 | BPSK sends ±signal on the real axis, with symbol 1 exactly for a draw above one half; QPSK sends signal·(cos φ, sin φ) at the phase of symbol ⌊4·draw⌋, which is below 4 |
| Modulator.BpskRoundTrip | components/antenna-diversity-simulation.tsx:147-155 | for a positive amplitude, decoding a BPSK point gives back its symbol in either mode |
| Modulator.BpskRoundTripIff | components/antenna-diversity-simulation.tsx:147-155 | the BPSK symbol survives for every draw if and only if the amplitude is positive |
| Modulator.QpskDecoding | components/antenna-diversity-simulation.tsx:138-146 | for a positive amplitude, a QPSK point decodes to the decoder's quadrant number 3, 2, 0, 1 for symbols 0..3, which never equals the sent symbol |
| Modulator.QpskDecodingNegative | components/antenna-diversity-simulation.tsx:138-146 | for a negative amplitude, symbols 0..3 decode to 0, 1, 3, 2, so exactly symbols 0 and 1 come back as sent |
| Modulator.QpskDecodingZero | components/antenna-diversity-simulation.tsx:138-146 | for a zero amplitude every QPSK point decodes to symbol 0, so only symbol 0 comes back as sent |
| Modulator.ScaleSign | components/antenna-diversity-simulation.tsx:142-143 | a positive amplitude keeps the sign of cos φ and sin φ |
| Modulator.RicianFading | components/antenna-diversity-simulation.tsx:98-110 | the Rician magnitude is non-negative under the square-root law |
| Modulator.RayleighFading | components/antenna-diversity-simulation.tsx:118-126 | the Rayleigh magnitude is non-negative under the square-root law |
| Modulator.GenerateFading | components/antenna-diversity-simulation.tsx:113-132 | the fading magnitude is non-negative under the square-root law; "rician" gives Rician fading with K = 1, and anything else gives Rayleigh fading |
| Modulator.DefaultRicianSplit | components/antenna-diversity-simulation.tsx:98-117 | the default K = 1 of the Rician branch splits the power equally (los² = scatter² = 1/2, los = scatter), so the fading sample is that common amplitude times {1 + g.real, g.imag}, and the fading is that sample's magnitude with its `atan2` phase |
| Modulator.RicianPowerSplit | components/antenna-diversity-simulation.tsx:100-101 | for K ≥ 0, los² = K/(K+1), scatter² = 1/(K+1), and they sum to 1 |
| Modulator.RicianWithoutLineOfSight | components/antenna-diversity-simulation.tsx:98-126 | at K = 0, Rician fading equals Rayleigh fading of the same Gaussian sample |

## Left out

- `generateGaussianNoise` (Box–Muller), `Math.random()` and therefore the randomness: every draw is a parameter (`Draws`, the modulator's `draw`, the fading's Gaussian sample).
- The transcendental functions are parameters (`Lib`). Only the laws named in each lemma are assumed of them as preconditions. Floating-point rounding is not modelled: numbers are exact reals.
- IEEE infinities are not represented. `Math.log10(0)` is `-Infinity` in JavaScript (a zero-magnitude branch above EPSILON); here it is whatever `lib.log10(0)` is. In JavaScript such a branch therefore gets MRC weight `10^(-Infinity/20) = 0` and is never chosen by SC while some branch has a finite SNR. In the model its SNR is a finite number, so under `Lawful` its MRC weight is positive, and SC may choose it.
- Combiner.MaximumRatio: its NaN branch (total weight 0) is reachable only through a `Lib` whose `exp10` is not positive. In JavaScript it arises when every branch SNR is `-Infinity`, since `10^(-Infinity/20)` is 0, and the model does not represent `-Infinity`. Under `Lawful` the weights are positive and MRC is always finite (`MaximumRatioValue`).
- Channel.SnrIncreasing: needs positive magnitudes and so says nothing about the `-Infinity` SNR of a zero branch.
- Channel.CalculateSnr: its contract states only the sentinel; the formula above EPSILON is related to the magnitude by `SnrIncreasing` and `SnrMonotone`, not restated.
- The `signalPower` accumulated in the receive loop (lines 237-246) is never read, so it is not modelled.
- The BER bookkeeping is left out: `errorCountRef` and `totalBitsRef` are reset by the initialisation effect (lines 350-351) but never updated, and `powerWindowRef` (line 46) is declared and never used. `errorRate` is never set, so `ber` is always its initial 0; it is kept as a field.
- `fadingType` affects nothing on the point path, since the tick never calls `generateFading`. The fading functions are modelled on their own in `Modulator`, and `fadingType` is not part of the settings.
- `modulateSignal` is never called by `generateSignalPoint`; it is modelled on its own.
- The modulation-scheme control is commented out, and the frequency has no control. Both keep their initial values (BPSK, 1); `Configure` does not change them.
- React rendering, the charts, `setInterval` timing, the start/stop button and the `try`/`catch` blocks that cannot throw on these paths are left out. The catch that matters, the tick's updater on an empty trace, is modelled.
- The state updates are applied in program order. React's batching of `setState` updaters within one call is not modelled; it has no effect here, because every updater reads only its own state.
- Simulation.AntennaSimulation.SetAntennaStrength and Configure: the sliders' ranges (strength 0..2 in steps of 0.1, noise 0..2) are not required of `v`, and the rounding of slider values is not modelled. The receive count and noise level are required to lie in the slider ranges.
- Modulator.QpskDecoding: needs the sign of cosine and sine at the four QPSK phases as a precondition (`QpskSigns`), since `Lib` is abstract, and holds only for a positive amplitude. The negative and zero amplitudes are stated by `QpskDecodingNegative` (also under `QpskSigns`) and `QpskDecodingZero`.
- The initialisation effect generates times 0..49 and resets the counter to 0, so the first tick reuses time 1. This is modelled as written.
- The other files of the repository (the 3-D antenna view, the combined and MIMO visualisations, the page shell) are not part of this model.
