/** The hard-decision demodulator at the end of `generateSignalPoint`: the
    signs of the combined sample's parts pick a constellation point and a
    symbol index. */
module Decoder {
  import opened Numerics

  /** The `mode` setting. */
  datatype Mode = SIMO | MIMO

  /** The `modulationScheme` setting; anything else falls to BPSK. */
  datatype Modulation = BPSK | QPSK

  /** `{ real, imag, originalSymbol }` of the decoded signal. */
  datatype Decoded = Decoded(re: int, im: int, symbol: nat)

  /** `combinedSignal.real > 0`. A comparison with NaN is false. */
  predicate RePositive(c: Double<Complex>) {
    c.Finite? && c.value.re > 0.0
  }

  /** `combinedSignal.imag > 0`. */
  predicate ImPositive(c: Double<Complex>) {
    c.Finite? && c.value.im > 0.0
  }

  /** `x > 0 ? 1 : -1` */
  function Sign(positive: bool): int {
    if positive then 1 else -1
  }

  /** The nested ternary that numbers the quadrants: 3 for (+, +), 1 for
      (+, -), 2 for (-, +) and 0 for (-, -), a value on an axis counting as
      negative. */
  function Quadrant(rePositive: bool, imPositive: bool): (q: nat)
    ensures q < 4
    ensures q % 2 == 1 <==> rePositive
    ensures q / 2 == 1 <==> imPositive
  {
    if rePositive then (if imPositive then 3 else 1)
    else (if imPositive then 2 else 0)
  }

  /** The decision for one combined sample. */
  function Decide(mode: Mode, scheme: Modulation, c: Double<Complex>): (d: Decoded)
    ensures d.re == 1 || d.re == -1
    ensures d.re == 1 <==> RePositive(c)
    ensures d.symbol < 4
    ensures mode == SIMO ==> d.im == 0
    ensures mode == MIMO && scheme == BPSK ==> d.im == 0 && d.symbol < 2
    ensures mode == MIMO && scheme == QPSK ==> (d.im == 1 <==> ImPositive(c)) && d.im != 0
  {
    match mode
    case SIMO =>
      Decoded(Sign(RePositive(c)), 0, Quadrant(RePositive(c), ImPositive(c)))
    case MIMO =>
      match scheme
      case QPSK =>
        Decoded(Sign(RePositive(c)), Sign(ImPositive(c)), Quadrant(RePositive(c), ImPositive(c)))
      case BPSK =>
        Decoded(Sign(RePositive(c)), 0, if RePositive(c) then 1 else 0)
  }

  /** Except under MIMO with BPSK, the symbol is the quadrant: its low bit
      says whether the real part is positive, its high bit whether the
      imaginary part is. */
  lemma QuadrantDecision(mode: Mode, scheme: Modulation, c: Double<Complex>)
    requires mode == SIMO || scheme == QPSK
    ensures var d := Decide(mode, scheme, c);
      && (d.symbol % 2 == 1 <==> RePositive(c))
      && (d.symbol / 2 == 1 <==> ImPositive(c))
  {
  }

  /** Under MIMO with BPSK the symbol is 1 exactly when the real part is
      positive. */
  lemma BinaryDecision(c: Double<Complex>)
    ensures Decide(MIMO, BPSK, c).symbol == 1 <==> RePositive(c)
    ensures Decide(MIMO, BPSK, c).symbol == 0 <==> !RePositive(c)
  {
  }

  /** Under MIMO with QPSK the decoded point and the symbol carry the same
      information: each determines the other. */
  lemma QpskPointMatchesSymbol(c: Double<Complex>)
    ensures var d := Decide(MIMO, QPSK, c);
      d.re == Sign(d.symbol % 2 == 1) && d.im == Sign(d.symbol / 2 == 1)
  {
  }

  /** The quadrant numbering is one-to-one. */
  lemma QuadrantInjective(r1: bool, i1: bool, r2: bool, i2: bool)
    ensures Quadrant(r1, i1) == Quadrant(r2, i2) <==> r1 == r2 && i1 == i2
  {
  }

  /** A NaN sample decodes as the all-negative point: real part -1 and
      symbol 0 whatever the mode. */
  lemma NaNDecision(mode: Mode, scheme: Modulation)
    ensures Decide(mode, scheme, NaN).re == -1
    ensures Decide(mode, scheme, NaN).symbol == 0
  {
  }

  /** Only the signs matter: two samples whose parts have the same signs
      decode alike. */
  lemma DecisionBySigns(mode: Mode, scheme: Modulation, c1: Double<Complex>, c2: Double<Complex>)
    requires RePositive(c1) == RePositive(c2) && ImPositive(c1) == ImPositive(c2)
    ensures Decide(mode, scheme, c1) == Decide(mode, scheme, c2)
  {
  }
}
