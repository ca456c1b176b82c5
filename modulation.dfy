/** The modulator and the fading generators of the simulation. Neither is
    called on the path that produces a point (the transmitted samples are
    real sinusoids and the channel gains are uniform draws); they are
    modelled as the component defines them, and related to the decoder. */
module Modulator {
  import opened Numerics
  import opened Decoder

  /** `{ real, imag, originalSymbol }` of a modulated sample. */
  datatype Modulated = Modulated(point: Complex, originalSymbol: nat)

  /** `(symbol * Math.PI) / 2 + Math.PI / 4` */
  function QpskPhase(lib: Lib, symbol: nat): real {
    (symbol as real * lib.pi) / 2.0 + lib.pi / 4.0
  }

  /** `signal` modulated with the uniform draw `draw` (`Math.random()`): BPSK
      sends `signal` for a draw above one half and `-signal` otherwise, QPSK
      picks one of four phases from `Math.floor(draw * 4)`. */
  function Modulate(lib: Lib, scheme: Modulation, signal: real, draw: real): (m: Modulated)
    requires 0.0 <= draw < 1.0
    ensures scheme == BPSK ==> m.point.im == 0.0 && m.originalSymbol < 2
    ensures scheme == BPSK ==> (m.originalSymbol == 1 <==> draw > 0.5)
    ensures scheme == BPSK ==> m.point.re == if draw > 0.5 then signal else -signal
    ensures scheme == QPSK ==> m.originalSymbol < 4 && m.originalSymbol == (draw * 4.0).Floor
    ensures scheme == QPSK ==> m.point == Complex(signal * lib.cos(QpskPhase(lib, m.originalSymbol)),
                                                  signal * lib.sin(QpskPhase(lib, m.originalSymbol)))
  {
    match scheme
    case QPSK =>
      var symbol := (draw * 4.0).Floor;
      assert 0 <= symbol < 4;
      var phase := QpskPhase(lib, symbol as nat);
      Modulated(Complex(signal * lib.cos(phase), signal * lib.sin(phase)), symbol as nat)
    case BPSK =>
      var bit := if draw > 0.5 then 1.0 else -1.0;
      Modulated(Complex(signal * bit, 0.0), if bit > 0.0 then 1 else 0)
  }

  /** With a positive amplitude, the decoder gives back the BPSK symbol that
      was sent, in either mode. */
  lemma BpskRoundTrip(lib: Lib, mode: Mode, signal: real, draw: real)
    requires 0.0 < signal && 0.0 <= draw < 1.0
    ensures var m := Modulate(lib, BPSK, signal, draw);
      Decide(mode, BPSK, Finite(m.point)).symbol == m.originalSymbol
  {
    var m := Modulate(lib, BPSK, signal, draw);
    if draw > 0.5 {
      assert RePositive(Finite(m.point));
    } else {
      assert !RePositive(Finite(m.point));
    }
  }

  /** The BPSK symbol survives modulation and decoding for every draw exactly
      when the amplitude is positive: a zero amplitude decodes as symbol 0,
      and a negative one swaps the symbols. */
  lemma BpskRoundTripIff(lib: Lib, mode: Mode, signal: real)
    ensures (forall draw :: 0.0 <= draw < 1.0 ==>
               Decide(mode, BPSK, Finite(Modulate(lib, BPSK, signal, draw).point)).symbol
                 == Modulate(lib, BPSK, signal, draw).originalSymbol)
            <==> 0.0 < signal
  {
    if 0.0 < signal {
      forall draw | 0.0 <= draw < 1.0
        ensures Decide(mode, BPSK, Finite(Modulate(lib, BPSK, signal, draw).point)).symbol
                  == Modulate(lib, BPSK, signal, draw).originalSymbol
      {
        BpskRoundTrip(lib, mode, signal, draw);
      }
    } else {
      var m := Modulate(lib, BPSK, signal, 0.75);
      assert m.originalSymbol == 1;
      assert !RePositive(Finite(m.point));
    }
  }

  /** The signs of cosine and sine at the four QPSK phases: the phase of
      symbol 0 lies in the first quadrant, 1 in the second, 2 in the third
      and 3 in the fourth. */
  ghost predicate QpskSigns(lib: Lib) {
    && 0.0 < lib.cos(QpskPhase(lib, 0)) && 0.0 < lib.sin(QpskPhase(lib, 0))
    && lib.cos(QpskPhase(lib, 1)) < 0.0 && 0.0 < lib.sin(QpskPhase(lib, 1))
    && lib.cos(QpskPhase(lib, 2)) < 0.0 && lib.sin(QpskPhase(lib, 2)) < 0.0
    && 0.0 < lib.cos(QpskPhase(lib, 3)) && lib.sin(QpskPhase(lib, 3)) < 0.0
  }

  /** The decoder's quadrant numbering for the point the modulator sends for
      each QPSK symbol. */
  function QpskDecodedSymbol(symbol: nat): nat
    requires symbol < 4
  {
    [3, 2, 0, 1][symbol]
  }

  /** A QPSK point with a positive amplitude decodes, under MIMO with QPSK,
      to the decoder's number for its quadrant. The two numberings differ
      (the modulator counts the phases anticlockwise from the first quadrant,
      the decoder reads the sign bits), so the decoded symbol equals the sent
      one for none of the four symbols. */
  lemma QpskDecoding(lib: Lib, signal: real, draw: real)
    requires QpskSigns(lib) && 0.0 < signal && 0.0 <= draw < 1.0
    ensures var m := Modulate(lib, QPSK, signal, draw);
      && Decide(MIMO, QPSK, Finite(m.point)).symbol == QpskDecodedSymbol(m.originalSymbol)
      && Decide(MIMO, QPSK, Finite(m.point)).symbol != m.originalSymbol
  {
    var m := Modulate(lib, QPSK, signal, draw);
    var s := m.originalSymbol;
    var c, sn := lib.cos(QpskPhase(lib, s)), lib.sin(QpskPhase(lib, s));
    assert m.point == Complex(signal * c, signal * sn);
    ScaleSign(signal, c);
    ScaleSign(signal, sn);
  }

  /** With a negative amplitude every QPSK point is mirrored through the
      origin, so the decoder reads the opposite quadrant: symbols 0 and 1
      come back as sent, 2 and 3 come back swapped. */
  lemma QpskDecodingNegative(lib: Lib, signal: real, draw: real)
    requires QpskSigns(lib) && signal < 0.0 && 0.0 <= draw < 1.0
    ensures var m := Modulate(lib, QPSK, signal, draw);
      && Decide(MIMO, QPSK, Finite(m.point)).symbol == [0, 1, 3, 2][m.originalSymbol]
      && (Decide(MIMO, QPSK, Finite(m.point)).symbol == m.originalSymbol <==> m.originalSymbol < 2)
  {
    var m := Modulate(lib, QPSK, signal, draw);
    var s := m.originalSymbol;
    var c, sn := lib.cos(QpskPhase(lib, s)), lib.sin(QpskPhase(lib, s));
    assert m.point == Complex(signal * c, signal * sn);
    assert signal * c == (-signal) * (-c) && signal * sn == (-signal) * (-sn);
    ScaleSign(-signal, -c);
    ScaleSign(-signal, -sn);
  }

  /** With a zero amplitude (a transmit strength of 0) every QPSK point is
      the origin, which the decoder reads as symbol 0. */
  lemma QpskDecodingZero(lib: Lib, draw: real)
    requires 0.0 <= draw < 1.0
    ensures var m := Modulate(lib, QPSK, 0.0, draw);
      && Decide(MIMO, QPSK, Finite(m.point)).symbol == 0
      && (Decide(MIMO, QPSK, Finite(m.point)).symbol == m.originalSymbol <==> m.originalSymbol == 0)
  {
  }

  /** A positive factor keeps the sign. */
  lemma ScaleSign(a: real, x: real)
    requires 0.0 < a
    ensures 0.0 < a * x <==> 0.0 < x
  {
    if 0.0 < x {
      ProductPositive(a, x);
    } else if x < 0.0 {
      ProductPositive(a, -x);
    }
  }

  // ---------------------------------------------------------------------
  // Fading

  /** The `fadingType` setting. */
  datatype FadingType = Rayleigh | Rician

  /** `{ magnitude, phase }` of a fading coefficient. */
  datatype Fading = Fading(magnitude: real, phase: real)

  /** The line-of-sight and scattered amplitudes `sqrt(K / (K + 1))` and
      `sqrt(1 / (K + 1))`. */
  function RicianLos(lib: Lib, k: real): real
    requires k != -1.0
  {
    lib.sqrt(k / (k + 1.0))
  }

  function RicianScatter(lib: Lib, k: real): real
    requires k != -1.0
  {
    lib.sqrt(1.0 / (k + 1.0))
  }

  /** `{ los + scatter * g.real, scatter * g.imag }` */
  function RicianSample(lib: Lib, k: real, g: Complex): Complex
    requires k != -1.0
  {
    Complex(RicianLos(lib, k) + RicianScatter(lib, k) * g.re, RicianScatter(lib, k) * g.im)
  }

  /** `generateRicianFading(kFactor)` for the Gaussian sample `g`. */
  function RicianFading(lib: Lib, k: real, g: Complex): (f: Fading)
    requires k != -1.0
    ensures SqrtLaw(lib) ==> 0.0 <= f.magnitude
  {
    var z := RicianSample(lib, k, g);
    Norm2ZeroIff(z);
    Fading(Magnitude(lib, z), lib.atan2(z.im, z.re))
  }

  /** The Rayleigh branch of `generateFading` for the Gaussian sample `g`. */
  function RayleighFading(lib: Lib, g: Complex): (f: Fading)
    ensures SqrtLaw(lib) ==> 0.0 <= f.magnitude
  {
    Norm2ZeroIff(g);
    Fading(Magnitude(lib, g), lib.atan2(g.im, g.re))
  }

  /** `generateFading()`: Rician with the default K = 1, Rayleigh otherwise.
      Its catch is unreachable here, since neither branch throws. */
  function GenerateFading(lib: Lib, fadingType: FadingType, g: Complex): (f: Fading)
    ensures SqrtLaw(lib) ==> 0.0 <= f.magnitude
    ensures fadingType == Rician ==> f == RicianFading(lib, 1.0, g)
    ensures fadingType == Rayleigh ==> f == RayleighFading(lib, g)
  {
    match fadingType
    case Rician => RicianFading(lib, 1.0, g)
    case Rayleigh => RayleighFading(lib, g)
  }

  /** For K >= 0 the two amplitudes split the unit power: los^2 + scatter^2 = 1,
      with the line-of-sight share K / (K + 1). */
  lemma RicianPowerSplit(lib: Lib, k: real)
    requires SqrtLaw(lib) && 0.0 <= k
    ensures RicianLos(lib, k) * RicianLos(lib, k) == k / (k + 1.0)
    ensures RicianScatter(lib, k) * RicianScatter(lib, k) == 1.0 / (k + 1.0)
    ensures RicianLos(lib, k) * RicianLos(lib, k) + RicianScatter(lib, k) * RicianScatter(lib, k) == 1.0
  {
    var n := k + 1.0;
    var p, q := k / n, 1.0 / n;
    assert 0.0 <= p && 0.0 < q;
    assert p + q == (k + 1.0) / n;
  }

  /** `{ a * c.real, a * c.imag }` */
  function Scaled(a: real, c: Complex): Complex {
    Complex(a * c.re, a * c.im)
  }

  /** The Rician branch of `generateFading` uses the default K = 1, which
      splits the power equally: the line-of-sight and the scattered amplitude
      each carry one half, and the fading sample is that common amplitude
      times `{ 1 + g.real, g.imag }`. */
  lemma DefaultRicianSplit(lib: Lib, g: Complex)
    requires SqrtLaw(lib)
    ensures RicianLos(lib, 1.0) * RicianLos(lib, 1.0) == 0.5
    ensures RicianScatter(lib, 1.0) * RicianScatter(lib, 1.0) == 0.5
    ensures RicianLos(lib, 1.0) == RicianScatter(lib, 1.0)
    ensures RicianSample(lib, 1.0, g) == Scaled(RicianLos(lib, 1.0), Complex(1.0 + g.re, g.im))
    ensures var z := Scaled(RicianLos(lib, 1.0), Complex(1.0 + g.re, g.im));
      GenerateFading(lib, Rician, g) == Fading(Magnitude(lib, z), lib.atan2(z.im, z.re))
  {
    RicianPowerSplit(lib, 1.0);
    assert 1.0 / (1.0 + 1.0) == 0.5;
    var a := RicianLos(lib, 1.0);
    assert RicianScatter(lib, 1.0) == a;
    assert a + a * g.re == a * (1.0 + g.re);
    assert RicianSample(lib, 1.0, g) == Scaled(a, Complex(1.0 + g.re, g.im));
  }

  /** With K = 0 there is no line-of-sight component and Rician fading is
      Rayleigh fading of the same Gaussian sample. */
  lemma RicianWithoutLineOfSight(lib: Lib, g: Complex)
    requires Lawful(lib)
    ensures RicianFading(lib, 0.0, g) == RayleighFading(lib, g)
  {
    SqrtOfZeroAndOne(lib);
    assert RicianLos(lib, 0.0) == 0.0;
    assert RicianScatter(lib, 0.0) == 1.0;
  }
}
