/** `combineSignals`: the diversity combiner that reduces the receive branches
    of one tick to a single sample, by selection (SC), equal-gain (EGC) or
    maximum-ratio (MRC) combining. */
module Combiner {
  import opened Numerics

  /** The `diversityTechnique` setting; anything else falls to MRC. */
  datatype Technique = MRC | SC | EGC

  /** `Math.max(...xs)` over a non-empty list. */
  function Max(xs: seq<real>): (m: real)
    requires |xs| > 0
    ensures m in xs
    ensures forall i :: 0 <= i < |xs| ==> xs[i] <= m
  {
    if |xs| == 1 then xs[0]
    else
      var rest := Max(xs[1..]);
      assert forall i :: 1 <= i < |xs| ==> xs[i] == xs[1..][i - 1];
      if xs[0] >= rest then xs[0] else rest
  }

  /** `xs.indexOf(v)`: the first position holding `v`, or -1 when there is none. */
  function IndexOf(xs: seq<real>, v: real): (k: int)
    ensures -1 <= k < |xs|
    ensures k == -1 <==> v !in xs
    ensures 0 <= k ==> xs[k] == v && forall j :: 0 <= j < k ==> xs[j] != v
  {
    if |xs| == 0 then -1
    else if xs[0] == v then 0
    else
      var k := IndexOf(xs[1..], v);
      assert forall j :: 1 <= j < |xs| ==> xs[j] == xs[1..][j - 1];
      assert v in xs[1..] <==> v in xs;
      if k == -1 then -1 else k + 1
  }

  /** `snrs.indexOf(Math.max(...snrs))`: the branch that selection combining
      picks. It is the first branch whose SNR is at least every other's, so
      ties go to the lowest index. */
  function Strongest(snrs: seq<real>): (k: nat)
    requires |snrs| > 0
    ensures k < |snrs|
    ensures forall j :: 0 <= j < |snrs| ==> snrs[j] <= snrs[k]
    ensures forall j :: 0 <= j < k ==> snrs[j] < snrs[k]
  {
    IndexOf(snrs, Max(snrs))
  }

  /** `snrs.map(snr => Math.pow(10, snr / 20))`: dB to amplitude weights. */
  function Weights(lib: Lib, snrs: seq<real>): (w: seq<real>)
    ensures |w| == |snrs|
    ensures forall i, j :: 0 <= i < |w| && 0 <= j < |w| && snrs[i] == snrs[j] ==> w[i] == w[j]
  {
    seq(|snrs|, i requires 0 <= i < |snrs| => lib.exp10(snrs[i] / 20.0))
  }

  /** True when some branch has magnitude 0, so that EGC divides 0 by 0. */
  predicate HasNullBranch(lib: Lib, signals: seq<Complex>) {
    exists i :: 0 <= i < |signals| && Magnitude(lib, signals[i]) == 0.0
  }

  /** A branch divided by its own magnitude. */
  function Normalize(lib: Lib, c: Complex): Complex
    requires Magnitude(lib, c) != 0.0
  {
    var m := Magnitude(lib, c);
    Complex(c.re / m, c.im / m)
  }

  /** `signals.map(...)` of the EGC case: every branch at unit magnitude. */
  function Normalized(lib: Lib, signals: seq<Complex>): seq<Complex>
    requires !HasNullBranch(lib, signals)
  {
    seq(|signals|, i requires 0 <= i < |signals| => Normalize(lib, signals[i]))
  }

  /** The EGC case: the mean of the normalised branches over
      `signals.length`; NaN when some branch has magnitude 0. */
  function EqualGain(lib: Lib, signals: seq<Complex>): (r: Double<Complex>)
    requires |signals| > 0
    ensures r.NaN? <==> HasNullBranch(lib, signals)
  {
    if HasNullBranch(lib, signals) then NaN
    else
      var total := Sum(Normalized(lib, signals));
      var n := |signals| as real;
      Finite(Complex(total.re / n, total.im / n))
  }

  /** The MRC case: `sum(w_i * s_i) / sum(w_i)`; NaN when the weights add up
      to 0 (every weight 0 makes the quotient 0/0). */
  function MaximumRatio(lib: Lib, signals: seq<Complex>, snrs: seq<real>): (r: Double<Complex>)
    requires |snrs| == |signals|
    ensures r.NaN? <==> Total(Weights(lib, snrs)) == 0.0
    ensures (forall x :: 0.0 < lib.exp10(x)) && 0 < |signals| ==> r.Finite?
  {
    var w := Weights(lib, snrs);
    assert (forall x :: 0.0 < lib.exp10(x)) && 0 < |signals| ==> 0.0 < Total(w) by {
      if (forall x :: 0.0 < lib.exp10(x)) && 0 < |signals| {
        TotalPositive(w);
      }
    }
    var total := Total(w);
    if total == 0.0 then NaN
    else
      var acc := WeightedSum(signals, w);
      Finite(Complex(acc.re / total, acc.im / total))
  }

  /** `combineSignals(signals, snrs)`. No branch gives `{0, 0}`, one branch
      is returned as it is whatever the technique, a selection is always one
      of the branches, and only EGC or MRC can produce NaN. */
  function Combine(t: Technique, lib: Lib, signals: seq<Complex>, snrs: seq<real>): (r: Double<Complex>)
    requires |snrs| == |signals|
    ensures |signals| == 0 ==> r == Finite(Zero)
    ensures |signals| == 1 ==> r == Finite(signals[0])
    ensures t == SC && |signals| > 0 ==> r.Finite? && r.value in signals
    ensures r.NaN? ==> 2 <= |signals| && t != SC
  {
    if |signals| == 0 then Finite(Zero)
    else if |signals| == 1 then Finite(signals[0])
    else
      match t
      case SC => Finite(signals[Strongest(snrs)])
      case EGC => EqualGain(lib, signals)
      case MRC => MaximumRatio(lib, signals, snrs)
  }

  // ---------------------------------------------------------------------
  // Selection combining

  /** Selection returns the branch at k exactly when k is the lowest index
      whose SNR is at least every other branch's. */
  lemma SelectionPicksFirstStrongest(lib: Lib, signals: seq<Complex>, snrs: seq<real>, k: int)
    requires |snrs| == |signals| && 0 <= k < |signals|
    requires forall j :: 0 <= j < |snrs| ==> snrs[j] <= snrs[k]
    requires forall j :: 0 <= j < k ==> snrs[j] < snrs[k]
    ensures Strongest(snrs) == k
    ensures Combine(SC, lib, signals, snrs) == Finite(signals[k])
  {
    var s := Strongest(snrs);
    if s != k {
      assert false;
    }
  }

  /** With every SNR equal, selection keeps the first branch. */
  lemma {:induction false} SelectionOfEqualSnrs(lib: Lib, signals: seq<Complex>, snrs: seq<real>)
    requires |snrs| == |signals| && 0 < |signals|
    requires forall j :: 0 <= j < |snrs| ==> snrs[j] == snrs[0]
    ensures Combine(SC, lib, signals, snrs) == Finite(signals[0])
  {
    SelectionPicksFirstStrongest(lib, signals, snrs, 0);
  }

  // ---------------------------------------------------------------------
  // Maximum-ratio combining

  /** Amplitude weights are positive, so their total over a non-empty list is. */
  lemma WeightsPositive(lib: Lib, snrs: seq<real>)
    requires Lawful(lib) && |snrs| > 0
    ensures forall i :: 0 <= i < |snrs| ==> 0.0 < Weights(lib, snrs)[i]
    ensures 0.0 < Total(Weights(lib, snrs))
  {
    TotalPositive(Weights(lib, snrs));
  }

  lemma {:induction false} WeightedSumOfConstant(s: seq<Complex>, w: seq<real>, c: Complex)
    requires |s| == |w|
    requires forall i :: 0 <= i < |s| ==> s[i] == c
    ensures WeightedSum(s, w) == Complex(c.re * Total(w), c.im * Total(w))
  {
    if |s| > 0 {
      WeightedSumOfConstant(s[1..], w[1..], c);
    }
  }

  lemma {:induction false} WeightedSumOfEqualWeights(s: seq<Complex>, w: seq<real>, x: real)
    requires |s| == |w|
    requires forall i :: 0 <= i < |w| ==> w[i] == x
    ensures WeightedSum(s, w).re == Sum(s).re * x
    ensures WeightedSum(s, w).im == Sum(s).im * x
  {
    if |s| > 0 {
      WeightedSumOfEqualWeights(s[1..], w[1..], x);
      assert Sum(s).re * x == s[0].re * x + Sum(s[1..]).re * x;
      assert Sum(s).im * x == s[0].im * x + Sum(s[1..]).im * x;
    }
  }

  lemma {:induction false} TotalOfConstant(w: seq<real>, x: real, n: real)
    requires n == |w| as real
    requires forall i :: 0 <= i < |w| ==> w[i] == x
    ensures Total(w) == n * x
  {
    if |w| > 0 {
      TotalOfConstant(w[1..], x, n - 1.0);
      assert n * x == x + (n - 1.0) * x;
    }
  }

  /** MRC over two or more branches with positive weights, unfolded. */
  lemma {:induction false} MaximumRatioValue(lib: Lib, signals: seq<Complex>, snrs: seq<real>)
    requires Lawful(lib)
    requires |snrs| == |signals| && 1 < |signals|
    ensures 0.0 < Total(Weights(lib, snrs))
    ensures var w := Weights(lib, snrs); var acc := WeightedSum(signals, w);
      Combine(MRC, lib, signals, snrs) == Finite(Complex(acc.re / Total(w), acc.im / Total(w)))
  {
    WeightsPositive(lib, snrs);
  }

  /** If every branch holds the same sample, MRC returns that sample,
      whatever the weights. */
  lemma {:induction false} MaximumRatioOfEqualSamples(lib: Lib, signals: seq<Complex>, snrs: seq<real>, c: Complex)
    requires Lawful(lib)
    requires |snrs| == |signals| && 0 < |signals|
    requires forall i :: 0 <= i < |signals| ==> signals[i] == c
    ensures Combine(MRC, lib, signals, snrs) == Finite(c)
  {
    if |signals| > 1 {
      MaximumRatioValue(lib, signals, snrs);
      var w := Weights(lib, snrs);
      var t := Total(w);
      WeightedSumOfConstant(signals, w, c);
      var acc := WeightedSum(signals, w);
      CancelFactor(acc.re, c.re, t);
      CancelFactor(acc.im, c.im, t);
      assert acc.re / t == c.re && acc.im / t == c.im;
    }
  }

  /** With the same weight on every branch, the real part of the weighted
      average is the mean of the real parts. */
  lemma {:induction false} WeightedMeanOfEqualWeightsRe(s: seq<Complex>, w: seq<real>, x: real)
    requires |s| == |w| && 0 < |s| && 0.0 < x
    requires forall i :: 0 <= i < |w| ==> w[i] == x
    ensures 0.0 < Total(w)
    ensures WeightedSum(s, w).re / Total(w) == Sum(s).re / (|s| as real)
  {
    var n := |s| as real;
    WeightedSumOfEqualWeights(s, w, x);
    TotalOfConstant(w, x, n);
    ProductPositive(n, x);
    DivideCommonFactor(WeightedSum(s, w).re, Total(w), Sum(s).re, n, x);
  }

  /** With the same weight on every branch, the imaginary part of the
      weighted average is the mean of the imaginary parts. */
  lemma {:induction false} WeightedMeanOfEqualWeightsIm(s: seq<Complex>, w: seq<real>, x: real)
    requires |s| == |w| && 0 < |s| && 0.0 < x
    requires forall i :: 0 <= i < |w| ==> w[i] == x
    ensures 0.0 < Total(w)
    ensures WeightedSum(s, w).im / Total(w) == Sum(s).im / (|s| as real)
  {
    var n := |s| as real;
    WeightedSumOfEqualWeights(s, w, x);
    TotalOfConstant(w, x, n);
    ProductPositive(n, x);
    DivideCommonFactor(WeightedSum(s, w).im, Total(w), Sum(s).im, n, x);
  }

  /** If every branch has the same SNR, MRC is the plain arithmetic mean. */
  lemma {:induction false} MaximumRatioOfEqualSnrs(lib: Lib, signals: seq<Complex>, snrs: seq<real>)
    requires Lawful(lib)
    requires |snrs| == |signals| && 0 < |signals|
    requires forall i :: 0 <= i < |snrs| ==> snrs[i] == snrs[0]
    ensures var n := |signals| as real;
      Combine(MRC, lib, signals, snrs) == Finite(Complex(Sum(signals).re / n, Sum(signals).im / n))
  {
    if |signals| == 1 {
      assert Sum(signals[1..]) == Zero;
      assert Sum(signals) == signals[0];
      var n := |signals| as real;
      assert n == 1.0;
      assert Complex(Sum(signals).re / n, Sum(signals).im / n) == signals[0];
    } else {
      MaximumRatioValue(lib, signals, snrs);
      var w := Weights(lib, snrs);
      var x := lib.exp10(snrs[0] / 20.0);
      assert forall i :: 0 <= i < |w| ==> w[i] == x;
      WeightedMeanOfEqualWeightsRe(signals, w, x);
      WeightedMeanOfEqualWeightsIm(signals, w, x);
    }
  }

  /** Non-negative weights keep the weighted sum of the real parts at
      least lo times the total weight. */
  lemma {:induction false} WeightedSumReAbove(s: seq<Complex>, w: seq<real>, lo: real)
    requires |s| == |w|
    requires forall i :: 0 <= i < |w| ==> 0.0 <= w[i]
    requires forall i :: 0 <= i < |s| ==> lo <= s[i].re
    ensures lo * Total(w) <= WeightedSum(s, w).re
  {
    if |s| > 0 {
      WeightedSumReAbove(s[1..], w[1..], lo);
      var t := Total(w[1..]);
      ScaleMonotone(lo, s[0].re, w[0]);
      assert lo * (w[0] + t) == lo * w[0] + lo * t;
    }
  }

  /** Non-negative weights keep the weighted sum of the real parts at most
      hi times the total weight. */
  lemma {:induction false} WeightedSumReBelow(s: seq<Complex>, w: seq<real>, hi: real)
    requires |s| == |w|
    requires forall i :: 0 <= i < |w| ==> 0.0 <= w[i]
    requires forall i :: 0 <= i < |s| ==> s[i].re <= hi
    ensures WeightedSum(s, w).re <= hi * Total(w)
  {
    if |s| > 0 {
      WeightedSumReBelow(s[1..], w[1..], hi);
      var t := Total(w[1..]);
      ScaleMonotone(s[0].re, hi, w[0]);
      assert hi * (w[0] + t) == hi * w[0] + hi * t;
    }
  }

  lemma {:induction false} WeightedSumReBounds(s: seq<Complex>, w: seq<real>, lo: real, hi: real)
    requires |s| == |w|
    requires forall i :: 0 <= i < |w| ==> 0.0 <= w[i]
    requires forall i :: 0 <= i < |s| ==> lo <= s[i].re <= hi
    ensures lo * Total(w) <= WeightedSum(s, w).re <= hi * Total(w)
  {
    WeightedSumReAbove(s, w, lo);
    WeightedSumReBelow(s, w, hi);
  }

  /** Non-negative weights keep the weighted sum of the imaginary parts at
      least lo times the total weight. */
  lemma {:induction false} WeightedSumImAbove(s: seq<Complex>, w: seq<real>, lo: real)
    requires |s| == |w|
    requires forall i :: 0 <= i < |w| ==> 0.0 <= w[i]
    requires forall i :: 0 <= i < |s| ==> lo <= s[i].im
    ensures lo * Total(w) <= WeightedSum(s, w).im
  {
    if |s| > 0 {
      WeightedSumImAbove(s[1..], w[1..], lo);
      var t := Total(w[1..]);
      ScaleMonotone(lo, s[0].im, w[0]);
      assert lo * (w[0] + t) == lo * w[0] + lo * t;
    }
  }

  /** Non-negative weights keep the weighted sum of the imaginary parts at
      most hi times the total weight. */
  lemma {:induction false} WeightedSumImBelow(s: seq<Complex>, w: seq<real>, hi: real)
    requires |s| == |w|
    requires forall i :: 0 <= i < |w| ==> 0.0 <= w[i]
    requires forall i :: 0 <= i < |s| ==> s[i].im <= hi
    ensures WeightedSum(s, w).im <= hi * Total(w)
  {
    if |s| > 0 {
      WeightedSumImBelow(s[1..], w[1..], hi);
      var t := Total(w[1..]);
      ScaleMonotone(s[0].im, hi, w[0]);
      assert hi * (w[0] + t) == hi * w[0] + hi * t;
    }
  }

  lemma {:induction false} WeightedSumImBounds(s: seq<Complex>, w: seq<real>, lo: real, hi: real)
    requires |s| == |w|
    requires forall i :: 0 <= i < |w| ==> 0.0 <= w[i]
    requires forall i :: 0 <= i < |s| ==> lo <= s[i].im <= hi
    ensures lo * Total(w) <= WeightedSum(s, w).im <= hi * Total(w)
  {
    WeightedSumImAbove(s, w, lo);
    WeightedSumImBelow(s, w, hi);
  }

  /** Dividing a weighted sum with non-negative weights by their positive
      total keeps the real part between any bounds of the samples' real
      parts. */
  lemma {:induction false} WeightedAverageReWithin(s: seq<Complex>, w: seq<real>, lo: real, hi: real)
    requires |s| == |w| && 0.0 < Total(w)
    requires forall i :: 0 <= i < |w| ==> 0.0 <= w[i]
    requires forall i :: 0 <= i < |s| ==> lo <= s[i].re <= hi
    ensures lo <= WeightedSum(s, w).re / Total(w) <= hi
  {
    WeightedSumReBounds(s, w, lo, hi);
    QuotientBounds(WeightedSum(s, w).re, Total(w), lo, hi);
  }

  /** Dividing a weighted sum with non-negative weights by their positive
      total keeps the imaginary part between any bounds of the samples' imaginary
      parts. */
  lemma {:induction false} WeightedAverageImWithin(s: seq<Complex>, w: seq<real>, lo: real, hi: real)
    requires |s| == |w| && 0.0 < Total(w)
    requires forall i :: 0 <= i < |w| ==> 0.0 <= w[i]
    requires forall i :: 0 <= i < |s| ==> lo <= s[i].im <= hi
    ensures lo <= WeightedSum(s, w).im / Total(w) <= hi
  {
    WeightedSumImBounds(s, w, lo, hi);
    QuotientBounds(WeightedSum(s, w).im, Total(w), lo, hi);
  }

  /** MRC is a weighted average with positive weights: each part of the
      result lies between the smallest and the largest value of that part
      over the branches. */
  lemma {:induction false} MaximumRatioWithinBranches(lib: Lib, signals: seq<Complex>, snrs: seq<real>, lo: Complex, hi: Complex)
    requires Lawful(lib)
    requires |snrs| == |signals| && 0 < |signals|
    requires forall i :: 0 <= i < |signals| ==>
      lo.re <= signals[i].re <= hi.re && lo.im <= signals[i].im <= hi.im
    ensures var r := Combine(MRC, lib, signals, snrs);
      r.Finite? && lo.re <= r.value.re <= hi.re && lo.im <= r.value.im <= hi.im
  {
    if |signals| > 1 {
      MaximumRatioValue(lib, signals, snrs);
      WeightsPositive(lib, snrs);
      var w := Weights(lib, snrs);
      assert forall i :: 0 <= i < |w| ==> 0.0 <= w[i];
      WeightedAverageReWithin(signals, w, lo.re, hi.re);
      WeightedAverageImWithin(signals, w, lo.im, hi.im);
    }
  }

  // ---------------------------------------------------------------------
  // Equal-gain combining

  /** Each normalised EGC term has unit magnitude. */
  lemma NormalizeIsUnit(lib: Lib, c: Complex)
    requires Lawful(lib) && Magnitude(lib, c) != 0.0
    ensures Norm2(Normalize(lib, c)) == 1.0
    ensures -1.0 <= Normalize(lib, c).re <= 1.0 && -1.0 <= Normalize(lib, c).im <= 1.0
  {
    MagnitudeLaw(lib, c);
    var m := Magnitude(lib, c);
    QuotientSquares(c.re, c.im, m);
    var u := Normalize(lib, c);
    UnitPart(u.re, u.im);
    UnitPart(u.im, u.re);
  }

  lemma {:induction false} SumOfUnitBounded(s: seq<Complex>)
    requires forall i :: 0 <= i < |s| ==> -1.0 <= s[i].re <= 1.0 && -1.0 <= s[i].im <= 1.0
    ensures -(|s| as real) <= Sum(s).re <= |s| as real
    ensures -(|s| as real) <= Sum(s).im <= |s| as real
  {
    if |s| > 0 {
      SumOfUnitBounded(s[1..]);
    }
  }

  /** EGC averages unit-magnitude terms, so both parts of its result lie in
      [-1, 1]. */
  lemma {:induction false} EqualGainWithinUnitSquare(lib: Lib, signals: seq<Complex>, snrs: seq<real>)
    requires Lawful(lib)
    requires |snrs| == |signals| && 2 <= |signals|
    requires !HasNullBranch(lib, signals)
    ensures var r := Combine(EGC, lib, signals, snrs);
      r.Finite? && -1.0 <= r.value.re <= 1.0 && -1.0 <= r.value.im <= 1.0
  {
    var ns := Normalized(lib, signals);
    forall i | 0 <= i < |ns|
      ensures -1.0 <= ns[i].re <= 1.0 && -1.0 <= ns[i].im <= 1.0
    {
      NormalizeIsUnit(lib, signals[i]);
    }
    SumOfUnitBounded(ns);
    var n := |signals| as real;
    QuotientBounds(Sum(ns).re, n, -1.0, 1.0);
    QuotientBounds(Sum(ns).im, n, -1.0, 1.0);
  }

  /** Under lawful square roots, a branch has magnitude 0 exactly when it is
      the zero sample. */
  lemma NullBranchIff(lib: Lib, signals: seq<Complex>)
    requires Lawful(lib)
    ensures HasNullBranch(lib, signals) <==> Zero in signals
  {
    forall i | 0 <= i < |signals|
      ensures Magnitude(lib, signals[i]) == 0.0 <==> signals[i] == Zero
    {
      MagnitudeLaw(lib, signals[i]);
    }
  }

  /** With two or more branches, EGC yields NaN exactly when some branch is
      the zero sample: there is no guard against dividing by its magnitude. */
  lemma EqualGainNaNIff(lib: Lib, signals: seq<Complex>, snrs: seq<real>)
    requires Lawful(lib)
    requires |snrs| == |signals| && 2 <= |signals|
    ensures Combine(EGC, lib, signals, snrs).NaN? <==> Zero in signals
  {
    NullBranchIff(lib, signals);
    assert Combine(EGC, lib, signals, snrs) == EqualGain(lib, signals);
  }

  /** Branches already at unit magnitude pass through the normalisation
      unchanged, so EGC of them is their plain mean. */
  lemma {:induction false} EqualGainOfUnitBranches(lib: Lib, signals: seq<Complex>, snrs: seq<real>)
    requires |snrs| == |signals| && 2 <= |signals|
    requires forall i :: 0 <= i < |signals| ==> Magnitude(lib, signals[i]) == 1.0
    ensures var n := |signals| as real;
      Combine(EGC, lib, signals, snrs) == Finite(Complex(Sum(signals).re / n, Sum(signals).im / n))
  {
    assert !HasNullBranch(lib, signals);
    assert Normalized(lib, signals) == signals;
  }
}
