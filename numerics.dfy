/** Numbers as the simulation computes with them: complex baseband samples,
    NaN as the one non-finite IEEE value represented, and
    the transcendental functions of JavaScript's `Math` object, which enter
    the model as parameters with the laws the proofs rely on. */
module Numerics {

  /** `Number.EPSILON`, that is 2^-52: the threshold below which the noise
      level counts as zero. */
  const EPSILON: real := 0.0000000000000002220446049250313080847263336181640625

  /** A complex sample `{ real, imag }`. */
  datatype Complex = Complex(re: real, im: real)

  const Zero: Complex := Complex(0.0, 0.0)

  /** A double-precision result: a number, or NaN (for a complex result,
      NaN in both parts). Infinities are not represented. */
  datatype Double<T> = Finite(value: T) | NaN

  /** The functions of `Math` that the simulation calls, passed in as values.
      `exp10(x)` stands for `Math.pow(10, x)`. */
  datatype Lib = Lib(
    pi: real,
    sqrt: real -> real,
    sin: real -> real,
    cos: real -> real,
    log10: real -> real,
    exp10: real -> real,
    atan2: (real, real) -> real)

  /** The laws of those functions that the model relies on. */
  ghost predicate Lawful(lib: Lib) {
    && 3.0 < lib.pi < 4.0
    && SqrtLaw(lib)
    && (forall x :: -1.0 <= lib.sin(x) <= 1.0)
    && (forall x :: -1.0 <= lib.cos(x) <= 1.0)
    && (forall x :: 0.0 < lib.exp10(x))
    && Log10Increasing(lib)
  }

  /** `Math.sqrt` gives the non-negative root of a non-negative number. */
  ghost predicate SqrtLaw(lib: Lib) {
    forall x :: 0.0 <= x ==> 0.0 <= lib.sqrt(x) && lib.sqrt(x) * lib.sqrt(x) == x
  }

  /** `Math.log10` is strictly increasing on the positive numbers. */
  ghost predicate Log10Increasing(lib: Lib) {
    forall x, y :: 0.0 < x < y ==> lib.log10(x) < lib.log10(y)
  }

  /** `re * re + im * im` */
  function Norm2(c: Complex): real {
    c.re * c.re + c.im * c.im
  }

  /** `Math.sqrt(re * re + im * im)` */
  function Magnitude(lib: Lib, c: Complex): real {
    lib.sqrt(Norm2(c))
  }

  /** A product is zero only when a factor is. */
  lemma ProductZero(x: real, y: real)
    requires x * y == 0.0
    ensures x == 0.0 || y == 0.0
  {
  }

  /** A square is non-negative, and zero only for zero. */
  lemma Square(x: real)
    ensures 0.0 <= x * x
    ensures x * x == 0.0 <==> x == 0.0
  {
    if x * x == 0.0 {
      ProductZero(x, x);
    }
    assert (-x) * (-x) == x * x;
  }

  lemma Norm2ZeroIff(c: Complex)
    ensures 0.0 <= Norm2(c)
    ensures Norm2(c) == 0.0 <==> c == Zero
  {
    Square(c.re);
    Square(c.im);
  }

  /** A magnitude is a non-negative square root of the squared norm, and it is
      zero exactly for the zero sample. */
  lemma MagnitudeLaw(lib: Lib, c: Complex)
    requires Lawful(lib)
    ensures 0.0 <= Magnitude(lib, c)
    ensures Magnitude(lib, c) * Magnitude(lib, c) == Norm2(c)
    ensures Magnitude(lib, c) == 0.0 <==> c == Zero
  {
    Norm2ZeroIff(c);
    var m := lib.sqrt(Norm2(c));
    assert 0.0 <= m && m * m == Norm2(c);
    Square(m);
  }

  /** The square root of 1 is 1 and that of 0 is 0. */
  lemma SqrtOfZeroAndOne(lib: Lib)
    requires Lawful(lib)
    ensures lib.sqrt(0.0) == 0.0 && lib.sqrt(1.0) == 1.0
  {
    var z, o := lib.sqrt(0.0), lib.sqrt(1.0);
    assert z * z == 0.0;
    Square(z);
    assert 0.0 <= o && o * o == 1.0;
    assert (o - 1.0) * (o + 1.0) == o * o - 1.0;
    ProductZero(o - 1.0, o + 1.0);
  }

  /** Componentwise sum of samples (the `reduce((sum, s) => sum + s.real, 0)`
      pattern applied to both parts). */
  function Sum(s: seq<Complex>): Complex {
    if |s| == 0 then Zero
    else var rest := Sum(s[1..]); Complex(s[0].re + rest.re, s[0].im + rest.im)
  }

  /** The sum of a list of reals. */
  function Total(w: seq<real>): real {
    if |w| == 0 then 0.0 else w[0] + Total(w[1..])
  }

  /** `sum_i w_i * s_i`, componentwise. */
  function WeightedSum(s: seq<Complex>, w: seq<real>): Complex
    requires |s| == |w|
  {
    if |s| == 0 then Zero
    else var rest := WeightedSum(s[1..], w[1..]);
      Complex(s[0].re * w[0] + rest.re, s[0].im * w[0] + rest.im)
  }

  /** A sum of positive weights over a non-empty list is positive. */
  lemma {:induction false} TotalPositive(w: seq<real>)
    requires |w| > 0
    requires forall i :: 0 <= i < |w| ==> 0.0 < w[i]
    ensures 0.0 < Total(w)
  {
    if |w| > 1 {
      TotalPositive(w[1..]);
    }
  }

  // ---------------------------------------------------------------------
  // Facts of real arithmetic that the solver does not find unaided

  /** Dividing both parts of (a, b) by a root m of a*a + b*b gives a point of
      the unit circle. */
  lemma QuotientSquares(a: real, b: real, m: real)
    requires m != 0.0 && a * a + b * b == m * m
    ensures (a / m) * (a / m) + (b / m) * (b / m) == 1.0
  {
    Square(m);
    var x, y := a / m, b / m;
    assert a == x * m && b == y * m;
    assert a * a == (x * x) * (m * m);
    assert b * b == (y * y) * (m * m);
    var mm, k := m * m, x * x + y * y;
    assert k * mm == (x * x) * mm + (y * y) * mm;
    assert (x * x) * mm == a * a && (y * y) * mm == b * b;
    assert k * mm == a * a + b * b;
    assert (k - 1.0) * mm == k * mm - mm;
    ProductZero(k - 1.0, mm);
  }

  /** A coordinate of a point of the unit circle lies in [-1, 1]. */
  lemma UnitPart(x: real, y: real)
    requires x * x + y * y == 1.0
    ensures -1.0 <= x <= 1.0
  {
    Square(y);
    if x > 1.0 || x < -1.0 {
      assert false;
    }
  }

  lemma ScaleMonotone(a: real, b: real, w: real)
    requires a <= b && 0.0 <= w
    ensures a * w <= b * w
  {
    assert b * w - a * w == (b - a) * w;
  }

  lemma QuotientBounds(a: real, t: real, lo: real, hi: real)
    requires 0.0 < t && lo * t <= a <= hi * t
    ensures lo <= a / t <= hi
  {
    var q := a / t;
    assert a == q * t;
    if q < lo {
      assert false;
    }
    if hi < q {
      assert false;
    }
  }

  /** (a * t) / t == a, stated on names so that callers match it directly. */
  lemma CancelFactor(p: real, a: real, t: real)
    requires t != 0.0 && p == a * t
    ensures p / t == a
  {
  }

  /** (a * x) / (n * x) == a / n, stated on names. */
  lemma DivideCommonFactor(p: real, q: real, a: real, n: real, x: real)
    requires 0.0 < n && 0.0 < x && p == a * x && q == n * x
    ensures p / q == a / n
  {
    assert q != 0.0;
    assert p / q * q == p;
    assert a / n * n == a;
    assert (p / q) * (n * x) == (a / n) * (n * x);
    ProductZero(p / q - a / n, n * x);
  }

  lemma ProductPositive(x: real, y: real)
    requires 0.0 < x && 0.0 < y
    ensures 0.0 < x * y
  {
  }

  /** Squaring is strictly increasing on the positive reals. */
  lemma SquareLess(a: real, b: real)
    requires 0.0 < a < b
    ensures 0.0 < a * a < b * b
  {
    ProductPositive(a, a);
    ProductPositive(b - a, b + a);
    assert (b - a) * (b + a) == b * b - a * a;
  }

  /** Dividing by a positive number keeps the order of positive numbers. */
  lemma QuotientLess(p: real, q: real, d: real)
    requires 0.0 < p < q && 0.0 < d
    ensures 0.0 < p / d < q / d
  {
    var x, y := p / d, q / d;
    assert p == x * d && q == y * d;
    if x <= 0.0 {
      ScaleMonotone(x, 0.0, d);
      assert false;
    }
    if y <= x {
      ScaleMonotone(y, x, d);
      assert false;
    }
  }

  lemma SquareOfProduct(q: real, n: real)
    ensures (q * n) * (q * n) == (q * q) * (n * n)
  {
  }

  lemma CancelProducts(q: real, r: real, n: real, m: real)
    requires n * m != 0.0
    ensures ((q * r) * (n * m)) / (n * m) == q * r
  {
  }

  lemma CancelSquare(q: real, n: real)
    requires 0.0 < n
    ensures ((q * q) * (n * n)) / (n * n) == q * q
  {
    ProductPositive(n, n);
    CancelProducts(q, q, n, n);
  }

  /** a^2 / n^2 == (a / n)^2 */
  lemma RatioOfSquares(a: real, n: real)
    requires 0.0 < n
    ensures (a * a) / (n * n) == (a / n) * (a / n)
  {
    var q := a / n;
    assert a == q * n;
    SquareOfProduct(q, n);
    assert a * a == (q * q) * (n * n);
    CancelSquare(q, n);
  }

  /** For 0 < a < b and n > 0: 0 < a^2 / n^2 < b^2 / n^2. */
  lemma SquareRatioLess(a: real, b: real, n: real)
    requires 0.0 < a < b && 0.0 < n
    ensures 0.0 < (a * a) / (n * n) < (b * b) / (n * n)
  {
    RatioOfSquares(a, n);
    RatioOfSquares(b, n);
    QuotientLess(a, b, n);
    SquareLess(a / n, b / n);
  }

  /** The per-antenna noise power n^2 / r is positive. */
  lemma SharePositive(n: real, r: real)
    requires 0.0 < n && 0.0 < r
    ensures 0.0 < (n * n) / r
  {
    assert (n * n) / r == (n / r) * n;
    ProductPositive(n / r, n);
  }

  /** x / (n^2 / r) == r * (x / n^2) */
  lemma DivideByShare(x: real, n: real, r: real)
    requires 0.0 < n && 0.0 < r
    ensures 0.0 < (n * n) / r
    ensures x / ((n * n) / r) == r * (x / (n * n))
  {
    SharePositive(n, r);
  }

  /** For 0 < a < b, n > 0 and r > 0: 0 < a^2 / (n^2 / r) < b^2 / (n^2 / r). */
  lemma SquareOverShareLess(a: real, b: real, n: real, r: real)
    requires 0.0 < a < b && 0.0 < n && 0.0 < r
    ensures 0.0 < (n * n) / r
    ensures 0.0 < (a * a) / ((n * n) / r) < (b * b) / ((n * n) / r)
  {
    SquareRatioLess(a, b, n);
    DivideByShare(a * a, n, r);
    DivideByShare(b * b, n, r);
    ProductPositive(r, (a * a) / (n * n));
    ProductPositive(r, (b * b) / (n * n) - (a * a) / (n * n));
  }
}
