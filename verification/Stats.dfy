/**
  Quant-environment statistics of app/domain/validation.py: `volume_authenticity` and
  `quant_regime`. Square roots are inputs, tied to the variance they are the root of.
 */
module Stats {
  import opened Prelude

  datatype Candle = Candle(open: real, high: real, low: real, close: real, volume: real)

  function Volumes(d: seq<Candle>): (vs: seq<real>)
    ensures |vs| == |d| && forall i :: 0 <= i < |d| ==> vs[i] == d[i].volume
  {
    seq(|d|, i requires 0 <= i < |d| => d[i].volume)
  }

  // ------------------------------------------------------------------
  // Sums, spread and shares
  // ------------------------------------------------------------------

  function Sum(xs: seq<real>): real {
    if xs == [] then 0.0 else Sum(Front(xs)) + Last(xs)
  }

  function Square(x: real): (r: real)
    ensures r >= 0.0
  {
    x * x
  }

  function Times(n: int, x: real): real {
    n as real * x
  }

  function Mean(xs: seq<real>): real {
    if xs == [] then 0.0 else Sum(xs) / |xs| as real
  }

  function Centred(xs: seq<real>, m: real): (r: seq<real>)
    ensures |r| == |xs| && forall i :: 0 <= i < |xs| ==> r[i] == xs[i] - m
  {
    seq(|xs|, i requires 0 <= i < |xs| => xs[i] - m)
  }

  function Squares(xs: seq<real>): (r: seq<real>)
    ensures |r| == |xs| && forall i :: 0 <= i < |xs| ==> r[i] == Square(xs[i])
  {
    seq(|xs|, i requires 0 <= i < |xs| => Square(xs[i]))
  }

  function Product(x: real, y: real): real {
    x * y
  }

  // Sum of products of neighbours.
  function LagSum(xs: seq<real>): real {
    if |xs| < 2 then 0.0 else LagSum(Front(xs)) + Product(xs[|xs| - 2], xs[|xs| - 1])
  }

  function CountAbove(xs: seq<real>, limit: real): (c: nat)
    ensures c <= |xs|
  {
    if xs == [] then 0 else CountAbove(Front(xs), limit) + if Last(xs) > limit then 1 else 0
  }

  // s is the population standard deviation of xs.
  ghost predicate IsStd(s: real, xs: seq<real>) {
    s >= 0.0 && Times(|xs|, Square(s)) == Sum(Squares(Centred(xs, Mean(xs))))
  }

  function Autocorrelation(vs: seq<real>): real {
    var centred := Centred(vs, Mean(vs));
    var denom := Sum(Squares(centred));
    if denom > 0.0 then LagSum(centred) / denom else 0.0
  }

  function SpikeCount(vs: seq<real>): (c: nat)
    ensures c <= |vs|
  {
    if Mean(vs) > 0.0 then CountAbove(vs, 2.5 * Mean(vs)) else 0
  }

  lemma SquareIsPositive(x: real)
    ensures Square(x) == 0.0 <==> x == 0.0
  {
    if x > 0.0 {
      ProductGrows(0.0, x);
    } else if x < 0.0 {
      ProductGrows(0.0, -x);
      assert Square(x) == (-x) * (-x);
    }
  }

  lemma {:induction false} SumOfSquares(xs: seq<real>)
    ensures Sum(Squares(xs)) >= 0.0
    ensures Sum(Squares(xs)) == 0.0 && xs != [] ==> Last(xs) == 0.0
  {
    if xs != [] {
      SumOfSquares(Front(xs));
      assert Front(Squares(xs)) == Squares(Front(xs));
      assert Last(Squares(xs)) == Square(Last(xs));
      SquareIsPositive(Last(xs));
      hide Square, Squares;
    }
  }

  lemma TwiceProduct(a: real, b: real)
    ensures 2.0 * RAbs(Product(a, b)) <= Square(a) + Square(b)
    ensures a == 0.0 ==> Square(a) == 0.0 && RAbs(Product(a, b)) == 0.0
  {
    assert Square(a - b) == Square(a) + Square(b) - 2.0 * Product(a, b);
    assert Square(a + b) == Square(a) + Square(b) + 2.0 * Product(a, b);
  }

  // The sum of neighbouring products, compared with the sum of squares.
  ghost predicate LagBelow(lag: real, squares: real, last: real) {
    && 2.0 * RAbs(lag) <= 2.0 * squares - last
    && (squares > 0.0 ==> 2.0 * RAbs(lag) < 2.0 * squares - last)
  }

  lemma LagStep(lag: real, squares: real, last: real, product: real, next: real)
    requires LagBelow(lag, squares, last) && squares >= 0.0 && next >= 0.0
    requires 2.0 * RAbs(product) <= last + next
    requires squares == 0.0 ==> last == 0.0 && RAbs(product) == 0.0
    ensures LagBelow(lag + product, squares + next, next)
  {
    assert RAbs(lag + product) <= RAbs(lag) + RAbs(product);
    hide RAbs;
  }

  // Neighbouring products never reach the sum of squares, unless everything is zero.
  lemma {:induction false} LagBelowSquares(xs: seq<real>)
    requires xs != []
    ensures LagBelow(LagSum(xs), Sum(Squares(xs)), Square(Last(xs)))
  {
    var init, b := Front(xs), Last(xs);
    assert Front(Squares(xs)) == Squares(init) && Last(Squares(xs)) == Square(b);
    if |xs| == 1 {
      assert Squares(init) == [] && LagSum(xs) == 0.0;
    } else {
      LagBelowSquares(init);
      SumOfSquares(init);
      var a := Last(init);
      TwiceProduct(a, b);
      assert LagSum(xs) == LagSum(init) + Product(a, b);
      hide LagSum, Square, Squares, Product, LagBelow, RAbs;
      LagStep(LagSum(init), Sum(Squares(init)), Square(a), Product(a, b), Square(b));
    }
  }

  lemma RatioBelowOne(x: real, d: real)
    requires d > 0.0 && RAbs(x) < d
    ensures -1.0 < x / d < 1.0
  {
    if x / d >= 1.0 {
      QuotientAtLeast(x, d, 1.0);
    } else if x / d <= -1.0 {
      QuotientAtLeast(-x, d, 1.0);
    }
  }

  lemma QuotientAtLeast(x: real, d: real, bound: real)
    requires d > 0.0 && x / d >= bound
    ensures x >= bound * d
  {
    assert x == (x / d) * d;
    ProductKeepsOrder(bound, x / d, d);
  }

  lemma ProductKeepsOrder(a: real, b: real, d: real)
    requires a <= b && d >= 0.0
    ensures a * d <= b * d
  {
  }

  // The lag-1 autocorrelation lies strictly inside (-1, 1), for any values.
  lemma AutocorrelationBounds(vs: seq<real>)
    ensures -1.0 < Autocorrelation(vs) < 1.0
  {
    var centred := Centred(vs, Mean(vs));
    if vs != [] && Sum(Squares(centred)) > 0.0 {
      LagBelowSquares(centred);
      hide Mean;
      RatioBelowOne(LagSum(centred), Sum(Squares(centred)));
    }
  }

  lemma TimesNext(n: int, x: real)
    ensures Times(n + 1, x) == Times(n, x) + x
    ensures Times(0, x) == 0.0
  {
  }

  // Markov's inequality, strict as soon as something is counted.
  lemma {:induction false} Markov(xs: seq<real>, limit: real)
    requires limit >= 0.0 && forall i :: 0 <= i < |xs| ==> xs[i] >= 0.0
    ensures Times(CountAbove(xs, limit), limit) <= Sum(xs)
    ensures CountAbove(xs, limit) > 0 ==> Times(CountAbove(xs, limit), limit) < Sum(xs)
  {
    TimesNext(0, limit);
    hide Times;
    if xs != [] {
      Markov(Front(xs), limit);
      TimesNext(CountAbove(Front(xs), limit), limit);
    }
  }

  lemma CancelScale(count: int, n: int, weight: real, unit: real)
    requires unit > 0.0 && Times(count, weight * unit) < Times(n, unit)
    ensures Times(count, weight) < n as real
  {
    assert Times(count, weight * unit) == Times(count, weight) * unit;
  }

  lemma MeanTimesCount(xs: seq<real>)
    ensures Times(|xs|, Mean(xs)) == Sum(xs)
  {
    if xs != [] {
      DivideBack(Sum(xs), |xs|);
    }
  }

  lemma DivideBack(x: real, n: int)
    requires n > 0
    ensures n as real * (x / n as real) == x
  {
  }

  // Fewer than two fifths of non-negative volumes exceed 2.5 times their mean.
  lemma SpikesAreFew(vs: seq<real>)
    requires vs != [] && forall i :: 0 <= i < |vs| ==> vs[i] >= 0.0
    ensures 5 * SpikeCount(vs) < 2 * |vs|
  {
    if SpikeCount(vs) > 0 {
      Markov(vs, 2.5 * Mean(vs));
      MeanTimesCount(vs);
      hide Mean;
      CancelScale(SpikeCount(vs), |vs|, 2.5, Mean(vs));
      assert Times(SpikeCount(vs), 2.5) == 2.5 * SpikeCount(vs) as real;
    }
  }

  // How many values lie more than three standard deviations from their mean.
  function TailCount(xs: seq<real>, m: real, std: real): (c: nat)
    ensures c <= |xs|
  {
    if xs == [] then 0
    else TailCount(Front(xs), m, std) + if RAbs(Last(xs) - m) > 3.0 * std then 1 else 0
  }

  lemma FartherSquared(x: real, std: real)
    requires std >= 0.0
    ensures RAbs(x) > 3.0 * std <==> Square(x) > 9.0 * Square(std)
  {
    var y, z := RAbs(x), 3.0 * std;
    assert Square(x) == y * y;
    assert 9.0 * Square(std) == z * z;
    if y > z {
      assert y * y > z * z by { ProductGrows(z, y); }
    } else if y < z {
      ProductGrows(y, z);
    }
  }

  lemma ProductGrows(a: real, b: real)
    requires 0.0 <= a < b
    ensures a * a < b * b
  {
    var d := b - a;
    assert b * b == a * a + a * d + a * d + d * d;
    assert d * d > 0.0 && a * d >= 0.0;
  }

  lemma {:induction false} TailsAreLargeSquares(xs: seq<real>, m: real, std: real)
    requires std >= 0.0
    ensures TailCount(xs, m, std) == CountAbove(Squares(Centred(xs, m)), 9.0 * Square(std))
  {
    if xs != [] {
      TailsAreLargeSquares(Front(xs), m, std);
      FartherSquared(Last(xs) - m, std);
      assert Front(Squares(Centred(xs, m))) == Squares(Centred(Front(xs), m));
    }
  }

  // Chebyshev: fewer than one ninth of the values lie beyond three standard deviations.
  lemma TailsAreFew(xs: seq<real>, std: real)
    requires xs != [] && std > 0.0 && IsStd(std, xs)
    ensures 9 * TailCount(xs, Mean(xs), std) < |xs|
  {
    var m := Mean(xs);
    hide Mean;
    TailsAreLargeSquares(xs, m, std);
    var unit, count := Square(std), TailCount(xs, m, std);
    SquareIsPositive(std);
    hide Square;
    if count > 0 {
      Markov(Squares(Centred(xs, m)), 9.0 * unit);
      CancelScale(count, |xs|, 9.0, unit);
      assert Times(count, 9.0) == 9.0 * count as real;
    }
  }

  // ------------------------------------------------------------------
  // volume_authenticity
  // ------------------------------------------------------------------

  // Pairs of neighbours where price and volume move up together, or neither does.
  function AlignedCount(d: seq<Candle>): (c: nat)
    ensures |d| > 0 ==> c <= |d| - 1
  {
    if |d| < 2 then 0
    else
      var a, b := d[|d| - 2], d[|d| - 1];
      AlignedCount(Front(d)) + if (b.close > a.close) == (b.volume > a.volume) then 1 else 0
  }

  function Rate(count: int, n: int): real
    requires n > 0
  {
    count as real / n as real
  }

  lemma RateBounds(count: int, n: int)
    requires n > 0
    ensures 0 <= count <= n ==> 0.0 <= Rate(count, n) <= 1.0
    ensures 5 * count < 2 * n ==> Rate(count, n) < 0.4
    ensures 9 * count < n ==> 9.0 * Rate(count, n) < 1.0
  {
    QuotientBounds(count as real, n as real);
  }

  lemma QuotientBounds(x: real, d: real)
    requires d > 0.0
    ensures 0.0 <= x <= d ==> 0.0 <= x / d <= 1.0
    ensures 5.0 * x < 2.0 * d ==> x / d < 0.4
    ensures 9.0 * x < d ==> 9.0 * (x / d) < 1.0
  {
    if x / d > 1.0 {
      QuotientAtLeast(x, d, 1.0);
    }
    if x / d >= 0.4 {
      QuotientAtLeast(x, d, 0.4);
    }
    if 9.0 * (x / d) >= 1.0 {
      QuotientAtLeast(x, d, 1.0 / 9.0);
    }
  }

  // The weighted score before rounding, without any clamp on the autocorrelation term.
  function Authenticity(d: seq<Candle>): real
    requires |d| >= 2
  {
    var vs := Volumes(d);
    Rate(AlignedCount(d), |d| - 1) * 100.0 * 0.40
    + RMax(0.0, 100.0 - Rate(SpikeCount(vs), |d|) * 400.0) * 0.40
    + (50.0 + Autocorrelation(vs) * 50.0) * 0.20
  }

  lemma AuthenticityInRange(d: seq<Candle>)
    requires |d| >= 2
    ensures 0.0 < Authenticity(d) < 100.0
  {
    RateBounds(AlignedCount(d), |d| - 1);
    RateBounds(SpikeCount(Volumes(d)), |d|);
    AutocorrelationBounds(Volumes(d));
    hide Rate, Autocorrelation, AlignedCount, SpikeCount;
  }

  lemma RoundStaysInRange(x: real)
    requires 0.0 <= x <= 100.0
    ensures 0 <= Round(x) <= 100
  {
  }

  function ClampScore(n: int): int {
    var low := if n > 0 then n else 0;
    if low < 100 then low else 100
  }

  // The code clamps the autocorrelation term and the final score; neither clamp ever acts.
  method VolumeAuthenticity(rows: seq<Candle>, window: nat) returns (score: int)
    ensures 0 <= score <= 100
    ensures var d := Tail(rows, window); score == if |d| < 10 then 50 else Round(Authenticity(d))
  {
    hide Rate, Autocorrelation, SpikeCount, Round;
    var d := Tail(rows, window);
    var n := |d|;
    if n < 10 {
      return 50;
    }
    var aligned := 0;
    for i := 1 to n
      invariant aligned == AlignedCount(d[..i])
    {
      var priceUp := d[i].close > d[i - 1].close;
      var volUp := d[i].volume > d[i - 1].volume;
      assert Front(d[..i + 1]) == d[..i];
      if priceUp == volUp {
        aligned := aligned + 1;
      }
    }
    assert d[..n] == d;
    var vols := Volumes(d);
    var alignScore := Rate(aligned, n - 1) * 100.0;
    var spikeScore := RMax(0.0, 100.0 - Rate(SpikeCount(vols), n) * 400.0);
    var autocorrScore := RMax(0.0, 50.0 + Autocorrelation(vols) * 50.0);
    AutocorrelationBounds(vols);
    AuthenticityInRange(d);
    RoundStaysInRange(Authenticity(d));
    score := ClampScore(Round(alignScore * 0.40 + spikeScore * 0.40 + autocorrScore * 0.20));
  }

  // ------------------------------------------------------------------
  // quant_regime
  // ------------------------------------------------------------------

  predicate IsGap(a: Candle, b: Candle) {
    a.close > 0.0 && RAbs(b.open - a.close) / a.close > 0.008
  }

  predicate IsReversal(c: Candle) {
    c.open > 0.0 && c.low > 0.0
    && (c.high - c.low) / c.low > 0.03 && RAbs(c.close - c.open) / c.open < 0.005
  }

  function GapCount(d: seq<Candle>): (c: nat)
    ensures |d| > 0 ==> c <= |d| - 1
  {
    if |d| < 2 then 0
    else GapCount(Front(d)) + if IsGap(d[|d| - 2], d[|d| - 1]) then 1 else 0
  }

  function ReversalCount(d: seq<Candle>): (c: nat)
    ensures c <= |d|
  {
    if d == [] then 0 else ReversalCount(Front(d)) + if IsReversal(Last(d)) then 1 else 0
  }

  // Every return has a divisor.
  predicate HasReturns(d: seq<Candle>) {
    forall i :: 0 <= i < |d| - 1 ==> d[i].close != 0.0
  }

  function Returns(d: seq<Candle>): (r: seq<real>)
    requires d != [] && HasReturns(d)
    ensures |r| == |d| - 1
  {
    seq(|d| - 1, i requires 0 <= i < |d| - 1 => (d[i + 1].close - d[i].close) / d[i].close)
  }

  // A zero close makes a return infinite or undefined, hence the deviation undefined: no tails.
  function ReturnTails(d: seq<Candle>, retStd: real): (c: nat)
    requires d != []
    ensures c <= |d| - 1
  {
    if HasReturns(d) && retStd > 0.0 then TailCount(Returns(d), Mean(Returns(d)), retStd) else 0
  }

  // The inputs that stand for numpy's square roots.
  ghost predicate RootsOf(d: seq<Candle>, volStd: real, retStd: real)
    requires d != []
  {
    && IsStd(volStd, Volumes(d))
    && (HasReturns(d) ==> IsStd(retStd, Returns(d)))
  }

  function Variation(vs: seq<real>, volStd: real): real {
    if Mean(vs) > 0.0 then volStd / Mean(vs) else 0.0
  }

  function QuantScore(d: seq<Candle>, volStd: real, retStd: real): real
    requires |d| >= 2
  {
    RMin(100.0, Rate(GapCount(d), |d| - 1) * 300.0) * 0.25
    + RMin(100.0, Rate(ReversalCount(d), |d|) * 500.0) * 0.25
    + RMin(100.0, Variation(Volumes(d), volStd) * 80.0) * 0.30
    + RMin(100.0, Rate(ReturnTails(d, retStd), |d| - 1) * 1000.0) * 0.20
  }

  function Classify(score: int, moderate: int, high: int): Regime {
    if score >= high then HighQuant else if score >= moderate then ModerateQuant else Normal
  }

  lemma VariationIsNonNegative(vs: seq<real>, volStd: real)
    requires volStd >= 0.0
    ensures Variation(vs, volStd) >= 0.0
  {
    hide Mean;
  }

  lemma QuantScoreInRange(d: seq<Candle>, volStd: real, retStd: real)
    requires |d| >= 2 && volStd >= 0.0
    ensures 0.0 <= QuantScore(d, volStd, retStd) <= 100.0
  {
    RateBounds(GapCount(d), |d| - 1);
    RateBounds(ReversalCount(d), |d|);
    RateBounds(ReturnTails(d, retStd), |d| - 1);
    VariationIsNonNegative(Volumes(d), volStd);
    hide Rate, GapCount, ReversalCount, ReturnTails, Variation;
  }

  // The share of returns beyond three standard deviations is below one ninth.
  lemma ReturnTailsAreFew(d: seq<Candle>, volStd: real, retStd: real)
    requires |d| >= 2 && RootsOf(d, volStd, retStd)
    ensures 9.0 * Rate(ReturnTails(d, retStd), |d| - 1) < 1.0
  {
    if HasReturns(d) && retStd > 0.0 {
      TailsAreFew(Returns(d), retStd);
    }
    RateBounds(ReturnTails(d, retStd), |d| - 1);
  }

  method CountGaps(d: seq<Candle>) returns (gaps: nat)
    requires d != []
    ensures gaps == GapCount(d)
  {
    hide IsGap;
    gaps := 0;
    for i := 1 to |d|
      invariant gaps == GapCount(d[..i])
    {
      assert Front(d[..i + 1]) == d[..i];
      if IsGap(d[i - 1], d[i]) {
        gaps := gaps + 1;
      }
    }
    assert d[..|d|] == d;
  }

  method CountReversals(d: seq<Candle>) returns (reversals: nat)
    ensures reversals == ReversalCount(d)
  {
    hide IsReversal;
    reversals := 0;
    for i := 0 to |d|
      invariant reversals == ReversalCount(d[..i])
    {
      assert Front(d[..i + 1]) == d[..i];
      if IsReversal(d[i]) {
        reversals := reversals + 1;
      }
    }
    assert d[..|d|] == d;
  }

  // The final clamp never acts here either.
  method QuantRegime(rows: seq<Candle>, window: nat, volStd: real, retStd: real, moderate: int, high: int)
    returns (score: int, regime: Regime)
    requires |Tail(rows, window)| >= 20 ==> RootsOf(Tail(rows, window), volStd, retStd)
    ensures 0 <= score <= 100
    ensures |Tail(rows, window)| < 20 ==> score == 50 && regime == Normal
    ensures |Tail(rows, window)| >= 20 ==>
              && score == Round(QuantScore(Tail(rows, window), volStd, retStd))
              && regime == Classify(score, moderate, high)
  {
    hide Rate, ReturnTails, Variation, Round, GapCount, ReversalCount;
    var d := Tail(rows, window);
    var n := |d|;
    if n < 20 {
      return 50, Normal;
    }
    var gaps := CountGaps(d);
    var reversals := CountReversals(d);
    var gapScore := RMin(100.0, Rate(gaps, n - 1) * 300.0);
    var reversalScore := RMin(100.0, Rate(reversals, n) * 500.0);
    var volScore := RMin(100.0, Variation(Volumes(d), volStd) * 80.0);
    var tailScore := RMin(100.0, Rate(ReturnTails(d, retStd), n - 1) * 1000.0);
    QuantScoreInRange(d, volStd, retStd);
    RoundStaysInRange(QuantScore(d, volStd, retStd));
    score := ClampScore(Round(gapScore * 0.25 + reversalScore * 0.25 + volScore * 0.30 + tailScore * 0.20));
    regime := Classify(score, moderate, high);
  }
}
