/** The two quant-environment scores as formulas over their candles. */
module ScoreRules {
  import opened Prelude
  import opened Stats

  // ------------------------------------------------------------------
  // What is counted
  // ------------------------------------------------------------------

  // Price and volume both rise from candle i - 1 to candle i, or neither does.
  predicate Aligned(d: seq<Candle>, i: nat)
    requires 0 < i < |d|
  {
    d[i - 1].close < d[i].close <==> d[i - 1].volume < d[i].volume
  }

  // Candle i opens more than 0.8% away from the last close.
  predicate Gaps(d: seq<Candle>, i: nat)
    requires 0 < i < |d|
  {
    var last, open := d[i - 1].close, d[i].open;
    last > 0.0 && (open > last + 0.008 * last || open < last - 0.008 * last)
  }

  // The range is more than 3% of the low, the body less than 0.5% of the open.
  predicate Reverses(c: Candle) {
    && c.open > 0.0 && c.low > 0.0
    && c.high > c.low + 0.03 * c.low
    && c.open - 0.005 * c.open < c.close < c.open + 0.005 * c.open
  }

  ghost function AlignedPairs(d: seq<Candle>): set<nat> {
    set i: nat | 0 < i < |d| && Aligned(d, i)
  }

  ghost function GapBars(d: seq<Candle>): set<nat> {
    set i: nat | 0 < i < |d| && Gaps(d, i)
  }

  ghost function ReversalBars(d: seq<Candle>): set<nat> {
    set i: nat | i < |d| && Reverses(d[i])
  }

  ghost function Above(xs: seq<real>, limit: real): set<nat> {
    set i: nat | i < |xs| && xs[i] > limit
  }

  ghost function Outside(xs: seq<real>, m: real, width: real): set<nat> {
    set i: nat | i < |xs| && (xs[i] > m + width || xs[i] < m - width)
  }

  lemma {:induction false} AlignedAre(d: seq<Candle>)
    ensures AlignedCount(d) == |AlignedPairs(d)|
  {
    if |d| >= 2 {
      var front, n := Front(d), |d| - 1;
      AlignedAre(front);
      assert forall i: nat :: 0 < i < n ==> (Aligned(d, i) <==> Aligned(front, i));
      assert AlignedPairs(d) == AlignedPairs(front) + if Aligned(d, n) then {n} else {};
    } else {
      assert AlignedPairs(d) == {};
    }
  }

  lemma PercentAway(a: real, b: real, part: real)
    requires a > 0.0
    ensures RAbs(b - a) / a > part <==> b > a + part * a || b < a - part * a
    ensures (b - a) / a > part <==> b > a + part * a
    ensures RAbs(b - a) / a < part <==> a - part * a < b < a + part * a
  {
    var x := RAbs(b - a);
    Cross(x, a, part);
    Cross(b - a, a, part);
  }

  lemma Cross(x: real, d: real, part: real)
    requires d > 0.0
    ensures x / d > part <==> x > part * d
    ensures x / d < part <==> x < part * d
  {
    var q := x / d;
    assert x == q * d;
    if q > part {
      Positive(q - part, d);
    } else if q < part {
      Positive(part - q, d);
    }
  }

  lemma Positive(x: real, y: real)
    requires x > 0.0 && y > 0.0
    ensures x * y > 0.0
  {
  }

  lemma GapIs(d: seq<Candle>, i: nat)
    requires 0 < i < |d|
    ensures IsGap(d[i - 1], d[i]) <==> Gaps(d, i)
  {
    if d[i - 1].close > 0.0 {
      PercentAway(d[i - 1].close, d[i].open, 0.008);
    }
  }

  lemma ReversalIs(c: Candle)
    ensures IsReversal(c) <==> Reverses(c)
  {
    if c.open > 0.0 && c.low > 0.0 {
      PercentAway(c.low, c.high, 0.03);
      PercentAway(c.open, c.close, 0.005);
    }
    hide RAbs;
  }

  lemma {:induction false} GapsAre(d: seq<Candle>)
    ensures GapCount(d) == |GapBars(d)|
  {
    hide IsGap;
    if |d| >= 2 {
      var front, n := Front(d), |d| - 1;
      GapsAre(front);
      GapIs(d, n);
      assert forall i: nat :: 0 < i < n ==> (Gaps(d, i) <==> Gaps(front, i));
      hide Gaps;
      assert GapBars(d) == GapBars(front) + if Gaps(d, n) then {n} else {};
    } else {
      assert GapBars(d) == {};
    }
  }

  lemma {:induction false} ReversalsAre(d: seq<Candle>)
    ensures ReversalCount(d) == |ReversalBars(d)|
  {
    hide IsReversal, Reverses;
    if d != [] {
      var n := |d| - 1;
      ReversalsAre(Front(d));
      ReversalIs(d[n]);
      assert ReversalBars(d) == ReversalBars(Front(d)) + if Reverses(d[n]) then {n} else {};
    } else {
      assert ReversalBars(d) == {};
    }
  }

  lemma {:induction false} AboveAre(xs: seq<real>, limit: real)
    ensures CountAbove(xs, limit) == |Above(xs, limit)|
  {
    if xs != [] {
      var n := |xs| - 1;
      AboveAre(Front(xs), limit);
      assert Above(xs, limit) == Above(Front(xs), limit) + if xs[n] > limit then {n} else {};
    } else {
      assert Above(xs, limit) == {};
    }
  }

  lemma {:induction false} TailsAre(xs: seq<real>, m: real, std: real)
    ensures TailCount(xs, m, std) == |Outside(xs, m, 3.0 * std)|
  {
    if xs != [] {
      var n := |xs| - 1;
      TailsAre(Front(xs), m, std);
      assert RAbs(xs[n] - m) > 3.0 * std <==> xs[n] > m + 3.0 * std || xs[n] < m - 3.0 * std;
      assert Outside(xs, m, 3.0 * std) ==
             Outside(Front(xs), m, 3.0 * std) + if RAbs(xs[n] - m) > 3.0 * std then {n} else {};
    } else {
      assert Outside(xs, m, 3.0 * std) == {};
    }
  }

  // ------------------------------------------------------------------
  // Sums over volumes
  // ------------------------------------------------------------------

  function Total(vs: seq<real>, n: nat): real
    requires n <= |vs|
  {
    if n == 0 then 0.0 else Total(vs, n - 1) + vs[n - 1]
  }

  function Spread(vs: seq<real>, m: real, n: nat): real
    requires n <= |vs|
  {
    if n == 0 then 0.0 else Spread(vs, m, n - 1) + (vs[n - 1] - m) * (vs[n - 1] - m)
  }

  // Products of neighbouring deviations.
  function Comovement(vs: seq<real>, m: real, n: nat): real
    requires n <= |vs|
  {
    if n < 2 then 0.0 else Comovement(vs, m, n - 1) + (vs[n - 2] - m) * (vs[n - 1] - m)
  }

  lemma {:induction false} TotalIs(vs: seq<real>, n: nat)
    requires n <= |vs|
    ensures Sum(vs[..n]) == Total(vs, n)
  {
    if n > 0 {
      TotalIs(vs, n - 1);
      assert Front(vs[..n]) == vs[..n - 1];
    }
  }

  lemma {:induction false} SpreadIs(vs: seq<real>, m: real, n: nat)
    requires n <= |vs|
    ensures Sum(Squares(Centred(vs[..n], m))) == Spread(vs, m, n)
  {
    if n > 0 {
      SpreadIs(vs, m, n - 1);
      var now := Squares(Centred(vs[..n], m));
      assert Front(now) == Squares(Centred(vs[..n - 1], m));
      assert Last(now) == Square(vs[n - 1] - m);
    } else {
      assert Squares(Centred(vs[..0], m)) == [];
    }
  }

  lemma {:induction false} ComovementIs(vs: seq<real>, m: real, n: nat)
    requires n <= |vs|
    ensures LagSum(Centred(vs[..n], m)) == Comovement(vs, m, n)
  {
    if n >= 2 {
      ComovementIs(vs, m, n - 1);
      var now := Centred(vs[..n], m);
      assert Front(now) == Centred(vs[..n - 1], m);
      assert Product(now[n - 2], now[n - 1]) == (vs[n - 2] - m) * (vs[n - 1] - m);
      hide Product;
    }
  }

  ghost predicate IsMean(m: real, xs: seq<real>) {
    if xs == [] then m == 0.0 else m * |xs| as real == Total(xs, |xs|)
  }

  lemma MeanIs(xs: seq<real>)
    ensures IsMean(Mean(xs), xs)
  {
    TotalIs(xs, |xs|);
    assert xs[..|xs|] == xs;
    if xs != [] {
      Undo(Sum(xs), |xs| as real);
    }
    hide Sum, Total;
  }

  lemma Undo(x: real, d: real)
    requires d > 0.0
    ensures x / d * d == x
  {
  }

  // The lag-1 autocorrelation around the mean, 0 for constant values.
  ghost predicate IsAutocorrelation(r: real, vs: seq<real>, m: real) {
    var spread := Spread(vs, m, |vs|);
    if spread > 0.0 then r * spread == Comovement(vs, m, |vs|) else r == 0.0
  }

  lemma AutocorrelationIs(vs: seq<real>)
    ensures IsAutocorrelation(Autocorrelation(vs), vs, Mean(vs))
  {
    var m := Mean(vs);
    hide Mean;
    assert vs[..|vs|] == vs;
    SpreadIs(vs, m, |vs|);
    ComovementIs(vs, m, |vs|);
    if Spread(vs, m, |vs|) > 0.0 {
      Undo(Comovement(vs, m, |vs|), Spread(vs, m, |vs|));
    }
    hide Sum, Squares, Centred, LagSum, Spread, Comovement;
  }

  // ------------------------------------------------------------------
  // The scores
  // ------------------------------------------------------------------

  function Volume(d: seq<Candle>): (vs: seq<real>)
    ensures |vs| == |d| && forall i :: 0 <= i < |d| ==> vs[i] == d[i].volume
  {
    seq(|d|, i requires 0 <= i < |d| => d[i].volume)
  }

  // Volumes above two and a half times their mean.
  ghost function Spikes(d: seq<Candle>, m: real): set<nat> {
    set i: nat | m > 0.0 && i < |d| && d[i].volume > 2.5 * m
  }

  lemma SpikesAre(d: seq<Candle>)
    ensures SpikeCount(Volumes(d)) == |Spikes(d, Mean(Volumes(d)))|
  {
    var vs, m := Volumes(d), Mean(Volumes(d));
    hide Mean;
    AboveAre(vs, 2.5 * m);
    if m > 0.0 {
      assert Spikes(d, m) == Above(vs, 2.5 * m);
    } else {
      assert Spikes(d, m) == {};
    }
  }

  function Share(count: nat, n: nat): real
    requires n > 0
  {
    count as real / n as real
  }

  lemma ShareIsRate(count: nat, n: nat)
    requires n > 0
    ensures Share(count, n) == Rate(count, n)
  {
  }

  // The authenticity score before rounding: 40 points for pairs that move together, 40 that a quarter
  // of spikes uses up, and 20 for the autocorrelation, with 10 at none.
  lemma AuthenticityIs(d: seq<Candle>) returns (m: real, r: real)
    requires |d| >= 2
    ensures IsMean(m, Volume(d)) && IsAutocorrelation(r, Volume(d), m)
    ensures Authenticity(d) == 40.0 * Share(|AlignedPairs(d)|, |d| - 1)
                               + RMax(0.0, 40.0 - 160.0 * Share(|Spikes(d, m)|, |d|))
                               + 10.0 + 10.0 * r
  {
    var vs := Volumes(d);
    assert vs == Volume(d);
    m, r := Mean(vs), Autocorrelation(vs);
    AlignedAre(d);
    SpikesAre(d);
    MeanIs(vs);
    AutocorrelationIs(vs);
    ShareIsRate(|AlignedPairs(d)|, |d| - 1);
    ShareIsRate(|Spikes(d, m)|, |d|);
    hide IsMean, IsAutocorrelation, Autocorrelation, Mean, AlignedCount, SpikeCount, AlignedPairs, Spikes, Rate, Share;
  }

  ghost predicate IsReturn(r: real, a: Candle, b: Candle) {
    a.close != 0.0 && r * a.close == b.close - a.close
  }

  // Returns more than three deviations from their mean, none when a close is zero.
  ghost predicate IsTails(n: nat, d: seq<Candle>, retStd: real) {
    if retStd > 0.0 && forall i :: 0 <= i < |d| - 1 ==> d[i].close != 0.0 then
      exists xs, m :: |xs| == |d| - 1 && (forall i :: 0 <= i < |xs| ==> IsReturn(xs[i], d[i], d[i + 1]))
                      && IsMean(m, xs) && n == |Outside(xs, m, 3.0 * retStd)|
    else n == 0
  }

  lemma TailsOfReturns(d: seq<Candle>, retStd: real)
    requires d != []
    ensures IsTails(ReturnTails(d, retStd), d, retStd)
  {
    if retStd > 0.0 && HasReturns(d) {
      var xs := Returns(d);
      forall i | 0 <= i < |xs|
        ensures IsReturn(xs[i], d[i], d[i + 1])
      {
        UndoAny(d[i + 1].close - d[i].close, d[i].close);
      }
      MeanIs(xs);
      TailsAre(xs, Mean(xs), retStd);
      hide Returns, Mean, IsMean, Outside, TailCount, IsReturn;
    }
  }

  lemma UndoAny(x: real, d: real)
    requires d != 0.0
    ensures x / d * d == x
  {
  }

  // The standard deviation over the mean, 0 unless the mean is positive.
  ghost predicate IsVariation(v: real, std: real, m: real) {
    if m > 0.0 then v * m == std else v == 0.0
  }

  lemma VariationIs(vs: seq<real>, volStd: real)
    ensures IsVariation(Variation(vs, volStd), volStd, Mean(vs))
  {
    var m := Mean(vs);
    hide Mean;
    if m > 0.0 {
      Undo(volStd, m);
    }
  }

  // The quant score before rounding: 25 points at a third of gaps, 25 at a fifth of reversals, 30 at a
  // variation of 1.25 and 20 at a tenth of tails.
  lemma QuantScoreIs(d: seq<Candle>, volStd: real, retStd: real) returns (m: real, v: real, tails: nat)
    requires |d| >= 2
    ensures IsMean(m, Volume(d)) && IsVariation(v, volStd, m) && IsTails(tails, d, retStd)
    ensures QuantScore(d, volStd, retStd) == RMin(25.0, 75.0 * Share(|GapBars(d)|, |d| - 1))
                                             + RMin(25.0, 125.0 * Share(|ReversalBars(d)|, |d|))
                                             + RMin(30.0, 24.0 * v)
                                             + RMin(20.0, 200.0 * Share(tails, |d| - 1))
  {
    assert Volumes(d) == Volume(d);
    m, v, tails := Mean(Volumes(d)), Variation(Volumes(d), volStd), ReturnTails(d, retStd);
    MeanIs(Volumes(d));
    VariationIs(Volumes(d), volStd);
    TailsOfReturns(d, retStd);
    GapsAre(d);
    ReversalsAre(d);
    ShareIsRate(|GapBars(d)|, |d| - 1);
    ShareIsRate(|ReversalBars(d)|, |d|);
    ShareIsRate(tails, |d| - 1);
    hide IsMean, IsVariation, IsTails, Mean, Variation, ReturnTails, GapCount, ReversalCount, GapBars, ReversalBars,
         Rate, Share;
  }
}
