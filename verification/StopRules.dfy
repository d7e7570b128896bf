/**
  The numbers of a scored candidate in terms of its points, its zone and the measurements: where the
  stop is anchored, how far it stands off, the targets, the ratios, the grade and when a signal is
  emitted at all.
 */
module StopRules {
  import opened Prelude
  import opened StopGeometry

  // ------------------------------------------------------------------
  // The stop
  // ------------------------------------------------------------------

  // A long's structural edge: the low end of the zone, or the lower of that and X where the level
  // looks at X.
  ghost predicate LongEdge(c: Candidate, level: Level, edge: real)
    requires c.WellFormed()
  {
    var lo, hi, x := c.completionMin, c.completionMax, c.points[0];
    && edge <= lo && edge <= hi
    && if level == Conservative || (level == Standard && c.extended)
       then edge == lo || edge == hi
       else edge <= x && (edge == lo || edge == hi || edge == x)
  }

  ghost predicate ShortEdge(c: Candidate, level: Level, edge: real)
    requires c.WellFormed()
  {
    var lo, hi, x := c.completionMin, c.completionMax, c.points[0];
    && edge >= lo && edge >= hi
    && if level == Conservative || (level == Standard && c.extended)
       then edge == lo || edge == hi
       else edge >= x && (edge == lo || edge == hi || edge == x)
  }

  // The anchor of a placed stop: the structural edge, unless a swing on the losing side of the
  // entry is tighter.
  lemma AnchorRules(t: StopTuning, c: Candidate, atr: real, level: Level, swing: Option<real>, entry: real, w: Widening)
      returns (edge: real)
    requires c.WellFormed()
    ensures if c.bullish then LongEdge(c, level, edge) else ShortEdge(c, level, edge)
    ensures var r := ComputeStop(t, c, atr, level, swing, entry, w);
            r.Placed? ==>
              r.anchor == if c.bullish
                          then (if swing.Some? && 0.0 < swing.value < entry && swing.value > edge then swing.value else edge)
                          else (if swing.Some? && swing.value > entry && swing.value > 0.0 && swing.value < edge
                                then swing.value else edge)
  {
    var looksAtX := !(level == Conservative || (level == Standard && c.extended));
    edge := if c.bullish then (if looksAtX then RMin(c.points[0], RMin(c.completionMin, c.completionMax))
                               else RMin(c.completionMin, c.completionMax))
            else (if looksAtX then RMax(c.points[0], RMax(c.completionMin, c.completionMax))
                  else RMax(c.completionMin, c.completionMax));
    hide Buffer, Admissible;
  }

  // The plain multiple of the level, or the literal one.
  function PlainOrLiteral(t: StopTuning, level: Level, w: Widening): real {
    if w.override.Some? then w.override.value
    else if level == Conservative then t.conservative
    else if level == Aggressive then t.aggressive
    else t.standard
  }

  function TrapFactor(w: Widening): real {
    if w.trap < 1.0 then 1.0 else w.trap
  }

  function RegimeFactor(w: Widening): real {
    if w.regime == HighQuant then 1.5 else 1.0
  }

  function GradeFactor(w: Widening): real {
    if w.grade == Some(GradeReference) then 1.5 else if w.grade == Some(GradeC) then 1.3 else 1.0
  }

  // Times all widening factors, at most 2.
  function Multiple(t: StopTuning, level: Level, w: Widening): real {
    var product := Product(PlainOrLiteral(t, level, w), TrapFactor(w), RegimeFactor(w), GradeFactor(w));
    if product > 2.0 then 2.0 else product
  }

  lemma FactorsAre(t: StopTuning, level: Level, w: Widening)
    ensures Base(t, level, w) == PlainOrLiteral(t, level, w) && RMax(1.0, w.trap) == TrapFactor(w)
    ensures RegimeMult(w.regime) == RegimeFactor(w)
    ensures (if w.grade.Some? then GradeMult(w.grade.value) else 1.0) == GradeFactor(w)
  {
  }

  lemma MultipleIs(t: StopTuning, level: Level, w: Widening)
    ensures BufferMult(t, level, w) == Multiple(t, level, w)
  {
    FactorsAre(t, level, w);
    hide Product, Base, PlainOrLiteral, RMax, TrapFactor, RegimeMult, RegimeFactor, GradeMult, GradeFactor;
  }

  lemma ProductIs(base: real, trap: real, regime: real, grade: real)
    ensures Product(base, trap, regime, grade) == ((base * trap) * regime) * grade
  {
  }

  lemma BufferIs(t: StopTuning, level: Level, w: Widening, atr: real)
    ensures Buffer(t, level, w, atr) == Multiple(t, level, w) * atr
  {
    MultipleIs(t, level, w);
    hide BufferMult, Multiple;
  }

  // A placed stop stands that multiple of the ATR off its anchor, on the losing side, and every
  // price involved is positive.
  lemma PlacedStop(t: StopTuning, c: Candidate, atr: real, level: Level, swing: Option<real>, entry: real, w: Widening)
    requires c.WellFormed()
    ensures var r := ComputeStop(t, c, atr, level, swing, entry, w);
            r.Placed? ==>
              && r.stop == StopPrice(c, r.anchor, Multiple(t, level, w) * atr)
              && atr > 0.0 && r.stop > 0.0 && r.anchor > 0.0 && c.completionMin > 0.0 && c.completionMax > 0.0
              && forall i :: 0 <= i < |c.points| ==> c.points[i] > 0.0
  {
    BufferIs(t, level, w, atr);
    hide Anchor, Buffer, Multiple, StopPrice;
  }

  lemma SideOfStop(c: Candidate, anchor: real, buffer: real)
    ensures StopPrice(c, anchor, buffer) == if c.bullish then anchor - buffer else anchor + buffer
  {
  }

  // Nothing but those prices stands in the way of a stop.
  lemma PlacedIff(t: StopTuning, c: Candidate, atr: real, level: Level, swing: Option<real>, entry: real, w: Widening,
                  edge: real)
    requires c.WellFormed()
    requires if c.bullish then LongEdge(c, level, edge) else ShortEdge(c, level, edge)
    requires swing.None?
    ensures ComputeStop(t, c, atr, level, swing, entry, w).Placed? <==>
              && atr > 0.0 && c.completionMin > 0.0 && c.completionMax > 0.0
              && (forall i :: 0 <= i < |c.points| ==> c.points[i] > 0.0)
              && StopPrice(c, edge, Multiple(t, level, w) * atr) > 0.0
  {
    hide Buffer, Multiple, StopPrice;
    BufferIs(t, level, w, atr);
    EdgeIsAnchor(c, level, swing, entry, edge);
    EdgeIsPositive(c, level, edge);
    hide Anchor, LongEdge, ShortEdge;
  }

  lemma EdgeIsAnchor(c: Candidate, level: Level, swing: Option<real>, entry: real, edge: real)
    requires c.WellFormed() && swing.None?
    requires if c.bullish then LongEdge(c, level, edge) else ShortEdge(c, level, edge)
    ensures edge == Anchor(c, level, swing, entry)
  {
  }

  lemma EdgeIsPositive(c: Candidate, level: Level, edge: real)
    requires c.WellFormed()
    requires if c.bullish then LongEdge(c, level, edge) else ShortEdge(c, level, edge)
    ensures c.completionMin > 0.0 && c.completionMax > 0.0 && c.points[0] > 0.0 ==> edge > 0.0
  {
  }

  // The soft knee is linear between 1 at 60, 1.5 at 75, 1.8 at 85 and 2 at 90.
  lemma KneeIs(score: int)
    ensures var m := TrapMultiplier(score);
            && (score <= 60 ==> m == 1.0)
            && (60 <= score <= 75 ==> 30.0 * (m - 1.0) == (score - 60) as real)
            && (75 <= score <= 85 ==> 100.0 * (m - 1.5) == 3.0 * (score - 75) as real)
            && (85 <= score <= 90 ==> 25.0 * (m - 1.8) == (score - 85) as real)
            && (score >= 90 ==> m == 2.0)
  {
  }

  // ------------------------------------------------------------------
  // Entry, targets, ratios and grade
  // ------------------------------------------------------------------

  predicate InZone(c: Candidate, price: real) {
    (c.completionMin <= price <= c.completionMax) || (c.completionMax <= price <= c.completionMin)
  }

  // The entry is the price when that lies in the zone, else the near end of the zone for a pattern
  // approached from the outside; the status follows the same line.
  lemma EntryRules(ctx: Context, c: Candidate)
    ensures InZone(c, ctx.price) ==> EntryOf(ctx, c) == ctx.price
    ensures !InZone(c, ctx.price) ==>
              var entry := EntryOf(ctx, c);
              && (entry == c.completionMin || entry == c.completionMax)
              && if c.bullish then entry >= c.completionMin && entry >= c.completionMax
                 else entry <= c.completionMin && entry <= c.completionMax
    ensures StatusOf(ctx, c) == Approaching <==> !InZone(c, ctx.price)
    ensures StatusOf(ctx, c) == Confirmed <==> InZone(c, ctx.price) && ctx.reversalCandle
    ensures StatusOf(ctx, c) == Swept <==>
              && InZone(c, ctx.price) && !ctx.reversalCandle
              && ((ctx.low < c.completionMin && ctx.low < c.completionMax)
                  || (ctx.high > c.completionMin && ctx.high > c.completionMax))
  {
  }

  // Each target lies its fraction of the distance between A and the entry away.
  lemma TargetRules(t: StopTuning, c: Candidate, entry: real, fib: real)
    requires c.WellFormed()
    ensures var a := c.points[if c.family == XABCD then 1 else 0];
            var span := if a >= entry then a - entry else entry - a;
            Target(t, c, entry, fib) == if c.bullish then entry + fib * span else entry - fib * span
  {
  }

  // The net ratio: what is gained over what is risked, after round-trip costs on both.
  lemma RatioRules(t: StopTuning, entry: real, stop: real, target: real, cost: real)
    requires cost == 2.0 * (t.feeRate + t.slippageRate) * entry
    ensures var reward, risk := RAbs(target - entry) - cost, RAbs(entry - stop) + cost;
            var rr := NetRr(t, entry, stop, target);
            && (rr.Some? <==> entry > 0.0 && stop != entry && reward > 0.0 && risk > 0.0)
            && (rr.Some? ==> rr.value * risk == reward)
  {
    assert CostOf(t, entry) == cost;
    hide CostOf;
    var reward, risk := RAbs(target - entry) - cost, RAbs(entry - stop) + cost;
    if risk > 0.0 {
      Undivide(reward, risk);
    }
  }

  lemma Undivide(x: real, d: real)
    requires d > 0.0
    ensures (x / d) * d == x
  {
  }

  // The hard gates: a narrow zone, no counter-trend, TP1 at 1 and TP2 at 1.5.
  predicate Gates(rr1: Option<real>, rr2: Option<real>, counter: bool, width: real) {
    rr1.Some? && rr2.Some? && width < 0.04 && !counter && rr1.value >= 1.0 && rr2.value >= 1.5
  }

  lemma GradeRules(score: real, rr1: Option<real>, rr2: Option<real>, aligned: bool, counter: bool, aMin: real, width: real)
    ensures var g := GradeOf(score, rr1, rr2, aligned, counter, aMin, width);
            && (g == Some(GradeA) <==>
                  Gates(rr1, rr2, counter, width) && score >= aMin && rr2.value >= 2.0 && aligned)
            && (g == Some(GradeB) <==>
                  Gates(rr1, rr2, counter, width) && score >= 60.0 && !(score >= aMin && rr2.value >= 2.0 && aligned))
            && (g == Some(GradeReference) <==>
                  && rr1.Some? && rr2.Some? && score >= 45.0
                  && (!Gates(rr1, rr2, counter, width)
                      || (score < 60.0 && !(score >= aMin && rr2.value >= 2.0 && aligned))))
            && g != Some(GradeC)
  {
  }

  // What the grade of a candidate is given: the score clamped to 0..100, the trend relative to the
  // pattern's side, and the zone's width relative to its middle.
  lemma GradeInputs(ctx: Context, c: Candidate, rr1: Option<real>, rr2: Option<real>) returns (width: real)
    requires c.completionMin > 0.0 && c.completionMax > 0.0
    ensures 0.5 * width * (c.completionMin + c.completionMax) == RAbs(c.completionMax - c.completionMin)
    ensures var score := if ctx.rawScore < 0.0 then 0.0 else if ctx.rawScore > 100.0 then 100.0 else ctx.rawScore;
            GradeFor(ctx, c, rr1, rr2) == GradeOf(score, rr1, rr2, if c.bullish then ctx.trendUp else ctx.trendDown,
                                                  if c.bullish then ctx.trendDown else ctx.trendUp, ctx.aMin, width)
  {
    width := Width(c);
    var mid := (c.PrzLow() + c.PrzHigh()) / 2.0;
    assert mid == 0.5 * (c.completionMin + c.completionMax);
    Undivide(c.PrzHigh() - c.PrzLow(), mid);
    assert width * mid == RAbs(c.completionMax - c.completionMin);
    assert RMax(0.0, RMin(100.0, ctx.rawScore))
        == if ctx.rawScore < 0.0 then 0.0 else if ctx.rawScore > 100.0 then 100.0 else ctx.rawScore;
    hide GradeOf, Width;
    assert 0.5 * width * (c.completionMin + c.completionMax) == width * mid;
  }

  // ------------------------------------------------------------------
  // When a signal is emitted, and what it carries
  // ------------------------------------------------------------------

  lemma EmittedIff(t: StopTuning, ctx: Context, c: Candidate, level: Level)
    requires c.WellFormed() && PositiveBuffers(t) && FibsRise(t)
    ensures var entry := EntryOf(ctx, c);
            var first := ComputeStop(t, c, ctx.atr, level, ctx.swing, entry, NO_WIDENING);
            var t1, t2 := Target(t, c, entry, t.fib1), Target(t, c, entry, t.fib2);
            Score(t, ctx, c, level).Emitted? <==>
              && ctx.atr > 0.0
              && ctx.authenticity >= (if c.formed then t.authenticityVeto else t.authenticityHalve)
              && !ctx.trapVeto && !ctx.momentumVeto
              && first.Placed?
              && c.points[if c.family == XABCD then 1 else 0] != entry
              && entry > 0.0 && t1 > 0.0 && t2 > 0.0
              && var g := GradeFor(ctx, c, NetRr(t, entry, first.stop, t1), NetRr(t, entry, first.stop, t2));
                 && g.Some?
                 && ComputeStop(t, c, ctx.atr, level, ctx.swing, entry, FinalWidening(ctx, g.value)).Placed?
  {
    GateIff(t, ctx, c, level);
    hide EntryOf, StatusOf, Target, NetRr, GradeFor, TrapMultiplier, ComputeStop, GateOk;
  }

  lemma EmittedCarries(t: StopTuning, ctx: Context, c: Candidate, level: Level)
    requires c.WellFormed() && Score(t, ctx, c, level).Emitted?
    ensures var s := Score(t, ctx, c, level).signal;
            var first := ComputeStop(t, c, ctx.atr, level, ctx.swing, s.entry, NO_WIDENING);
            && s.entry == EntryOf(ctx, c) && s.status == StatusOf(ctx, c)
            && s.t1 == Target(t, c, s.entry, t.fib1) && s.t2 == Target(t, c, s.entry, t.fib2) && s.t3 == Target(t, c, s.entry, t.fib3)
            && first.Placed?
            && Some(s.grade) == GradeFor(ctx, c, NetRr(t, s.entry, first.stop, s.t1), NetRr(t, s.entry, first.stop, s.t2))
            && ComputeStop(t, c, ctx.atr, level, ctx.swing, s.entry,
                           Widening(TrapMultiplier(ctx.trapScore), ctx.regime, Some(s.grade), ctx.override))
               == Placed(s.stop, s.anchor)
            && s.rr1 == NetRr(t, s.entry, s.stop, s.t1) && s.rr2 == NetRr(t, s.entry, s.stop, s.t2)
            && s.tradable == (s.grade != GradeReference)
  {
    hide EntryOf, StatusOf, Target, NetRr, GradeFor, TrapMultiplier, ComputeStop, GateOk;
  }

  // ------------------------------------------------------------------
  // The swing
  // ------------------------------------------------------------------

  ghost predicate LowestOf(xs: seq<real>, from: int, x: real)
    requires 0 <= from <= |xs|
  {
    && (forall i :: from <= i < |xs| ==> x <= xs[i])
    && exists i :: from <= i < |xs| && xs[i] == x
  }

  ghost predicate HighestOf(xs: seq<real>, from: int, x: real)
    requires 0 <= from <= |xs|
  {
    && (forall i :: from <= i < |xs| ==> x >= xs[i])
    && exists i :: from <= i < |xs| && xs[i] == x
  }

  lemma {:induction false} LowestIsAttained(xs: seq<real>) returns (i: nat, j: nat)
    requires xs != []
    ensures i < |xs| && xs[i] == Lowest(xs) && j < |xs| && xs[j] == Highest(xs)
  {
    i, j := |xs| - 1, |xs| - 1;
    if |xs| > 1 {
      var i', j' := LowestIsAttained(Front(xs));
      if Lowest(Front(xs)) <= Last(xs) {
        i := i';
      }
      if Highest(Front(xs)) >= Last(xs) {
        j := j';
      }
    }
  }

  lemma TailExtremes(xs: seq<real>, k: nat)
    requires 0 < k <= |xs|
    ensures LowestOf(xs, |xs| - k, Lowest(Tail(xs, k))) && HighestOf(xs, |xs| - k, Highest(Tail(xs, k)))
  {
    var tail, from := Tail(xs, k), |xs| - k;
    assert tail == xs[from..];
    var i, j := LowestIsAttained(tail);
    assert xs[from + i] == Lowest(tail) && xs[from + j] == Highest(tail);
    forall m | from <= m < |xs|
      ensures Lowest(tail) <= xs[m] <= Highest(tail)
    {
      LowestIsLeast(tail, m - from);
    }
  }

  // Sixtieths of the recent range, bar by bar.
  function Travelled(bars: real, travel: real): real {
    bars * travel
  }

  // How far the swing looks back when `high` and `low` bound the last sixty bars: as long as eight ATR
  // take at their pace, from 20 to 120 bars.
  predicate LooksBack(k: nat, n: nat, atr: real, high: real, low: real) {
    && 20 <= k <= n && k <= 120
    && (k > 20 ==> Travelled(k as real, high - low) <= 480.0 * atr)
    && (k < 120 && k < n ==> Travelled((k + 1) as real, high - low) > 480.0 * atr)
  }

  // The swing is the extreme of that many last bars; without a range or an ATR there is none.
  lemma SwingRules(lows: seq<real>, highs: seq<real>, atr: real, bullish: bool)
      returns (high: real, low: real, k: nat)
    requires |lows| == |highs| >= 20
    ensures var recent := IMin(60, |lows|);
            HighestOf(highs, |highs| - recent, high) && LowestOf(lows, |lows| - recent, low)
    ensures SwingAnchor(lows, highs, atr, bullish).Some? <==> atr > 0.0 && high > low
    ensures atr > 0.0 && high > low ==>
              && LooksBack(k, |lows|, atr, high, low)
              && var x := SwingAnchor(lows, highs, atr, bullish).value;
                 if bullish then LowestOf(lows, |lows| - k, x) else HighestOf(highs, |highs| - k, x)
  {
    RecentRange(lows);
    RecentRange(highs);
    high, low := Highest(Tail(highs, 60)), Lowest(Tail(lows, 60));
    hide Lowest, Highest, LowestOf, HighestOf, Tail, LooksBack;
    k := 20;
    if atr > 0.0 && high > low {
      k := Lookback(|lows|, atr, high - low);
      hide Lookback;
      LookbackFits(|lows|, atr, high, low);
      SwingIsExtreme(lows, highs, atr, bullish, k);
    } else {
      SwingUnfolds(lows, highs, atr, bullish);
    }
    hide SwingAnchor;
  }

  lemma SwingIsExtreme(lows: seq<real>, highs: seq<real>, atr: real, bullish: bool, k: nat)
    requires |lows| == |highs| >= 20 && 0 < k <= |lows|
    requires var travel := Highest(Tail(highs, 60)) - Lowest(Tail(lows, 60));
             atr > 0.0 && travel > 0.0 && k == Lookback(|lows|, atr, travel)
    ensures var swing := SwingAnchor(lows, highs, atr, bullish);
            swing.Some? && if bullish then LowestOf(lows, |lows| - k, swing.value) else HighestOf(highs, |highs| - k, swing.value)
  {
    SwingUnfolds(lows, highs, atr, bullish);
    TailExtremes(highs, k);
    TailExtremes(lows, k);
    hide Lowest, Highest, LowestOf, HighestOf, Tail, Lookback, SwingAnchor;
  }

  lemma LookbackFits(n: nat, atr: real, high: real, low: real)
    requires n >= 20 && atr > 0.0 && high > low
    ensures var k := Lookback(n, atr, high - low); LooksBack(k, n, atr, high, low) && 20 <= k <= n
  {
    LookbackIs(n, atr, high - low);
    hide Travelled, Covered;
  }

  lemma RecentRange(xs: seq<real>)
    requires |xs| >= 20
    ensures var from := |xs| - IMin(60, |xs|);
            LowestOf(xs, from, Lowest(Tail(xs, 60))) && HighestOf(xs, from, Highest(Tail(xs, 60)))
  {
    var recent := IMin(60, |xs|);
    assert Tail(xs, 60) == Tail(xs, recent);
    TailExtremes(xs, recent);
    hide Lowest, Highest;
  }

  lemma SwingUnfolds(lows: seq<real>, highs: seq<real>, atr: real, bullish: bool)
    requires |lows| == |highs| >= 20
    ensures var travel, swing := Highest(Tail(highs, 60)) - Lowest(Tail(lows, 60)), SwingAnchor(lows, highs, atr, bullish);
            if atr > 0.0 && travel > 0.0
            then swing == Some(if bullish then Lowest(Tail(lows, Lookback(|lows|, atr, travel)))
                               else Highest(Tail(highs, Lookback(|lows|, atr, travel))))
            else swing == None
  {
    hide Lookback, Lowest, Highest;
  }

  lemma LookbackIs(n: nat, atr: real, travel: real)
    requires n >= 20 && atr > 0.0 && travel > 0.0
    ensures var k := Lookback(n, atr, travel);
            && (k > 20 ==> Travelled(k as real, travel) <= 480.0 * atr)
            && (k < 120 && k < n ==> Travelled((k + 1) as real, travel) > 480.0 * atr)
  {
    CoveredBars(atr, travel);
    hide Covered, Travelled;
    var k, q := Lookback(n, atr, travel), Covered(atr, travel);
    Scaled(k as real, q, travel);
    Scaled((k + 1) as real, q, travel);
    FloorBounds(q);
    assert (k > 20 ==> k <= q.Floor) && (k < 120 && k < n ==> k >= q.Floor);
    hide Lookback;
  }

  lemma FloorBounds(q: real)
    ensures q.Floor as real <= q < (q.Floor + 1) as real
  {
  }

  lemma CoveredBars(atr: real, travel: real)
    requires travel > 0.0
    ensures Travelled(Covered(atr, travel), travel) == 480.0 * atr
  {
    Undivide(8.0 * atr, travel);
    var y := 8.0 * atr / travel;
    assert (y * 60.0) * travel == 60.0 * (y * travel);
  }

  lemma Scaled(x: real, y: real, travel: real)
    requires travel > 0.0
    ensures x <= y ==> Travelled(x, travel) <= Travelled(y, travel)
    ensures x > y ==> Travelled(x, travel) > Travelled(y, travel)
  {
    assert (y - x) * travel == y * travel - x * travel;
    assert x > y ==> (x - y) * travel > 0.0;
  }
}
