/** What every simulated trade satisfies, in each exit mode. */
module BacktestFacts {
  import opened Prelude
  import opened Backtest

  // Price b is at least as good for the trade as price a.
  predicate Favours(g: Signal, a: real, b: real) {
    if g.direction == Long then a <= b else a >= b
  }

  predicate WellPlaced(g: Signal) {
    if g.direction == Long then g.stop < g.entry < g.target else g.stop > g.entry > g.target
  }

  predicate GoodRow(row: Row) {
    row.low <= row.close <= row.high
  }

  predicate Tradable(data: seq<Row>, g: Signal) {
    && g.index < |data|
    && WellPlaced(g)
    && g.entry == data[g.index].close
    && forall i :: 0 <= i < |data| ==> GoodRow(data[i])
  }

  function RewardRisk(g: Signal): real {
    RMultiple(g, g.target)
  }

  lemma RFacts(g: Signal, a: real, b: real)
    requires WellPlaced(g)
    ensures RMultiple(g, g.entry) == 0.0 && RMultiple(g, g.stop) == -1.0
    ensures Favours(g, a, b) ==> RMultiple(g, a) <= RMultiple(g, b)
    ensures !Favours(g, a, b) ==> RMultiple(g, b) < RMultiple(g, a)
  {
    var risk := RAbs(g.entry - g.stop);
    Divide(a - g.entry, b - g.entry, risk);
    Divide(g.entry - a, g.entry - b, risk);
    Divide(g.entry - b, g.entry - a, risk);
    Divide(b - g.entry, a - g.entry, risk);
    Unit(risk);
  }

  lemma Unit(d: real)
    requires d > 0.0
    ensures d / d == 1.0 && (-d) / d == -1.0 && 0.0 / d == 0.0
  {
  }

  lemma Divide(x: real, y: real, d: real)
    requires d > 0.0
    ensures x < y ==> x / d < y / d
    ensures x <= y ==> x / d <= y / d
  {
  }

  function TotalFraction(ps: seq<PartialExit>): real {
    if ps == [] then 0.0 else TotalFraction(Front(ps)) + Last(ps).fraction
  }

  function TotalR(ps: seq<PartialExit>): real {
    if ps == [] then 0.0 else TotalR(Front(ps)) + Last(ps).r
  }

  // The partial exits so far: half at the target, then a quarter at the RSI bar's close.
  predicate PartialsOk(g: Signal, m: Live) {
    var half := PartialExit(0.5, g.target, 0.5 * RewardRisk(g), PartialTarget);
    if !m.t1 then m.partials == [] && !m.rsiDone
    else if !m.rsiDone then m.partials == [half]
    else
      && |m.partials| == 2
      && m.partials[0] == half
      && var p := m.partials[1];
         p.fraction == 0.25 && p.r == 0.25 * RMultiple(g, p.price) && p.reason == RsiExtreme
         && RMultiple(g, p.price) > -1.0
  }

  predicate LiveOk(g: Signal, mode: Mode, m: Live) {
    && PartialsOk(g, m)
    && m.remaining == 1.0 - TotalFraction(m.partials)
    && m.realized == TotalR(m.partials)
    && (!m.t1 ==> m.stop == g.stop && !m.trailing)
    && (m.t1 ==> mode.partial && Favours(g, g.entry, m.stop))
  }

  // Closing the rest at `price` keeps the promises about R.
  predicate ExitOk(g: Signal, mode: Mode, m: Live, price: real) {
    var r := m.realized + Weighted(m.remaining, RMultiple(g, price));
    && RMultiple(g, price) >= -1.0
    && r >= -1.0
    && (m.t1 ==> r > 0.5 * (RewardRisk(g) - 1.0))
    && (!mode.partial ==> r <= RewardRisk(g))
  }

  lemma Sums(ps: seq<PartialExit>)
    ensures |ps| == 1 ==> TotalFraction(ps) == ps[0].fraction && TotalR(ps) == ps[0].r
    ensures |ps| == 2 ==> TotalFraction(ps) == ps[0].fraction + ps[1].fraction && TotalR(ps) == ps[0].r + ps[1].r
  {
    if |ps| == 2 {
      Sums(Front(ps));
    }
  }

  // With a live trade accounted for, exits at -1R or better before the target, or above -1R
  // on the target bar, or at breakeven or better later, all keep the promises.
  lemma ExitKeepsPromises(g: Signal, mode: Mode, m: Live, price: real)
    requires WellPlaced(g) && LiveOk(g, mode, m) && RewardRisk(g) > 0.0
    requires RMultiple(g, price) >= -1.0 && (m.t1 ==> RMultiple(g, price) > -1.0)
    requires !mode.partial ==> RMultiple(g, price) <= RewardRisk(g)
    ensures ExitOk(g, mode, m, price)
  {
    hide RMultiple;
    Sums(m.partials);
    var r := RMultiple(g, price);
    assert m.remaining == 1.0 || m.remaining == 0.5 || m.remaining == 0.25;
    if m.remaining == 1.0 {
      assert Weighted(m.remaining, r) == r;
    } else if m.remaining == 0.5 {
      assert Weighted(m.remaining, r) == 0.5 * r;
    } else {
      assert Weighted(m.remaining, r) == 0.25 * r;
    }
  }

  lemma TakeOk(g: Signal, mode: Mode, row: Row, m: Live)
    requires WellPlaced(g) && LiveOk(g, mode, m)
    ensures var m' := TakeTarget(g, mode, row, m);
            LiveOk(g, mode, m') && Favours(g, m.stop, m'.stop)
  {
    hide RMultiple;
    var m' := TakeTarget(g, mode, row, m);
    Sums(m'.partials);
    assert Weighted(0.5, RMultiple(g, g.target)) == 0.5 * RMultiple(g, g.target);
  }

  lemma ReduceOk(g: Signal, mode: Mode, row: Row, m: Live)
    requires WellPlaced(g) && LiveOk(g, mode, m) && RMultiple(g, row.close) > -1.0
    ensures var m' := ReduceOnRsi(g, mode, row, m);
            LiveOk(g, mode, m') && m'.stop == m.stop && m'.t1 == m.t1
  {
    hide RMultiple;
    var m' := ReduceOnRsi(g, mode, row, m);
    Sums(m.partials);
    Sums(m'.partials);
    assert Weighted(0.25, RMultiple(g, row.close)) == 0.25 * RMultiple(g, row.close);
  }

  // One bar: a trade that stays open is accounted for, its stop no looser, and could be closed
  // at this bar's close within the promises; one that exits meets them.
  lemma StepOk(g: Signal, mode: Mode, row: Row, i: nat, m: Live)
    requires WellPlaced(g) && GoodRow(row) && LiveOk(g, mode, m) && i >= g.index
    requires i == g.index ==> row.close == g.entry
    ensures match BarStep(g, mode, row, i, m)
            case Running(m') =>
              && LiveOk(g, mode, m')
              && Favours(g, m.stop, m'.stop)
              && ExitOk(g, mode, m', row.close)
            case Exited(t) => t.barsHeld == i - g.index && TradeOk(g, mode, t)
  {
    hide RMultiple, ExitOk, LiveOk;
    RFacts(g, g.entry, g.target);
    RFacts(g, g.target, g.entry);
    StopOk(g, mode, m);
    LiveMode(g, mode, m);
    if TouchesStop(g, row, m.stop) {
      ExitedOk(g, mode, m, m.stop, StopLoss, i);
    } else {
      CloseOk(g, mode, m, row);
      if i <= g.index {
        ExitKeepsPromises(g, mode, m, row.close);
      } else if TouchesTarget(g, row) && !m.t1 && !mode.partial {
        ExitedOk(g, mode, m, g.target, FirstTarget, i);
      } else {
        var m1 := TakeTarget(g, mode, row, m);
        TakeOk(g, mode, row, m);
        ReduceOk(g, mode, row, m1);
        var m2 := ReduceOnRsi(g, mode, row, m1);
        TrailOk(g, mode, row, m2);
        var m3 := TrailStop(g, row, m2);
        LowCap(g, row);
        ExitedOk(g, mode, m3, row.close, TrendFlip, i);
      }
    }
  }

  lemma LiveMode(g: Signal, mode: Mode, m: Live)
    requires LiveOk(g, mode, m)
    ensures m.t1 ==> mode.partial
  {
  }

  lemma StopOk(g: Signal, mode: Mode, m: Live)
    requires WellPlaced(g) && LiveOk(g, mode, m)
    ensures RMultiple(g, m.stop) >= -1.0 && (m.t1 ==> RMultiple(g, m.stop) >= 0.0)
    ensures !m.t1 ==> RMultiple(g, m.stop) == -1.0
    ensures RewardRisk(g) > 0.0
  {
    hide RMultiple;
    RFacts(g, g.entry, m.stop);
    RFacts(g, g.target, g.entry);
  }

  lemma CloseOk(g: Signal, mode: Mode, m: Live, row: Row)
    requires WellPlaced(g) && LiveOk(g, mode, m) && GoodRow(row) && !TouchesStop(g, row, m.stop)
    ensures RMultiple(g, row.close) > -1.0
  {
    hide RMultiple;
    StopOk(g, mode, m);
    RFacts(g, row.close, m.stop);
  }

  lemma LowCap(g: Signal, row: Row)
    requires WellPlaced(g) && GoodRow(row)
    ensures !TouchesTarget(g, row) ==> RMultiple(g, row.close) <= RewardRisk(g)
  {
    hide RMultiple;
    RFacts(g, row.close, g.target);
  }

  lemma TrailOk(g: Signal, mode: Mode, row: Row, m: Live)
    requires LiveOk(g, mode, m)
    ensures var m' := TrailStop(g, row, m);
            LiveOk(g, mode, m') && Favours(g, m.stop, m'.stop) && m'.t1 == m.t1
  {
    hide RMultiple;
  }

  // The finished trade: fractions total 1, R is the fraction-weighted sum of the exits, and the bounds hold.
  predicate TradeOk(g: Signal, mode: Mode, t: Trade) {
    && t.r == TotalR(t.partials) + Weighted(1.0 - TotalFraction(t.partials), RMultiple(g, t.exitPrice))
    && (forall i :: 0 <= i < |t.partials| ==>
          t.partials[i].r == Weighted(t.partials[i].fraction, RMultiple(g, t.partials[i].price)))
    && (t.partials == []
        || (TotalFraction(t.partials) == 0.5 && |t.partials| == 1)
        || (TotalFraction(t.partials) == 0.75 && |t.partials| == 2))
    && (t.partials != [] ==> mode.partial && t.partials[0].price == g.target)
    && t.r >= -1.0
    && (t.partials != [] ==> t.r > 0.5 * (RewardRisk(g) - 1.0))
    && (!mode.partial ==> t.r <= RewardRisk(g))
  }

  lemma ExitedOk(g: Signal, mode: Mode, m: Live, price: real, why: Reason, i: nat)
    requires WellPlaced(g) && LiveOk(g, mode, m) && RewardRisk(g) > 0.0
    requires RMultiple(g, price) >= -1.0 && (m.t1 ==> RMultiple(g, price) > -1.0)
    requires !mode.partial ==> RMultiple(g, price) <= RewardRisk(g)
    ensures ExitOk(g, mode, m, price)
    ensures TradeOk(g, mode, ExitAt(g, m, price, why, i))
  {
    hide RMultiple;
    ExitKeepsPromises(g, mode, m, price);
    Sums(m.partials);
  }

  // The state of the trade before each bar.
  lemma {:induction false} BeforeOk(data: seq<Row>, g: Signal, mode: Mode, i: nat)
    requires Tradable(data, g) && g.index <= i <= |data|
    ensures match Before(data, g, mode, i)
            case Running(m) => LiveOk(g, mode, m) && (i > g.index ==> ExitOk(g, mode, m, data[i - 1].close))
            case Exited(t) => TradeOk(g, mode, t) && 0 <= t.barsHeld < i - g.index
  {
    if i > g.index {
      hide LiveOk, ExitOk, TradeOk, BarStep;
      BeforeOk(data, g, mode, i - 1);
      var s := Before(data, g, mode, i - 1);
      if s.Running? {
        StepOk(g, mode, data[i - 1], i - 1, s.m);
      }
    }
  }

  // Every simulated trade, in every mode, within the data.
  lemma SimulatedTrade(data: seq<Row>, g: Signal, mode: Mode)
    requires Tradable(data, g)
    ensures var t := Simulate(data, g, mode);
            TradeOk(g, mode, t) && 0 <= t.barsHeld < |data| - g.index
  {
    hide LiveOk, TradeOk, BarStep;
    BeforeOk(data, g, mode, |data|);
    var s := Before(data, g, mode, |data|);
    if s.Running? {
      ClosedOut(g, mode, s.m, data[|data| - 1].close, |data| - 1);
    }
  }

  lemma ClosedOut(g: Signal, mode: Mode, m: Live, price: real, i: nat)
    requires LiveOk(g, mode, m) && ExitOk(g, mode, m, price)
    ensures TradeOk(g, mode, ExitAt(g, m, price, EndOfData, i))
  {
    hide RMultiple;
    Sums(m.partials);
  }

  // Whatever the signal, a trade ends on a bar of the data, at or after its own.
  lemma {:induction false} HeldWithin(data: seq<Row>, g: Signal, mode: Mode, i: nat)
    requires g.index <= i <= |data|
    ensures Before(data, g, mode, i).Exited? ==> 0 <= Before(data, g, mode, i).trade.barsHeld < i - g.index
  {
    hide RMultiple, Weighted;
    if i > g.index {
      HeldWithin(data, g, mode, i - 1);
    }
  }

  // The working stop never loosens from bar to bar.
  lemma StopNeverLoosens(data: seq<Row>, g: Signal, mode: Mode, i: nat, j: nat)
    requires Tradable(data, g) && g.index <= i <= j <= |data|
    requires Before(data, g, mode, j).Running?
    ensures Before(data, g, mode, i).Running?
    ensures Favours(g, Before(data, g, mode, i).m.stop, Before(data, g, mode, j).m.stop)
    decreases j - i
  {
    hide BarStep;
    if i < j {
      StopNeverLoosens(data, g, mode, i, j - 1);
      BeforeOk(data, g, mode, j - 1);
      StepOk(g, mode, data[j - 1], j - 1, Before(data, g, mode, j - 1).m);
    }
  }

  // With reward at least the risk, a trade that banked its first target ends in profit.
  lemma FirstTargetMeansProfit(data: seq<Row>, g: Signal, mode: Mode)
    requires Tradable(data, g) && RewardRisk(g) >= 1.0
    ensures Simulate(data, g, mode).partials != [] ==> Simulate(data, g, mode).r > 0.0
  {
    SimulatedTrade(data, g, mode);
  }

  // Below 1:1 that promise fails for every reward/risk: a losing trade that banked its target.
  lemma FirstTargetMayLose(rr: real) returns (data: seq<Row>, g: Signal)
    requires 0.0 < rr < 1.0
    ensures Tradable(data, g) && RewardRisk(g) == rr
    ensures var t := Simulate(data, g, Mode(true, false)); t.partials != [] && t.r < 0.0
  {
    g := Signal(Long, 10.0, 9.0, 10.0 + rr, 0, 0.0);
    var last := 10.0 - 0.5 * (1.0 + rr);
    data := [Row(10.0, 10.0, 9.5, 10.0, None, None, None, None, 0.0),
             Row(10.0, 10.0 + rr, last, last, Some(11.0), None, None, None, 0.0)];
    var mode := Mode(true, false);
    assert RMultiple(g, g.target) == rr && RMultiple(g, last) == last - 10.0;
    assert Before(data, g, mode, 0) == Running(Start(g));
    assert BarStep(g, mode, data[0], 0, Start(g)) == Running(Start(g));
    assert Before(data, g, mode, 1) == Running(Start(g));
    var m := TakeTarget(g, mode, data[1], Start(g));
    assert m.remaining == 0.5 && m.realized == 0.5 * rr;
    var t := ExitAt(g, m, last, TrendFlip, 1);
    assert BarStep(g, mode, data[1], 1, Start(g)) == Exited(t);
    assert Before(data, g, mode, 2) == Exited(t);
    assert Weighted(0.5, last - 10.0) == 0.5 * (last - 10.0);
  }

  predicate TargetTouchedBy(data: seq<Row>, g: Signal, i: nat)
    requires i <= |data|
  {
    exists k :: g.index < k < i && TouchesTarget(g, data[k])
  }

  // Some bar went extreme on or after a bar that touched the target.
  predicate ExtremeSinceTarget(data: seq<Row>, g: Signal, i: nat)
    requires i <= |data|
  {
    exists k :: g.index < k < i && Extreme(g, data[k]) && TargetTouchedBy(data, g, k + 1)
  }

  // While the trade is open, the flags record exactly what the bars did.
  lemma {:induction false} FlagsIff(data: seq<Row>, g: Signal, mode: Mode, i: nat)
    requires g.index <= i <= |data| && Before(data, g, mode, i).Running?
    ensures var m := Before(data, g, mode, i).m;
            && (m.t1 <==> mode.partial && TargetTouchedBy(data, g, i))
            && (m.rsiDone <==> mode.partial && ExtremeSinceTarget(data, g, i))
  {
    if i > g.index {
      hide RMultiple, Weighted;
      FlagsIff(data, g, mode, i - 1);
      var m0, m := Before(data, g, mode, i - 1).m, Before(data, g, mode, i).m;
      var row := data[i - 1];
      assert m.t1 <==> m0.t1 || (i - 1 > g.index && mode.partial && TouchesTarget(g, row));
      assert m.rsiDone <==> m0.rsiDone || (i - 1 > g.index && mode.partial && m.t1 && Extreme(g, row));
      assert TargetTouchedBy(data, g, i) <==>
             TargetTouchedBy(data, g, i - 1) || (i - 1 > g.index && TouchesTarget(g, row));
      assert ExtremeSinceTarget(data, g, i) <==>
             ExtremeSinceTarget(data, g, i - 1)
             || (i - 1 > g.index && Extreme(g, row) && TargetTouchedBy(data, g, i));
    }
  }

  // Bar k ends a full-mode trade.
  predicate Ends(data: seq<Row>, g: Signal, k: nat)
    requires k < |data|
  {
    TouchesStop(g, data[k], g.stop) || (k > g.index && (TouchesTarget(g, data[k]) || Flipped(g, data[k])))
  }

  // In full mode the trade ends at the first bar that touches stop or target or flips the trend.
  lemma {:induction false} FullModeOpenIff(data: seq<Row>, g: Signal, trailing: bool, i: nat)
    requires g.index <= i <= |data|
    ensures var s := Before(data, g, Mode(false, trailing), i);
            && (s.Running? <==> forall k :: g.index <= k < i ==> !Ends(data, g, k))
            && (s.Running? ==> s.m == Start(g))
            && (s.Exited? ==>
                  var k := g.index + s.trade.barsHeld;
                  && g.index <= k < i && Ends(data, g, k)
                  && (forall j :: g.index <= j < k ==> !Ends(data, g, j))
                  && s.trade.exitReason == (if TouchesStop(g, data[k], g.stop) then StopLoss
                                            else if TouchesTarget(g, data[k]) then FirstTarget else TrendFlip)
                  && s.trade.exitPrice == (match s.trade.exitReason
                                           case StopLoss => g.stop
                                           case FirstTarget => g.target
                                           case _ => data[k].close))
  {
    if i > g.index {
      hide RMultiple, Weighted;
      FullModeOpenIff(data, g, trailing, i - 1);
      var s := Before(data, g, Mode(false, trailing), i - 1);
      if s.Running? {
        assert BarStep(g, Mode(false, trailing), data[i - 1], i - 1, s.m).Exited? <==> Ends(data, g, i - 1);
      }
    }
  }

  lemma {:induction false} HeldPastSignal(data: seq<Row>, g: Signal, mode: Mode, i: nat)
    requires g.index < i <= |data| && Before(data, g, mode, g.index + 1).Running?
    ensures Before(data, g, mode, i).Exited? ==> Before(data, g, mode, i).trade.barsHeld >= 1
  {
    if i > g.index + 1 {
      HeldPastSignal(data, g, mode, i - 1);
      hide TakeTarget, ReduceOnRsi, TrailStop, TouchesStop, TouchesTarget, Flipped;
    }
  }

  // A trade ends on its signal bar, at its stop, if and only if that bar touches the stop; the
  // only other way to hold it for no bars is to run out of data.
  lemma SignalBarIff(data: seq<Row>, g: Signal, mode: Mode)
    requires g.index < |data|
    ensures var t := Simulate(data, g, mode);
            && (t.barsHeld == 0 <==> TouchesStop(g, data[g.index], g.stop) || g.index == |data| - 1)
            && (TouchesStop(g, data[g.index], g.stop) ==>
                  t.exitReason == StopLoss && t.exitPrice == g.stop && t.partials == [])
  {
    assert Before(data, g, mode, g.index + 1) == BarStep(g, mode, data[g.index], g.index, Start(g));
    if TouchesStop(g, data[g.index], g.stop) {
      ExitIsFinal(data, g, mode, g.index + 1, |data|);
    } else {
      HeldPastSignal(data, g, mode, |data|);
    }
    hide BarStep, TouchesStop;
  }
}
