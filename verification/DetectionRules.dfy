/** Which bars fire a signal, and with which prices, in terms of the columns of the bar alone. */
module DetectionRules {
  import opened Prelude
  import opened Backtest
  import opened Portfolio

  function Times(x: real, y: real): real {
    x * y
  }

  lemma SameProduct()
    ensures forall x: real, y: real :: Weighted(x, y) == Times(x, y)
  {
  }

  // What long and short entries share: past the warm-up, with all columns they look at.
  predicate Ready(data: seq<Row>, i: nat) {
    && 200 <= i < |data|
    && data[i - 1].rsi.Some? && data[i].rsi.Some? && data[i].atr.Some? && data[i].ema200.Some?
  }

  // The RSI comes up out of the oversold zone above the EMA200, and every enabled filter agrees.
  predicate LongFires(data: seq<Row>, o: Options, i: nat) {
    && Ready(data, i)
    && var row := data[i];
       && data[i - 1].rsi.value <= o.oversold < row.rsi.value
       && row.close > row.ema200.value
       && (o.useEma50 ==> row.ema50.Some? && row.close > row.ema50.value)
       && (o.requireColor ==> row.close > row.open)
       && row.close > row.low - Times(o.atrMult, row.atr.value)
       && row.quality >= RMax(0.0, RMin(o.minQuality, 100.0))
  }

  // The RSI comes down out of the overbought zone below the EMA200, and every enabled filter agrees.
  predicate ShortFires(data: seq<Row>, o: Options, i: nat) {
    && Ready(data, i)
    && var row := data[i];
       && data[i - 1].rsi.value >= o.overbought > row.rsi.value
       && row.close < row.ema200.value
       && (o.useEma50 ==> row.ema50.Some? && row.close < row.ema50.value)
       && (o.requireColor ==> row.close < row.open)
       && row.close < row.high + Times(o.atrMult, row.atr.value)
       && row.quality >= RMax(0.0, RMin(o.minQuality, 100.0))
  }

  // Entry at the close, stop a multiple of the ATR below the low, target at a multiple of the risk.
  function LongAt(row: Row, o: Options, i: nat): Signal
    requires row.atr.Some?
  {
    var stop := row.low - Times(o.atrMult, row.atr.value);
    Signal(Long, row.close, stop, row.close + Times(o.rewardRisk, row.close - stop), i, row.quality)
  }

  function ShortAt(row: Row, o: Options, i: nat): Signal
    requires row.atr.Some?
  {
    var stop := row.high + Times(o.atrMult, row.atr.value);
    Signal(Short, row.close, stop, row.close - Times(o.rewardRisk, stop - row.close), i, row.quality)
  }

  lemma LongAtBar(data: seq<Row>, o: Options, i: nat)
    requires 200 <= i < |data|
    ensures var g := SignalAt(data, o, i);
            (g.Some? && g.value.direction == Long && Keeps(o, g.value)) <==> LongFires(data, o, i)
    ensures LongFires(data, o, i) ==> SignalAt(data, o, i) == Some(LongAt(data[i], o, i))
  {
    SameProduct();
    hide Weighted, Times;
  }

  lemma ShortAtBar(data: seq<Row>, o: Options, i: nat)
    requires 200 <= i < |data|
    ensures var g := SignalAt(data, o, i);
            (g.Some? && g.value.direction == Short && Keeps(o, g.value)) <==> ShortFires(data, o, i)
    ensures ShortFires(data, o, i) ==> SignalAt(data, o, i) == Some(ShortAt(data[i], o, i))
  {
    SameProduct();
    hide Weighted, Times;
  }

  // Exactly the longs and shorts of the firing bars are detected, in bar order.
  lemma DetectedIff(data: seq<Row>, o: Options, signals: seq<Signal>, g: Signal)
    requires AreSignals(data, o, signals)
    ensures g in signals <==>
              || (LongFires(data, o, g.index) && g == LongAt(data[g.index], o, g.index))
              || (ShortFires(data, o, g.index) && g == ShortAt(data[g.index], o, g.index))
    ensures forall i, j :: 0 <= i < j < |signals| ==> signals[i].index < signals[j].index
  {
    var i := g.index;
    hide SignalAt, Keeps, LongAt, ShortAt;
    if 200 <= i < |data| {
      LongAtBar(data, o, i);
      ShortAtBar(data, o, i);
      DirectionOf(data, o, i);
      hide LongFires, ShortFires;
    }
  }

  lemma DirectionOf(data: seq<Row>, o: Options, i: nat)
    requires 0 < i < |data|
    ensures SignalAt(data, o, i).Some? ==>
              (SignalAt(data, o, i).value.direction == Long || SignalAt(data, o, i).value.direction == Short)
              && SignalAt(data, o, i).value.index == i
  {
  }
}
