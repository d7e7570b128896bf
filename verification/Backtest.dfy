/**
  Bar-by-bar simulation of one trade (app/domain/rsi_trend_backtest.py): moving
  stop, first target, RSI reduction, trail, trend flip, and the R it realises.
 */
module Backtest {
  import opened Prelude

  datatype Direction = Long | Short

  // One bar with its indicator columns; None is the NaN of the data frame.
  datatype Row = Row(
    open: real, high: real, low: real, close: real,
    ema200: Option<real>, ema50: Option<real>, rsi: Option<real>, atr: Option<real>,
    quality: real)

  datatype Signal = Signal(
    direction: Direction, entry: real, stop: real, target: real, index: nat, quality: real)

  datatype Reason = StopLoss | FirstTarget | PartialTarget | RsiExtreme | TrendFlip | EndOfData

  datatype PartialExit = PartialExit(fraction: real, price: real, r: real, reason: Reason)

  datatype Trade = Trade(
    exitPrice: real, exitReason: Reason, r: real, barsHeld: int, partials: seq<PartialExit>)

  datatype Mode = Mode(partial: bool, trailing: bool)

  const OVERSOLD := 30.0
  const OVERBOUGHT := 70.0

  function RMultiple(g: Signal, price: real): real {
    var risk := RAbs(g.entry - g.stop);
    if risk <= 0.0 then 0.0
    else if g.direction == Long then (price - g.entry) / risk
    else (g.entry - price) / risk
  }

  // A fraction of the original position, in units of initial risk.
  function Weighted(fraction: real, r: real): real {
    fraction * r
  }

  predicate TouchesStop(g: Signal, row: Row, stop: real) {
    if g.direction == Long then row.low <= stop else row.high >= stop
  }

  predicate TouchesTarget(g: Signal, row: Row) {
    if g.direction == Long then row.high >= g.target else row.low <= g.target
  }

  predicate Extreme(g: Signal, row: Row) {
    row.rsi.Some? && if g.direction == Long then row.rsi.value > OVERBOUGHT else row.rsi.value < OVERSOLD
  }

  predicate Flipped(g: Signal, row: Row) {
    row.ema200.Some? && if g.direction == Long then row.close < row.ema200.value else row.close > row.ema200.value
  }

  // The variables the bar loop updates.
  datatype Live = Live(
    remaining: real, realized: real, stop: real, t1: bool, rsiDone: bool, trailing: bool,
    partials: seq<PartialExit>)

  datatype Sim = Running(m: Live) | Exited(trade: Trade)

  function Start(g: Signal): Live {
    Live(1.0, 0.0, g.stop, false, false, false, [])
  }

  function ExitAt(g: Signal, m: Live, price: real, why: Reason, i: int): Trade {
    Trade(price, why, m.realized + Weighted(m.remaining, RMultiple(g, price)), i - g.index, m.partials)
  }

  // Close half of what is left at `price`.
  function Halve(g: Signal, m: Live, price: real, why: Reason): Live {
    var half := m.remaining * 0.5;
    var r := Weighted(half, RMultiple(g, price));
    m.(remaining := m.remaining - half, realized := m.realized + r,
       partials := m.partials + [PartialExit(half, price, r, why)])
  }

  function TakeTarget(g: Signal, mode: Mode, row: Row, m: Live): Live {
    if TouchesTarget(g, row) && !m.t1 && mode.partial
    then Halve(g, m, g.target, PartialTarget).(t1 := true, stop := g.entry, trailing := mode.trailing)
    else m
  }

  function ReduceOnRsi(g: Signal, mode: Mode, row: Row, m: Live): Live {
    if mode.partial && m.t1 && !m.rsiDone && Extreme(g, row)
    then Halve(g, m, row.close, RsiExtreme).(rsiDone := true)
    else m
  }

  function TrailStop(g: Signal, row: Row, m: Live): Live {
    if !m.trailing || row.atr.None? then m
    else if g.direction == Long then m.(stop := RMax(row.close - row.atr.value, m.stop))
    else m.(stop := RMin(row.close + row.atr.value, m.stop))
  }

  // One bar of the loop; the signal bar only honours a stop.
  function BarStep(g: Signal, mode: Mode, row: Row, i: int, m: Live): Sim {
    if TouchesStop(g, row, m.stop) then Exited(ExitAt(g, m, m.stop, StopLoss, i))
    else if i <= g.index then Running(m)
    else if TouchesTarget(g, row) && !m.t1 && !mode.partial
    then Exited(ExitAt(g, m, g.target, FirstTarget, i))
    else
      var m' := TrailStop(g, row, ReduceOnRsi(g, mode, row, TakeTarget(g, mode, row, m)));
      if Flipped(g, row) then Exited(ExitAt(g, m', row.close, TrendFlip, i)) else Running(m')
  }

  // The simulation before bar i.
  function Before(data: seq<Row>, g: Signal, mode: Mode, i: nat): Sim
    requires g.index <= i <= |data|
  {
    if i == g.index then Running(Start(g))
    else
      var s := Before(data, g, mode, i - 1);
      if s.Exited? then s else BarStep(g, mode, data[i - 1], i - 1, s.m)
  }

  function Simulate(data: seq<Row>, g: Signal, mode: Mode): Trade
    requires g.index < |data|
  {
    match Before(data, g, mode, |data|)
    case Exited(trade) => trade
    case Running(m) => ExitAt(g, m, data[|data| - 1].close, EndOfData, |data| - 1)
  }

  lemma {:induction false} ExitIsFinal(data: seq<Row>, g: Signal, mode: Mode, i: nat, j: nat)
    requires g.index <= i <= j <= |data| && Before(data, g, mode, i).Exited?
    ensures Before(data, g, mode, j) == Before(data, g, mode, i)
    decreases j - i
  {
    if i < j {
      ExitIsFinal(data, g, mode, i, j - 1);
    }
  }

  // ------------------------------------------------------------------
  // The code: one loop over the bars, with early exits
  // ------------------------------------------------------------------

  // The body of the loop on an open trade.
  method AdvanceBar(g: Signal, mode: Mode, row: Row, i: int, m: Live) returns (s: Sim)
    ensures s == BarStep(g, mode, row, i, m)
  {
    hide RMultiple, Weighted;
    var remaining, realized, stop := m.remaining, m.realized, m.stop;
    var t1, rsiDone, trailing, partials := m.t1, m.rsiDone, m.trailing, m.partials;
    var isLong := g.direction == Long;
    var stopHit := if isLong then row.low <= stop else row.high >= stop;
    if stopHit {
      return Exited(Trade(stop, StopLoss, realized + Weighted(remaining, RMultiple(g, stop)), i - g.index, partials));
    }
    if i > g.index {
      var targetHit := if isLong then row.high >= g.target else row.low <= g.target;
      if targetHit && !t1 {
        var r := RMultiple(g, g.target);
        if mode.partial {
          var half := remaining * 0.5;
          realized := realized + Weighted(half, r);
          partials := partials + [PartialExit(half, g.target, Weighted(half, r), PartialTarget)];
          remaining := remaining - half;
          t1, stop, trailing := true, g.entry, mode.trailing;
        } else {
          return Exited(Trade(g.target, FirstTarget, realized + Weighted(remaining, r), i - g.index, partials));
        }
      }
      assert Live(remaining, realized, stop, t1, rsiDone, trailing, partials) == TakeTarget(g, mode, row, m);
      if mode.partial && t1 && !rsiDone && row.rsi.Some? {
        var extreme := if isLong then row.rsi.value > OVERBOUGHT else row.rsi.value < OVERSOLD;
        if extreme {
          var half := remaining * 0.5;
          var r := RMultiple(g, row.close);
          realized := realized + Weighted(half, r);
          partials := partials + [PartialExit(half, row.close, Weighted(half, r), RsiExtreme)];
          remaining := remaining - half;
          rsiDone := true;
        }
      }
      assert Live(remaining, realized, stop, t1, rsiDone, trailing, partials)
          == ReduceOnRsi(g, mode, row, TakeTarget(g, mode, row, m));
      if trailing && row.atr.Some? {
        if isLong {
          var candidate := row.close - row.atr.value;
          if candidate > stop {
            stop := candidate;
          }
        } else {
          var candidate := row.close + row.atr.value;
          if candidate < stop {
            stop := candidate;
          }
        }
      }
      if row.ema200.Some? {
        var flipped := if isLong then row.close < row.ema200.value else row.close > row.ema200.value;
        if flipped {
          return Exited(Trade(row.close, TrendFlip, realized + Weighted(remaining, RMultiple(g, row.close)),
                              i - g.index, partials));
        }
      }
    }
    s := Running(Live(remaining, realized, stop, t1, rsiDone, trailing, partials));
  }

  method SimulateOne(data: seq<Row>, g: Signal, mode: Mode) returns (trade: Trade)
    requires g.index < |data|
    ensures trade == Simulate(data, g, mode)
  {
    hide BarStep, RMultiple, Weighted;
    var m := Start(g);
    for i := g.index to |data|
      invariant Before(data, g, mode, i) == Running(m)
    {
      var s := AdvanceBar(g, mode, data[i], i, m);
      if s.Exited? {
        ExitIsFinal(data, g, mode, i + 1, |data|);
        return s.trade;
      }
      m := s.m;
    }
    trade := ExitAt(g, m, data[|data| - 1].close, EndOfData, |data| - 1);
  }
}
