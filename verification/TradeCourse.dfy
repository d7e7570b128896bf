/**
  The course of a simulated trade told from the bars alone: which bar reached the target, where the
  stop stands, what was banked and how the trade ends. Shorts are reflected longs.
 */
module TradeCourse {
  import opened Prelude
  import opened Backtest
  import opened BacktestFacts

  // ------------------------------------------------------------------
  // Reflection
  // ------------------------------------------------------------------

  function MirrorPrice(c: real, x: Option<real>): Option<real> {
    if x.None? then None else Some(c - x.value)
  }

  function MirrorSignal(c: real, g: Signal): Signal {
    Signal(if g.direction == Long then Short else Long, c - g.entry, c - g.stop, c - g.target, g.index, g.quality)
  }

  // Prices turn upside down, and so does the RSI.
  function MirrorRow(c: real, row: Row): Row {
    Row(c - row.open, c - row.low, c - row.high, c - row.close, MirrorPrice(c, row.ema200), MirrorPrice(c, row.ema50),
        MirrorPrice(100.0, row.rsi), row.atr, row.quality)
  }

  function MirrorRows(c: real, data: seq<Row>): (r: seq<Row>)
    ensures |r| == |data|
  {
    seq(|data|, i requires 0 <= i < |data| => MirrorRow(c, data[i]))
  }

  function MirrorPartials(c: real, ps: seq<PartialExit>): (r: seq<PartialExit>)
    ensures |r| == |ps|
  {
    seq(|ps|, i requires 0 <= i < |ps| => ps[i].(price := c - ps[i].price))
  }

  function MirrorLive(c: real, m: Live): Live {
    m.(stop := c - m.stop, partials := MirrorPartials(c, m.partials))
  }

  function MirrorTrade(c: real, t: Trade): Trade {
    t.(exitPrice := c - t.exitPrice, partials := MirrorPartials(c, t.partials))
  }

  function MirrorSim(c: real, s: Sim): Sim {
    match s
    case Running(m) => Running(MirrorLive(c, m))
    case Exited(t) => Exited(MirrorTrade(c, t))
  }

  lemma RMirror(c: real, g: Signal, price: real)
    ensures RMultiple(MirrorSignal(c, g), c - price) == RMultiple(g, price)
  {
    var q := MirrorSignal(c, g);
    assert RAbs(q.entry - q.stop) == RAbs(g.entry - g.stop);
    assert (c - price) - q.entry == g.entry - price && q.entry - (c - price) == price - g.entry;
  }

  lemma HalveMirror(c: real, g: Signal, m: Live, price: real, why: Reason)
    ensures Halve(MirrorSignal(c, g), MirrorLive(c, m), c - price, why) == MirrorLive(c, Halve(g, m, price, why))
  {
    RMirror(c, g, price);
    hide RMultiple, Weighted;
    var half := m.remaining * 0.5;
    var p := PartialExit(half, price, Weighted(half, RMultiple(g, price)), why);
    assert MirrorPartials(c, m.partials + [p]) == MirrorPartials(c, m.partials) + [p.(price := c - price)];
  }

  lemma BarMirror(c: real, g: Signal, mode: Mode, row: Row, i: int, m: Live)
    ensures BarStep(MirrorSignal(c, g), mode, MirrorRow(c, row), i, MirrorLive(c, m))
         == MirrorSim(c, BarStep(g, mode, row, i, m))
  {
    var q, r := MirrorSignal(c, g), MirrorRow(c, row);
    HalveMirror(c, g, m, g.target, PartialTarget);
    var m1 := TakeTarget(g, mode, row, m);
    assert TakeTarget(q, mode, r, MirrorLive(c, m)) == MirrorLive(c, m1) by { hide Halve; }
    HalveMirror(c, g, m1, row.close, RsiExtreme);
    var m2 := ReduceOnRsi(g, mode, row, m1);
    assert ReduceOnRsi(q, mode, r, MirrorLive(c, m1)) == MirrorLive(c, m2) by { hide Halve, TakeTarget; }
    TrailMirror(c, g, row, m2);
    RMirror(c, g, m.stop);
    RMirror(c, g, g.target);
    RMirror(c, g, row.close);
    hide RMultiple, Weighted, Halve, TakeTarget, ReduceOnRsi, TrailStop;
  }

  lemma TrailMirror(c: real, g: Signal, row: Row, m: Live)
    ensures TrailStop(MirrorSignal(c, g), MirrorRow(c, row), MirrorLive(c, m)) == MirrorLive(c, TrailStop(g, row, m))
  {
  }

  lemma {:induction false} BeforeMirror(c: real, data: seq<Row>, g: Signal, mode: Mode, i: nat)
    requires g.index <= i <= |data|
    ensures Before(MirrorRows(c, data), MirrorSignal(c, g), mode, i) == MirrorSim(c, Before(data, g, mode, i))
  {
    hide BarStep;
    if i > g.index {
      BeforeMirror(c, data, g, mode, i - 1);
      var s := Before(data, g, mode, i - 1);
      if s.Running? {
        BarMirror(c, g, mode, data[i - 1], i - 1, s.m);
      }
    }
  }

  // Turning prices and RSI upside down turns every long trade into the short one and back: same
  // bars, fractions, reasons and R.
  lemma SimulateMirror(c: real, data: seq<Row>, g: Signal, mode: Mode)
    requires g.index < |data|
    ensures Simulate(MirrorRows(c, data), MirrorSignal(c, g), mode) == MirrorTrade(c, Simulate(data, g, mode))
  {
    BeforeMirror(c, data, g, mode, |data|);
    RMirror(c, g, data[|data| - 1].close);
    hide RMultiple, Weighted, Before;
  }

  // ------------------------------------------------------------------
  // The course of a long
  // ------------------------------------------------------------------

  // R of a price, for a long with its stop below its entry.
  lemma LongR(g: Signal, price: real)
    requires g.direction == Long && g.stop < g.entry
    ensures RMultiple(g, price) == (price - g.entry) / (g.entry - g.stop)
  {
  }

  // The bar that reached the target first, before bar i.
  ghost predicate TargetBar(data: seq<Row>, g: Signal, i: nat, hit: Option<nat>)
    requires i <= |data|
  {
    match hit
    case None => forall k :: g.index < k < i ==> data[k].high < g.target
    case Some(t) =>
      g.index < t < i && data[t].high >= g.target && forall k :: g.index < k < t ==> data[k].high < g.target
  }

  predicate Hot(row: Row) {
    row.rsi.Some? && row.rsi.value > 70.0
  }

  // The first overbought bar from bar t on, before bar i.
  ghost predicate HotBar(data: seq<Row>, t: nat, i: nat, hot: Option<nat>)
    requires i <= |data|
  {
    match hot
    case None => forall k :: t <= k < i ==> !Hot(data[k])
    case Some(j) => t <= j < i && Hot(data[j]) && forall k :: t <= k < j ==> !Hot(data[k])
  }

  // The stop once the target was reached on bar t: the entry, or the best close less its ATR.
  ghost predicate StopAfter(data: seq<Row>, g: Signal, trailing: bool, t: nat, i: nat, stop: real)
    requires i <= |data|
  {
    if !trailing then stop == g.entry
    else
      && stop >= g.entry
      && (forall k :: t <= k < i && data[k].atr.Some? ==> stop >= data[k].close - data[k].atr.value)
      && (stop == g.entry || exists k :: t <= k < i && data[k].atr.Some? && stop == data[k].close - data[k].atr.value)
  }

  function HalfAtTarget(g: Signal): PartialExit {
    PartialExit(0.5, g.target, 0.5 * RMultiple(g, g.target), PartialTarget)
  }

  function QuarterAt(g: Signal, close: real): PartialExit {
    PartialExit(0.25, close, 0.25 * RMultiple(g, close), RsiExtreme)
  }

  // What is left and what is banked.
  ghost predicate Banked(data: seq<Row>, g: Signal, m: Live, hot: Option<nat>)
    requires hot.Some? ==> hot.value < |data|
  {
    match hot
    case None =>
      !m.rsiDone && m.remaining == 0.5 && m.partials == [HalfAtTarget(g)] && m.realized == HalfAtTarget(g).r
    case Some(j) =>
      && m.rsiDone && m.remaining == 0.25
      && m.partials == [HalfAtTarget(g), QuarterAt(g, data[j].close)]
      && m.realized == HalfAtTarget(g).r + QuarterAt(g, data[j].close).r
  }

  // Everything about an open long before bar i.
  ghost predicate Course(data: seq<Row>, g: Signal, mode: Mode, i: nat, hit: Option<nat>, hot: Option<nat>, m: Live)
    requires i <= |data|
  {
    if !mode.partial then hit == None && hot == None && m == Start(g)
    else
      && TargetBar(data, g, i, hit)
      && match hit
         case None => hot == None && m == Live(1.0, 0.0, g.stop, false, false, false, [])
         case Some(t) =>
           && m.t1 && m.trailing == mode.trailing
           && HotBar(data, t, i, hot)
           && Banked(data, g, m, hot)
           && StopAfter(data, g, mode.trailing, t, i, m.stop)
  }

  // What the updates of bar i make of the trade, before the trend is looked at.
  function Updated(g: Signal, mode: Mode, row: Row, m: Live): Live {
    TrailStop(g, row, ReduceOnRsi(g, mode, row, TakeTarget(g, mode, row, m)))
  }

  lemma TrailKeeps(data: seq<Row>, g: Signal, trailing: bool, t: nat, i: nat, m: Live)
    requires g.direction == Long && i < |data| && t <= i && m.trailing == trailing
    requires StopAfter(data, g, trailing, t, i, m.stop)
    ensures StopAfter(data, g, trailing, t, i + 1, TrailStop(g, data[i], m).stop)
    ensures TrailStop(g, data[i], m) == m.(stop := TrailStop(g, data[i], m).stop)
  {
    if trailing && data[i].atr.Some? {
      var candidate := data[i].close - data[i].atr.value;
      if candidate < m.stop && m.stop != g.entry {
        var k :| t <= k < i && data[k].atr.Some? && m.stop == data[k].close - data[k].atr.value;
      }
    }
  }

  lemma ReduceBanks(data: seq<Row>, g: Signal, mode: Mode, t: nat, i: nat, hot: Option<nat>, m: Live)
      returns (hot': Option<nat>)
    requires g.direction == Long && mode.partial && m.t1 && t <= i < |data|
    requires HotBar(data, t, i, hot) && Banked(data, g, m, hot)
    ensures HotBar(data, t, i + 1, hot') && Banked(data, g, ReduceOnRsi(g, mode, data[i], m), hot')
    ensures var m' := ReduceOnRsi(g, mode, data[i], m);
            m'.stop == m.stop && m'.t1 && m'.trailing == m.trailing
  {
    hide RMultiple;
    hot' := if hot.None? && Hot(data[i]) then Some(i) else hot;
  }

  lemma CourseStep(data: seq<Row>, g: Signal, mode: Mode, i: nat, hit: Option<nat>, hot: Option<nat>, m: Live)
      returns (hit': Option<nat>, hot': Option<nat>)
    requires g.direction == Long && g.index < i < |data| && Course(data, g, mode, i, hit, hot, m)
    requires mode.partial || data[i].high < g.target
    ensures Course(data, g, mode, i + 1, hit', hot', Updated(g, mode, data[i], m))
  {
    hide RMultiple;
    hit', hot' := hit, hot;
    if mode.partial && (hit.Some? || data[i].high >= g.target) {
      var m1 := TakeTarget(g, mode, data[i], m);
      var t := if hit.Some? then hit.value else i;
      hit' := Some(t);
      assert HotBar(data, t, i, hot) && Banked(data, g, m1, hot) && StopAfter(data, g, mode.trailing, t, i, m1.stop);
      hide TakeTarget;
      hot' := ReduceBanks(data, g, mode, t, i, hot, m1);
      var m2 := ReduceOnRsi(g, mode, data[i], m1);
      hide ReduceOnRsi;
      TrailKeeps(data, g, mode.trailing, t, i, m2);
    }
  }

  // At the start and on the signal bar nothing has happened yet.
  lemma CourseStart(data: seq<Row>, g: Signal, mode: Mode, i: nat)
    requires g.index <= i <= g.index + 1 && i <= |data|
    ensures Course(data, g, mode, i, None, None, Start(g))
  {
  }

  // How bar i ends an open long, if it does: at the stop, in full mode at the target, or at the
  // close when that falls below the EMA200. `after` is the trade after the bar's updates.
  ghost predicate EndsAs(data: seq<Row>, g: Signal, mode: Mode, i: nat, m: Live, after: Live, t: Trade)
    requires g.index <= i < |data|
  {
    var row := data[i];
    if row.low <= m.stop then
      t == Trade(m.stop, StopLoss, m.realized + m.remaining * RMultiple(g, m.stop), i - g.index, m.partials)
    else if !mode.partial && row.high >= g.target then
      i > g.index && t == Trade(g.target, FirstTarget, RMultiple(g, g.target), i - g.index, [])
    else
      && i > g.index && row.ema200.Some? && row.close < row.ema200.value
      && t == Trade(row.close, TrendFlip, after.realized + after.remaining * RMultiple(g, row.close), i - g.index,
                    after.partials)
  }

  ghost predicate Stays(data: seq<Row>, g: Signal, mode: Mode, i: nat, m: Live)
    requires g.index <= i < |data|
  {
    && data[i].low > m.stop
    && (i > g.index ==>
          && (mode.partial || data[i].high < g.target)
          && (data[i].ema200.Some? ==> data[i].close >= data[i].ema200.value))
  }

  lemma LongBar(data: seq<Row>, g: Signal, mode: Mode, i: nat, hit: Option<nat>, hot: Option<nat>, m: Live)
      returns (hit': Option<nat>, hot': Option<nat>, after: Live)
    requires g.direction == Long && g.index <= i < |data| && Course(data, g, mode, i, hit, hot, m)
    requires i == g.index ==> m == Start(g) && hit == None && hot == None
    ensures match BarStep(g, mode, data[i], i, m)
            case Running(m') => Stays(data, g, mode, i, m) && m' == after && Course(data, g, mode, i + 1, hit', hot', m')
            case Exited(t) =>
              && !Stays(data, g, mode, i, m) && EndsAs(data, g, mode, i, m, after, t)
              && (t.exitReason == TrendFlip ==> Course(data, g, mode, i + 1, hit', hot', after))
  {
    hit', hot', after := hit, hot, m;
    LongBarCases(g, mode, data[i], i, m);
    if i == g.index {
      CourseStart(data, g, mode, i + 1);
      hide Course, RMultiple, BarStep;
    } else {
      assert !mode.partial ==> m == Start(g);
      if mode.partial || data[i].high < g.target {
        after := Updated(g, mode, data[i], m);
        hit', hot' := CourseStep(data, g, mode, i, hit, hot, m);
      }
      hide Course, RMultiple, TakeTarget, ReduceOnRsi, TrailStop, BarStep, Updated;
    }
  }

  lemma LongBarCases(g: Signal, mode: Mode, row: Row, i: int, m: Live)
    requires g.direction == Long
    ensures BarStep(g, mode, row, i, m) ==
            if row.low <= m.stop then
              Exited(Trade(m.stop, StopLoss, m.realized + m.remaining * RMultiple(g, m.stop), i - g.index, m.partials))
            else if i <= g.index then Running(m)
            else if row.high >= g.target && !m.t1 && !mode.partial then
              Exited(Trade(g.target, FirstTarget, m.realized + m.remaining * RMultiple(g, g.target), i - g.index, m.partials))
            else
              var after := Updated(g, mode, row, m);
              if row.ema200.Some? && row.close < row.ema200.value then
                Exited(Trade(row.close, TrendFlip, after.realized + after.remaining * RMultiple(g, row.close), i - g.index,
                             after.partials))
              else Running(after)
  {
    hide RMultiple, TakeTarget, ReduceOnRsi, TrailStop;
  }

  // An open long is what its bars say: untouched until the target; from the target bar on it
  // holds a half, or a quarter after the first overbought close, behind the entry or the trail.
  lemma {:induction false} LongCourse(data: seq<Row>, g: Signal, mode: Mode, i: nat)
      returns (hit: Option<nat>, hot: Option<nat>)
    requires g.direction == Long && g.index <= i <= |data| && Before(data, g, mode, i).Running?
    ensures Course(data, g, mode, i, hit, hot, Before(data, g, mode, i).m)
    ensures i == g.index ==> hit == None && hot == None
  {
    hide Course, BarStep, Stays;
    if i == g.index {
      hit, hot := None, None;
      CourseStart(data, g, mode, i);
    } else {
      hit, hot := LongCourse(data, g, mode, i - 1);
      var after: Live;
      hit, hot, after := LongBar(data, g, mode, i - 1, hit, hot, Before(data, g, mode, i - 1).m);
    }
  }

  // The stop of a short once its target was reached on bar t: the entry, or the best close plus its ATR.
  ghost predicate ShortStopAfter(data: seq<Row>, g: Signal, trailing: bool, t: nat, i: nat, stop: real)
    requires i <= |data|
  {
    if !trailing then stop == g.entry
    else
      && stop <= g.entry
      && (forall k :: t <= k < i && data[k].atr.Some? ==> stop <= data[k].close + data[k].atr.value)
      && (stop == g.entry || exists k :: t <= k < i && data[k].atr.Some? && stop == data[k].close + data[k].atr.value)
  }

  lemma MirrorStopAfter(data: seq<Row>, g: Signal, trailing: bool, t: nat, i: nat, stop: real)
    requires i <= |data| && StopAfter(MirrorRows(0.0, data), MirrorSignal(0.0, g), trailing, t, i, -stop)
    ensures ShortStopAfter(data, g, trailing, t, i, stop)
  {
    var mirrored := MirrorRows(0.0, data);
    assert forall k :: 0 <= k < |data| ==> mirrored[k] == MirrorRow(0.0, data[k]);
    if trailing && stop != g.entry {
      var k :| t <= k < i && mirrored[k].atr.Some? && -stop == mirrored[k].close - mirrored[k].atr.value;
      assert data[k].atr.Some?;
    }
  }

  // The stop of an open short in partial mode: the initial one until the target, then the entry or
  // the trail.
  lemma ShortTrail(data: seq<Row>, g: Signal, mode: Mode, i: nat) returns (hit: Option<nat>)
    requires g.direction == Short && g.index <= i <= |data| && mode.partial && Before(data, g, mode, i).Running?
    ensures var stop := Before(data, g, mode, i).m.stop;
            match hit
            case None => stop == g.stop && forall k :: g.index < k < i ==> data[k].low > g.target
            case Some(t) =>
              && g.index < t < i && data[t].low <= g.target && (forall k :: g.index < k < t ==> data[k].low > g.target)
              && ShortStopAfter(data, g, mode.trailing, t, i, stop)
  {
    BeforeMirror(0.0, data, g, mode, i);
    hide Before, StopAfter, ShortStopAfter, HotBar, Banked;
    var hot;
    hit, hot := LongCourse(MirrorRows(0.0, data), MirrorSignal(0.0, g), mode, i);
    assert forall k :: 0 <= k < |data| ==> MirrorRows(0.0, data)[k].high == -data[k].low;
    if hit.Some? {
      MirrorStopAfter(data, g, mode.trailing, hit.value, i, Before(data, g, mode, i).m.stop);
    }
    hide MirrorRows;
  }

  // It is still open before bar i exactly when every earlier bar let it stay.
  lemma {:induction false} LongOpenIff(data: seq<Row>, g: Signal, mode: Mode, i: nat)
    requires g.direction == Long && g.index <= i <= |data|
    ensures Before(data, g, mode, i).Running? <==>
              forall k :: g.index <= k < i ==>
                Before(data, g, mode, k).Running? && Stays(data, g, mode, k, Before(data, g, mode, k).m)
  {
    hide Course, BarStep, Stays;
    if i > g.index {
      LongOpenIff(data, g, mode, i - 1);
      if Before(data, g, mode, i - 1).Running? {
        var hit, hot := LongCourse(data, g, mode, i - 1);
        var hit', hot', after := LongBar(data, g, mode, i - 1, hit, hot, Before(data, g, mode, i - 1).m);
      }
    }
  }

  // Every simulated long: open with its course up to the bar that ends it, or to the end of the data.
  lemma LongTrade(data: seq<Row>, g: Signal, mode: Mode)
      returns (hit: Option<nat>, hot: Option<nat>, m: Live, hit': Option<nat>, hot': Option<nat>, after: Live)
    requires g.direction == Long && g.index < |data|
    ensures var t := Simulate(data, g, mode);
            var k := g.index + t.barsHeld;
            && g.index <= k < |data|
            && if t.exitReason == EndOfData
               then Course(data, g, mode, |data|, hit, hot, m) && k == |data| - 1
                    && t == Trade(data[k].close, EndOfData, m.realized + m.remaining * RMultiple(g, data[k].close),
                                  k - g.index, m.partials)
               else Course(data, g, mode, k, hit, hot, m) && !Stays(data, g, mode, k, m)
                    && EndsAs(data, g, mode, k, m, after, t)
                    && (t.exitReason == TrendFlip ==> Course(data, g, mode, k + 1, hit', hot', after))
  {
    hide Course, BarStep, Stays, EndsAs, RMultiple;
    hit, hot, m, hit', hot', after := LongTradeFrom(data, g, mode, |data|);
    if Before(data, g, mode, |data|).Running? {
      assert Weighted(m.remaining, RMultiple(g, data[|data| - 1].close)) == m.remaining * RMultiple(g, data[|data| - 1].close);
    }
    hide Weighted;
  }

  lemma {:induction false} LongTradeFrom(data: seq<Row>, g: Signal, mode: Mode, i: nat)
      returns (hit: Option<nat>, hot: Option<nat>, m: Live, hit': Option<nat>, hot': Option<nat>, after: Live)
    requires g.direction == Long && g.index <= i <= |data|
    ensures match Before(data, g, mode, i)
            case Running(m') => m == m' && Course(data, g, mode, i, hit, hot, m)
            case Exited(t) =>
              var k := g.index + t.barsHeld;
              && g.index <= k < i && t.exitReason != EndOfData
              && Course(data, g, mode, k, hit, hot, m) && !Stays(data, g, mode, k, m)
              && EndsAs(data, g, mode, k, m, after, t)
              && (t.exitReason == TrendFlip ==> Course(data, g, mode, k + 1, hit', hot', after))
  {
    hide Course, BarStep, Stays;
    m := Start(g);
    after := m;
    hit', hot' := None, None;
    if Before(data, g, mode, i).Running? {
      m := Before(data, g, mode, i).m;
      hit, hot := LongCourse(data, g, mode, i);
    } else if Before(data, g, mode, i - 1).Exited? {
      hit, hot, m, hit', hot', after := LongTradeFrom(data, g, mode, i - 1);
    } else {
      m := Before(data, g, mode, i - 1).m;
      hit, hot := LongCourse(data, g, mode, i - 1);
      hit', hot', after := LongBar(data, g, mode, i - 1, hit, hot, m);
      hide RMultiple;
    }
  }
}
