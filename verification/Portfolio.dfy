/**
  Choosing non-overlapping trades and summarising them: `run_backtest` in
  app/domain/rsi_trend_backtest.py, fed by `detect_signals` in app/domain/rsi_trend.py.
 */
module Portfolio {
  import opened Prelude
  import opened Backtest
  import opened BacktestFacts

  // ------------------------------------------------------------------
  // Accepting signals
  // ------------------------------------------------------------------

  datatype Taken = Taken(signal: Signal, trade: Trade) {
    function End(): int {
      signal.index + trade.barsHeld
    }
  }

  // The last bar covered by the trades accepted so far.
  function OpenUntil(taken: seq<Taken>): int {
    if taken == [] then -1 else Last(taken).End()
  }

  predicate InData(data: seq<Row>, signals: seq<Signal>) {
    forall i :: 0 <= i < |signals| ==> signals[i].index < |data|
  }

  ghost predicate AllTradable(data: seq<Row>, signals: seq<Signal>) {
    forall i :: 0 <= i < |signals| ==> Tradable(data, signals[i])
  }

  function Accept(data: seq<Row>, signals: seq<Signal>, mode: Mode): seq<Taken>
    requires InData(data, signals)
  {
    if signals == [] then []
    else
      var before := Accept(data, Front(signals), mode);
      var g := Last(signals);
      if g.index <= OpenUntil(before) then before else before + [Taken(g, Simulate(data, g, mode))]
  }

  // Bar intervals [signal bar, exit bar], each strictly after the one before.
  ghost predicate Disjoint(taken: seq<Taken>) {
    && (forall i :: 0 <= i < |taken| ==> taken[i].signal.index <= taken[i].End())
    && (forall i, j :: 0 <= i < j < |taken| ==> taken[i].End() < taken[j].signal.index)
  }

  ghost predicate Sorted(signals: seq<Signal>) {
    forall i, j :: 0 <= i < j < |signals| ==> signals[i].index < signals[j].index
  }

  // The signal's own bar lies inside an accepted trade.
  ghost predicate Covered(taken: seq<Taken>, g: Signal) {
    exists i :: 0 <= i < |taken| && taken[i].signal.index <= g.index <= taken[i].End()
  }

  lemma {:induction false} AcceptedAreDisjoint(data: seq<Row>, signals: seq<Signal>, mode: Mode)
    requires InData(data, signals)
    ensures var taken := Accept(data, signals, mode);
            && Disjoint(taken)
            && forall t :: t in taken ==> t.signal in signals && t.trade == Simulate(data, t.signal, mode)
  {
    if signals != [] {
      hide Disjoint, BarStep;
      var before, g := Accept(data, Front(signals), mode), Last(signals);
      AcceptedAreDisjoint(data, Front(signals), mode);
      HeldWithin(data, g, mode, |data|);
      if g.index > OpenUntil(before) {
        DisjointAppend(before, Taken(g, Simulate(data, g, mode)));
      }
    } else {
      DisjointNone();
    }
  }

  lemma DisjointNone()
    ensures Disjoint([])
  {
  }

  lemma DisjointAppend(taken: seq<Taken>, t: Taken)
    requires Disjoint(taken) && OpenUntil(taken) < t.signal.index <= t.End()
    ensures Disjoint(taken + [t])
  {
    var n := |taken|;
    forall i | 0 <= i < n
      ensures taken[i].End() < t.signal.index
    {
      assert i == n - 1 || taken[i].End() < taken[n - 1].signal.index;
    }
  }

  lemma StaysCovered(before: seq<Taken>, taken: seq<Taken>, g: Signal)
    requires before <= taken && Covered(before, g)
    ensures Covered(taken, g)
  {
    var i :| 0 <= i < |before| && before[i].signal.index <= g.index <= before[i].End();
    assert taken[i] == before[i];
  }

  // With signals in index order, a signal is skipped only while a trade is open on its bar.
  lemma {:induction false} SkippedAreCovered(data: seq<Row>, signals: seq<Signal>, mode: Mode)
    requires InData(data, signals)
    requires Sorted(signals)
    ensures forall g :: g in signals ==> Covered(Accept(data, signals, mode), g)
  {
    if signals != [] {
      hide Simulate, Covered;
      var before, taken := Accept(data, Front(signals), mode), Accept(data, signals, mode);
      SkippedAreCovered(data, Front(signals), mode);
      forall h | h in signals
        ensures Covered(taken, h)
      {
        if h in Front(signals) {
          StaysCovered(before, taken, h);
        } else {
          LastIsCovered(data, signals, mode);
        }
      }
    }
  }

  lemma LastIsCovered(data: seq<Row>, signals: seq<Signal>, mode: Mode)
    requires InData(data, signals)
    requires Sorted(signals) && signals != []
    ensures Covered(Accept(data, signals, mode), Last(signals))
  {
    hide BarStep;
    var front, g := Front(signals), Last(signals);
    var before := Accept(data, front, mode);
    AcceptedAreDisjoint(data, front, mode);
    HeldWithin(data, g, mode, |data|);
    if g.index <= OpenUntil(before) {
      var last := Last(before);
      assert last in before;
      assert last.signal.index < g.index <= last.End();
    } else {
      assert (before + [Taken(g, Simulate(data, g, mode))])[|before|].signal == g;
    }
  }

  // ------------------------------------------------------------------
  // Sums and drawdown of the R sequence
  // ------------------------------------------------------------------

  function Rs(taken: seq<Taken>): (rs: seq<real>)
    ensures |rs| == |taken|
  {
    seq(|taken|, i requires 0 <= i < |taken| => taken[i].trade.r)
  }

  // The equity curve after the first n trades.
  function Equity(rs: seq<real>, n: nat): real
    requires n <= |rs|
  {
    if n == 0 then 0.0 else Equity(rs, n - 1) + rs[n - 1]
  }

  function GrossLoss(rs: seq<real>): real {
    if rs == [] then 0.0 else GrossLoss(Front(rs)) + if Last(rs) < 0.0 then -Last(rs) else 0.0
  }

  function GrossWin(rs: seq<real>): real {
    if rs == [] then 0.0 else GrossWin(Front(rs)) + if Last(rs) > 0.0 then Last(rs) else 0.0
  }

  function Losers(rs: seq<real>): nat {
    if rs == [] then 0 else Losers(Front(rs)) + if Last(rs) < 0.0 then 1 else 0
  }

  function Winners(rs: seq<real>): nat {
    if rs == [] then 0 else Winners(Front(rs)) + if Last(rs) > 0.0 then 1 else 0
  }

  function Fall(rs: seq<real>, i: nat, j: nat): real
    requires i <= |rs| && j <= |rs|
  {
    Equity(rs, i) - Equity(rs, j)
  }

  // The largest fall of the equity curve from an earlier point to a later one, up to trade n.
  ghost predicate MaxFall(rs: seq<real>, n: nat, dd: real)
    requires n <= |rs|
  {
    && (forall i, j :: 0 <= i <= j <= n ==> Fall(rs, i, j) <= dd)
    && (exists i, j :: 0 <= i <= j <= n && Fall(rs, i, j) == dd)
  }

  ghost predicate IsMaxDrawdown(rs: seq<real>, dd: real) {
    MaxFall(rs, |rs|, dd)
  }

  ghost predicate HighWater(rs: seq<real>, n: nat, peak: real)
    requires n <= |rs|
  {
    && (forall i :: 0 <= i <= n ==> Equity(rs, i) <= peak)
    && (exists i :: 0 <= i <= n && Equity(rs, i) == peak)
  }

  lemma HighWaterStep(rs: seq<real>, n: nat, peak: real)
    requires n < |rs| && HighWater(rs, n, peak)
    ensures HighWater(rs, n + 1, RMax(peak, Equity(rs, n + 1)))
  {
    hide Equity;
    var i :| 0 <= i <= n && Equity(rs, i) == peak;
    var top := if peak >= Equity(rs, n + 1) then i else n + 1;
    assert Equity(rs, top) == RMax(peak, Equity(rs, n + 1));
  }

  lemma FallStep(rs: seq<real>, n: nat, peak: real, dd: real)
    requires n < |rs| && HighWater(rs, n + 1, peak) && MaxFall(rs, n, dd)
    ensures MaxFall(rs, n + 1, RMax(dd, peak - Equity(rs, n + 1)))
  {
    hide Equity;
    var next := RMax(dd, peak - Equity(rs, n + 1));
    var top :| 0 <= top <= n + 1 && Equity(rs, top) == peak;
    var i, j :| 0 <= i <= j <= n && Fall(rs, i, j) == dd;
    if dd >= peak - Equity(rs, n + 1) {
      assert Fall(rs, i, j) == next;
    } else {
      assert Fall(rs, top, n + 1) == next;
    }
  }

  lemma {:induction false} EquityOfPrefix(rs: seq<real>, n: nat, i: nat)
    requires i <= n <= |rs|
    ensures Equity(rs[..n], i) == Equity(rs, i)
  {
    if i > 0 {
      EquityOfPrefix(rs, n, i - 1);
    }
  }

  // No fall exceeds the gross loss.
  lemma {:induction false} FallWithinLoss(rs: seq<real>, i: nat)
    requires i <= |rs|
    ensures 0.0 <= GrossLoss(rs)
    ensures Equity(rs, i) - Equity(rs, |rs|) <= GrossLoss(rs)
  {
    if rs != [] {
      var n := |rs| - 1;
      FallWithinLoss(Front(rs), if i <= n then i else n);
      EquityOfPrefix(rs, n, n);
      EquityOfPrefix(rs, n, if i <= n then i else n);
    }
  }

  lemma {:induction false} LossOfPrefix(rs: seq<real>, j: nat)
    requires j <= |rs|
    ensures GrossLoss(rs[..j]) <= GrossLoss(rs)
  {
    if j < |rs| {
      LossOfPrefix(Front(rs), j);
      assert Front(rs)[..j] == rs[..j];
    } else {
      assert rs[..j] == rs;
    }
  }

  lemma DrawdownWithinLoss(rs: seq<real>, dd: real)
    requires IsMaxDrawdown(rs, dd)
    ensures 0.0 <= dd <= GrossLoss(rs)
  {
    var i, j :| 0 <= i <= j <= |rs| && Fall(rs, i, j) == dd;
    assert Fall(rs, 0, 0) <= dd;
    FallWithinLoss(rs[..j], i);
    EquityOfPrefix(rs, j, i);
    EquityOfPrefix(rs, j, j);
    LossOfPrefix(rs, j);
  }

  // When no trade loses more than its risk, the gross loss is at most one R per loser.
  lemma {:induction false} LossWithinLosers(rs: seq<real>)
    requires forall i :: 0 <= i < |rs| ==> rs[i] >= -1.0
    ensures GrossLoss(rs) <= Losers(rs) as real
    ensures Winners(rs) + Losers(rs) <= |rs|
    ensures Equity(rs, |rs|) == GrossWin(rs) - GrossLoss(rs)
  {
    if rs != [] {
      LossWithinLosers(Front(rs));
      EquityOfPrefix(rs, |rs| - 1, |rs| - 1);
      assert Front(rs) == rs[..|rs| - 1];
    }
  }

  // ------------------------------------------------------------------
  // The code
  // ------------------------------------------------------------------

  // Winners and losers are counted by the sign of R; what is neither is a scratch.
  lemma {:induction false} CountsBySign(rs: seq<real>)
    ensures Winners(rs) == |set i | 0 <= i < |rs| && rs[i] > 0.0|
    ensures Losers(rs) == |set i | 0 <= i < |rs| && rs[i] < 0.0|
    ensures |rs| - Winners(rs) - Losers(rs) == |set i | 0 <= i < |rs| && rs[i] == 0.0|
  {
    if rs != [] {
      var n := |rs| - 1;
      CountsBySign(Front(rs));
      SignsOfFront(rs);
    }
  }

  lemma SignsOfFront(rs: seq<real>)
    requires rs != []
    ensures var n, front := |rs| - 1, Front(rs);
            && (set i | 0 <= i < |rs| && rs[i] > 0.0) ==
                 (set i | 0 <= i < n && front[i] > 0.0) + (if rs[n] > 0.0 then {n} else {})
            && (set i | 0 <= i < |rs| && rs[i] < 0.0) ==
                 (set i | 0 <= i < n && front[i] < 0.0) + (if rs[n] < 0.0 then {n} else {})
            && (set i | 0 <= i < |rs| && rs[i] == 0.0) ==
                 (set i | 0 <= i < n && front[i] == 0.0) + (if rs[n] == 0.0 then {n} else {})
  {
  }

  datatype ProfitFactor = Undefined | Infinite | Finite(value: real)

  datatype Summary = Summary(
    totalSignals: nat, taken: seq<Taken>, wins: nat, losses: nat, scratches: nat,
    totalR: real, profitFactor: ProfitFactor, maxDrawdown: real)

  method MaxDrawdown(rs: seq<real>) returns (dd: real)
    ensures IsMaxDrawdown(rs, dd)
  {
    var peak, cumulative := 0.0, 0.0;
    dd := 0.0;
    assert Fall(rs, 0, 0) == 0.0;
    for n := 0 to |rs|
      invariant cumulative == Equity(rs, n)
      invariant HighWater(rs, n, peak)
      invariant MaxFall(rs, n, dd)
    {
      cumulative := cumulative + rs[n];
      HighWaterStep(rs, n, peak);
      peak := RMax(peak, cumulative);
      FallStep(rs, n, peak, dd);
      dd := RMax(dd, peak - cumulative);
    }
  }

  method RunBacktest(data: seq<Row>, signals: seq<Signal>, mode: Mode) returns (s: Summary)
    requires InData(data, signals)
    ensures s.totalSignals == |signals|
    ensures s.taken == Accept(data, signals, mode)
    ensures s.wins == Winners(Rs(s.taken)) && s.losses == Losers(Rs(s.taken))
    ensures s.wins + s.losses + s.scratches == |s.taken|
    ensures s.totalR == Equity(Rs(s.taken), |s.taken|)
    ensures IsMaxDrawdown(Rs(s.taken), s.maxDrawdown)
    ensures s.profitFactor == (if GrossLoss(Rs(s.taken)) > 0.0
                               then Finite(GrossWin(Rs(s.taken)) / GrossLoss(Rs(s.taken)))
                               else if GrossWin(Rs(s.taken)) == 0.0 then Undefined else Infinite)
  {
    var taken: seq<Taken> := [];
    var openUntil := -1;
    for k := 0 to |signals|
      invariant taken == Accept(data, signals[..k], mode) && openUntil == OpenUntil(taken)
    {
      var g := signals[k];
      assert Front(signals[..k + 1]) == signals[..k];
      if g.index <= openUntil {
        continue;
      }
      var trade := SimulateOne(data, g, mode);
      taken := taken + [Taken(g, trade)];
      openUntil := g.index + trade.barsHeld;
    }
    assert signals[..|signals|] == signals;

    var rs := Rs(taken);
    var wins, losses, scratches, totalR, grossWin, grossLoss := 0, 0, 0, 0.0, 0.0, 0.0;
    for n := 0 to |rs|
      invariant wins == Winners(rs[..n]) && losses == Losers(rs[..n]) && wins + losses + scratches == n
      invariant totalR == Equity(rs, n)
      invariant grossWin == GrossWin(rs[..n]) && grossLoss == GrossLoss(rs[..n])
    {
      assert Front(rs[..n + 1]) == rs[..n] && Last(rs[..n + 1]) == rs[n];
      totalR := totalR + rs[n];
      if rs[n] > 0.0 {
        wins, grossWin := wins + 1, grossWin + rs[n];
      } else if rs[n] < 0.0 {
        losses, grossLoss := losses + 1, grossLoss - rs[n];
      } else {
        scratches := scratches + 1;
      }
    }
    assert rs[..|rs|] == rs;
    var factor := if grossLoss > 0.0 then Finite(grossWin / grossLoss)
                  else if grossWin == 0.0 then Undefined else Infinite;
    var dd := MaxDrawdown(rs);
    s := Summary(|signals|, taken, wins, losses, scratches, totalR, factor, dd);
  }

  // Over tradable signals the drawdown is at most the gross loss and at most one R per losing trade.
  lemma DrawdownBounds(data: seq<Row>, signals: seq<Signal>, mode: Mode, dd: real)
    requires InData(data, signals) && AllTradable(data, signals)
    requires IsMaxDrawdown(Rs(Accept(data, signals, mode)), dd)
    ensures var rs := Rs(Accept(data, signals, mode));
            0.0 <= dd <= GrossLoss(rs) <= Losers(rs) as real
  {
    var taken := Accept(data, signals, mode);
    AcceptedAreDisjoint(data, signals, mode);
    forall i | 0 <= i < |taken|
      ensures Rs(taken)[i] >= -1.0
    {
      assert taken[i] in taken;
      SimulatedTrade(data, taken[i].signal, mode);
    }
    DrawdownWithinLoss(Rs(taken), dd);
    LossWithinLosers(Rs(taken));
  }

  // ------------------------------------------------------------------
  // Signal detection
  // ------------------------------------------------------------------

  const WARMUP_BARS := 200

  datatype Options = Options(
    useEma50: bool, requireColor: bool, atrMult: real, oversold: real, overbought: real,
    rewardRisk: real, minQuality: real)

  predicate Above(x: real, y: Option<real>) {
    y.Some? && x > y.value
  }

  predicate Below(x: real, y: Option<real>) {
    y.Some? && x < y.value
  }

  function SignalAt(data: seq<Row>, o: Options, i: nat): Option<Signal>
    requires 0 < i < |data|
  {
    var row, prev := data[i], data[i - 1].rsi;
    if row.rsi.None? || prev.None? || row.atr.None? then None
    else
      var up := prev.value <= o.oversold < row.rsi.value;
      var down := prev.value >= o.overbought > row.rsi.value;
      if up && Above(row.close, row.ema200) then
        var risk := row.close - (row.low - Weighted(o.atrMult, row.atr.value));
        if (o.useEma50 && !Above(row.close, row.ema50)) || (o.requireColor && row.close <= row.open) || risk <= 0.0
        then None
        else Some(Signal(Long, row.close, row.close - risk, row.close + Weighted(o.rewardRisk, risk), i, row.quality))
      else if down && Below(row.close, row.ema200) then
        var risk := row.high + Weighted(o.atrMult, row.atr.value) - row.close;
        if (o.useEma50 && !Below(row.close, row.ema50)) || (o.requireColor && row.close >= row.open) || risk <= 0.0
        then None
        else Some(Signal(Short, row.close, row.close + risk, row.close - Weighted(o.rewardRisk, risk), i, row.quality))
      else None
  }

  function ClampQuality(q: real): real {
    RMax(0.0, RMin(q, 100.0))
  }

  predicate Keeps(o: Options, g: Signal) {
    g.quality >= ClampQuality(o.minQuality)
  }

  // Exactly the signals of the bars past the warm-up that reach the quality bar, in bar order.
  ghost predicate AreSignals(data: seq<Row>, o: Options, signals: seq<Signal>) {
    && Sorted(signals)
    && (forall g :: g in signals ==>
          WARMUP_BARS <= g.index < |data| && SignalAt(data, o, g.index) == Some(g) && Keeps(o, g))
    && (forall i :: WARMUP_BARS <= i < |data| && SignalAt(data, o, i).Some? && Keeps(o, SignalAt(data, o, i).value) ==>
          SignalAt(data, o, i).value in signals)
  }

  method DetectSignals(data: seq<Row>, o: Options) returns (signals: seq<Signal>)
    ensures AreSignals(data, o, signals)
  {
    signals := [];
    if |data| <= WARMUP_BARS {
      return;
    }
    hide SignalAt, Keeps;
    var all: seq<Signal> := [];
    for i := WARMUP_BARS to |data|
      invariant Sorted(all)
      invariant forall g :: g in all ==> WARMUP_BARS <= g.index < i && SignalAt(data, o, g.index) == Some(g)
      invariant forall k :: WARMUP_BARS <= k < i && SignalAt(data, o, k).Some? ==> SignalAt(data, o, k).value in all
    {
      var g := SignalAt(data, o, i);
      if g.Some? {
        SignalIndex(data, o, i);
        all := all + [g.value];
      }
    }
    signals := KeepGood(o, all);
  }

  method KeepGood(o: Options, all: seq<Signal>) returns (kept: seq<Signal>)
    requires Sorted(all)
    ensures Sorted(kept)
    ensures forall g :: g in kept <==> g in all && Keeps(o, g)
  {
    hide Keeps;
    kept := [];
    for k := 0 to |all|
      invariant Sorted(kept)
      invariant forall g :: g in kept <==> g in all[..k] && Keeps(o, g)
    {
      assert all[..k + 1] == all[..k] + [all[k]];
      assert forall j :: 0 <= j < k ==> all[j].index < all[k].index;
      assert forall g :: g in all[..k] ==> g.index < all[k].index;
      assert forall j :: 0 <= j < |kept| ==> kept[j] in kept;
      if Keeps(o, all[k]) {
        kept := kept + [all[k]];
      }
    }
    assert all[..|all|] == all;
  }

  lemma SignalIndex(data: seq<Row>, o: Options, i: nat)
    requires 0 < i < |data| && SignalAt(data, o, i).Some?
    ensures SignalAt(data, o, i).value.index == i
  {
  }

  // A detected signal has its stop and target on the right sides and pays exactly the
  // configured multiple of its risk.
  lemma DetectedIsTradable(data: seq<Row>, o: Options, i: nat)
    requires 0 < i < |data| && SignalAt(data, o, i).Some? && o.rewardRisk > 0.0
    requires forall k :: 0 <= k < |data| ==> GoodRow(data[k])
    ensures var g := SignalAt(data, o, i).value;
            Tradable(data, g) && RewardRisk(g) == o.rewardRisk
  {
    hide Weighted, RMultiple;
    var g := SignalAt(data, o, i).value;
    var risk := RAbs(g.entry - g.stop);
    assert risk > 0.0 && RAbs(g.target - g.entry) == RAbs(Weighted(o.rewardRisk, risk));
    PaysReward(g, o.rewardRisk, risk);
  }

  // With a positive multiple and ATR a detected signal is never stopped on its own bar.
  lemma DetectedPassesItsBar(data: seq<Row>, o: Options, i: nat)
    requires 0 < i < |data| && SignalAt(data, o, i).Some?
    requires o.atrMult > 0.0 && data[i].atr.value > 0.0
    ensures !TouchesStop(SignalAt(data, o, i).value, data[i], SignalAt(data, o, i).value.stop)
  {
    assert o.atrMult * data[i].atr.value > 0.0;
    hide Weighted;
  }

  lemma PaysReward(g: Signal, x: real, risk: real)
    requires x > 0.0 && risk > 0.0 && risk == RAbs(g.entry - g.stop)
    ensures Weighted(x, risk) > 0.0
    ensures g.target == (if g.direction == Long then g.entry + Weighted(x, risk) else g.entry - Weighted(x, risk))
            ==> RMultiple(g, g.target) == x
  {
    Cancel(x, risk);
  }

  lemma Cancel(x: real, d: real)
    requires d > 0.0
    ensures (x * d) / d == x
  {
  }

  // Detection composed with the backtest: disjoint trades, no signal lost except to an open
  // trade, and a drawdown of at most one R per losing trade.
  lemma DetectedBacktest(data: seq<Row>, o: Options, signals: seq<Signal>, mode: Mode, dd: real)
    requires forall k :: 0 <= k < |data| ==> GoodRow(data[k])
    requires o.rewardRisk > 0.0 && AreSignals(data, o, signals)
    requires InData(data, signals)
    requires IsMaxDrawdown(Rs(Accept(data, signals, mode)), dd)
    ensures var taken := Accept(data, signals, mode);
            && Disjoint(taken)
            && (forall g :: g in signals ==> Covered(taken, g))
            && 0.0 <= dd <= Losers(Rs(taken)) as real
            && (o.rewardRisk >= 1.0 ==>
                  forall t :: t in taken && t.trade.partials != [] ==> t.trade.r > 0.0)
  {
    forall i | 0 <= i < |signals|
      ensures Tradable(data, signals[i]) && RewardRisk(signals[i]) == o.rewardRisk
    {
      assert signals[i] in signals;
      DetectedIsTradable(data, o, signals[i].index);
    }
    AcceptedAreDisjoint(data, signals, mode);
    SkippedAreCovered(data, signals, mode);
    DrawdownBounds(data, signals, mode, dd);
    hide RMultiple;
    if o.rewardRisk >= 1.0 {
      forall t | t in Accept(data, signals, mode) && t.trade.partials != []
        ensures t.trade.r > 0.0
      {
        var i :| 0 <= i < |signals| && signals[i] == t.signal;
        FirstTargetMeansProfit(data, signals[i], mode);
      }
    }
  }
}
