# Verified model of the trading engines

A Dafny model of the deterministic engines inside the trading backend: the state machines, scans,
caches and order-keeping structures whose behaviour is decided by code rather than by an exchange
or a model. Verify everything with `dafny verify dfyconfig.toml`.

Prices and other floats are `real`; clocks, random draws, ids and exchange replies are parameters.
Exceptions and broken contract decorators are values (`Raised`, `Violation`, `Failed`), never
preconditions. Code that works by changing variables is a method with loops or a class, proved
equal to a specification function; the theorems are about those functions.

## Modules

**Positions** (`Position`, `PositionRuns`, `PositionMirror`): `process_bar` and whole runs of it. An
open long turns out to be a function of only two things, the number of bars and the highest high so
far (`OpenLong`), which settles every question about its stop. A second model, a broker that sees
nothing but the emitted actions and fills them at the stop, the target or the bar close, must end
up with the size, the stop and the profit the state claims. Shorts follow by reflecting prices.
`PositionNumbers` says the same of both sides in the numbers of the plan and the bars.

**Backtest** (`Backtest`, `BacktestFacts`, `Portfolio`): the bar-by-bar trade simulation, the choice
of non-overlapping trades, the summary, and the detector that feeds them. `TradeCourse` tells every
trade from its bars alone, `DetectionRules` every signal from the columns of its row.

**Patterns** (`ZigZag`, `Harmonic`, `HarmonicStops`): `IsZigZag` says without a loop what the zigzag of some bars is;
the scan satisfies it, it is unique, and its guarantees are what the five-point check relies on.
`PivotPrices` and `PatternRules` restate pivots, acceptance, report and scan in raw prices.

**Stops** (`StopGeometry`, `StopSamples`): the two-pass stop and the target ladder of one scored
candidate; `StopRules` gives every number of it in points, zone and measurements.

**Structures** (`Pareto`, `MemoryCache`, `CacheHistory`, `KLineCache`, `Watchlist`, `WatchlistFacts`,
`WatchlistStores`, with `Keys` and `Prelude` shared): each mutable structure against a simpler one,
over whole histories of calls. `CacheRules` and `WatchlistRules` give each answer in the operations,
rows and fields alone.

**Feeds** (`Paging`, `EventStream`, `StreamEnd`): paged fetching against one query; a polling reader
interleaved with a publisher, and what a finished stream has left undelivered. `EventRules` reads
log and reader off the publishes and actions.

**Search** (`Tuning`, `Mutation`): the tuning's constraints and cluster mutation under any draws;
`TuningMoves` says which attempt is taken, where it moves a value and what is accepted.

**Statistics** (`Stats`): volume authenticity and the quant regime, with the inequalities that
bound their parts; `ScoreRules` gives both scores as formulas over the candles.

## Where code and documentation differ

The model follows the code.

- The position docs describe the trail as the highest high of the last N bars. The period is never
  read: the trail uses the highest high since the bar that hit TP1.
- The stop of a position is documented as never moving backwards. On the bar that hits TP2 and TP3
  together it can: `RetreatIff` gives the exact family, `RetreatHappens` a run.
- A comment says only the close can stop a backtest trade on its signal bar; the code compares the
  bar's low (high). `SignalBarIff` says when a trade ends there; a detected signal with a positive
  multiple never does (`DetectedPassesItsBar`).
- A literal stop multiple (`stop_buffer_atr`) is documented as ignoring trap, regime and grade. It
  replaces only the base and is still widened by all three (`OverrideIsLiteralIff`,
  `HalfBecomesThreeQuarters`), and nothing checks that it is positive (`LiteralIsSafeIff`). A
  small one makes the reported ratio better than the graded one (`ReportedIsNoBetterIff`,
  `SmallLiteralFlatters`).
- The trap multiplier's comment puts its maximum at a score of 100; it is reached at 90.
- `invalidate` documents its result as the number of keys deleted; it is the number of indexed keys
  (`CountIsRemovedIff`, `ExpiredKeyIsReported`). It also removes a live entry by parameters the entry
  no longer has, unless they went out with an earlier invalidation (`ExactIff`).
- `mutate_cluster` says invalid candidates are repaired in place; they are refused and redrawn.
- The cursor loop of `fetch_binance_klines` promises the inclusive range. It loses the first candle
  exactly when candles open at the start and one millisecond later and the number of candles from
  the second one to the end is a multiple of 1000 (`Misses`, `CompleteIff`, `DenseMisses`). The
  supported intervals are a minute or longer, so exchange data never meets that case and every
  request for it is complete (`SupportedIsComplete`).
- `get_events` promises the events numbered above `after_seq`. Below -1 the number is read as a
  position counted from the end (`CursorReadsIff`), and a dropped event uses up a number, so that as
  soon as another event is accepted some cursor skips an event (`ReadsRightIff`).
- The event stream ends when enough empty polls found the run over. That is safe when the
  run is reported over only after its last event (`QuietRunsAreComplete`), but the orchestrator
  stores the final status before it publishes the done event
  (app/services/vibe/orchestrator.py:243-275), and then no limit is enough (`DoneTooLate`). Empty
  polls do not have to be consecutive: a poll that finds events does not reset the count. The limit
  is named in seconds but counts polls half a second apart.
- The targets of an accepted harmonic pattern lie between D and A except under loose tolerances;
  `OvershootIff` gives the exact threshold per pattern, `LooseShark` a pattern beyond it.
- The stop of an accepted harmonic pattern is placed off the zone and the entry is D, and the
  tolerance lets D undercut the zone: at the default tolerance every pattern can be accepted with
  its stop at or beyond its entry (`ExposedIff`, `DefaultsAreExposed`); up to 0.03 none can.
- Tuning bounds are applied before renormalisation, so renormalised weights can leave them
  (`RenormalisingBreaksBounds`); `RenormalisedWithinIff` says when they do not.
- A Pareto offer whose sha is on the front is ignored whatever its metrics. The front is that of the
  offers that were heard (`FrontIsHeardNondominated`); only an unheard one can dominate a member
  (`DominatedMembers`, `RerunIsIgnored`).
- With fewer than 20 candles `quant_regime` reports score 50 and a normal regime, although a score
  of 50 is above the moderate threshold otherwise used.

## Model

| member | source | states |
|---|---|---|
| `Position.WalkTargets` | app/services/position_manager.py:205-261 | the loop over the target table takes exactly the targets the bar reaches, in order, and stops at the first one it does not reach |
| `Position.ProcessBar` | app/services/position_manager.py:145-291 | one bar: closed, stopped, timed out, targets, trail, in that order, with the actions each emits and the cases in which construction of the state or the postcondition raises |
| `PositionRuns.StepKeepsPlan` | app/services/position_manager.py:145-200 | any bar that does not raise keeps the state constructible and the plan unchanged, counts the bar unless the position was closed, gives every closed state its reason, and leaves open only what is within the time stop |
| `PositionRuns.PeakIsHighestHigh` | app/services/position_manager.py:264-269 | the peak that determines the trail is attained and is an upper bound of all highs |
| `PositionRuns.StepLong` | app/services/position_manager.py:180-291 | an open long answers a bar with, in this priority, the stop, the time stop, the third target, or another open long determined by its peak |
| `PositionRuns.LongRun` | app/services/position_manager.py:211-291 | for every bar sequence, a long that is still open has stop, size, flags and trail given by bar count and highest high alone: initial stop, then max(entry, peak - gap), then max(tp1, peak - gap) |
| `PositionRuns.LastBarDecides` | app/services/position_manager.py:180-255 | an open long stays open over one more bar exactly when that bar meets neither its working stop, nor the clock, nor TP3 |
| `PositionRuns.LongOpenIff` | app/services/position_manager.py:173-255 | a long run never raises and is open exactly when every bar of it survived its own working stop, the clock and TP3 |
| `PositionRuns.ClosesInTime` | app/services/position_manager.py:191-200 | a run that is still open has counted every bar and not passed the time stop, on either side |
| `PositionRuns.StopNeverRetreats` | app/services/position_manager.py:257-286 | between any two moments at which a long is open its recorded stop has not moved down |
| `PositionRuns.RetreatIff` | app/services/position_manager.py:241-261 | one bar on an open long records a lower stop if and only if it passes stop and clock, reaches TP3, TP2 was not hit before, and the trail had passed TP1 |
| `PositionRuns.RetreatHappens` | app/services/position_manager.py:241-255 | a two-bar run on which the recorded stop does move down |
| `PositionRuns.StepBook` | app/services/position_manager.py:168-171 | whatever the state, executing the actions of one bar in their order turns the broker's size and stop into those of the new state |
| `PositionRuns.ActionsReproduceState` | app/services/position_manager.py:153-171 | over every run the actions alone reproduce the open size and working stop, and open plus filled stays the opening size |
| `PositionRuns.StepSound` | app/services/position_manager.py:173-291 | one bar keeps the banked profit equal to what the target flags say and the stop behind its shield, or closes the trade with its profit floor met |
| `PositionRuns.RunAccounted` | app/services/position_manager.py:173-291 | every run of bars with the close inside the bar, long or short: no bar raises, flags are in order, a closed trade has nothing left open and is filled to exactly 1, lost at most entry to initial stop, kept at least half of TP1 once TP1 was hit, and both banked targets plus TP1 on the last fifth once TP2 was |
| `PositionMirror.StageMirror` | app/services/position_manager.py:211-261 | one row of the target table commutes with reflecting every price |
| `PositionMirror.StepMirror` | app/services/position_manager.py:107-140 | one bar on the reflected state is the reflection of one bar on the state, for every valid state |
| `PositionMirror.RunMirror` | app/services/position_manager.py:153-291 | long and short bisimulate over whole runs: same flags, sizes, reasons and actions, reflected stops |
| `PositionMirror.ShortRun` | app/services/position_manager.py:270-286 | every open short is determined by bar count and lowest low |
| `PositionMirror.ShortOpenIff` | app/services/position_manager.py:173-255 | a short run never raises and is open exactly when every bar of it survived its own working stop, the clock and TP3 |
| `PositionMirror.ShortStopNeverRetreats` | app/services/position_manager.py:270-286 | between any two moments at which a short is open its recorded stop has not moved up |
| `PositionMirror.ShortRetreatIff` | app/services/position_manager.py:241-261 | the same for an open short, whose recorded stop then moves up |
| `PositionNumbers.LongNumbers` | app/services/position_manager.py:107-140 | an open long after any bars with highest high h has its size, flags and stop given by the plan's own numbers: from TP1 on the stop is the larger of the entry (TP1 once TP2 was reached) and h minus the chandelier multiple times the ATR |
| `PositionNumbers.ShortNumbers` | app/services/position_manager.py:107-140 | the same of an open short with its lowest low, plus the multiple times the ATR |
| `PositionNumbers.OpenIsInTime` | app/services/position_manager.py:191-200 | no open run, long or short, has more bars than the time multiple times the bars of the CD leg |
| `PositionNumbers.OpenExactly` | app/services/position_manager.py:173-255 | a run never raises and is open exactly when each bar of it, in plan fields, stayed off the carried stop, inside the clock and short of TP3 |
| `PositionNumbers.LongClosedAt` | app/services/position_manager.py:180-255 | every closed long closed on its first bar that did not, for that bar's reason, the stop before the clock before TP3, having counted the bars up to it |
| `PositionNumbers.ShortClosedAt` | app/services/position_manager.py:180-255 | so did every closed short |
| `PositionNumbers.ActionsInOrder` | app/services/position_manager.py:173-291 | whatever the state, a bar's actions are one hold, one close, or partial closes each followed by its own stop move, ending at most with the close after TP3 or one ratchet of the trail |
| `Backtest.AdvanceBar` | app/domain/rsi_trend_backtest.py:147-227 | one bar of an open trade: stop before target, halving, RSI reduction, trail, trend flip, and the signal bar that honours only a stop |
| `Backtest.SimulateOne` | app/domain/rsi_trend_backtest.py:118-250 | the whole loop with its final flattening, equal to the bar-indexed specification |
| `Backtest.ExitIsFinal` | app/domain/rsi_trend_backtest.py:158-163 | once a trade has exited, later bars do not change it |
| `BacktestFacts.RFacts` | app/domain/rsi_trend_backtest.py:109-115 | R is 0 at the entry, -1 at the stop, and strictly monotone in the trade's favour |
| `BacktestFacts.StepOk` | app/domain/rsi_trend_backtest.py:153-227 | one bar keeps a trade fully accounted for and its stop no looser; an exit meets the promises about R |
| `BacktestFacts.SimulatedTrade` | app/domain/rsi_trend_backtest.py:146-250 | every trade in every mode ends within the data with fractions totalling 1, R the weighted sum of its exits, R at least -1, and R at most the reward/risk in full mode |
| `BacktestFacts.HeldWithin` | app/domain/rsi_trend_backtest.py:146-163 | whatever the signal, the exit bar lies between the signal bar and the last bar looked at |
| `BacktestFacts.SignalBarIff` | app/domain/rsi_trend_backtest.py:218-236 | a trade is held for no bars if and only if its signal bar touches the stop or is the last one, and in the first case ends at the stop |
| `BacktestFacts.StopNeverLoosens` | app/domain/rsi_trend_backtest.py:173-207 | between any two bars of an open trade the working stop has not moved against it |
| `BacktestFacts.FirstTargetMeansProfit` | app/domain/rsi_trend_backtest.py:165-192 | with reward at least the risk, a trade that banked its first target ends with R above 0 |
| `BacktestFacts.FirstTargetMayLose` | app/domain/rsi_trend_backtest.py:165-192 | for every reward/risk below 1 there is a trade that banked its first target and still lost |
| `BacktestFacts.FlagsIff` | app/domain/rsi_trend_backtest.py:166-192 | while a trade is open its two flags are set exactly when a bar touched the target, and an RSI extreme came on or after such a bar |
| `BacktestFacts.FullModeOpenIff` | app/domain/rsi_trend_backtest.py:153-227 | in full mode the trade is untouched until the first bar that touches stop or target or flips the trend, and exits there with that reason and price |
| `TradeCourse.SimulateMirror` | app/domain/rsi_trend_backtest.py:118-250 | turning prices and RSI upside down turns every long trade into the short one: same bars, fractions, reasons and R |
| `TradeCourse.LongR` | app/domain/rsi_trend_backtest.py:109-115 | R of a long is the gain over the distance from entry to stop |
| `TradeCourse.LongCourse` | app/domain/rsi_trend_backtest.py:153-207 | an open long is untouched until its target bar; from then on it holds a half, or a quarter after the first overbought close, with those exits banked, and its stop is the entry or, when trailing, the best of the entry and the closes less their ATR since the target bar |
| `TradeCourse.ShortTrail` | app/domain/rsi_trend_backtest.py:173-207 | the stop of an open short in partial mode is the initial one until its target bar, then the entry or, when trailing, the best of the entry and the closes plus their ATR |
| `TradeCourse.LongOpenIff` | app/domain/rsi_trend_backtest.py:153-227 | a long is open before a bar exactly when no earlier bar touched its stop, and past the signal bar none closed below the EMA200 or, in full mode, reached the target |
| `TradeCourse.LongTrade` | app/domain/rsi_trend_backtest.py:118-250 | every simulated long follows that course up to the first bar that ends it, or to the end of the data, and its price, reason and R are those of that bar |
| `Portfolio.AcceptedAreDisjoint` | app/domain/rsi_trend_backtest.py:267-274 | accepted trades are simulations of given signals on disjoint, increasing bar intervals |
| `Portfolio.SkippedAreCovered` | app/domain/rsi_trend_backtest.py:269-271 | for signals in index order, every signal not taken fires inside an accepted trade |
| `Portfolio.MaxDrawdown` | app/domain/rsi_trend_backtest.py:285-291 | the one-pass value is the largest fall of the equity curve from an earlier point to a later one |
| `Portfolio.RunBacktest` | app/domain/rsi_trend_backtest.py:253-306 | accepted trades, wins, losses and scratches that add up, total R, profit factor with its two degenerate cases, and the maximum drawdown |
| `Portfolio.CountsBySign` | app/domain/rsi_trend_backtest.py:276-281 | winners and losers are the trades with R above and below zero |
| `Portfolio.FallWithinLoss` | app/domain/rsi_trend_backtest.py:285-291 | the fall from any point of the equity curve to its end is at most the gross loss |
| `Portfolio.DrawdownWithinLoss` | app/domain/rsi_trend_backtest.py:281-291 | the maximum drawdown lies between 0 and the gross loss |
| `Portfolio.LossWithinLosers` | app/domain/rsi_trend_backtest.py:276-281 | when no trade loses more than 1R the gross loss is at most the number of losers, and total R is gross win minus gross loss |
| `Portfolio.DrawdownBounds` | app/domain/rsi_trend_backtest.py:267-291 | over tradable signals the drawdown is at most the gross loss and at most one R per losing trade |
| `Portfolio.DetectSignals` | app/domain/rsi_trend.py:164-275 | exactly the signals of the bars after the warm-up that reach the clamped quality bar, in bar order |
| `Portfolio.KeepGood` | app/domain/rsi_trend.py:275-275 | filtering keeps exactly the signals that reach the bar and their order |
| `Portfolio.DetectedIsTradable` | app/domain/rsi_trend.py:209-274 | every detected signal has stop and target on the right sides, enters at the close of its bar and pays exactly the configured multiple of its risk |
| `Portfolio.DetectedPassesItsBar` | app/domain/rsi_trend.py:214-248 | with a positive multiple and ATR a detected signal's own bar does not touch its stop |
| `Portfolio.DetectedBacktest` | app/domain/rsi_trend_backtest.py:265-291 | detector and backtest composed: disjoint trades, no signal lost except to an open trade, drawdown at most one R per loser, profit after a first target |
| `DetectionRules.DetectedIff` | app/domain/rsi_trend.py:196-275 | a signal is detected exactly when its bar fires in the row's own columns: past the warm-up, the RSI leaving the oversold (overbought) zone, the close on the trend side of the EMA200 and, if asked, of the EMA50, the candle's colour, a positive risk and the clamped quality bar; entry, stop and target are the close, the ATR multiple beyond the low (high) and the multiple of the risk |
| `DetectionRules.LongAtBar` | app/domain/rsi_trend.py:209-240 | the long side of one bar |
| `DetectionRules.ShortAtBar` | app/domain/rsi_trend.py:241-274 | the short side of one bar |
| `ZigZag.FindPivots` | docs/harmonic_detector.py:92-145 | the three-state scan with its tail and de-duplication returns pivots that satisfy the loop-free definition of a zigzag |
| `ZigZag.DropRepeats` | docs/harmonic_detector.py:143-144 | keeps exactly the rows whose type differs from the row before |
| `ZigZag.NothingRepeats` | docs/harmonic_detector.py:143-144 | on alternating pivots the de-duplication removes nothing |
| `ZigZag.ZigZagIsUnique` | docs/harmonic_detector.py:92-145 | bars and threshold determine the pivots: any two outputs meeting the definition are equal |
| `ZigZag.PivotsAreWellSwung` | docs/harmonic_detector.py:104-140 | indices rise, types alternate, neighbours differ by at least the threshold, tail included, and each pivot is the extreme from just after its predecessor through the bar that confirmed it |
| `PivotPrices.PivotsInPrices` | docs/harmonic_detector.py:92-145 | what the scan returns, in highs, lows and closes: nothing below six bars or while no bar moves by the threshold from the first close or lowest low before it; else that starting extreme, then alternating pivots, each the last most extreme bar of its leg and confirmed by the first bar that turns back by the threshold |
| `PivotPrices.FirstIs` | docs/harmonic_detector.py:107-123 | the first pivot is the starting extreme, a low if the first bar that breaks away rises far enough, which is looked at before the fall |
| `PivotPrices.SeedIs` | docs/harmonic_detector.py:104-123 | the starting extreme before a bar is the first close, or the first of the lowest lows below it |
| `Harmonic.ZoneAndStop` | docs/harmonic_detector.py:216-240 | for every accepted pattern and tolerance the zone is not inverted and the stop is strictly outside it |
| `Harmonic.TargetsInOrderIff` | docs/harmonic_detector.py:233-240 | the targets lie in order between D and A exactly when D is on the right side of A |
| `Harmonic.OutOfOrderOvershoots` | docs/harmonic_detector.py:195-214 | an accepted pattern with D past A forces the extreme admitted ratios to bring D past A by the shortest admitted AD |
| `Harmonic.NegativeIsSafe` | docs/harmonic_detector.py:172-173 | a negative tolerance admits no such pattern |
| `Harmonic.ExtremeExists` | docs/harmonic_detector.py:195-214 | where the extreme ratios reach that far, a pattern at those ratios is accepted with its targets out of order |
| `Harmonic.OvershootIff` | docs/harmonic_detector.py:193-240 | the exact threshold, for every name and tolerance: an accepted pattern with its targets out of order exists if and only if U(AB/XA) (U(BC/AB) (1 - L(CD/BC)) - 1) >= L(AD/XA), with L and U the bounds widened by the tolerance |
| `Harmonic.SafeTargets` | docs/harmonic_detector.py:195-240 | below that threshold every accepted pattern has its targets in order between D and A |
| `Harmonic.WiderAccepts` | docs/harmonic_detector.py:172-214 | what a tolerance accepts, every larger one accepts with the same zone, stop and targets |
| `Harmonic.SafeBelow` | docs/harmonic_detector.py:172-173 | a tolerance below a safe one is safe |
| `Harmonic.DefaultsAreSafe` | docs/harmonic_detector.py:156-169 | every known pattern is safe at zero, at the default tolerance and at twice it |
| `Harmonic.LooseButSafe` | docs/harmonic_detector.py:156-169 | Gartley is safe up to a tolerance of 0.3 and Shark up to 0.5 |
| `Harmonic.LooseShark` | docs/harmonic_detector.py:167-173 | at tolerance 0.8 there is an accepted bullish Shark with both targets below D |
| `Harmonic.CompletionNearZone` | docs/harmonic_detector.py:202-229 | at a tolerance of at least zero, every accepted D that has not passed A lies in the zone up to the tolerance's share of the longer projection |
| `Harmonic.CompletionInZone` | docs/harmonic_detector.py:202-229 | at zero tolerance every accepted D lies inside the zone |
| `Harmonic.ValidateMirror` | docs/harmonic_detector.py:188-240 | reflecting the five prices reflects the verdict: bullish and bearish branches agree on acceptance, zone, stop and targets |
| `PatternRules.RatiosAre` | docs/harmonic_detector.py:156-169 | the admitted ratios of every name |
| `PatternRules.AcceptedIff` | docs/harmonic_detector.py:179-214 | a name is accepted exactly when the five prices turn each time and each leg lies between its multiples of the leg it is measured by, up to the tolerance |
| `PatternRules.MatchReports` | docs/harmonic_detector.py:216-256 | an accepted pattern reports D as entry, the prices common to the two projections as its zone or the span of both when they share none, a stop a twentieth of XA beyond the zone, and targets 0.382 and 0.618 of the way from D to A |
| `Harmonic.WindowIsStructured` | docs/harmonic_detector.py:193-200 | five neighbouring zigzag pivots never fail the zero-leg or direction checks, for any pattern and tolerance |
| `Harmonic.PivotsArePositive` | docs/harmonic_detector.py:104-140 | zigzag pivots of positive bars have positive prices |
| `Harmonic.Scan` | docs/harmonic_detector.py:262-287 | reports every match of every window of the bars' zigzag in window and name order, for the configured names when none are given, only the last window when asked, nothing below five pivots |
| `PatternRules.ScanIsExact` | docs/harmonic_detector.py:262-287 | the signals are the matches of all windows of five neighbouring pivots, or of the last window only, under every chosen or configured name: each once, in window and name order, none left out, and none for fewer than five pivots |
| `Harmonic.MatchIsPlaced` | docs/harmonic_detector.py:280-284 | a match on zigzag pivots for a safe name has its stop outside the zone and its targets ahead of D |
| `Harmonic.ScannedPatterns` | docs/harmonic_detector.py:280-286 | over any range of windows of positive bars, everything reported for safe names is such a match |
| `Harmonic.SignalsArePlaced` | docs/harmonic_detector.py:262-287 | so is everything the scan returns, with all windows or only the latest |
| `Harmonic.DefaultSignalsArePlaced` | docs/harmonic_detector.py:262-287 | so is everything a scan of positive bars returns with no names given at the default tolerance, for every swing threshold between 0 and 1 |
| `HarmonicStops.Undercuts` | docs/harmonic_detector.py:216-240 | an accepted long whose stop is not behind D has a D that undercuts the end of XA's or of BC's projection by a twentieth of XA |
| `HarmonicStops.BcUndercut` | docs/harmonic_detector.py:202-240 | undercutting BC's projection needs a positive tolerance, enough room below A and a BC its admitted ratio allows, whatever the ratios |
| `HarmonicStops.ExposedNeeds` | docs/harmonic_detector.py:202-240 | an accepted pattern, long or short, whose stop is not behind its entry shows that the tolerance has reached the threshold |
| `HarmonicStops.XaUndercutExists` | docs/harmonic_detector.py:156-240 | from the threshold on, a concrete pattern of every name is accepted with its stop at its entry |
| `HarmonicStops.BcUndercutExists` | docs/harmonic_detector.py:156-240 | for the Shark already at the smaller tolerances at which the room below A allows it |
| `HarmonicStops.ExposedIff` | docs/harmonic_detector.py:193-253 | the exact threshold, for every name and tolerance: an accepted pattern with its stop at or beyond its entry exists if and only if the tolerance times the longest AD ratio is at least 0.05, or for the Shark its BC projection can be undercut by as much |
| `HarmonicStops.StopsHold` | docs/harmonic_detector.py:193-253 | up to a tolerance of 0.03 every accepted stop is strictly behind its entry |
| `HarmonicStops.DefaultsAreExposed` | docs/harmonic_detector.py:156-253 | at the default tolerance every known name accepts a pattern whose stop is not |
| `HarmonicStops.SignalsAreStopped` | docs/harmonic_detector.py:262-287 | a scan whose tolerance is below the threshold of each chosen name returns only signals whose stop is behind their entry |
| `StopGeometry.TrapKnee` | app/domain/validation.py:231-260 | the multiplier never decreases, stays within 1 and 2, is 1 exactly up to 60 and 2 exactly from 90 |
| `StopGeometry.ChainMonotone` | app/domain/signals.py:311-316 | the multiplier chain is positive and non-decreasing in trap score, regime and demotion |
| `StopGeometry.BufferGrows` | app/domain/signals.py:311-317 | so is the buffer, and it never exceeds 2 ATR |
| `StopGeometry.DistanceFromAnchor` | app/domain/signals.py:321-366 | a wider chain moves the stop only away from the same anchor, by more than 0 and at most 2 ATR |
| `StopGeometry.OverrideIsLiteralIff` | app/domain/signals.py:302-317 | a literal multiple is the final one exactly when it is 0, 2, or below 2 with nothing widening it |
| `StopSamples.HalfBecomesThreeQuarters` | app/domain/signals.py:302-317 | a literal multiple of 0.5 on a reference signal ends as 0.75 |
| `StopGeometry.BeyondAnchorIff` | app/domain/signals.py:302-366 | the stop is strictly beyond its anchor exactly when the base multiple is positive |
| `StopGeometry.EntryInZone` | app/services/signal_engine.py:682-693 | the entry lies in the zone in every state, swept and approaching included |
| `StopGeometry.StopBehindEntry` | app/services/signal_engine.py:698-705 | with a positive multiple the stop is strictly on the losing side of the entry, swing anchor or not |
| `StopGeometry.TargetsRise` | app/domain/signals.py:395-410 | the ladder is strictly ordered away from the entry unless A equals the entry, when it collapses onto it |
| `StopGeometry.GateIff` | app/domain/validation.py:123-135 | after a first-pass stop the gate rejects exactly the candidates whose A price equals the entry |
| `StopGeometry.EmittedGeometry` | app/services/signal_engine.py:682-832 | every emitted signal has its entry in the zone, its targets in order beyond it and the gated stop behind it; the second, ungated stop is behind the entry too and at most 2 ATR from its anchor unless a literal multiple is not positive, and without a literal multiple no nearer to the anchor than the gated one |
| `StopSamples.SampleEmits` | app/services/signal_engine.py:682-832 | one sample setup emits a long for every literal multiple, with its stop 15 times the literal below the entry and at most 20 |
| `StopSamples.LiteralIsSafeIff` | app/services/signal_engine.py:785-796 | every signal emitted with a literal multiple has its stop strictly behind its entry if and only if the multiple is positive |
| `StopGeometry.FartherStopPaysLess` | app/domain/signals.py:443-468 | moving the stop farther from the entry keeps the net reward over risk defined and never improves it |
| `StopGeometry.PaysLessIff` | app/domain/signals.py:443-468 | of two stops with a defined ratio the farther one pays no more, and only it |
| `StopGeometry.ReportedIsNoBetterIff` | app/services/signal_engine.py:735-802 | with a positive literal multiple or none, a reported ratio that exists is no better than the graded one if and only if the final buffer multiple is at least the plain one |
| `StopGeometry.ReportedByDistance` | app/services/signal_engine.py:735-802 | with any literal multiple the same holds of the distances of the two stops from the entry |
| `StopSamples.SmallLiteralFlatters` | app/services/signal_engine.py:785-802 | every positive literal below a third makes the sample, graded at a ratio of 8, report a better one |
| `StopGeometry.ReportedIsNoBetter` | app/services/signal_engine.py:735-802 | without a literal multiple both reported ratios exist and never beat the ones the grade was based on |
| `StopGeometry.GradeImproves` | app/domain/signals.py:486-523 | nothing that improves a setup lowers its grade; a wide zone, a counter-trend or a reward below the gates caps it at reference, and A needs its three conditions |
| `StopGeometry.Lookback` | app/services/signal_engine.py:502-530 | the lookback covers 20 to 120 bars and never more than the data |
| `StopGeometry.LowestIsLeast` | app/services/signal_engine.py:502-530 | the swing extremes bound every bar they cover |
| `StopGeometry.SwingStopClearsRecentBars` | app/services/signal_engine.py:502-530 | a stop anchored on the swing clears the low (high) of each of the last twenty bars |
| `StopRules.AnchorRules` | app/domain/signals.py:321-366 | the anchor of a placed long is the zone's low for Conservative, and for Standard on an extended pattern; otherwise it is the lower of that and X; a positive swing below the entry and above that edge replaces it; shorts the other way round |
| `StopRules.PlacedStop` | app/domain/signals.py:295-366 | a placed stop stands off its anchor, on the losing side, by the level's multiple or the literal one times the trap, regime and grade factors, at most 2, times the ATR |
| `StopRules.PlacedIff` | app/domain/signals.py:295-366 | without a swing, a stop is placed exactly when every price it uses and the stop itself are positive |
| `StopRules.KneeIs` | app/domain/validation.py:231-260 | the trap multiplier is linear between 1 at 60, 1.5 at 75, 1.8 at 85 and 2 at 90 |
| `StopRules.EntryRules` | app/services/signal_engine.py:682-693 | the entry is the price inside the zone and the near end of the zone outside it, and the status follows the same line |
| `StopRules.TargetRules` | app/domain/signals.py:395-410 | each target lies its fraction of the distance between A and the entry beyond the entry |
| `StopRules.RatioRules` | app/domain/signals.py:443-468 | the net ratio exists exactly when entry, risk and net reward are positive, and times the risk plus round-trip costs it is the reward less them |
| `StopRules.GradeRules` | app/domain/signals.py:486-523 | the exact condition of every grade |
| `StopRules.EmittedIff` | app/services/signal_engine.py:638-832 | with positive buffers and rising fractions, a candidate is emitted exactly when the score gets past authenticity, vetoes, gate and grade and every price stays positive |
| `StopRules.EmittedCarries` | app/services/signal_engine.py:785-832 | an emitted signal carries the entry, targets and grade of the first pass and the stop and ratios of the widened second one |
| `StopRules.SwingRules` | app/services/signal_engine.py:502-530 | the swing is the lowest low (highest high) of the last k bars, with k the bars in which eight ATR are travelled at the pace of the last sixty, kept within 20 and 120 |
| `Pareto.DominanceIsTransitive` | app/loop/pareto.py:61-69 | dominance over the four objectives is transitive |
| `Pareto.Irreflexive` | app/loop/pareto.py:61-69 | no point dominates itself |
| `Pareto.DominatesIff` | app/loop/pareto.py:45-69 | one point dominates another exactly when none of Sharpe, Calmar, profit factor and worst regime is below and not all are equal, a missing one standing for -10, or 0 for the profit factor |
| `Pareto.Undominated` | app/loop/pareto.py:77-91 | keeps exactly the members the new point does not dominate |
| `Pareto.ParetoSet.Add` | app/loop/pareto.py:77-91 | the new front and the returned flag for a known sha, a dominated point and an improving one |
| `Pareto.OfferKeepsInv` | app/loop/pareto.py:77-91 | an offer of a new sha keeps the front an antichain of heard points, one per sha, that covers every heard point |
| `Pareto.FrontKeepsInv` | app/loop/pareto.py:77-91 | so does any sequence of offers, whatever their metrics |
| `Pareto.FrontIsHeardNondominated` | app/loop/pareto.py:72-91 | after any offers the front holds exactly the non-dominated ones among those whose sha was not on the front at their time, one per sha |
| `Pareto.DominatedMembers` | app/loop/pareto.py:77-91 | a member is dominated by an offer exactly when one that was not heard dominates it |
| `Pareto.FrontIsNondominated` | app/loop/pareto.py:72-91 | after any consistent offers the front holds exactly the shas of the non-dominated ones, each once |
| `Pareto.OrderDoesNotMatter` | app/loop/pareto.py:72-91 | offering the same points in any other order gives the same shas |
| `Pareto.MovedIffChanged` | app/loop/pareto.py:77-91 | the returned flag is true exactly when the front changed |
| `Pareto.RerunIsIgnored` | app/loop/pareto.py:77-91 | a better re-run of a member's sha leaves a dominated point on the front |
| `MemoryCache.MemoryCache.constructor` | app/infra/memory_cache.py:24-30 | a new cache is empty with the given limits |
| `MemoryCache.MemoryCache.MoveToEnd` | app/infra/memory_cache.py:42-43 | the key becomes the most recently used, the others keep their order |
| `MemoryCache.MemoryCache.Get` | app/infra/memory_cache.py:32-44 | hit, miss and expiry, with the removal and reordering each causes |
| `MemoryCache.MemoryCache.Set` | app/infra/memory_cache.py:46-54 | the value and its expiry are stored last, then the oldest keys go until the size fits |
| `MemoryCache.MemoryCache.Delete` | app/infra/memory_cache.py:56-61 | removes just that key and says whether it was there |
| `MemoryCache.MemoryCache.Clear` | app/infra/memory_cache.py:63-65 | leaves nothing |
| `MemoryCache.SetStaysWellFormed` | app/infra/memory_cache.py:46-54 | the recency order and the data keep the same distinct keys, at most the maximum many |
| `CacheHistory.EvictKeepsInv` | app/infra/memory_cache.py:52-54 | evicting from one key too many removes only a key that has the maximum number of others behind it |
| `CacheHistory.HistoryInv` | app/infra/memory_cache.py:32-65 | over every history the data are the latest stored values, ranked by last touch, and every stored key that is gone is excused |
| `CacheHistory.CacheRefinesMap` | app/infra/memory_cache.py:32-65 | the size limit holds; a hit is the latest stored, unexpired value; a miss on a stored key means expiry or at least the maximum number of other keys touched since |
| `CacheHistory.RecentKeyIsServed` | app/infra/memory_cache.py:32-54 | a key in its lifetime with fewer other keys touched since is always served |
| `CacheRules.LatestIs` | app/infra/memory_cache.py:46-65 | the latest item of a key comes from the last store of it that no later store, deletion or clearing replaces, and lives for the lifetime from then |
| `CacheRules.OthersAre` | app/infra/memory_cache.py:32-54 | the keys ahead of a key are those stored or found after it last was |
| `CacheRules.LookupIs` | app/infra/memory_cache.py:32-65 | in the operations alone: a hit returns the value of the last store of its key within its lifetime, and a miss means that there is none or that at least as many other keys as the cache holds were stored or found since |
| `KLineCache.KLineCache.Get` | app/infra/kline_cache.py:200-203 | a lookup goes to the memory cache and leaves the index alone |
| `KLineCache.KLineCache.Set` | app/infra/kline_cache.py:160-194 | stores the frame and indexes the key under its parameters |
| `KLineCache.KLineCache.DeleteAll` | app/infra/kline_cache.py:243-245 | deleting the collected keys one by one, in whatever order, removes them all and nothing else |
| `KLineCache.KLineCache.Invalidate` | app/infra/kline_cache.py:211-256 | the store and index after an invalidation, and the number of indexed keys returned; a pattern that does not compile changes nothing and returns 0 |
| `KLineCache.DropMore` | app/infra/kline_cache.py:243-245 | deleting one more key is dropping one more key, so the order of the set does not matter |
| `KLineCache.HistoryCovers` | app/infra/kline_cache.py:189-194 | after any history of saves, lookups, evictions, expiries and invalidations the index covers the live keys under their current parameters |
| `KLineCache.IndexIsTags` | app/infra/kline_cache.py:189-251 | after any history the index holds a key under exactly the parameters it was saved with since an invalidation last matched one of them |
| `KLineCache.InvalidateRemovesMatches` | app/infra/kline_cache.py:229-253 | an invalidation removes every live entry whose current parameters match, only keys once saved under matching ones, and touches nothing else |
| `KLineCache.RemovedIff` | app/infra/kline_cache.py:229-251 | after any history a live key is removed if and only if the pattern matches one of those parameters |
| `KLineCache.ExactIff` | app/infra/kline_cache.py:189-251 | every pattern removes a live key exactly when it matches its current parameters, if and only if those are the only ones it is indexed under |
| `KLineCache.InvalidateIsExact` | app/infra/kline_cache.py:229-253 | in particular for a live key that was only ever saved with one parameter string, whatever happened to other keys |
| `KLineCache.ResavedAfterInvalidation` | app/infra/kline_cache.py:247-251 | a key whose parameters were invalidated and that is saved again is indexed under the new parameters alone |
| `KLineCache.StaleParamsRemoveLiveEntry` | app/infra/kline_cache.py:189-253 | without it, a pattern for old parameters removes an entry that no longer has them |
| `KLineCache.CountIsRemovedIff` | app/infra/kline_cache.py:211-253 | after any history the returned number is at least the number of entries the invalidation removes, and equal exactly when every key indexed under matching parameters is still live |
| `KLineCache.ExpiredKeyIsReported` | app/infra/kline_cache.py:211-253 | after one save and a lookup past its expiry the number is 1 and nothing is removed |
| `KLineCache.SavedIsServed` | app/infra/kline_cache.py:160-203 | whatever the cache held, a frame just saved is found until its lifetime is over and not after |
| `Watchlist.Insert` | app/infra/watchlist_store.py:545-549 | sorting neither loses nor invents rows |
| `Watchlist.Find` | app/infra/watchlist_store.py:564-572 | the first row with the id, or none |
| `Watchlist.SameIdsUnsorted` | app/infra/watchlist_store.py:428-471 | the id check of a reorder does not depend on the listing order |
| `WatchlistStores.RedisWatchlist.Create` | app/infra/watchlist_store.py:551-562 | appends the row |
| `WatchlistStores.RedisWatchlist.Update` | app/infra/watchlist_store.py:564-572 | patches the first row with the id, in its place, or fails |
| `WatchlistStores.RedisWatchlist.Delete` | app/infra/watchlist_store.py:574-582 | filters the id out, or fails when nothing goes |
| `WatchlistStores.RedisWatchlist.Reorder` | app/infra/watchlist_store.py:584-603 | patches row after row and saves only a complete reorder |
| `WatchlistStores.RedisWatchlist.Apply` | app/infra/watchlist_store.py:265-471 | a public call with its checks and errors, on the list layout |
| `WatchlistStores.MemoryWatchlist.Create` | app/infra/watchlist_store.py:615-626 | inserts the row under its id |
| `WatchlistStores.MemoryWatchlist.Update` | app/infra/watchlist_store.py:628-637 | patches the row under the id, or fails |
| `WatchlistStores.MemoryWatchlist.Delete` | app/infra/watchlist_store.py:639-645 | removes the id, or fails |
| `WatchlistStores.MemoryWatchlist.Reorder` | app/infra/watchlist_store.py:647-668 | patches the rows in the given order |
| `WatchlistStores.MemoryWatchlist.Apply` | app/infra/watchlist_store.py:265-471 | a public call with its checks and errors, on the dictionary layout |
| `WatchlistFacts.SortsTo` | app/infra/watchlist_store.py:545-549 | any arrangement with strictly rising indices is what sorting its rows returns |
| `WatchlistFacts.CreatedListsLast` | app/infra/watchlist_store.py:515-521 | a created row lists after all the others |
| `WatchlistFacts.StepKeepsLimits` | app/infra/watchlist_store.py:290-350 | every call keeps at most 50 rows of distinct symbols |
| `WatchlistFacts.CreateAgrees` | app/infra/watchlist_store.py:551-626 | creation gives the same answer and related stores on both layouts |
| `WatchlistFacts.UpdateAgrees` | app/infra/watchlist_store.py:564-637 | so does an update, missing ids included |
| `WatchlistFacts.DeleteAgrees` | app/infra/watchlist_store.py:574-645 | so does a deletion |
| `WatchlistFacts.ReorderAgrees` | app/infra/watchlist_store.py:584-668 | so does a reorder, and both return the rows in the requested order |
| `WatchlistFacts.ReorderLists` | app/infra/watchlist_store.py:428-500 | after a successful reorder the listing is exactly the requested order, indexed from 0 |
| `WatchlistFacts.StepAgrees` | app/infra/watchlist_store.py:265-500 | every public call answers alike on related stores and keeps them related |
| `WatchlistFacts.HistoriesAgree` | app/infra/watchlist_store.py:545-668 | over every history on one market the two layouts are indistinguishable, errors included, and stay within the limits |
| `WatchlistRules.CreateIs` | app/infra/watchlist_store.py:290-350 | a creation is refused for a note over 280 characters, an unknown symbol, a symbol already listed or 50 rows, in this order; otherwise it appends one row with the given fields and the next index |
| `WatchlistRules.UpdateIs` | app/infra/watchlist_store.py:352-399 | an update needs a field and a short note, and a row with the id; it changes the given fields and the time of the first such row and nothing else |
| `WatchlistRules.DeleteIs` | app/infra/watchlist_store.py:574-582 | a deletion needs a row with the id and leaves exactly the other rows, in order |
| `WatchlistRules.ListIs` | app/infra/watchlist_store.py:545-549 | a listing holds every row once, by index, then creation time, then stored order, and changes nothing |
| `WatchlistRules.ReorderIs` | app/infra/watchlist_store.py:428-500 | a reorder is refused for a repeated id or unless the ids are those of the rows; otherwise every row gets the place of its id as its index and the new time, nothing else changes, and the rows come back in the requested order |
| `Paging.Upto` | app/infra/marketdata.py:194-202 | splits an ascending series at a time |
| `Paging.BoundsMeanRange` | app/infra/marketdata.py:200-201 | the positions of a window are exactly the candles of the closed time range |
| `Paging.WindowIs` | app/infra/marketdata.py:187-237 | a candle is in the window exactly when it lies between the bounds and fewer than the asked number of candles of the range come after it |
| `Paging.KeepCuts` | app/infra/marketdata.py:223-227 | dropping the rows before the start cuts a page at the lower bound |
| `Paging.FetchPage` | app/infra/marketdata.py:208-227 | one request without the rows before the start, as a slice of the series |
| `Paging.FetchPaginated` | app/infra/marketdata.py:187-237 | the chunked backward walk ends and equals one query: the last min(cap, count) candles of the range, for every bound and cap |
| `Paging.FetchKlines` | scripts/_binance_stdlib.py:53-124 | unsupported intervals and bad ranges are refused; otherwise the cursor loop ends and returns the range, short of its first candle in the missing case, or the error for no data |
| `Paging.Finish` | scripts/_binance_stdlib.py:119-124 | no rows is an error, early rows are cut off |
| `Paging.CompleteIff` | scripts/_binance_stdlib.py:77-117 | the result is every candle of the range exactly when the request is not a missing one |
| `Paging.DenseMisses` | scripts/_binance_stdlib.py:77-117 | of 1001 candles a millisecond apart, a request for exactly these does not return the first |
| `Paging.SpacedIsComplete` | scripts/_binance_stdlib.py:111-117 | candles at least two milliseconds apart are never missed |
| `Paging.IntervalMs` | scripts/_binance_stdlib.py:21-29 | every supported interval is at least a minute long |
| `Paging.SupportedIsComplete` | scripts/_binance_stdlib.py:65-124 | for candles spaced by a supported interval every request returns its whole range |
| `EventStream.EventStore.constructor` | app/infra/vibe_event_store.py:39-52 | a new run has no events and has drawn no number |
| `EventStream.EventStore.NextSeq` | app/infra/vibe_event_store.py:98-116 | draws the next number |
| `EventStream.EventStore.Publish` | app/infra/vibe_event_store.py:118-168 | the log and counter after a publish, supplied numbers and dropped events included |
| `EventStream.CounterCounts` | app/infra/vibe_event_store.py:118-139 | the counter counts every publish, the log only the accepted ones |
| `EventRules.LogIs` | app/infra/vibe_event_store.py:118-168 | the log holds exactly the accepted publishes, each once and in order, with the kind they had and the number they brought or else the position of the publish, dropped ones counted |
| `EventStream.NumbersMatchIff` | app/infra/vibe_event_store.py:98-168 | with no supplied numbers event i carries number i exactly when nothing was accepted after a dropped event |
| `EventStream.CursorReads` | app/infra/vibe_event_store.py:191-194 | from a log whose event i carries number i, a cursor from -1 up reads the first `limit` events numbered above it |
| `EventStream.CursorReadsIff` | app/infra/vibe_event_store.py:191-243 | those are exactly the cursors that read correctly from every log in step |
| `EventStream.NumbersRise` | app/infra/vibe_event_store.py:98-168 | with no supplied numbers the accepted events carry strictly rising numbers, dropped events or not |
| `EventStream.MisreadAt` | app/infra/vibe_event_store.py:191-194 | the first event out of step is skipped by the cursor at its own position |
| `EventStream.ReadsRightIff` | app/infra/vibe_event_store.py:98-194 | with no supplied numbers, every cursor from -1 up reads right at every limit if and only if nothing was accepted after a dropped event |
| `EventStream.StepKeepsInv` | app/api/vibe_routes.py:365-390 | every action of reader or publisher keeps the offset, the pending batch and the yielded events consistent, and a stopped stream yields nothing more |
| `EventStream.EachEventOnceInOrder` | app/api/vibe_routes.py:365-390 | under any interleaving what was yielded is a prefix of what was published, and a terminal event is the last and stops the stream |
| `EventRules.StopsAtTheEnd` | app/api/vibe_routes.py:371-390 | under any schedule all events yielded but the last are progress, and below the limit of empty polls the stream has stopped exactly when the last one is a done or a failure |
| `EventRules.FetchReads` | app/api/vibe_routes.py:371-375 | a fetch takes the next fifty events, or all that are left |
| `EventRules.PollsAreCounted` | app/api/vibe_routes.py:381-388 | the count of empty polls is the number of empty polls told that the run is over since the last one told otherwise; polls that found events neither count nor reset |
| `EventStream.ReaderStep` | app/api/vibe_routes.py:371-390 | the reader's next action makes progress towards the next undelivered event |
| `EventStream.ReaderCatchesUp` | app/api/vibe_routes.py:371-390 | from any polling state there is a schedule of the reader alone, with the run not over, that delivers the rest of the log, up to and including its first terminal event |
| `StreamEnd.RunKeepsLook` | app/api/vibe_routes.py:371-390 | under any schedule the reader never passes what its last fetch saw, and gives up only when it has yielded all of that |
| `StreamEnd.StoppedExactly` | app/api/vibe_routes.py:371-390 | over every schedule and limit a stopped stream has yielded exactly what it owed of the log at its last fetch, so owed events are left behind if and only if it saw no terminal event and something was published after that fetch |
| `StreamEnd.MissedWasLate` | app/api/vibe_routes.py:371-390 | an event is left behind only if one was published when at most one more empty poll was missing to give up |
| `StreamEnd.QuietRunsAreComplete` | app/api/vibe_routes.py:382-388 | with a limit of at least two, when nothing is published after a poll was told the run is over, every stopped stream has delivered all it owed, whatever the schedule |
| `StreamEnd.DoneTooLate` | app/api/vibe_routes.py:382-388 | otherwise for every limit there is a schedule that stops with the done event undelivered |
| `StreamEnd.OneEmptyPollIsTooFew` | app/api/vibe_routes.py:371-388 | with a limit of one even a run that keeps quiet once it is over can lose its done event |
| `Prelude.Round` | app/loop/mutation.py:191-222 | Python's rounding: a nearest integer, ties going to the even one |
| `Mutation.Renormalise` | app/loop/mutation.py:217-230 | the loop that rounds every scaled value and gives the drift to the last key |
| `Mutation.Perturb` | app/loop/mutation.py:210-215 | one draw per key, clipped to the key's own bounds or the common ones |
| `Mutation.ApplyOne` | app/loop/mutation.py:174-231 | the candidate of each kind of mutation |
| `Mutation.MutateField` | app/loop/mutation.py:160-171 | the first attempt the constructor accepts, or the tuning unchanged |
| `Mutation.MutateCluster` | app/loop/mutation.py:273-276 | the chosen members mutated one after the other |
| `Mutation.RoundingError` | app/loop/mutation.py:221-222 | rounding n values moves their sum by at most n/2 |
| `Mutation.RenormalisedExactly` | app/loop/mutation.py:217-230 | integers summing to the target exactly, every key but the last within 1/2 of its exact share, the last within (n-1)/2 |
| `Mutation.RoundsBetweenIff` | app/loop/mutation.py:221-222 | the exact values that round into given bounds, ties included |
| `Mutation.RenormalisedWithinIff` | app/loop/mutation.py:210-230 | renormalised values keep their bounds if and only if every exact share but the last rounds between its bounds and what the others leave over lies between the last ones |
| `Mutation.RenormalisingBreaksBounds` | app/loop/mutation.py:196-230 | they need not: -40 and 41, within the default bounds, become -4000 and 4100 |
| `Mutation.NonNegativeStayWithin` | app/loop/mutation.py:210-230 | non-negative values leave no bounds that have room for half a unit per key around zero and the target |
| `Mutation.CandidateShape` | app/loop/mutation.py:174-231 | a candidate differs only in its own member, whose value lies within its bounds, or for a dictionary with a target sum is the renormalisation of values that do |
| `Mutation.FieldMutationIsSafe` | app/loop/mutation.py:140-171 | for any draws a field mutation keeps a valid tuning valid and changes only its own member, to a value within its bounds or the renormalisation of such values |
| `Mutation.ClusterMutationIsSafe` | app/loop/mutation.py:243-276 | a cluster mutation keeps a valid tuning valid and changes only fields of the chosen members |
| `Mutation.ChangesAreFew` | app/loop/mutation.py:243-276 | it changes at most as many fields as were chosen |
| `Mutation.EvolutionStaysValid` | app/loop/mutation.py:243-276 | any sequence of cluster mutations from a valid tuning stays valid and leaves the fixed fields alone |
| `Mutation.WeightsRefusedIff` | app/config/tuning.py:225-351 | renormalised confluence weights are refused exactly when the perturbed weights sum to zero |
| `Mutation.StopBufferNeverRefused` | app/config/tuning.py:225-351 | with its own bounds inside 0.2 to 0.5 the standard buffer never makes the constructor refuse |
| `TuningMoves.TakesFirstAccepted` | app/loop/mutation.py:160-171 | the first attempt the constructor accepts is the result |
| `TuningMoves.RefusedKeeps` | app/loop/mutation.py:160-171 | when every attempt is refused the tuning is unchanged |
| `TuningMoves.UnchangedIff` | app/loop/mutation.py:160-171 | the result is the tuning itself exactly when every attempt is refused or the first accepted one changes nothing |
| `TuningMoves.NumberMoves` | app/loop/mutation.py:174-205 | a draw moves a field to the value plus the draw, or times one plus the draw, clipped to its bounds; an integer field to the nearest integer of that |
| `TuningMoves.EntriesMove` | app/loop/mutation.py:206-231 | a dictionary mutation moves each entry by its own draw within its own bounds, then renormalises if a sum is set |
| `TuningMoves.EachMovesOnce` | app/loop/mutation.py:264-276 | in a cluster mutation each chosen member takes exactly its own mutation of the tuning of its turn, untouched by the others before and after |
| `TuningMoves.AcceptedIff` | app/config/tuning.py:225-351 | the constructor accepts a tuning exactly when the orderings and ranges of its fields, its weight sum, buffer range and required keys hold |
| `Stats.LagBelowSquares` | app/domain/validation.py:290-293 | the sum of neighbouring products stays strictly below the sum of squares unless all values are zero |
| `Stats.AutocorrelationBounds` | app/domain/validation.py:290-293 | the lag-1 autocorrelation lies strictly between -1 and 1, for any values |
| `Stats.Markov` | app/domain/validation.py:287-288 | for non-negative values, count times limit is below the sum as soon as one value exceeds the limit |
| `Stats.SpikesAreFew` | app/domain/validation.py:287-288 | fewer than two fifths of non-negative volumes exceed 2.5 times their mean |
| `Stats.TailsAreFew` | app/domain/validation.py:365-370 | fewer than one ninth of the values lie beyond three standard deviations |
| `Stats.ReturnTailsAreFew` | app/domain/validation.py:363-370 | so the share of tail returns is below one ninth, with an undefined deviation counting none |
| `Stats.AuthenticityInRange` | app/domain/validation.py:295-299 | the weighted score lies strictly between 0 and 100 before any rounding |
| `Stats.VolumeAuthenticity` | app/domain/validation.py:266-300 | 50 below ten candles, otherwise the rounded score with neither the autocorrelation clamp nor the final clamp ever acting |
| `ScoreRules.AuthenticityIs` | app/domain/validation.py:266-299 | before rounding the score is 40 times the share of pairs in which price and volume rise together, plus 40 less 160 times the share of volumes above 2.5 means, at least 0, plus 10, plus 10 times the lag-1 autocorrelation |
| `Stats.QuantScoreInRange` | app/domain/validation.py:372-377 | the weighted regime score lies within 0 and 100 before rounding |
| `Stats.CountGaps` | app/domain/validation.py:345-349 | counts the bars that open more than 0.8% away from a positive previous close |
| `Stats.CountReversals` | app/domain/validation.py:351-358 | counts the wide-range, small-body bars with positive prices |
| `Stats.QuantRegime` | app/domain/validation.py:329-386 | 50 and normal below twenty candles, otherwise the rounded score, its final clamp never acting, and the regime the thresholds give |
| `ScoreRules.QuantScoreIs` | app/domain/validation.py:329-377 | before rounding the score is 75 times the share of gaps over 0.8% up to 25, 125 times that of reversals up to 25, 24 times the variation of volume up to 30, and 200 times the share of returns beyond three deviations up to 20 |
| `ScoreRules.GapsAre` | app/domain/validation.py:345-349 | the gaps are the bars that open more than 0.8% off the last positive close |
| `ScoreRules.ReversalsAre` | app/domain/validation.py:351-358 | the reversals are the bars with a range above 3% of the low and a body below 0.5% of the open |

## Left out

- Floating-point and display rounding: prices, ratios and scores are exact reals; only the roundings
  that decide an integer (weights, window lengths, scores) are modelled.
- Strings for people: stop_basis, action reasons beyond their kind, log messages, timestamps of exits.
- Position: the chandelier period is not a field, because nothing reads it.
- Backtest: win rate and averages, which are quotients of modelled numbers; the indicator columns
  (EMA, RSI, ATR) are inputs.
- Portfolio.DetectSignals: takes the quality score of a bar as an input column, because its formula only weighs indicators.
- Harmonic: the macro bias, entry calculator and forming-pattern scan of the same file.
- StopGeometry: the confluence score, trap score and vetoes are arbitrary inputs. Whether the
  reported reward/risk still meets the grade thresholds after widening is not claimed; it need not.
- StopGeometry.EmittedGeometry: promises nothing of the second stop under a non-positive literal multiple but its sign, because that stop can lie on either side of the entry.
- StopGeometry.ReportedIsNoBetterIff: requires a literal multiple, if one is given, to be positive; ReportedByDistance covers the others.
- StopGeometry.ReportedIsNoBetter: requires that no literal multiple is given; with one, ReportedIsNoBetterIff says when it holds.
- Harmonic.CompletionNearZone: promises nothing of a D past A, which lies beyond the projection of XA by construction.
- EventStream.CursorReads: requires a log in step; ReadsRightIff says when a log is.
- MemoryCache.MemoryCache.constructor: requires a positive size where the code raises an error; locking, `keys` and `values` are not modelled.
- KLineCache: JSON encoding of frames and the Redis backend; a glob pattern is any predicate on
  parameter strings.
- Watchlist: metadata columns, mirroring, fallbacks and the Supabase and Redis clients; one market
  only, since the two layouts count the limit per market and per user.
- WatchlistStores.RedisWatchlist.Reorder: breaks ties between equal indices by creation time instead of stored order; such ties need an id list that the public checks refuse.
- WatchlistFacts.HistoriesAgree: assumes created ids are fresh, as the random uuids of the code are taken to be.
- Paging: retries, hosts and HTTP; the exchange is a fixed ascending series that answers queries.
- EventStream: polling by event id, expiry of the log and backend fallback in the middle of a run.
  The loop splits into atomic fetch, yield and end-of-poll actions so that publishes may fall
  between any two of them.
- Mutation.CandidateShape: promises no bounds after renormalisation, because the code applies none.
- Mutation.FieldMutationIsSafe: promises no bounds after renormalisation either.
- Mutation.ApplyOne: leaves out the enum kind, because no field and no default cluster uses it.
- Mutation: the default cluster map and the sampling of members; draws, attempts and chosen members
  are arbitrary.
- Stats.QuantRegime: takes the two standard deviations as inputs bound by their defining equation, because the model has no square root operation.
- Stats.SpikesAreFew: requires non-negative volumes, as exchange volumes are.
- HTTP routes, authentication, metrics, the frontend, the scheduler and language-model calls.
