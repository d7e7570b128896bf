/**
  The holding-time state machine of app/services/position_manager.py: one bar
  at a time through stop, time stop, the three targets and the chandelier trail.
 */
module Position {
  import opened Prelude

  // The fields of PositionState that no bar changes.
  datatype Plan = Plan(
    bullish: bool,
    entry: real,
    initialStop: real,
    tp1: real,
    tp2: real,
    tp3: real,
    atr: real,
    cdLegBars: int,
    atrMult: real,
    timeMult: real)

  datatype CloseReason = StoppedOut | TimedOut | ThirdTarget

  datatype Target = TP1 | TP2 | TP3

  datatype State = State(
    plan: Plan,
    stop: real,
    barsHeld: int,
    size: real,
    tp1Hit: bool,
    tp2Hit: bool,
    tp3Hit: bool,
    closed: bool,
    closeReason: Option<CloseReason>,
    chHigh: Option<real>,
    chLow: Option<real>)

  datatype Bar = Bar(high: real, low: real, close: real)

  datatype HoldReason = AlreadyClosed | NoEvent

  datatype MoveReason = AfterTarget(target: Target) | ChandelierRatchet

  datatype Action =
    | Hold(why: HoldReason)
    | ClosePartial(fraction: real, target: Target)
    | MoveStop(newStop: real, cause: MoveReason)
    | CloseAll(reason: CloseReason)

  // `Raised` stands for the ValueError of the dataclass constructor.
  datatype StepResult = Raised | Next(state: State, actions: seq<Action>)

  // The checks PositionState runs on every construction.
  predicate ValidPlan(p: Plan) {
    && p.entry > 0.0
    && p.initialStop > 0.0
    && p.tp1 > 0.0 && p.tp2 > 0.0 && p.tp3 > 0.0
    && p.atr > 0.0
    && p.cdLegBars >= 0
  }

  predicate Valid(s: State) {
    ValidPlan(s.plan) && 0.0 <= s.size <= 1.0
  }

  function Price(p: Plan, t: Target): real {
    match t case TP1 => p.tp1 case TP2 => p.tp2 case TP3 => p.tp3
  }

  function Fraction(t: Target): real {
    match t case TP1 => 0.5 case TP2 => 0.3 case TP3 => 0.2
  }

  predicate IsHit(s: State, t: Target) {
    match t case TP1 => s.tp1Hit case TP2 => s.tp2Hit case TP3 => s.tp3Hit
  }

  predicate Touches(b: Bar, price: real, bullish: bool) {
    if bullish then b.high >= price else b.low <= price
  }

  predicate StopHit(b: Bar, stop: real, bullish: bool) {
    if bullish then b.low <= stop else b.high >= stop
  }

  predicate OutOfTime(p: Plan, barsHeld: int) {
    barsHeld as real > p.timeMult * p.cdLegBars as real
  }

  function TrailGap(p: Plan): real {
    p.atrMult * p.atr
  }

  function Close(s: State, why: CloseReason): State {
    s.(closed := true, size := 0.0, closeReason := Some(why))
  }

  // Flag the target; TP1 also starts the chandelier at this bar's extreme.
  function Mark(s: State, b: Bar, t: Target): State {
    match t
    case TP1 => s.(tp1Hit := true,
                   chHigh := if s.plan.bullish then Some(b.high) else None,
                   chLow := if s.plan.bullish then None else Some(b.low))
    case TP2 => s.(tp2Hit := true)
    case TP3 => s.(tp3Hit := true)
  }

  // ------------------------------------------------------------------
  // Specification of one bar
  // ------------------------------------------------------------------

  // Where the walk over the three targets stands.
  datatype Walk =
    | Going(s: State, acts: seq<Action>)
    | Blocked(s: State, acts: seq<Action>)
    | Finished(s: State, acts: seq<Action>)
    | Broken

  // TP1 moves the stop to the entry, TP2 to TP1.
  function NextStop(p: Plan, t: Target): real {
    if t == TP1 then p.entry else p.tp1
  }

  function Take(s: State, b: Bar, t: Target): State {
    var taken := Mark(s, b, t).(size := s.size - Fraction(t));
    if t == TP3 then Close(taken, ThirdTarget) else taken.(stop := NextStop(s.plan, t))
  }

  function TakeActions(s: State, t: Target): seq<Action> {
    if t == TP3 then [ClosePartial(Fraction(t), t), CloseAll(ThirdTarget)]
    else if NextStop(s.plan, t) == s.stop then [ClosePartial(Fraction(t), t)]
    else [ClosePartial(Fraction(t), t), MoveStop(NextStop(s.plan, t), AfterTarget(t))]
  }

  // One row of the target table.
  function Stage(w: Walk, b: Bar, t: Target): Walk {
    if !w.Going? || IsHit(w.s, t) then w
    else if !Touches(b, Price(w.s.plan, t), w.s.plan.bullish) then Blocked(w.s, w.acts)
    else if w.s.size - Fraction(t) < 0.0 then Broken
    else if t == TP3 then Finished(Take(w.s, b, t), w.acts + TakeActions(w.s, t))
    else Going(Take(w.s, b, t), w.acts + TakeActions(w.s, t))
  }

  function Targets(s: State, b: Bar): Walk {
    Stage(Stage(Stage(Going(s, []), b, TP1), b, TP2), b, TP3)
  }

  function TrackExtreme(s: State, b: Bar): State {
    if s.plan.bullish
    then s.(chHigh := Some(if s.chHigh.Some? then RMax(s.chHigh.value, b.high) else b.high))
    else s.(chLow := Some(if s.chLow.Some? then RMin(s.chLow.value, b.low) else b.low))
  }

  function ChandelierStop(s: State): real
    requires if s.plan.bullish then s.chHigh.Some? else s.chLow.Some?
  {
    if s.plan.bullish then s.chHigh.value - TrailGap(s.plan)
    else s.chLow.value + TrailGap(s.plan)
  }

  predicate Better(s: State, price: real) {
    if s.plan.bullish then price > s.stop else price < s.stop
  }

  function Trail(s: State, b: Bar, acts: seq<Action>): (State, seq<Action>) {
    if s.tp1Hit && !s.closed && s.barsHeld > 0 then
      var t := TrackExtreme(s, b);
      var price := ChandelierStop(t);
      if Better(t, price) then (t.(stop := price), acts + [MoveStop(price, ChandelierRatchet)])
      else (t, acts)
    else (s, acts)
  }

  function Settle(w: Walk, b: Bar): StepResult {
    match w
    case Broken => Raised
    case Finished(s, acts) => Next(s, acts)
    case _ =>
      var (s, acts) := Trail(w.s, b, w.acts);
      Next(s, if acts == [] then [Hold(NoEvent)] else acts)
  }

  function Step(s: State, b: Bar): StepResult
    requires Valid(s)
  {
    if s.closed then (if s.closeReason.Some? then Next(s, [Hold(AlreadyClosed)]) else Raised)
    else
      var s1 := s.(barsHeld := s.barsHeld + 1);
      if StopHit(b, s1.stop, s1.plan.bullish) then
        Next(Close(s1, StoppedOut), [CloseAll(StoppedOut)])
      else if OutOfTime(s1.plan, s1.barsHeld) then
        Next(Close(s1, TimedOut), [CloseAll(TimedOut)])
      else Settle(Targets(s1, b), b)
  }

  // ------------------------------------------------------------------
  // The code: rebinding the state and growing the action list
  // ------------------------------------------------------------------

  const TARGET_TABLE: seq<Target> := [TP1, TP2, TP3]

  // The loop over the target table.
  method WalkTargets(state: State, b: Bar) returns (w: Walk)
    requires !state.closed
    ensures w == Targets(state, b)
  {
    var cur, acts: seq<Action> := state, [];
    for i := 0 to 3
      invariant !cur.closed
      invariant i == 0 ==> Going(cur, acts) == Going(state, [])
      invariant i == 1 ==> Going(cur, acts) == Stage(Going(state, []), b, TP1)
      invariant i == 2 ==> Going(cur, acts) == Stage(Stage(Going(state, []), b, TP1), b, TP2)
      invariant i == 3 ==> Going(cur, acts) == Targets(state, b)
    {
      var t := TARGET_TABLE[i];
      if IsHit(cur, t) {
        continue;
      }
      if !Touches(b, Price(cur.plan, t), cur.plan.bullish) {
        return Blocked(cur, acts);
      }
      cur := Mark(cur, b, t);
      if cur.size - Fraction(t) < 0.0 {
        return Broken;
      }
      cur := cur.(size := cur.size - Fraction(t));
      acts := acts + [ClosePartial(Fraction(t), t)];
      if t == TP3 {
        cur := Close(cur, ThirdTarget);
        return Finished(cur, acts + [CloseAll(ThirdTarget)]);
      }
      var newStop := if t == TP1 then cur.plan.entry else cur.plan.tp1;
      if newStop != cur.stop {
        cur := cur.(stop := newStop);
        acts := acts + [MoveStop(newStop, AfterTarget(t))];
      }
    }
    w := Going(cur, acts);
  }

  method ProcessBar(state: State, b: Bar) returns (r: StepResult)
    requires Valid(state)
    ensures r == Step(state, b)
  {
    if state.closed {
      return if state.closeReason.Some? then Next(state, [Hold(AlreadyClosed)]) else Raised;
    }
    var cur := state.(barsHeld := state.barsHeld + 1);
    if StopHit(b, cur.stop, cur.plan.bullish) {
      return Next(Close(cur, StoppedOut), [CloseAll(StoppedOut)]);
    }
    if OutOfTime(cur.plan, cur.barsHeld) {
      return Next(Close(cur, TimedOut), [CloseAll(TimedOut)]);
    }
    var w := WalkTargets(cur, b);
    if w.Broken? {
      return Raised;
    }
    if w.Finished? {
      return Next(w.s, w.acts);
    }
    cur := w.s;
    var acts := w.acts;
    if cur.tp1Hit && !cur.closed && cur.barsHeld > 0 {
      cur := TrackExtreme(cur, b);
      var trail := ChandelierStop(cur);
      if Better(cur, trail) {
        cur := cur.(stop := trail);
        acts := acts + [MoveStop(trail, ChandelierRatchet)];
      }
    }
    if acts == [] {
      acts := acts + [Hold(NoEvent)];
    }
    r := Next(cur, acts);
  }
}
