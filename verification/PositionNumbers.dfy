/**
  Positions in the plan's own numbers: where the stop of an open position is, when it stays open,
  how it closes and in which order its actions come, for every sequence of bars.
 */
module PositionNumbers {
  import opened Prelude
  import opened Position
  import opened PositionRuns
  import opened PositionMirror

  ghost predicate HighestHigh(bars: seq<Bar>, h: real) {
    && (forall i :: 0 <= i < |bars| ==> bars[i].high <= h)
    && exists i :: 0 <= i < |bars| && bars[i].high == h
  }

  ghost predicate LowestLow(bars: seq<Bar>, l: real) {
    && (forall i :: 0 <= i < |bars| ==> bars[i].low >= l)
    && exists i :: 0 <= i < |bars| && bars[i].low == l
  }

  lemma {:induction false} TroughIsLowestLow(bars: seq<Bar>)
    requires bars != []
    ensures LowestLow(bars, Trough(bars))
  {
    if |bars| == 1 {
      assert bars[0].low == Trough(bars);
    } else {
      TroughIsLowestLow(Front(bars));
      var i :| 0 <= i < |bars| - 1 && Front(bars)[i].low == Trough(Front(bars));
      var j := if Trough(Front(bars)) <= Last(bars).low then i else |bars| - 1;
      assert bars[j].low == Trough(bars);
    }
  }

  // An open long after any bars: everything about it in terms of the highest high.
  lemma LongNumbers(p: Plan, bars: seq<Bar>, h: real)
    requires ValidPlan(p) && Ordered(p) && p.bullish && HighestHigh(bars, h)
    requires Run(Open(p), bars).Next? && !Run(Open(p), bars).state.closed
    ensures var s := Run(Open(p), bars).state;
            && h < p.tp3
            && s.stop == (if h < p.tp1 then p.initialStop
                          else RMax(if h < p.tp2 then p.entry else p.tp1, h - p.atrMult * p.atr))
            && s.size == (if h < p.tp1 then 1.0 else if h < p.tp2 then 0.5 else 0.2)
            && (s.tp1Hit <==> h >= p.tp1) && (s.tp2Hit <==> h >= p.tp2) && !s.tp3Hit
            && s.barsHeld == |bars|
  {
    PeakIs(bars, h);
    hide Run, Peak, Ordered, ValidPlan, HighestHigh, TrailGap;
    LongRun(p, bars);
    GapIs(p);
  }

  lemma GapIs(p: Plan)
    ensures TrailGap(p) == p.atrMult * p.atr
  {
  }

  // No open position has been held past its time.
  lemma OpenIsInTime(p: Plan, bars: seq<Bar>)
    requires ValidPlan(p) && bars != []
    requires Run(Open(p), bars).Next? && !Run(Open(p), bars).state.closed
    ensures |bars| as real <= p.timeMult * p.cdLegBars as real
  {
    hide Run, ValidPlan;
    ClosesInTime(p, bars);
  }

  lemma PeakIs(bars: seq<Bar>, h: real)
    requires HighestHigh(bars, h)
    ensures Peak(bars) == h
  {
    PeakIsHighestHigh(bars);
    hide Peak;
  }

  lemma TroughIs(bars: seq<Bar>, l: real)
    requires LowestLow(bars, l)
    ensures Trough(bars) == l
  {
    TroughIsLowestLow(bars);
    hide Trough;
  }

  lemma ShortNumbers(p: Plan, bars: seq<Bar>, l: real)
    requires ValidPlan(p) && Ordered(p) && !p.bullish && LowestLow(bars, l)
    requires Run(Open(p), bars).Next? && !Run(Open(p), bars).state.closed
    ensures var s := Run(Open(p), bars).state;
            && l > p.tp3
            && s.stop == (if l > p.tp1 then p.initialStop
                          else RMin(if l > p.tp2 then p.entry else p.tp1, l + p.atrMult * p.atr))
            && s.size == (if l > p.tp1 then 1.0 else if l > p.tp2 then 0.5 else 0.2)
            && (s.tp1Hit <==> l <= p.tp1) && (s.tp2Hit <==> l <= p.tp2) && !s.tp3Hit
            && s.barsHeld == |bars|
  {
    TroughIs(bars, l);
    hide Run, Trough, Ordered, ValidPlan, LowestLow, TrailGap;
    ShortRun(p, bars);
    GapIs(p);
  }

  // ------------------------------------------------------------------
  // When it stays open, and how it closes
  // ------------------------------------------------------------------

  // The stop carried out of these bars.
  function CarriedLong(p: Plan, before: seq<Bar>): real {
    if before == [] || Peak(before) < p.tp1 then p.initialStop
    else RMax(if Peak(before) < p.tp2 then p.entry else p.tp1, Peak(before) - p.atrMult * p.atr)
  }

  function CarriedShort(p: Plan, before: seq<Bar>): real {
    if before == [] || Trough(before) > p.tp1 then p.initialStop
    else RMin(if Trough(before) > p.tp2 then p.entry else p.tp1, Trough(before) + p.atrMult * p.atr)
  }

  // Bar i meets neither the carried stop, nor the clock, nor the third target.
  predicate Passes(p: Plan, bars: seq<Bar>, i: nat)
    requires i < |bars|
  {
    && (i + 1) as real <= p.timeMult * p.cdLegBars as real
    && (p.bullish ==> bars[i].low > CarriedLong(p, bars[..i]) && bars[i].high < p.tp3)
    && (!p.bullish ==> bars[i].high < CarriedShort(p, bars[..i]) && bars[i].low > p.tp3)
  }

  lemma PassesIsSurvives(p: Plan, bars: seq<Bar>, i: nat)
    requires i < |bars|
    ensures p.bullish ==> Passes(p, bars, i) == Survives(p, bars, i)
    ensures !p.bullish ==> Passes(p, bars, i) == ShortSurvives(p, bars, i)
  {
    hide TrailGap, OutOfTime, Peak, Trough;
    GapIs(p);
    ClockIs(p, i + 1);
  }

  lemma ClockIs(p: Plan, n: int)
    ensures OutOfTime(p, n) <==> n as real > p.timeMult * p.cdLegBars as real
  {
  }

  // A run, long or short, is open exactly when every bar so far passed.
  lemma OpenExactly(p: Plan, bars: seq<Bar>)
    requires ValidPlan(p) && Ordered(p)
    ensures Run(Open(p), bars).Next?
    ensures !Run(Open(p), bars).state.closed <==> forall i :: 0 <= i < |bars| ==> Passes(p, bars, i)
  {
    hide Run, Passes, Survives, ShortSurvives, ValidPlan, Ordered;
    forall i | 0 <= i < |bars|
      ensures p.bullish ==> Passes(p, bars, i) == Survives(p, bars, i)
      ensures !p.bullish ==> Passes(p, bars, i) == ShortSurvives(p, bars, i)
    {
      PassesIsSurvives(p, bars, i);
    }
    if p.bullish {
      LongOpenIff(p, bars);
    } else {
      ShortOpenIff(p, bars);
    }
  }

  // Why a bar that does not pass closes the position: the stop first, then the clock.
  function ReasonAt(p: Plan, bars: seq<Bar>, k: nat): CloseReason
    requires k < |bars|
  {
    if (if p.bullish then bars[k].low <= CarriedLong(p, bars[..k]) else bars[k].high >= CarriedShort(p, bars[..k]))
    then StoppedOut
    else if (k + 1) as real > p.timeMult * p.cdLegBars as real then TimedOut
    else ThirdTarget
  }

  // The run closed on bar k: the first bar that did not pass, for that bar's reason.
  ghost predicate ClosedAt(p: Plan, bars: seq<Bar>, k: nat)
    requires ValidPlan(p)
  {
    && k < |bars| && !Passes(p, bars, k) && (forall i :: 0 <= i < k ==> Passes(p, bars, i))
    && var r := Run(Open(p), bars);
       r.Next? && r.state.closed && r.state.barsHeld == k + 1 && r.state.closeReason == Some(ReasonAt(p, bars, k))
  }

  lemma ClosedAtGrows(p: Plan, bars: seq<Bar>, k: nat)
    requires ValidPlan(p) && bars != [] && ClosedAt(p, Front(bars), k)
    ensures ClosedAt(p, bars, k)
  {
    ClosedStaysClosed(p, bars);
    hide Run, Passes, ReasonAt;
    forall i | 0 <= i < |bars| - 1
      ensures Passes(p, Front(bars), i) == Passes(p, bars, i) && ReasonAt(p, Front(bars), i) == ReasonAt(p, bars, i)
    {
      SamePrefix(p, bars, i);
    }
  }

  lemma ClosesNow(p: Plan, bars: seq<Bar>)
    requires ValidPlan(p) && Ordered(p) && p.bullish && bars != []
    requires Run(Open(p), Front(bars)).Next? && !Run(Open(p), Front(bars)).state.closed
    requires Run(Open(p), bars).Next? && Run(Open(p), bars).state.closed
    ensures ClosedAt(p, bars, |bars| - 1)
  {
    hide Run, Passes, ReasonAt, Ordered;
    OpenExactly(p, Front(bars));
    OpenExactly(p, bars);
    LastBarCloses(p, bars);
    forall i | 0 <= i < |bars| - 1
      ensures Passes(p, bars, i)
    {
      SamePrefix(p, bars, i);
    }
  }

  // Every closed long closed that way.
  lemma {:induction false} LongClosedAt(p: Plan, bars: seq<Bar>) returns (k: nat)
    requires ValidPlan(p) && Ordered(p) && p.bullish
    requires Run(Open(p), bars).Next? && Run(Open(p), bars).state.closed
    ensures ClosedAt(p, bars, k)
  {
    assert bars != [];
    hide Run, Ordered, ClosedAt;
    OpenExactly(p, Front(bars));
    if Run(Open(p), Front(bars)).state.closed {
      k := LongClosedAt(p, Front(bars));
      ClosedAtGrows(p, bars, k);
    } else {
      k := |bars| - 1;
      ClosesNow(p, bars);
    }
  }

  lemma SamePrefix(p: Plan, bars: seq<Bar>, i: nat)
    requires i < |bars| - 1
    ensures Passes(p, Front(bars), i) == Passes(p, bars, i) && ReasonAt(p, Front(bars), i) == ReasonAt(p, bars, i)
  {
    hide CarriedLong, CarriedShort;
    assert Front(bars)[..i] == bars[..i];
  }

  lemma LastBarCloses(p: Plan, bars: seq<Bar>)
    requires ValidPlan(p) && Ordered(p) && p.bullish && bars != []
    requires Run(Open(p), Front(bars)).Next? && !Run(Open(p), Front(bars)).state.closed
    requires Run(Open(p), bars).Next? && Run(Open(p), bars).state.closed
    ensures Run(Open(p), bars).state.barsHeld == |bars|
    ensures Run(Open(p), bars).state.closeReason == Some(ReasonAt(p, bars, |bars| - 1))
  {
    var front, n, b := Front(bars), |bars| - 1, Last(bars);
    assert bars[..n] == front;
    GapIs(p);
    ClockIs(p, n + 1);
    assert p.tp1 < p.tp3;
    hide TrailGap, OutOfTime, Step, Peak, Ordered, ValidPlan;
    if n == 0 {
      OpenIsOpenLong(p, p.tp1 - 1.0);
      StepLong(p, 0, p.tp1 - 1.0, b);
    } else {
      LongRun(p, front);
      StepLong(p, n, Peak(front), b);
    }
    StepKeepsPlan(Run(Open(p), front).state, b);
    ClosesInTime(p, front);
  }

  lemma MirrorPasses(c: real, p: Plan, bars: seq<Bar>, i: nat)
    requires Ordered(p) && !p.bullish && i < |bars|
    ensures Passes(MirrorPlan(c, p), MirrorBars(c, bars), i) == Passes(p, bars, i)
    ensures ReasonAt(MirrorPlan(c, p), MirrorBars(c, bars), i) == ReasonAt(p, bars, i)
  {
    assert MirrorBars(c, bars)[..i] == MirrorBars(c, bars[..i]);
    if i > 0 {
      TroughMirror(c, bars[..i]);
    }
    assert MirrorPlan(c, p).atrMult * MirrorPlan(c, p).atr == p.atrMult * p.atr;
    hide Trough, Peak;
  }

  // So did a closed short.
  lemma ShortClosedAt(p: Plan, bars: seq<Bar>) returns (k: nat)
    requires ValidPlan(p) && Ordered(p) && !p.bullish
    requires Run(Open(p), bars).Next? && Run(Open(p), bars).state.closed
    ensures ClosedAt(p, bars, k)
  {
    hide Run, Passes, ReasonAt;
    var c := Pivot(p);
    PivotIsValid(p);
    RunMirror(c, Open(p), bars);
    k := LongClosedAt(MirrorPlan(c, p), MirrorBars(c, bars));
    forall i | 0 <= i <= k
      ensures Passes(MirrorPlan(c, p), MirrorBars(c, bars), i) == Passes(p, bars, i)
      ensures ReasonAt(MirrorPlan(c, p), MirrorBars(c, bars), i) == ReasonAt(p, bars, i)
    {
      MirrorPasses(c, p, bars, i);
    }
  }

  // ------------------------------------------------------------------
  // The order of the actions
  // ------------------------------------------------------------------

  // The actions of targets taken on one bar: each closes its share and only then moves the stop.
  ghost predicate TargetActions(acts: seq<Action>) {
    && (forall i :: 0 <= i < |acts| ==> acts[i].ClosePartial? || (acts[i].MoveStop? && acts[i].cause.AfterTarget?))
    && (forall i :: 0 <= i < |acts| && acts[i].ClosePartial? ==>
          acts[i].fraction == match acts[i].target case TP1 => 0.5 case TP2 => 0.3 case TP3 => 0.2)
    && (forall i :: 0 <= i < |acts| && acts[i].MoveStop? ==>
          i > 0 && acts[i - 1].ClosePartial? && acts[i - 1].target == acts[i].cause.target)
  }

  // One bar's actions: nothing but a hold, a single close, or target actions that may end with
  // the close after the third target or with a ratchet of the trail.
  ghost predicate InOrder(acts: seq<Action>) {
    || (|acts| == 1 && (acts[0].Hold? || acts[0] == CloseAll(StoppedOut) || acts[0] == CloseAll(TimedOut)))
    || (acts != [] && TargetActions(acts))
    || (|acts| >= 2 && TargetActions(Front(acts)) && Last(acts) == CloseAll(ThirdTarget)
        && acts[|acts| - 2] == ClosePartial(0.2, TP3))
    || (acts != [] && TargetActions(Front(acts)) && Last(acts).MoveStop? && Last(acts).cause == ChandelierRatchet)
  }

  ghost predicate WalkInOrder(w: Walk) {
    match w
    case Going(_, acts) => TargetActions(acts)
    case Blocked(_, acts) => TargetActions(acts)
    case Finished(_, acts) =>
      |acts| >= 2 && TargetActions(Front(acts)) && Last(acts) == CloseAll(ThirdTarget)
      && acts[|acts| - 2] == ClosePartial(0.2, TP3)
    case Broken => true
  }

  lemma TargetActionsJoin(acts: seq<Action>, more: seq<Action>)
    requires TargetActions(acts) && TargetActions(more)
    ensures TargetActions(acts + more)
  {
  }

  lemma TakeInOrder(s: State, t: Target)
    ensures t != TP3 ==> TargetActions(TakeActions(s, t))
    ensures t == TP3 ==> TakeActions(s, t) == [ClosePartial(0.2, TP3), CloseAll(ThirdTarget)]
    ensures TargetActions([ClosePartial(0.2, TP3)])
  {
  }

  lemma StageInOrder(w: Walk, b: Bar, t: Target)
    requires WalkInOrder(w)
    ensures WalkInOrder(Stage(w, b, t))
  {
    hide TargetActions, TakeActions, Take, Touches, IsHit, Price;
    if w.Going? {
      TakeInOrder(w.s, t);
      var acts := w.acts + TakeActions(w.s, t);
      if t == TP3 {
        TargetActionsJoin(w.acts, [ClosePartial(0.2, TP3)]);
        assert Front(acts) == w.acts + [ClosePartial(0.2, TP3)];
      } else {
        TargetActionsJoin(w.acts, TakeActions(w.s, t));
      }
    }
  }

  lemma TargetsInOrder(s: State, b: Bar)
    ensures WalkInOrder(Targets(s, b))
  {
    hide Stage, WalkInOrder;
    var w0 := Going(s, []);
    assert WalkInOrder(w0) by { EmptyInOrder(s); }
    StageInOrder(w0, b, TP1);
    StageInOrder(Stage(w0, b, TP1), b, TP2);
    StageInOrder(Stage(Stage(w0, b, TP1), b, TP2), b, TP3);
  }

  lemma EmptyInOrder(s: State)
    ensures WalkInOrder(Going(s, []))
  {
  }

  lemma SettleInOrder(w: Walk, b: Bar)
    requires WalkInOrder(w) && Settle(w, b).Next?
    ensures InOrder(Settle(w, b).actions)
  {
    hide TrackExtreme, ChandelierStop, Better, TargetActions;
    if w.Going? || w.Blocked? {
      var acts := Trail(w.s, b, w.acts).1;
      assert acts == w.acts || (acts != [] && Front(acts) == w.acts);
    }
  }

  // Whatever the state, the actions of a bar come in the order in which they are to be applied.
  lemma ActionsInOrder(s: State, b: Bar)
    requires Valid(s) && Step(s, b).Next?
    ensures InOrder(Step(s, b).actions)
  {
    hide Targets, Settle, StopHit, OutOfTime, WalkInOrder, TargetActions;
    if !s.closed {
      var s1 := s.(barsHeld := s.barsHeld + 1);
      TargetsInOrder(s1, b);
      if Settle(Targets(s1, b), b).Next? {
        SettleInOrder(Targets(s1, b), b);
      }
    }
  }
}
