/**
  Long/short symmetry of the position state machine: reflecting every price
  p to pivot - p turns a long run into a short one, bar by bar.
 */
module PositionMirror {
  import opened Prelude
  import opened Position
  import opened PositionRuns

  function MirrorPlan(c: real, p: Plan): Plan {
    Plan(!p.bullish, c - p.entry, c - p.initialStop, c - p.tp1, c - p.tp2, c - p.tp3,
         p.atr, p.cdLegBars, p.atrMult, p.timeMult)
  }

  function MirrorPrice(c: real, x: Option<real>): Option<real> {
    if x.Some? then Some(c - x.value) else None
  }

  function MirrorState(c: real, s: State): State {
    s.(plan := MirrorPlan(c, s.plan), stop := c - s.stop,
       chHigh := MirrorPrice(c, s.chLow), chLow := MirrorPrice(c, s.chHigh))
  }

  // The highest price becomes the lowest.
  function MirrorBar(c: real, b: Bar): Bar {
    Bar(c - b.low, c - b.high, c - b.close)
  }

  function MirrorBars(c: real, bars: seq<Bar>): (r: seq<Bar>)
    ensures |r| == |bars|
  {
    seq(|bars|, i requires 0 <= i < |bars| => MirrorBar(c, bars[i]))
  }

  // Sizes, targets and reasons stay; only stop prices are reflected.
  function MirrorAction(c: real, a: Action): Action {
    if a.MoveStop? then a.(newStop := c - a.newStop) else a
  }

  function MirrorActions(c: real, acts: seq<Action>): (r: seq<Action>)
    ensures |r| == |acts|
  {
    seq(|acts|, i requires 0 <= i < |acts| => MirrorAction(c, acts[i]))
  }

  function MirrorWalk(c: real, w: Walk): Walk {
    match w
    case Going(s, acts) => Going(MirrorState(c, s), MirrorActions(c, acts))
    case Blocked(s, acts) => Blocked(MirrorState(c, s), MirrorActions(c, acts))
    case Finished(s, acts) => Finished(MirrorState(c, s), MirrorActions(c, acts))
    case Broken => Broken
  }

  function MirrorResult(c: real, r: StepResult): StepResult {
    match r
    case Raised => Raised
    case Next(s, acts) => Next(MirrorState(c, s), MirrorActions(c, acts))
  }

  lemma MirrorAppend(c: real, acts: seq<Action>, more: seq<Action>)
    ensures MirrorActions(c, acts + more) == MirrorActions(c, acts) + MirrorActions(c, more)
  {
  }

  lemma MirrorOne(c: real, a: Action)
    ensures MirrorActions(c, [a]) == [MirrorAction(c, a)]
  {
  }

  lemma TakeMirror(c: real, s: State, b: Bar, t: Target)
    ensures Take(MirrorState(c, s), MirrorBar(c, b), t) == MirrorState(c, Take(s, b, t))
    ensures TakeActions(MirrorState(c, s), t) == MirrorActions(c, TakeActions(s, t))
  {
  }

  lemma StageMirror(c: real, w: Walk, b: Bar, t: Target)
    ensures Stage(MirrorWalk(c, w), MirrorBar(c, b), t) == MirrorWalk(c, Stage(w, b, t))
  {
    hide MirrorActions, Take, TakeActions;
    if w.Going? {
      TakeMirror(c, w.s, b, t);
      MirrorAppend(c, w.acts, TakeActions(w.s, t));
    }
  }

  lemma MirrorLast(c: real, acts: seq<Action>, a: Action)
    ensures MirrorActions(c, acts + [a]) == MirrorActions(c, acts) + [MirrorAction(c, a)]
  {
  }

  lemma TargetsMirror(c: real, s: State, b: Bar)
    ensures Targets(MirrorState(c, s), MirrorBar(c, b)) == MirrorWalk(c, Targets(s, b))
  {
    hide Stage, MirrorState, MirrorBar;
    var w0 := Going(s, []);
    var w1 := Stage(w0, b, TP1);
    assert MirrorWalk(c, w0) == Going(MirrorState(c, s), []);
    StageMirror(c, w0, b, TP1);
    StageMirror(c, w1, b, TP2);
    StageMirror(c, Stage(w1, b, TP2), b, TP3);
  }

  lemma TrailMirror(c: real, s: State, b: Bar, acts: seq<Action>)
    ensures var (t, more) := Trail(s, b, acts);
            Trail(MirrorState(c, s), MirrorBar(c, b), MirrorActions(c, acts))
            == (MirrorState(c, t), MirrorActions(c, more))
  {
    hide TrailGap, MirrorActions;
    if s.tp1Hit && !s.closed && s.barsHeld > 0 {
      GapMirror(c, s.plan);
      var move := MoveStop(ChandelierStop(TrackExtreme(s, b)), ChandelierRatchet);
      MirrorLast(c, acts, move);
    }
  }

  lemma GapMirror(c: real, p: Plan)
    ensures TrailGap(MirrorPlan(c, p)) == TrailGap(p)
  {
  }

  lemma SettleMirror(c: real, w: Walk, b: Bar)
    ensures Settle(MirrorWalk(c, w), MirrorBar(c, b)) == MirrorResult(c, Settle(w, b))
  {
    hide Trail, MirrorActions, MirrorState, MirrorBar;
    if !w.Broken? && !w.Finished? {
      TrailMirror(c, w.s, b, w.acts);
      MirrorOne(c, Hold(NoEvent));
    }
  }

  // One bar on the mirrored state is the mirror of one bar on the state, whatever the state.
  lemma StepMirror(c: real, s: State, b: Bar)
    requires Valid(s) && Valid(MirrorState(c, s))
    ensures Step(MirrorState(c, s), MirrorBar(c, b)) == MirrorResult(c, Step(s, b))
  {
    hide Targets, Settle, MirrorActions, OutOfTime, MirrorWalk;
    var s1 := s.(barsHeld := s.barsHeld + 1);
    MirrorOne(c, Hold(AlreadyClosed));
    MirrorOne(c, CloseAll(StoppedOut));
    MirrorOne(c, CloseAll(TimedOut));
    TimeMirror(c, s.plan, s1.barsHeld);
    TargetsMirror(c, s1, b);
    SettleMirror(c, Targets(s1, b), b);
  }

  lemma TimeMirror(c: real, p: Plan, n: int)
    ensures OutOfTime(MirrorPlan(c, p), n) == OutOfTime(p, n)
  {
  }

  // The bisimulation over whole runs.
  lemma {:induction false} RunMirror(c: real, s: State, bars: seq<Bar>)
    requires Valid(s) && Valid(MirrorState(c, s))
    ensures Run(MirrorState(c, s), MirrorBars(c, bars)) == MirrorResult(c, Run(s, bars))
  {
    if bars == [] {
      assert MirrorActions(c, []) == [];
    } else {
      hide Step;
      assert Front(MirrorBars(c, bars)) == MirrorBars(c, Front(bars));
      RunMirror(c, s, Front(bars));
      var before := Run(s, Front(bars));
      if before.Next? {
        StepMirror(c, before.state, Last(bars));
        if Step(before.state, Last(bars)).Next? {
          MirrorAppend(c, before.actions, Step(before.state, Last(bars)).actions);
        }
      }
    }
  }

  // ------------------------------------------------------------------
  // Short positions, read off the mirror
  // ------------------------------------------------------------------

  function Trough(bars: seq<Bar>): real
    requires bars != []
  {
    if |bars| == 1 then bars[0].low else RMin(Trough(Front(bars)), Last(bars).low)
  }

  lemma {:induction false} TroughMirror(c: real, bars: seq<Bar>)
    requires bars != []
    ensures Peak(MirrorBars(c, bars)) == c - Trough(bars)
  {
    if |bars| > 1 {
      assert Front(MirrorBars(c, bars)) == MirrorBars(c, Front(bars));
      TroughMirror(c, Front(bars));
    }
  }

  function ShortStop(p: Plan, trough: real): real {
    if trough > p.tp1 then p.initialStop
    else RMin(if trough > p.tp2 then p.entry else p.tp1, trough + TrailGap(p))
  }

  // The only state an open short can be in after n bars whose lowest low is `trough`.
  function OpenShort(p: Plan, n: nat, trough: real): State {
    State(p,
          ShortStop(p, trough),
          n,
          if trough > p.tp1 then 1.0 else if trough > p.tp2 then 0.5 else 0.2,
          trough <= p.tp1, trough <= p.tp2, false, false, None,
          None, if trough <= p.tp1 then Some(trough) else None)
  }

  // A pivot above every price of a short plan keeps the mirrored plan valid.
  function Pivot(p: Plan): real {
    p.initialStop + p.entry
  }

  lemma ShortMirror(c: real, p: Plan, n: nat, trough: real)
    requires Ordered(p) && !p.bullish
    ensures MirrorState(c, OpenShort(p, n, trough)) == OpenLong(MirrorPlan(c, p), n, c - trough)
  {
    hide TrailGap;
    GapMirror(c, p);
  }

  lemma PivotIsValid(p: Plan)
    requires ValidPlan(p) && Ordered(p) && !p.bullish
    ensures var q := MirrorPlan(Pivot(p), p);
            && ValidPlan(q) && Ordered(q) && q.bullish
            && MirrorState(Pivot(p), Open(p)) == Open(q)
  {
  }

  lemma ShortRun(p: Plan, bars: seq<Bar>)
    requires ValidPlan(p) && Ordered(p) && !p.bullish && bars != []
    ensures Run(Open(p), bars).Next?
    ensures var s := Run(Open(p), bars).state;
            !s.closed ==> s == OpenShort(p, |bars|, Trough(bars)) && Trough(bars) > p.tp3
  {
    hide Run, Step, OpenLong, OpenShort;
    var c := Pivot(p);
    var q := MirrorPlan(c, p);
    PivotIsValid(p);
    RunMirror(c, Open(p), bars);
    LongRun(q, MirrorBars(c, bars));
    TroughMirror(c, bars);
    var s := Run(Open(p), bars).state;
    if !s.closed {
      ShortMirror(c, p, |bars|, Trough(bars));
      MirrorTwice(c, s);
      MirrorTwice(c, OpenShort(p, |bars|, Trough(bars)));
    }
  }

  lemma MirrorTwice(c: real, s: State)
    ensures MirrorState(c, MirrorState(c, s)) == s
  {
  }

  // The end-of-bar stop of an open short never moves up.
  lemma ShortStopNeverRetreats(p: Plan, bars: seq<Bar>, more: seq<Bar>)
    requires ValidPlan(p) && Ordered(p) && !p.bullish
    requires Run(Open(p), bars).Next? && !Run(Open(p), bars).state.closed
    requires Run(Open(p), bars + more).Next? && !Run(Open(p), bars + more).state.closed
    ensures Run(Open(p), bars + more).state.stop <= Run(Open(p), bars).state.stop
  {
    hide Run, Step;
    var c := Pivot(p);
    var q := MirrorPlan(c, p);
    PivotIsValid(p);
    RunMirror(c, Open(p), bars);
    RunMirror(c, Open(p), bars + more);
    assert MirrorBars(c, bars + more) == MirrorBars(c, bars) + MirrorBars(c, more);
    StopNeverRetreats(q, MirrorBars(c, bars), MirrorBars(c, more));
  }

  // The stop recorded after one bar on an open short is higher than before in exactly one
  // family of bars: TP2 and TP3 together, on a position whose trail had already passed TP1.
  lemma ShortRetreatIff(p: Plan, n: nat, trough: real, b: Bar)
    requires ValidPlan(p) && Ordered(p) && !p.bullish && trough > p.tp3
    ensures var s := OpenShort(p, n, trough); var r := Step(s, b);
            && r.Next?
            && (r.state.stop > s.stop <==>
                b.high < s.stop && !OutOfTime(p, n + 1) && b.low <= p.tp3 && trough > p.tp2 && s.stop < p.tp1)
  {
    hide Step, OpenLong, OpenShort, OutOfTime;
    var c := Pivot(p);
    PivotIsValid(p);
    ShortMirror(c, p, n, trough);
    ShortIsValid(p, n, trough);
    StepMirror(c, OpenShort(p, n, trough), b);
    RetreatIff(MirrorPlan(c, p), n, c - trough, MirrorBar(c, b));
    TimeMirror(c, p, n + 1);
  }

  lemma ShortIsValid(p: Plan, n: nat, trough: real)
    requires ValidPlan(p) && Ordered(p) && !p.bullish
    ensures Valid(OpenShort(p, n, trough)) && OpenShort(p, n, trough).plan == p
    ensures Valid(MirrorState(Pivot(p), OpenShort(p, n, trough)))
  {
    PivotIsValid(p);
    hide TrailGap;
  }

  // Bar i leaves a short open: it meets neither the working stop, nor the clock, nor TP3.
  predicate ShortSurvives(p: Plan, bars: seq<Bar>, i: nat)
    requires i < |bars|
  {
    && bars[i].high < (if i == 0 then p.initialStop else ShortStop(p, Trough(bars[..i])))
    && !OutOfTime(p, i + 1)
    && bars[i].low > p.tp3
  }

  lemma SurvivesMirror(c: real, p: Plan, bars: seq<Bar>, i: nat)
    requires Ordered(p) && !p.bullish && i < |bars|
    ensures Survives(MirrorPlan(c, p), MirrorBars(c, bars), i) == ShortSurvives(p, bars, i)
  {
    TimeMirror(c, p, i + 1);
    GapMirror(c, p);
    hide OutOfTime, TrailGap;
    if i > 0 {
      assert MirrorBars(c, bars)[..i] == MirrorBars(c, bars[..i]);
      TroughMirror(c, bars[..i]);
      hide Trough, Peak;
    }
  }

  // A short run never raises and is open exactly when every bar so far survived.
  lemma ShortOpenIff(p: Plan, bars: seq<Bar>)
    requires ValidPlan(p) && Ordered(p) && !p.bullish
    ensures Run(Open(p), bars).Next?
    ensures !Run(Open(p), bars).state.closed <==> forall i :: 0 <= i < |bars| ==> ShortSurvives(p, bars, i)
  {
    hide Run, Step, Survives, ShortSurvives;
    var c := Pivot(p);
    var q := MirrorPlan(c, p);
    PivotIsValid(p);
    RunMirror(c, Open(p), bars);
    LongOpenIff(q, MirrorBars(c, bars));
    forall i | 0 <= i < |bars|
      ensures Survives(q, MirrorBars(c, bars), i) == ShortSurvives(p, bars, i)
    {
      SurvivesMirror(c, p, bars, i);
    }
  }
}
