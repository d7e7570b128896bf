/**
  Whole runs of the position state machine: what an open position looks like
  after any bars, what the emitted actions add up to, and long/short symmetry.
 */
module PositionRuns {
  import opened Prelude
  import opened Position

  // A freshly opened position with stop, entry and targets in trading order.
  predicate Ordered(p: Plan) {
    if p.bullish then p.initialStop < p.entry <= p.tp1 < p.tp2 < p.tp3
    else p.initialStop > p.entry >= p.tp1 > p.tp2 > p.tp3
  }

  function Open(p: Plan): State {
    State(p, p.initialStop, 0, 1.0, false, false, false, false, None, None, None)
  }

  // A closed state says why.
  predicate Explained(s: State) {
    s.closed ==> s.closeReason.Some?
  }

  // What a row of the target table leaves alone.
  predicate Frames(w: Walk, v: Walk) {
    w.Broken? || v.Broken? ||
    (v.s.plan == w.s.plan && v.s.barsHeld == w.s.barsHeld && (Valid(w.s) ==> Valid(v.s))
     && (Explained(w.s) ==> Explained(v.s)))
  }

  lemma StageFrames(w: Walk, b: Bar, t: Target)
    ensures Frames(w, Stage(w, b, t))
    ensures w.Broken? ==> Stage(w, b, t).Broken?
    ensures !w.Finished? && t != TP3 ==> !Stage(w, b, t).Finished?
  {
  }

  lemma TargetsFrame(s: State, b: Bar)
    ensures Frames(Going(s, []), Targets(s, b))
  {
    hide Stage;
    var w1 := Stage(Going(s, []), b, TP1);
    var w2 := Stage(w1, b, TP2);
    StageFrames(Going(s, []), b, TP1);
    StageFrames(w1, b, TP2);
    StageFrames(w2, b, TP3);
  }

  lemma StepKeepsPlan(s: State, b: Bar)
    requires Valid(s)
    ensures Step(s, b).Next? ==> Valid(Step(s, b).state) && Step(s, b).state.plan == s.plan
    ensures Step(s, b).Next? ==> Step(s, b).state.barsHeld == s.barsHeld + if s.closed then 0 else 1
    ensures Step(s, b).Next? ==> Explained(Step(s, b).state)
    ensures Step(s, b).Next? && !Step(s, b).state.closed ==> !s.closed && !OutOfTime(s.plan, s.barsHeld + 1)
  {
    hide Targets;
    TargetsFrame(s.(barsHeld := s.barsHeld + 1), b);
  }

  // The state and all actions after a whole sequence of bars.
  function Run(s: State, bars: seq<Bar>): (r: StepResult)
    requires Valid(s)
    ensures r.Next? ==> Valid(r.state) && r.state.plan == s.plan
  {
    if bars == [] then Next(s, [])
    else
      var before := Run(s, Front(bars));
      if before.Raised? then Raised
      else
        StepKeepsPlan(before.state, Last(bars));
        var now := Step(before.state, Last(bars));
        if now.Raised? then Raised else Next(now.state, before.actions + now.actions)
  }

  // ------------------------------------------------------------------
  // Open long positions: the bars matter only through their highest high
  // ------------------------------------------------------------------

  function Peak(bars: seq<Bar>): real
    requires bars != []
  {
    if |bars| == 1 then bars[0].high else RMax(Peak(Front(bars)), Last(bars).high)
  }

  lemma {:induction false} PeakIsHighestHigh(bars: seq<Bar>)
    requires bars != []
    ensures forall i :: 0 <= i < |bars| ==> bars[i].high <= Peak(bars)
    ensures exists i :: 0 <= i < |bars| && bars[i].high == Peak(bars)
  {
    if |bars| == 1 {
      assert bars[0].high == Peak(bars);
    } else {
      PeakIsHighestHigh(Front(bars));
      var i :| 0 <= i < |bars| - 1 && Front(bars)[i].high == Peak(Front(bars));
      var j := if Peak(Front(bars)) >= Last(bars).high then i else |bars| - 1;
      assert bars[j].high == Peak(bars);
    }
  }

  function LongStop(p: Plan, peak: real): real {
    if peak < p.tp1 then p.initialStop
    else RMax(if peak < p.tp2 then p.entry else p.tp1, peak - TrailGap(p))
  }

  // The only state an open long can be in after n bars whose highest high is `peak`.
  function OpenLong(p: Plan, n: nat, peak: real): State {
    State(p, LongStop(p, peak), n,
          if peak < p.tp1 then 1.0 else if peak < p.tp2 then 0.5 else 0.2,
          peak >= p.tp1, peak >= p.tp2, false, false, None,
          if peak >= p.tp1 then Some(peak) else None, None)
  }

  // The walk over the targets from an open long whose bar stays below TP3.
  lemma LongTargets(p: Plan, n: nat, peak: real, b: Bar)
    requires ValidPlan(p) && Ordered(p) && p.bullish && peak < p.tp3 && b.high < p.tp3
    ensures var top := RMax(peak, b.high);
            var s, w := OpenLong(p, n, peak), Targets(OpenLong(p, n, peak), b);
            && w.Blocked?
            && w.s.chHigh == (if peak >= p.tp1 then Some(peak) else if top >= p.tp1 then Some(b.high) else None)
            && w.s == OpenLong(p, n, top).(stop := w.s.stop, chHigh := w.s.chHigh)
            && w.s.stop == if peak < p.tp2 <= top then p.tp1
                           else if peak < p.tp1 <= top then p.entry else s.stop
  {
    hide TrailGap;
    var s := OpenLong(p, n, peak);
    var w1 := Stage(Going(s, []), b, TP1);
    assert !w1.Broken?;
    assert !Stage(w1, b, TP2).Broken?;
  }

  lemma LongFinish(p: Plan, n: nat, peak: real, b: Bar)
    requires ValidPlan(p) && Ordered(p) && p.bullish && peak < p.tp3 <= b.high
    ensures var w := Targets(OpenLong(p, n, peak), b);
            && w.Finished? && w.s.closed && w.s.closeReason == Some(ThirdTarget)
            && w.s.stop == if peak < p.tp2 then p.tp1 else LongStop(p, peak)
  {
    hide TrailGap;
    var w1 := Stage(Going(OpenLong(p, n, peak), []), b, TP1);
    assert w1.Going? && w1.s.size == if peak < p.tp2 then 0.5 else 0.2;
    assert Stage(w1, b, TP2).Going?;
  }

  // One bar on an open long: stop, then time, then third target, else open again.
  lemma StepLong(p: Plan, n: nat, peak: real, b: Bar)
    requires ValidPlan(p) && Ordered(p) && p.bullish && peak < p.tp3
    ensures var s := OpenLong(p, n, peak); var r := Step(s, b);
            && r.Next?
            && (if b.low <= s.stop then r.state.closed && r.state.closeReason == Some(StoppedOut)
                else if OutOfTime(p, n + 1) then r.state.closed && r.state.closeReason == Some(TimedOut)
                else if b.high >= p.tp3 then r.state.closed && r.state.closeReason == Some(ThirdTarget)
                else r.state == OpenLong(p, n + 1, RMax(peak, b.high)))
  {
    hide Targets, TrailGap, OutOfTime;
    assert OpenLong(p, n, peak).(barsHeld := n + 1) == OpenLong(p, n + 1, peak);
    if b.high >= p.tp3 {
      LongFinish(p, n + 1, peak, b);
    } else {
      LongTargets(p, n + 1, peak, b);
    }
  }

  // Every open long is a function of the bar count and the highest high, and no bar raises.
  lemma {:induction false} LongRun(p: Plan, bars: seq<Bar>)
    requires ValidPlan(p) && Ordered(p) && p.bullish && bars != []
    ensures Run(Open(p), bars).Next?
    ensures var s := Run(Open(p), bars).state;
            if s.closed then s.closeReason.Some?
            else s == OpenLong(p, |bars|, Peak(bars)) && Peak(bars) < p.tp3
  {
    var b := Last(bars);
    if |bars| == 1 {
      var below := RMin(b.high, p.tp1 - 1.0);
      assert Front(bars) == [] && Open(p) == OpenLong(p, 0, below);
      StepLong(p, 0, below, b);
    } else {
      LongRun(p, Front(bars));
      var s := Run(Open(p), Front(bars)).state;
      if !s.closed {
        StepLong(p, |bars| - 1, Peak(Front(bars)), b);
      }
    }
  }

  function StopBefore(p: Plan, bars: seq<Bar>, i: nat): real
    requires i < |bars|
  {
    if i == 0 then p.initialStop else LongStop(p, Peak(bars[..i]))
  }

  // Bar i leaves the position open: it meets neither the working stop, nor the clock, nor TP3.
  predicate Survives(p: Plan, bars: seq<Bar>, i: nat)
    requires i < |bars|
  {
    bars[i].low > StopBefore(p, bars, i) && !OutOfTime(p, i + 1) && bars[i].high < p.tp3
  }

  lemma StepSurvives(p: Plan, n: nat, peak: real, b: Bar)
    requires ValidPlan(p) && Ordered(p) && p.bullish && peak < p.tp3
    ensures Step(OpenLong(p, n, peak), b).Next?
    ensures !Step(OpenLong(p, n, peak), b).state.closed <==>
              b.low > LongStop(p, peak) && !OutOfTime(p, n + 1) && b.high < p.tp3
  {
    hide LongStop, OutOfTime, Step;
    StepLong(p, n, peak, b);
  }

  lemma LastBarDecides(p: Plan, bars: seq<Bar>)
    requires ValidPlan(p) && Ordered(p) && p.bullish && bars != []
    requires Run(Open(p), Front(bars)).Next? && !Run(Open(p), Front(bars)).state.closed
    ensures Run(Open(p), bars).Next?
    ensures !Run(Open(p), bars).state.closed <==> Survives(p, bars, |bars| - 1)
  {
    assert p.tp1 < p.tp3;
    hide LongStop, OutOfTime, Step, Peak, Ordered, ValidPlan;
    var front, n, b := Front(bars), |bars| - 1, Last(bars);
    if n == 0 {
      var below := p.tp1 - 1.0;
      OpenIsOpenLong(p, below);
      StepSurvives(p, 0, below, b);
    } else {
      LongRun(p, front);
      assert bars[..n] == front;
      StepSurvives(p, n, Peak(front), b);
    }
  }

  lemma OpenIsOpenLong(p: Plan, below: real)
    requires ValidPlan(p) && Ordered(p) && p.bullish && below < p.tp1
    ensures Open(p) == OpenLong(p, 0, below) && LongStop(p, below) == p.initialStop
  {
  }

  // A long run is open exactly when every bar so far survived.
  lemma {:induction false} LongOpenIff(p: Plan, bars: seq<Bar>)
    requires ValidPlan(p) && Ordered(p) && p.bullish
    ensures Run(Open(p), bars).Next?
    ensures !Run(Open(p), bars).state.closed <==> forall i :: 0 <= i < |bars| ==> Survives(p, bars, i)
  {
    hide Step, Survives, Peak, LongStop, Ordered;
    if bars != [] {
      var front := Front(bars);
      LongOpenIff(p, front);
      forall i | 0 <= i < |front|
        ensures Survives(p, front, i) == Survives(p, bars, i)
      {
        SurvivesPrefix(p, bars, i);
      }
      if !Run(Open(p), front).state.closed {
        LastBarDecides(p, bars);
      } else {
        var i :| 0 <= i < |front| && !Survives(p, front, i);
        assert !Survives(p, bars, i);
        ClosedStaysClosed(p, bars);
      }
    }
  }

  lemma SurvivesPrefix(p: Plan, bars: seq<Bar>, i: nat)
    requires i < |bars| - 1
    ensures Survives(p, Front(bars), i) == Survives(p, bars, i)
  {
    hide OutOfTime, LongStop;
    assert Front(bars)[..i] == bars[..i];
  }

  lemma ClosedStaysClosed(p: Plan, bars: seq<Bar>)
    requires ValidPlan(p) && bars != []
    requires Run(Open(p), Front(bars)).Next? && Run(Open(p), Front(bars)).state.closed
    ensures Run(Open(p), bars).Next? && Run(Open(p), bars).state == Run(Open(p), Front(bars)).state
  {
    RunIsExplained(p, Front(bars));
    var before := Run(Open(p), Front(bars)).state;
    assert Step(before, Last(bars)) == Next(before, [Hold(AlreadyClosed)]);
    hide Step, Open;
  }

  lemma RunIsExplained(p: Plan, bars: seq<Bar>)
    requires ValidPlan(p)
    ensures Run(Open(p), bars).Next? ==> Explained(Run(Open(p), bars).state)
  {
    if bars != [] {
      var before := Run(Open(p), Front(bars));
      if before.Next? {
        StepKeepsPlan(before.state, Last(bars));
      }
      hide Step, Open;
    }
  }

  // Every run is closed once the bar count passes the time stop, on either side.
  lemma {:induction false} ClosesInTime(p: Plan, bars: seq<Bar>)
    requires ValidPlan(p)
    ensures Run(Open(p), bars).Next? && !Run(Open(p), bars).state.closed ==>
              Run(Open(p), bars).state.barsHeld == |bars| && (bars != [] ==> !OutOfTime(p, |bars|))
  {
    if bars != [] {
      ClosesInTime(p, Front(bars));
      var before := Run(Open(p), Front(bars));
      if before.Next? && !before.state.closed {
        StepKeepsPlan(before.state, Last(bars));
      }
    }
  }

  // The end-of-bar stop of an open long never moves down, over any stretch of bars.
  lemma StopNeverRetreats(p: Plan, bars: seq<Bar>, more: seq<Bar>)
    requires ValidPlan(p) && Ordered(p) && p.bullish
    requires Run(Open(p), bars).Next? && !Run(Open(p), bars).state.closed
    requires Run(Open(p), bars + more).Next? && !Run(Open(p), bars + more).state.closed
    ensures Run(Open(p), bars).state.stop <= Run(Open(p), bars + more).state.stop
  {
    if bars + more == [] {
      assert bars == [] && more == [];
    } else {
      LongRun(p, bars + more);
      if bars != [] {
        LongRun(p, bars);
        PeakIsHighestHigh(bars);
        PeakIsHighestHigh(bars + more);
        var i :| 0 <= i < |bars| && bars[i].high == Peak(bars);
        assert (bars + more)[i] == bars[i];
      }
    }
  }

  // The stop recorded after one bar is lower than before in exactly one family of bars:
  // TP2 and TP3 together, on a position whose trail had already passed TP1.
  lemma RetreatIff(p: Plan, n: nat, peak: real, b: Bar)
    requires ValidPlan(p) && Ordered(p) && p.bullish && peak < p.tp3
    ensures var s := OpenLong(p, n, peak); var r := Step(s, b);
            && r.Next?
            && (r.state.stop < s.stop <==>
                b.low > s.stop && !OutOfTime(p, n + 1) && b.high >= p.tp3 && peak < p.tp2 && s.stop > p.tp1)
  {
    hide Targets, TrailGap, OutOfTime;
    StepLong(p, n, peak, b);
    assert OpenLong(p, n, peak).(barsHeld := n + 1) == OpenLong(p, n + 1, peak);
    if b.high >= p.tp3 {
      LongFinish(p, n + 1, peak, b);
    }
  }

  // A run on which it happens: the trail stands at 148, the closing bar records a lower stop.
  lemma RetreatHappens() returns (p: Plan, first: Bar, last: Bar)
    ensures ValidPlan(p) && Ordered(p) && p.bullish
    ensures var before, after := Run(Open(p), [first]), Run(Open(p), [first, last]);
            && before.Next? && !before.state.closed && before.state.stop == 148.0
            && after.Next? && after.state.stop < 148.0 && after.state.closeReason == Some(ThirdTarget)
  {
    p := Plan(true, 100.0, 95.0, 110.0, 200.0, 210.0, 1.0, 100, 2.0, 1.5);
    first := Bar(150.0, 101.0, 140.0);
    last := Bar(210.0, 149.0, 205.0);
    hide Step;
    OpenIsOpenLong(p, 0.0);
    StepLong(p, 0, 0.0, first);
    assert Front([first]) == [] && Front([first, last]) == [first];
    assert Run(Open(p), Front([first])) == Next(Open(p), []);
    assert TrailGap(p) == 2.0;
    StepLong(p, 1, 150.0, last);
    RetreatIff(p, 1, 150.0, last);
  }

  // ------------------------------------------------------------------
  // A broker that only sees the actions
  // ------------------------------------------------------------------

  datatype Book = Book(open: real, stop: real, filled: real, gain: real)

  // Profit per unit of size, on the position's own side.
  function Gain(p: Plan, price: real): real {
    if p.bullish then price - p.entry else p.entry - price
  }

  function FillPrice(p: Plan, k: Book, b: Bar, why: CloseReason): real {
    match why case StoppedOut => k.stop case TimedOut => b.close case ThirdTarget => p.tp3
  }

  function Fill(p: Plan, k: Book, part: real, price: real): Book {
    k.(open := k.open - part, filled := k.filled + part, gain := k.gain + part * Gain(p, price))
  }

  function Execute(p: Plan, k: Book, b: Bar, a: Action): Book {
    match a
    case Hold(_) => k
    case ClosePartial(part, t) => Fill(p, k, part, Price(p, t))
    case MoveStop(price, _) => k.(stop := price)
    case CloseAll(why) => Fill(p, k, k.open, FillPrice(p, k, b, why))
  }

  function ExecuteAll(p: Plan, k: Book, b: Bar, acts: seq<Action>): Book {
    if acts == [] then k else Execute(p, ExecuteAll(p, k, b, Front(acts)), b, Last(acts))
  }

  lemma ExecuteOneMore(p: Plan, k: Book, b: Bar, acts: seq<Action>, a: Action)
    ensures ExecuteAll(p, k, b, acts + [a]) == Execute(p, ExecuteAll(p, k, b, acts), b, a)
  {
    assert Front(acts + [a]) == acts;
  }

  lemma ExecuteOne(p: Plan, k: Book, b: Bar, a: Action)
    ensures ExecuteAll(p, k, b, [a]) == Execute(p, k, b, a)
  {
    ExecuteOneMore(p, k, b, [], a);
    assert [] + [a] == [a];
  }

  lemma ExecuteTwo(p: Plan, k: Book, b: Bar, a: Action, a': Action)
    ensures ExecuteAll(p, k, b, [a, a']) == Execute(p, Execute(p, k, b, a), b, a')
  {
    ExecuteOne(p, k, b, a);
    ExecuteOneMore(p, k, b, [a], a');
    assert [a] + [a'] == [a, a'];
  }

  lemma {:induction false} ExecuteAppend(p: Plan, k: Book, b: Bar, acts: seq<Action>, more: seq<Action>)
    ensures ExecuteAll(p, k, b, acts + more) == ExecuteAll(p, ExecuteAll(p, k, b, acts), b, more)
  {
    if more == [] {
      assert acts + more == acts;
    } else {
      assert acts + more == (acts + Front(more)) + [Last(more)];
      ExecuteOneMore(p, k, b, acts + Front(more), Last(more));
      ExecuteAppend(p, k, b, acts, Front(more));
    }
  }

  lemma ExecuteNone(p: Plan, k: Book, b: Bar)
    ensures ExecuteAll(p, k, b, []) == k
  {
  }

  function RunBook(s: State, bars: seq<Bar>): Book
    requires Valid(s)
  {
    if bars == [] then Book(s.size, s.stop, 0.0, 0.0)
    else
      var before := Run(s, Front(bars));
      if before.Raised? then Book(0.0, 0.0, 0.0, 0.0)
      else
        var now := Step(before.state, Last(bars));
        if now.Raised? then Book(0.0, 0.0, 0.0, 0.0)
        else ExecuteAll(s.plan, RunBook(s, Front(bars)), Last(bars), now.actions)
  }

  predicate Agrees(k: Book, s: State, total: real) {
    k.open == s.size && k.stop == s.stop && k.open + k.filled == total
  }

  // The share still open and the profit banked, as the target flags tell it.
  function Remaining(s: State): real {
    1.0 - (if s.tp1Hit then 0.5 else 0.0) - (if s.tp2Hit then 0.3 else 0.0) - (if s.tp3Hit then 0.2 else 0.0)
  }

  function Banked(s: State): real {
    (if s.tp1Hit then 0.5 * Gain(s.plan, s.plan.tp1) else 0.0)
    + (if s.tp2Hit then 0.3 * Gain(s.plan, s.plan.tp2) else 0.0)
    + (if s.tp3Hit then 0.2 * Gain(s.plan, s.plan.tp3) else 0.0)
  }

  predicate InOrder(s: State) {
    (s.tp2Hit ==> s.tp1Hit) && (s.tp3Hit ==> s.tp2Hit)
  }

  // Open, with size and flags telling the same story.
  predicate Regular(s: State) {
    !s.closed && s.size == Remaining(s) && InOrder(s) && !s.tp3Hit
  }

  // What taking a target does to the book.
  lemma TakeBook(p: Plan, k: Book, s: State, b: Bar, t: Target)
    requires s.plan == p && k.open == s.size && k.stop == s.stop
    ensures var book, s' := ExecuteAll(p, k, b, TakeActions(s, t)), Take(s, b, t);
            && s'.plan == p
            && book.open == s'.size && book.stop == s'.stop
            && book.open + book.filled == k.open + k.filled
            && book.gain == k.gain + Fraction(t) * Gain(p, Price(p, t))
                            + (if t == TP3 then (s.size - 0.2) * Gain(p, p.tp3) else 0.0)
  {
    hide ExecuteAll;
    var a := ClosePartial(Fraction(t), t);
    ExecuteOne(p, k, b, a);
    ExecuteTwo(p, k, b, a, CloseAll(ThirdTarget));
    ExecuteTwo(p, k, b, a, MoveStop(NextStop(p, t), AfterTarget(t)));
  }

  lemma StageBook(p: Plan, k: Book, w: Walk, b: Bar, t: Target, total: real)
    requires !w.Broken? && w.s.plan == p && Agrees(ExecuteAll(p, k, b, w.acts), w.s, total)
    ensures var v := Stage(w, b, t);
            !v.Broken? ==> v.s.plan == p && Agrees(ExecuteAll(p, k, b, v.acts), v.s, total)
  {
    hide ExecuteAll, Take, TakeActions;
    TakeBook(p, ExecuteAll(p, k, b, w.acts), w.s, b, t);
    ExecuteAppend(p, k, b, w.acts, TakeActions(w.s, t));
  }

  lemma TrailBook(k: Book, s: State, b: Bar, acts: seq<Action>, total: real)
    requires Agrees(ExecuteAll(s.plan, k, b, acts), s, total)
    ensures var (t, more) := Trail(s, b, acts);
            && t.plan == s.plan
            && Agrees(ExecuteAll(s.plan, k, b, more), t, total)
            && ExecuteAll(s.plan, k, b, more).gain == ExecuteAll(s.plan, k, b, acts).gain
  {
    hide ExecuteAll, ChandelierStop, Better, Fill;
    if s.tp1Hit && !s.closed && s.barsHeld > 0 {
      ExecuteOneMore(s.plan, k, b, acts, MoveStop(ChandelierStop(TrackExtreme(s, b)), ChandelierRatchet));
    }
  }

  lemma TargetsBook(p: Plan, k: Book, s: State, b: Bar, total: real)
    requires s.plan == p && Agrees(k, s, total)
    ensures var w := Targets(s, b);
            !w.Broken? ==> w.s.plan == p && Agrees(ExecuteAll(p, k, b, w.acts), w.s, total)
  {
    hide Stage, Agrees;
    var w0 := Going(s, []);
    var w1 := Stage(w0, b, TP1);
    var w2 := Stage(w1, b, TP2);
    StageFrames(w0, b, TP1);
    StageFrames(w1, b, TP2);
    StageFrames(w2, b, TP3);
    StageBook(p, k, w0, b, TP1, total);
    if !w1.Broken? {
      StageBook(p, k, w1, b, TP2, total);
      if !w2.Broken? {
        StageBook(p, k, w2, b, TP3, total);
      }
    }
  }

  // Whatever the state, the actions of one bar move the broker's book to the new state.
  lemma StepBook(s: State, b: Bar, k: Book, total: real)
    requires Valid(s) && Agrees(k, s, total) && Step(s, b).Next?
    ensures Agrees(ExecuteAll(s.plan, k, b, Step(s, b).actions), Step(s, b).state, total)
  {
    hide ExecuteAll, Targets, Trail;
    var p, s1 := s.plan, s.(barsHeld := s.barsHeld + 1);
    forall a: Action
      ensures ExecuteAll(p, k, b, [a]) == Execute(p, k, b, a)
    {
      ExecuteOne(p, k, b, a);
    }
    ExecuteNone(p, k, b);
    if !s.closed && !StopHit(b, s.stop, p.bullish) && !OutOfTime(p, s1.barsHeld) {
      TargetsBook(p, k, s1, b, total);
      var w := Targets(s1, b);
      if !w.Broken? && !w.Finished? {
        TrailBook(k, w.s, b, w.acts, total);
      }
    }
  }

  // Conservation over every run: open plus filled is the opening size, and the
  // actions alone reproduce the remaining size and the working stop.
  lemma {:induction false} ActionsReproduceState(s: State, bars: seq<Bar>)
    requires Valid(s) && Run(s, bars).Next?
    ensures Agrees(RunBook(s, bars), Run(s, bars).state, s.size)
  {
    if bars != [] {
      ActionsReproduceState(s, Front(bars));
      StepBook(Run(s, Front(bars)).state, Last(bars), RunBook(s, Front(bars)), s.size);
    }
  }

  // ------------------------------------------------------------------
  // Profit and loss of whole runs, either side
  // ------------------------------------------------------------------

  // What the working stop is worth at least, per unit still open.
  function Shield(s: State): real {
    if s.tp2Hit then Gain(s.plan, s.plan.tp1)
    else if s.tp1Hit then 0.0
    else Gain(s.plan, s.plan.initialStop)
  }

  // An open position whose book holds exactly the banked targets and whose stop is shielded.
  predicate Sound(p: Plan, k: Book, s: State) {
    && s.plan == p
    && Regular(s)
    && k.gain == Banked(s)
    && k.open == s.size
    && k.open + k.filled == 1.0
    && k.stop == s.stop
    && Gain(p, s.stop) >= Shield(s)
  }

  predicate Completed(p: Plan, k: Book, s: State) {
    && s.plan == p
    && s.closed && s.size == 0.0 && s.tp1Hit && s.tp2Hit && s.tp3Hit
    && k.open == 0.0 && k.filled == 1.0
    && k.gain == Banked(s)
  }

  lemma StageSound(p: Plan, k: Book, w: Walk, b: Bar, t: Target)
    requires Ordered(p) && w.Going? && Sound(p, ExecuteAll(p, k, b, w.acts), w.s)
    requires t == TP2 ==> w.s.tp1Hit
    requires t == TP3 ==> w.s.tp2Hit
    ensures var v := Stage(w, b, t); var book := ExecuteAll(p, k, b, Stage(w, b, t).acts);
            match v
            case Going(s, _) => Sound(p, book, s) && IsHit(s, t) && t != TP3
            case Blocked(s, acts) => s == w.s && acts == w.acts
            case Finished(s, _) => Completed(p, book, s)
            case Broken => false
  {
    hide ExecuteAll, TakeActions;
    TakeBook(p, ExecuteAll(p, k, b, w.acts), w.s, b, t);
    ExecuteAppend(p, k, b, w.acts, TakeActions(w.s, t));
    assert t == TP3 && w.s.size == 0.2 ==> (w.s.size - 0.2) * Gain(p, p.tp3) == 0.0;
  }

  lemma TargetsSound(p: Plan, k: Book, s: State, b: Bar)
    requires Ordered(p) && Sound(p, k, s)
    ensures var w := Targets(s, b);
            && !w.Broken?
            && (if w.Finished? then Completed(p, ExecuteAll(p, k, b, w.acts), w.s)
                else w.Blocked? && Sound(p, ExecuteAll(p, k, b, w.acts), w.s))
  {
    hide Sound, Completed, Stage;
    var w0 := Going(s, []);
    ExecuteNone(p, k, b);
    StageSound(p, k, w0, b, TP1);
    var w1 := Stage(w0, b, TP1);
    StageStops(w1, b, TP2);
    if w1.Going? {
      StageSound(p, k, w1, b, TP2);
    }
    var w2 := Stage(w1, b, TP2);
    StageStops(w2, b, TP3);
    if w2.Going? {
      StageSound(p, k, w2, b, TP3);
    }
  }

  lemma StageStops(w: Walk, b: Bar, t: Target)
    ensures !w.Going? ==> Stage(w, b, t) == w
  {
  }

  lemma TrailSound(p: Plan, k: Book, s: State, b: Bar, acts: seq<Action>)
    requires Sound(p, ExecuteAll(p, k, b, acts), s)
    ensures var (t, more) := Trail(s, b, acts); Sound(p, ExecuteAll(p, k, b, more), t)
  {
    hide ExecuteAll, ChandelierStop;
    if s.tp1Hit && !s.closed && s.barsHeld > 0 {
      ExecuteOneMore(p, k, b, acts, MoveStop(ChandelierStop(TrackExtreme(s, b)), ChandelierRatchet));
    }
  }

  predicate Sane(b: Bar) {
    b.low <= b.close <= b.high
  }

  // A closed trade: nothing left open, all of it filled, and the loss or profit floor met.
  predicate Accounted(p: Plan, k: Book, s: State) {
    && s.closed && s.closeReason.Some? && InOrder(s) && s.plan == p
    && s.size == 0.0 && k.open == 0.0 && k.filled == 1.0
    && k.gain >= Gain(p, p.initialStop)
    && (s.tp1Hit ==> k.gain >= 0.5 * Gain(p, p.tp1))
    && (s.tp2Hit ==> k.gain >= 0.5 * Gain(p, p.tp1) + 0.3 * Gain(p, p.tp2) + 0.2 * Gain(p, p.tp1))
    && (s.closeReason == Some(ThirdTarget) ==> k.gain == Banked(s) && s.tp3Hit)
  }

  lemma ExitAccounted(p: Plan, k: Book, s: State, price: real, why: CloseReason)
    requires Ordered(p) && Sound(p, k, s) && Gain(p, price) >= Gain(p, s.stop) && why != ThirdTarget
    ensures Accounted(p, Fill(p, k, k.open, price), Close(s, why))
  {
    var g := Gain(p, price);
    if s.tp2Hit {
      assert k.open == 0.2;
      assert k.open * g == 0.2 * g;
    } else if s.tp1Hit {
      assert k.open == 0.5;
      assert k.open * g == 0.5 * g;
    } else {
      assert k.open == 1.0;
      assert k.open * g == g;
    }
  }

  lemma StepSound(p: Plan, k: Book, s: State, b: Bar)
    requires ValidPlan(p) && Ordered(p) && Sound(p, k, s) && Sane(b) && Valid(s)
    ensures Step(s, b).Next?
    ensures var r := Step(s, b); var book := ExecuteAll(p, k, b, r.actions);
            if r.state.closed then Accounted(p, book, r.state) else Sound(p, book, r.state)
  {
    hide ExecuteAll, Targets, Trail;
    var s1 := s.(barsHeld := s.barsHeld + 1);
    if StopHit(b, s.stop, p.bullish) {
      ExecuteOne(p, k, b, CloseAll(StoppedOut));
      ExitAccounted(p, k, s1, s.stop, StoppedOut);
    } else if OutOfTime(p, s1.barsHeld) {
      ExecuteOne(p, k, b, CloseAll(TimedOut));
      ExitAccounted(p, k, s1, b.close, TimedOut);
    } else {
      TargetsSound(p, k, s1, b);
      var w := Targets(s1, b);
      if w.Finished? {
        FinishReason(s1, b);
      } else {
        TrailSound(p, k, w.s, b, w.acts);
        ExecuteNone(p, k, b);
        ExecuteOne(p, k, b, Hold(NoEvent));
      }
    }
  }

  lemma FinishReason(s: State, b: Bar)
    ensures Targets(s, b).Finished? ==> Targets(s, b).s.closeReason == Some(ThirdTarget)
  {
    var w1 := Stage(Going(s, []), b, TP1);
    StageFrames(Going(s, []), b, TP1);
    StageFrames(w1, b, TP2);
  }

  // Every run, long or short: no bar raises; an open trade holds exactly its banked targets
  // behind a shielded stop; a closed one lost at most the initial risk, kept at least half of
  // TP1 once that was hit, and both banked targets with TP1 on the rest once TP2 was.
  lemma {:induction false} RunAccounted(p: Plan, bars: seq<Bar>)
    requires ValidPlan(p) && Ordered(p)
    requires forall i :: 0 <= i < |bars| ==> Sane(bars[i])
    ensures Run(Open(p), bars).Next?
    ensures var s, k := Run(Open(p), bars).state, RunBook(Open(p), bars);
            && Agrees(k, s, 1.0)
            && if s.closed then Accounted(p, k, s) else Sound(p, k, s)
  {
    if bars != [] {
      hide Sound, Accounted, Sane, Step;
      RunAccounted(p, Front(bars));
      var s, k := Run(Open(p), Front(bars)).state, RunBook(Open(p), Front(bars));
      RunIsExplained(p, Front(bars));
      if s.closed {
        StepClosed(p, k, s, Last(bars));
      } else {
        StepSound(p, k, s, Last(bars));
      }
      ActionsReproduceState(Open(p), bars);
    }
  }

  lemma StepClosed(p: Plan, k: Book, s: State, b: Bar)
    requires Valid(s) && s.closed && s.closeReason.Some?
    ensures Step(s, b) == Next(s, [Hold(AlreadyClosed)]) && ExecuteAll(p, k, b, [Hold(AlreadyClosed)]) == k
  {
    ExecuteOne(p, k, b, Hold(AlreadyClosed));
  }
}
