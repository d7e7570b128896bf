/**
  Entry, stop and target geometry of one signal: app/domain/signals.py,
  app/domain/validation.py and `score_candidate` in app/services/signal_engine.py.
 */
module StopGeometry {
  import opened Prelude

  datatype Family = XABCD | ABCD | ABC

  datatype Candidate = Candidate(
    family: Family, extended: bool, bullish: bool, formed: bool,
    points: seq<real>, completionMin: real, completionMax: real)
  {
    predicate WellFormed() {
      |points| >= if family == XABCD then 2 else 1
    }

    function X(): real
      requires WellFormed()
    {
      points[0]
    }

    function A(): real
      requires WellFormed()
    {
      if family == XABCD then points[1] else points[0]
    }

    function PrzLow(): real {
      RMin(completionMin, completionMax)
    }

    function PrzHigh(): real {
      RMax(completionMin, completionMax)
    }
  }

  datatype Level = Conservative | Standard | Aggressive
  datatype Grade = GradeA | GradeB | GradeC | GradeReference

  // The tunable numbers these functions read.
  datatype StopTuning = StopTuning(
    conservative: real, standard: real, aggressive: real,
    fib1: real, fib2: real, fib3: real,
    feeRate: real, slippageRate: real,
    authenticityVeto: int, authenticityHalve: int)

  const MAX_STOP_BUFFER_MULT := 2.0

  function BaseBuffer(t: StopTuning, level: Level): real {
    match level
    case Conservative => t.conservative
    case Standard => t.standard
    case Aggressive => t.aggressive
  }

  function RegimeMult(r: Regime): real {
    if r == HighQuant then 1.5 else 1.0
  }

  function GradeMult(g: Grade): real {
    match g
    case GradeA => 1.0
    case GradeB => 1.0
    case GradeC => 1.3
    case GradeReference => 1.5
  }

  function TrapMultiplier(score: int): real {
    if score < 60 then 1.0
    else if score < 75 then 1.0 + (score - 60) as real / 15.0 * 0.5
    else if score < 85 then 1.5 + (score - 75) as real / 10.0 * 0.3
    else RMin(2.0, 1.8 + (score - 85) as real / 5.0 * 0.2)
  }

  // Everything that sizes the stop buffer.
  datatype Widening = Widening(trap: real, regime: Regime, grade: Option<Grade>, override: Option<real>)

  const NO_WIDENING := Widening(1.0, Normal, None, None)

  function Product(base: real, trap: real, regime: real, grade: real): real {
    base * trap * regime * grade
  }

  function Chain(base: real, w: Widening): real {
    Product(base, RMax(1.0, w.trap), RegimeMult(w.regime), if w.grade.Some? then GradeMult(w.grade.value) else 1.0)
  }

  function Base(t: StopTuning, level: Level, w: Widening): real {
    if w.override.Some? then w.override.value else BaseBuffer(t, level)
  }

  function BufferMult(t: StopTuning, level: Level, w: Widening): real {
    RMin(Chain(Base(t, level, w), w), MAX_STOP_BUFFER_MULT)
  }

  function Buffer(t: StopTuning, level: Level, w: Widening, atr: real): real {
    BufferMult(t, level, w) * atr
  }

  function Anchor(c: Candidate, level: Level, swing: Option<real>, entry: real): real
    requires c.WellFormed()
  {
    if c.bullish then
      var edge := if level == Conservative || (level == Standard && c.extended) then c.PrzLow()
                  else RMin(c.X(), c.PrzLow());
      if swing.Some? && swing.value < entry && swing.value > 0.0 && swing.value > edge then swing.value else edge
    else
      var edge := if level == Conservative || (level == Standard && c.extended) then c.PrzHigh()
                  else RMax(c.X(), c.PrzHigh());
      if swing.Some? && swing.value > entry && swing.value > 0.0 && swing.value < edge then swing.value else edge
  }

  function StopPrice(c: Candidate, anchor: real, buffer: real): real {
    if c.bullish then anchor - buffer else anchor + buffer
  }

  // Violation stands for a broken contract decorator.
  datatype StopResult = Violation | Placed(stop: real, anchor: real)

  predicate Admissible(c: Candidate, atr: real) {
    && c.WellFormed()
    && atr > 0.0
    && c.PrzLow() > 0.0 && c.PrzHigh() > 0.0
    && forall i :: 0 <= i < |c.points| ==> c.points[i] > 0.0
  }

  function ComputeStop(t: StopTuning, c: Candidate, atr: real, level: Level,
                       swing: Option<real>, entry: real, w: Widening): StopResult
    requires c.WellFormed()
  {
    if !Admissible(c, atr) then Violation
    else
      var anchor := Anchor(c, level, swing, entry);
      var stop := StopPrice(c, anchor, Buffer(t, level, w, atr));
      if stop <= 0.0 || anchor <= 0.0 then Violation else Placed(stop, anchor)
  }

  // A multiple of the span between A and the entry.
  function Rung(fib: real, span: real): real {
    fib * span
  }

  function Target(t: StopTuning, c: Candidate, entry: real, fib: real): real
    requires c.WellFormed()
  {
    var span := RAbs(c.A() - entry);
    if c.bullish then entry + Rung(fib, span) else entry - Rung(fib, span)
  }

  predicate GateOk(c: Candidate, entry: real, stop: real, t1: real, t2: real, t3: real) {
    if c.bullish then stop < entry <= t1 < t2 < t3 else stop > entry >= t1 > t2 > t3
  }

  // ------------------------------------------------------------------
  // Scoring one candidate
  // ------------------------------------------------------------------

  datatype Status = Approaching | InPrz | Confirmed | Swept

  predicate IsSwept(low: real, high: real, close: real, przLow: real, przHigh: real) {
    || (low < przLow <= close <= przHigh)
    || (high > przHigh >= close >= przLow)
  }

  function PrzState(price: real, przLow: real, przHigh: real, swept: bool): Status {
    if swept then Swept else if przLow <= price <= przHigh then InPrz else Approaching
  }

  // What the engine has measured by the time a candidate is scored; scores, vetoes and
  // trends are inputs here.
  datatype Context = Context(
    price: real, low: real, high: real, reversalCandle: bool, atr: real,
    authenticity: int, trapScore: int, trapVeto: bool, momentumVeto: bool,
    swing: Option<real>, rawScore: real, aMin: real,
    trendUp: bool, trendDown: bool, regime: Regime, override: Option<real>)

  function StatusOf(ctx: Context, c: Candidate): Status {
    var s := PrzState(ctx.price, c.PrzLow(), c.PrzHigh(),
                      IsSwept(ctx.low, ctx.high, ctx.price, c.PrzLow(), c.PrzHigh()));
    if (s == InPrz || s == Swept) && ctx.reversalCandle then Confirmed else s
  }

  function EntryOf(ctx: Context, c: Candidate): real {
    if StatusOf(ctx, c) != Approaching then ctx.price
    else if c.bullish then c.PrzHigh() else c.PrzLow()
  }

  // Fees and slippage, in and out.
  function CostOf(t: StopTuning, entry: real): real {
    2.0 * (t.feeRate + t.slippageRate) * entry
  }

  // Reward over risk net of costs; None when there is nothing to gain or risk.
  function NetRr(t: StopTuning, entry: real, stop: real, target: real): Option<real> {
    var risk := RAbs(entry - stop);
    if risk <= 0.0 || entry <= 0.0 then None
    else
      var cost := CostOf(t, entry);
      var reward := RAbs(target - entry) - cost;
      if reward <= 0.0 || risk + cost <= 0.0 then None else Some(reward / (risk + cost))
  }

  function GradeOf(score: real, rr1: Option<real>, rr2: Option<real>, aligned: bool, counter: bool,
                   aMin: real, width: real): Option<Grade>
  {
    var reference := if score >= 45.0 then Some(GradeReference) else None;
    if rr1.None? || rr2.None? then None
    else if width >= 0.04 || counter || rr1.value < 1.0 || rr2.value < 1.5 then reference
    else if score >= aMin && rr2.value >= 2.0 && aligned then Some(GradeA)
    else if score >= 60.0 then Some(GradeB)
    else reference
  }

  datatype Signal = Signal(
    status: Status, grade: Grade, entry: real, stop: real, anchor: real,
    t1: real, t2: real, t3: real, rr1: Option<real>, rr2: Option<real>, tradable: bool)

  datatype Outcome = Rejected | Raised | Emitted(signal: Signal)

  predicate Vetoed(t: StopTuning, ctx: Context, c: Candidate) {
    ctx.authenticity < if c.formed then t.authenticityVeto else t.authenticityHalve
  }

  // Width of the zone relative to its middle.
  function Width(c: Candidate): real {
    var mid := (c.PrzLow() + c.PrzHigh()) / 2.0;
    if mid > 0.0 then (c.PrzHigh() - c.PrzLow()) / mid else 0.0
  }

  function GradeFor(ctx: Context, c: Candidate, rr1: Option<real>, rr2: Option<real>): Option<Grade> {
    GradeOf(RMax(0.0, RMin(100.0, ctx.rawScore)), rr1, rr2,
            if c.bullish then ctx.trendUp else ctx.trendDown,
            if c.bullish then ctx.trendDown else ctx.trendUp, ctx.aMin, Width(c))
  }

  function Score(t: StopTuning, ctx: Context, c: Candidate, level: Level): Outcome
    requires c.WellFormed()
  {
    if ctx.atr <= 0.0 then Raised
    else if Vetoed(t, ctx, c) then Rejected
    else
      var entry := EntryOf(ctx, c);
      var first := ComputeStop(t, c, ctx.atr, level, ctx.swing, entry, NO_WIDENING);
      var t1, t2, t3 := Target(t, c, entry, t.fib1), Target(t, c, entry, t.fib2), Target(t, c, entry, t.fib3);
      if first.Violation? then Raised
      else if ctx.trapVeto || ctx.momentumVeto then Rejected
      else if !GateOk(c, entry, first.stop, t1, t2, t3) then Rejected
      else if entry <= 0.0 || t1 <= 0.0 || t2 <= 0.0 then Raised
      else
        var g := GradeFor(ctx, c, NetRr(t, entry, first.stop, t1), NetRr(t, entry, first.stop, t2));
        if g.None? then Rejected
        else
          var w := Widening(TrapMultiplier(ctx.trapScore), ctx.regime, g, ctx.override);
          var second := ComputeStop(t, c, ctx.atr, level, ctx.swing, entry, w);
          if second.Violation? then Raised
          else Emitted(Signal(StatusOf(ctx, c), g.value, entry, second.stop, second.anchor, t1, t2, t3,
                              NetRr(t, entry, second.stop, t1), NetRr(t, entry, second.stop, t2),
                              g.value != GradeReference))
  }

  // ------------------------------------------------------------------
  // The buffer
  // ------------------------------------------------------------------

  predicate PositiveBuffers(t: StopTuning) {
    t.conservative > 0.0 && t.standard > 0.0 && t.aggressive > 0.0
  }

  // The soft knee: from 1 to 2, never decreasing, flat below 60 and saturated from 90 on.
  lemma TrapKnee(a: int, b: int)
    requires a <= b
    ensures 1.0 <= TrapMultiplier(a) <= TrapMultiplier(b) <= 2.0
    ensures TrapMultiplier(a) == 1.0 <==> a <= 60
    ensures TrapMultiplier(a) == 2.0 <==> a >= 90
  {
  }

  function GradeRank(g: Option<Grade>): nat {
    match g
    case None => 0
    case Some(GradeA) => 0
    case Some(GradeB) => 1
    case Some(GradeC) => 2
    case Some(GradeReference) => 3
  }

  function RegimeRank(r: Regime): nat {
    match r case Normal => 0 case ModerateQuant => 1 case HighQuant => 2
  }

  // One widening, of the same base, is at least as wide as another in every respect.
  predicate NoNarrower(v: Widening, w: Widening) {
    && v.override == w.override && (w.override.Some? ==> w.override.value > 0.0)
    && v.trap <= w.trap && RegimeRank(v.regime) <= RegimeRank(w.regime) && GradeRank(v.grade) <= GradeRank(w.grade)
  }

  lemma TimesMonotone(a: real, b: real, x: real, y: real)
    requires 0.0 <= a <= b && 0.0 <= x <= y
    ensures 0.0 <= a * x <= b * y
    ensures a > 0.0 && x > 0.0 ==> a * x > 0.0
  {
    assert a * x <= b * x;
    assert b * x <= b * y;
  }

  lemma ChainMonotone(base: real, v: Widening, w: Widening)
    requires base > 0.0 && NoNarrower(v, w)
    ensures 0.0 < Chain(base, v) <= Chain(base, w)
  {
    var a, b := RMax(1.0, v.trap), RMax(1.0, w.trap);
    var gv := if v.grade.Some? then GradeMult(v.grade.value) else 1.0;
    var gw := if w.grade.Some? then GradeMult(w.grade.value) else 1.0;
    hide Product;
    ProductMonotone(base, a, b, RegimeMult(v.regime), RegimeMult(w.regime), gv, gw);
  }

  lemma ProductMonotone(base: real, a: real, b: real, x: real, y: real, g: real, h: real)
    requires base > 0.0 && 0.0 < a <= b && 0.0 < x <= y && 0.0 < g <= h
    ensures 0.0 < Product(base, a, x, g) <= Product(base, b, y, h)
  {
    TimesMonotone(base, base, a, b);
    TimesMonotone(base * a, base * b, x, y);
    TimesMonotone(base * a * x, base * b * y, g, h);
  }

  lemma BufferGrows(t: StopTuning, level: Level, v: Widening, w: Widening, atr: real)
    requires PositiveBuffers(t) && NoNarrower(v, w) && atr > 0.0
    ensures 0.0 < Buffer(t, level, v, atr) <= Buffer(t, level, w, atr) <= 2.0 * atr
  {
    hide Chain;
    ChainMonotone(Base(t, level, w), v, w);
    var m, n := BufferMult(t, level, v), BufferMult(t, level, w);
    hide BufferMult;
    ScaledInOrder(m, n, atr);
  }

  lemma ScaledInOrder(m: real, n: real, atr: real)
    requires 0.0 < m <= n <= 2.0 && atr > 0.0
    ensures 0.0 < m * atr <= n * atr <= 2.0 * atr
  {
    TimesMonotone(m, n, atr, atr);
    TimesMonotone(n, 2.0, atr, atr);
  }

  // The distance between stop and anchor: positive, never above 2 ATR, and non-decreasing in
  // the trap score, the regime and the demotion of the grade.
  lemma DistanceFromAnchor(t: StopTuning, c: Candidate, atr: real, level: Level, swing: Option<real>, entry: real,
                           v: Widening, w: Widening)
    requires c.WellFormed() && PositiveBuffers(t) && NoNarrower(v, w)
    ensures var near := ComputeStop(t, c, atr, level, swing, entry, v);
            var far := ComputeStop(t, c, atr, level, swing, entry, w);
            near.Placed? && far.Placed? ==>
              && near.anchor == far.anchor
              && 0.0 < RAbs(near.stop - near.anchor) <= RAbs(far.stop - far.anchor) <= 2.0 * atr
  {
    hide Buffer, Anchor;
    if Admissible(c, atr) {
      BufferGrows(t, level, v, w, atr);
    }
  }

  // ------------------------------------------------------------------
  // The gate and what gets past it
  // ------------------------------------------------------------------

  // No factor of the chain widens anything.
  predicate Unwidened(w: Widening) {
    w.trap <= 1.0 && w.regime != HighQuant && (w.grade.None? || GradeMult(w.grade.value) == 1.0)
  }

  lemma FactorOfChain(base: real, w: Widening) returns (k: real)
    ensures k >= 1.0 && Chain(base, w) == base * k && (k == 1.0 <==> Unwidened(w))
  {
    var trap, regime := RMax(1.0, w.trap), RegimeMult(w.regime);
    var grade := if w.grade.Some? then GradeMult(w.grade.value) else 1.0;
    ProductOfFactors(trap, regime);
    ProductOfFactors(trap * regime, grade);
    k := trap * regime * grade;
    assert Chain(base, w) == base * k;
  }

  lemma ProductOfFactors(x: real, y: real)
    requires x >= 1.0 && y >= 1.0
    ensures x * y >= 1.0 && (x * y == 1.0 <==> x == 1.0 && y == 1.0)
  {
    assert x * y == x + x * (y - 1.0);
    assert y > 1.0 ==> x * (y - 1.0) > 0.0;
  }

  // The literal ATR multiple a caller may pass is meant to replace the whole chain. It only
  // replaces the base: the buffer is the literal multiple exactly when nothing widens it, or
  // it sits at the cap.
  lemma OverrideIsLiteralIff(t: StopTuning, level: Level, w: Widening)
    requires w.override.Some?
    ensures var x := w.override.value;
            BufferMult(t, level, w) == x <==> x == 0.0 || x == 2.0 || (x < 2.0 && Unwidened(w))
  {
    var x := w.override.value;
    var k := FactorOfChain(x, w);
    hide Chain, Unwidened;
    assert x * k == x + x * (k - 1.0);
    if x > 0.0 {
      TimesMonotone(x, x, 0.0, k - 1.0);
      assert k > 1.0 ==> x * (k - 1.0) > 0.0;
    } else if x < 0.0 {
      TimesMonotone(-x, -x, 0.0, k - 1.0);
      assert k > 1.0 ==> (-x) * (k - 1.0) > 0.0;
      assert x * (k - 1.0) == -((-x) * (k - 1.0));
    }
  }

  // The stop lies strictly beyond its anchor exactly when the base multiple is positive, which
  // nothing checks of a literal one.
  lemma BeyondAnchorIff(t: StopTuning, c: Candidate, atr: real, level: Level, swing: Option<real>, entry: real, w: Widening)
    requires c.WellFormed()
    ensures var r := ComputeStop(t, c, atr, level, swing, entry, w);
            r.Placed? ==> ((if c.bullish then r.stop < r.anchor else r.stop > r.anchor) <==> Base(t, level, w) > 0.0)
  {
    var k := FactorOfChain(Base(t, level, w), w);
    hide Chain, Anchor, Base;
    var m := BufferMult(t, level, w);
    SameSign(Base(t, level, w), k);
    hide BufferMult;
    if atr > 0.0 {
      SameSign(m, atr);
    }
  }

  lemma SameSign(x: real, k: real)
    requires k > 0.0
    ensures x * k > 0.0 <==> x > 0.0
  {
    assert x > 0.0 ==> x * k > 0.0;
    assert x <= 0.0 ==> x * k <= 0.0;
  }

  lemma EntryInZone(ctx: Context, c: Candidate)
    ensures c.PrzLow() <= EntryOf(ctx, c) <= c.PrzHigh()
  {
  }

  // With any positive buffer the stop is on the losing side of the entry.
  lemma StopBehindEntry(t: StopTuning, ctx: Context, c: Candidate, level: Level, w: Widening)
    requires c.WellFormed() && PositiveBuffers(t) && (w.override.Some? ==> w.override.value > 0.0)
    ensures var r := ComputeStop(t, c, ctx.atr, level, ctx.swing, EntryOf(ctx, c), w);
            r.Placed? ==> if c.bullish then r.stop < EntryOf(ctx, c) else r.stop > EntryOf(ctx, c)
  {
    hide Buffer, EntryOf;
    EntryInZone(ctx, c);
    if Admissible(c, ctx.atr) {
      BufferGrows(t, level, w, w, ctx.atr);
    }
  }

  predicate FibsRise(t: StopTuning) {
    0.0 <= t.fib1 < t.fib2 < t.fib3
  }

  lemma TargetsRise(t: StopTuning, c: Candidate, entry: real)
    requires c.WellFormed() && FibsRise(t)
    ensures var t1, t2, t3 := Target(t, c, entry, t.fib1), Target(t, c, entry, t.fib2), Target(t, c, entry, t.fib3);
            if c.A() == entry then t1 == t2 == t3 == entry
            else if c.bullish then entry <= t1 < t2 < t3 else entry >= t1 > t2 > t3
  {
    var span := RAbs(c.A() - entry);
    LadderRises(0.0, t.fib1, span);
    LadderRises(t.fib1, t.fib2, span);
    LadderRises(t.fib2, t.fib3, span);
    hide Rung;
  }

  lemma LadderRises(x: real, y: real, span: real)
    requires x <= y && span >= 0.0
    ensures Rung(x, span) <= Rung(y, span) && Rung(0.0, span) == 0.0
    ensures span > 0.0 && x < y ==> Rung(x, span) < Rung(y, span)
    ensures span == 0.0 ==> Rung(x, span) == Rung(y, span) == 0.0
  {
    assert y * span - x * span == (y - x) * span;
    assert span > 0.0 && x < y ==> (y - x) * span > 0.0;
  }

  // The geometry gate rejects exactly the candidates whose A price equals the entry.
  lemma GateIff(t: StopTuning, ctx: Context, c: Candidate, level: Level)
    requires c.WellFormed() && PositiveBuffers(t) && FibsRise(t)
    ensures var entry := EntryOf(ctx, c);
            var first := ComputeStop(t, c, ctx.atr, level, ctx.swing, entry, NO_WIDENING);
            var t1, t2, t3 := Target(t, c, entry, t.fib1), Target(t, c, entry, t.fib2), Target(t, c, entry, t.fib3);
            first.Placed? ==> (GateOk(c, entry, first.stop, t1, t2, t3) <==> c.A() != entry)
  {
    StopBehindEntry(t, ctx, c, level, NO_WIDENING);
    TargetsRise(t, c, EntryOf(ctx, c));
    hide ComputeStop, EntryOf, Target;
  }

  // Every emitted signal has its entry and targets in order. Its second-pass stop is on the
  // losing side and at most 2 ATR from its anchor, unless a literal multiple is not positive;
  // without a literal multiple it is also no closer to the anchor than the one that was gated.
  lemma EmittedGeometry(t: StopTuning, ctx: Context, c: Candidate, level: Level)
    requires c.WellFormed() && PositiveBuffers(t) && Score(t, ctx, c, level).Emitted?
    ensures var s := Score(t, ctx, c, level).signal;
            var first := ComputeStop(t, c, ctx.atr, level, ctx.swing, s.entry, NO_WIDENING);
            && (if c.bullish then first.Placed? && first.stop < s.entry <= s.t1 < s.t2 < s.t3
                else first.Placed? && first.stop > s.entry >= s.t1 > s.t2 > s.t3)
            && s.stop > 0.0
            && c.PrzLow() <= s.entry <= c.PrzHigh()
            && s.tradable == (s.grade != GradeReference)
            && ((ctx.override.Some? ==> ctx.override.value > 0.0) ==>
                  && (if c.bullish then s.stop < s.entry else s.stop > s.entry)
                  && 0.0 < RAbs(s.stop - s.anchor) <= 2.0 * ctx.atr)
            && (ctx.override.None? ==> 0.0 < RAbs(first.stop - first.anchor) <= RAbs(s.stop - s.anchor))
  {
    hide EntryOf, StatusOf, Target, NetRr, GradeFor, TrapMultiplier, Chain, BufferMult, Anchor;
    var s := Score(t, ctx, c, level).signal;
    var w := Widening(TrapMultiplier(ctx.trapScore), ctx.regime, Some(s.grade), ctx.override);
    EntryInZone(ctx, c);
    TrapKnee(ctx.trapScore, ctx.trapScore);
    if ctx.override.Some? ==> ctx.override.value > 0.0 {
      StopBehindEntry(t, ctx, c, level, w);
      DistanceFromAnchor(t, c, ctx.atr, level, ctx.swing, s.entry, w, w);
    }
    if ctx.override.None? {
      DistanceFromAnchor(t, c, ctx.atr, level, ctx.swing, s.entry, NO_WIDENING, w);
    }
  }

  // ------------------------------------------------------------------
  // Reward and grade
  // ------------------------------------------------------------------

  lemma SmallerDenominator(x: real, d: real, e: real)
    requires x > 0.0 && 0.0 < d <= e
    ensures 0.0 < x / e <= x / d
  {
    assert (x / d) * d == x && (x / e) * e == x;
    assert x / e > 0.0 && (x / e) * (e - d) >= 0.0;
  }

  // Moving the stop farther away never improves the net reward over risk.
  lemma FartherStopPaysLess(t: StopTuning, entry: real, near: real, far: real, target: real)
    requires NetRr(t, entry, near, target).Some? && RAbs(entry - near) <= RAbs(entry - far)
    ensures NetRr(t, entry, far, target).Some?
    ensures 0.0 < NetRr(t, entry, far, target).value <= NetRr(t, entry, near, target).value
  {
    hide CostOf;
    var cost := CostOf(t, entry);
    SmallerDenominator(RAbs(target - entry) - cost, RAbs(entry - near) + cost, RAbs(entry - far) + cost);
  }

  // Of two stops with a defined ratio, the farther one pays no more, and only it.
  lemma PaysLessIff(t: StopTuning, entry: real, a: real, b: real, target: real)
    requires NetRr(t, entry, a, target).Some? && NetRr(t, entry, b, target).Some?
    ensures NetRr(t, entry, b, target).value <= NetRr(t, entry, a, target).value <==> RAbs(entry - a) <= RAbs(entry - b)
  {
    hide CostOf;
    var cost := CostOf(t, entry);
    var x, d, e := RAbs(target - entry) - cost, RAbs(entry - a) + cost, RAbs(entry - b) + cost;
    if d <= e {
      SmallerDenominator(x, d, e);
    } else {
      StrictlySmallerDenominator(x, e, d);
    }
  }

  lemma StrictlySmallerDenominator(x: real, d: real, e: real)
    requires x > 0.0 && 0.0 < d < e
    ensures 0.0 < x / e < x / d
  {
    assert (x / d) * d == x && (x / e) * e == x;
    assert x / e > 0.0 && (x / e) * (e - d) > 0.0;
  }

  // Everything the second stop of a signal of this grade is widened by.
  function FinalWidening(ctx: Context, g: Grade): Widening {
    Widening(TrapMultiplier(ctx.trapScore), ctx.regime, Some(g), ctx.override)
  }

  // Both stops on the losing side, at their multiples from the same anchor.
  lemma DistanceByMultiple(t: StopTuning, ctx: Context, c: Candidate, level: Level)
    requires c.WellFormed() && PositiveBuffers(t) && (ctx.override.Some? ==> ctx.override.value > 0.0)
    requires Score(t, ctx, c, level).Emitted?
    ensures var s := Score(t, ctx, c, level).signal;
            var first := ComputeStop(t, c, ctx.atr, level, ctx.swing, s.entry, NO_WIDENING);
            first.Placed? &&
            (RAbs(s.entry - first.stop) <= RAbs(s.entry - s.stop) <==>
             BufferMult(t, level, NO_WIDENING) <= BufferMult(t, level, FinalWidening(ctx, s.grade)))
  {
    var s := Score(t, ctx, c, level).signal;
    EmittedGeometry(t, ctx, c, level);
    EmittedStop(t, ctx, c, level);
    hide Score, BufferMult, FinalWidening, TrapMultiplier;
    PlacedAt(t, c, ctx.atr, level, ctx.swing, s.entry, NO_WIDENING);
    PlacedAt(t, c, ctx.atr, level, ctx.swing, s.entry, FinalWidening(ctx, s.grade));
    hide ComputeStop, Anchor;
    BufferOrder(t, level, NO_WIDENING, FinalWidening(ctx, s.grade), ctx.atr);
    hide Buffer;
  }

  lemma PlacedAt(t: StopTuning, c: Candidate, atr: real, level: Level, swing: Option<real>, entry: real, w: Widening)
    requires c.WellFormed() && ComputeStop(t, c, atr, level, swing, entry, w).Placed?
    ensures var r := ComputeStop(t, c, atr, level, swing, entry, w);
            atr > 0.0 && r.anchor == Anchor(c, level, swing, entry) && r.stop == StopPrice(c, r.anchor, Buffer(t, level, w, atr))
  {
    hide Anchor, Buffer;
  }

  lemma EmittedStop(t: StopTuning, ctx: Context, c: Candidate, level: Level)
    requires c.WellFormed() && Score(t, ctx, c, level).Emitted?
    ensures var s := Score(t, ctx, c, level).signal;
            ComputeStop(t, c, ctx.atr, level, ctx.swing, s.entry, FinalWidening(ctx, s.grade)) == Placed(s.stop, s.anchor)
  {
    hide EntryOf, StatusOf, Target, NetRr, GradeFor, TrapMultiplier, ComputeStop, GateOk;
  }

  lemma BufferOrder(t: StopTuning, level: Level, v: Widening, w: Widening, atr: real)
    requires atr > 0.0
    ensures Buffer(t, level, v, atr) <= Buffer(t, level, w, atr) <==> BufferMult(t, level, v) <= BufferMult(t, level, w)
  {
    hide BufferMult;
    TimesAtr(BufferMult(t, level, v), BufferMult(t, level, w), atr);
  }

  lemma TimesAtr(m: real, n: real, atr: real)
    requires atr > 0.0
    ensures m * atr <= n * atr <==> m <= n
  {
    assert n * atr - m * atr == (n - m) * atr;
    assert n < m ==> (m - n) * atr > 0.0;
  }

  // With a positive literal multiple or none: a reported ratio that exists is no better than the
  // graded one if and only if the final multiple is at least the plain one.
  lemma ReportedIsNoBetterIff(t: StopTuning, ctx: Context, c: Candidate, level: Level)
    requires c.WellFormed() && PositiveBuffers(t) && (ctx.override.Some? ==> ctx.override.value > 0.0)
    requires Score(t, ctx, c, level).Emitted?
    ensures var s := Score(t, ctx, c, level).signal;
            var first := ComputeStop(t, c, ctx.atr, level, ctx.swing, s.entry, NO_WIDENING);
            var wider := BufferMult(t, level, NO_WIDENING) <= BufferMult(t, level, FinalWidening(ctx, s.grade));
            first.Placed? &&
            var rr1, rr2 := NetRr(t, s.entry, first.stop, s.t1), NetRr(t, s.entry, first.stop, s.t2);
            && rr1.Some? && rr2.Some?
            && (s.rr1.Some? ==> (s.rr1.value <= rr1.value <==> wider))
            && (s.rr2.Some? ==> (s.rr2.value <= rr2.value <==> wider))
  {
    DistanceByMultiple(t, ctx, c, level);
    hide BufferMult;
    ReportedByDistance(t, ctx, c, level);
    hide Score, ComputeStop, NetRr, RAbs;
  }

  // With any literal multiple, the same in terms of the distance of the two stops.
  lemma ReportedByDistance(t: StopTuning, ctx: Context, c: Candidate, level: Level)
    requires c.WellFormed() && Score(t, ctx, c, level).Emitted?
    ensures var s := Score(t, ctx, c, level).signal;
            var first := ComputeStop(t, c, ctx.atr, level, ctx.swing, s.entry, NO_WIDENING);
            first.Placed? &&
            var rr1, rr2 := NetRr(t, s.entry, first.stop, s.t1), NetRr(t, s.entry, first.stop, s.t2);
            && rr1.Some? && rr2.Some?
            && (s.rr1.Some? ==>
                  (s.rr1.value <= rr1.value <==> RAbs(s.entry - first.stop) <= RAbs(s.entry - s.stop)))
            && (s.rr2.Some? ==>
                  (s.rr2.value <= rr2.value <==> RAbs(s.entry - first.stop) <= RAbs(s.entry - s.stop)))
  {
    GradedHasRewards(t, ctx, c, level);
    var s := Score(t, ctx, c, level).signal;
    var first := ComputeStop(t, c, ctx.atr, level, ctx.swing, s.entry, NO_WIDENING);
    hide Score, ComputeStop, EntryOf, NetRr;
    if s.rr1.Some? {
      PaysLessIff(t, s.entry, first.stop, s.stop, s.t1);
    }
    if s.rr2.Some? {
      PaysLessIff(t, s.entry, first.stop, s.stop, s.t2);
    }
  }

  // Without a literal multiple the reported reward over risk exists and never beats the one the grade was based on.
  lemma ReportedIsNoBetter(t: StopTuning, ctx: Context, c: Candidate, level: Level)
    requires c.WellFormed() && PositiveBuffers(t) && ctx.override.None?
    requires Score(t, ctx, c, level).Emitted?
    ensures var s := Score(t, ctx, c, level).signal;
            var first := ComputeStop(t, c, ctx.atr, level, ctx.swing, s.entry, NO_WIDENING);
            var rr1, rr2 := NetRr(t, s.entry, first.stop, s.t1), NetRr(t, s.entry, first.stop, s.t2);
            && rr1.Some? && rr2.Some? && s.rr1.Some? && s.rr2.Some?
            && 0.0 < s.rr1.value <= rr1.value && 0.0 < s.rr2.value <= rr2.value
  {
    EmittedGeometry(t, ctx, c, level);
    GradedHasRewards(t, ctx, c, level);
    var s := Score(t, ctx, c, level).signal;
    var first := ComputeStop(t, c, ctx.atr, level, ctx.swing, s.entry, NO_WIDENING);
    StopBehindEntry(t, ctx, c, level, NO_WIDENING);
    SameAnchor(t, ctx, c, level);
    hide Score, ComputeStop, EntryOf, NetRr;
    FartherStopPaysLess(t, s.entry, first.stop, s.stop, s.t1);
    FartherStopPaysLess(t, s.entry, first.stop, s.stop, s.t2);
  }

  lemma GradedHasRewards(t: StopTuning, ctx: Context, c: Candidate, level: Level)
    requires c.WellFormed() && Score(t, ctx, c, level).Emitted?
    ensures var s := Score(t, ctx, c, level).signal;
            var first := ComputeStop(t, c, ctx.atr, level, ctx.swing, s.entry, NO_WIDENING);
            && first.Placed? && s.entry == EntryOf(ctx, c)
            && NetRr(t, s.entry, first.stop, s.t1).Some? && NetRr(t, s.entry, first.stop, s.t2).Some?
            && s.rr1 == NetRr(t, s.entry, s.stop, s.t1) && s.rr2 == NetRr(t, s.entry, s.stop, s.t2)
  {
    hide EntryOf, StatusOf, Target, NetRr, TrapMultiplier, Chain, BufferMult, Anchor, ComputeStop, GateOk;
  }

  lemma SameAnchor(t: StopTuning, ctx: Context, c: Candidate, level: Level)
    requires c.WellFormed() && PositiveBuffers(t) && ctx.override.None?
    requires Score(t, ctx, c, level).Emitted?
    ensures var s := Score(t, ctx, c, level).signal;
            var first := ComputeStop(t, c, ctx.atr, level, ctx.swing, s.entry, NO_WIDENING);
            && first.Placed? && first.anchor == s.anchor
            && if c.bullish then s.stop <= first.stop else s.stop >= first.stop
  {
    hide EntryOf, StatusOf, Target, NetRr, GradeFor, TrapMultiplier, Chain, BufferMult, Anchor;
    var s := Score(t, ctx, c, level).signal;
    var w := Widening(TrapMultiplier(ctx.trapScore), ctx.regime, Some(s.grade), ctx.override);
    TrapKnee(ctx.trapScore, ctx.trapScore);
    BufferGrows(t, level, NO_WIDENING, w, ctx.atr);
  }

  function Quality(g: Option<Grade>): nat {
    match g
    case None => 0
    case Some(GradeReference) => 1
    case Some(GradeC) => 1
    case Some(GradeB) => 2
    case Some(GradeA) => 3
  }

  predicate NoWorse(a: Option<real>, b: Option<real>) {
    a.Some? ==> b.Some? && a.value <= b.value
  }

  // Nothing that improves a setup lowers its grade, and a wide zone, a counter-trend or a
  // reward below the gates caps it at reference.
  lemma GradeImproves(score: real, rr1: Option<real>, rr2: Option<real>, aligned: bool, counter: bool, width: real,
                      score': real, rr1': Option<real>, rr2': Option<real>, aligned': bool, counter': bool,
                      width': real, aMin: real)
    requires score <= score' && NoWorse(rr1, rr1') && NoWorse(rr2, rr2') && width' <= width
    requires (aligned ==> aligned') && (counter' ==> counter)
    ensures var g, g' := GradeOf(score, rr1, rr2, aligned, counter, aMin, width),
                         GradeOf(score', rr1', rr2', aligned', counter', aMin, width');
            && Quality(g) <= Quality(g')
            && (Quality(g) >= 2 ==> width < 0.04 && !counter && rr1.value >= 1.0 && rr2.value >= 1.5)
            && (Quality(g) == 3 ==> aligned && score >= aMin && rr2.value >= 2.0)
  {
  }

  // ------------------------------------------------------------------
  // The swing anchor
  // ------------------------------------------------------------------

  function Lowest(xs: seq<real>): real
    requires xs != []
  {
    if |xs| == 1 then xs[0] else RMin(Lowest(Front(xs)), Last(xs))
  }

  function Highest(xs: seq<real>): real
    requires xs != []
  {
    if |xs| == 1 then xs[0] else RMax(Highest(Front(xs)), Last(xs))
  }

  // Bars in which eight ATR are covered at the pace of the last sixty.
  function Covered(atr: real, travel: real): real
    requires travel > 0.0
  {
    8.0 * atr / travel * 60.0
  }

  // Bars needed to cover about eight ATR of travel, between 20 and 120, within the data.
  function Lookback(n: nat, atr: real, travel: real): (k: nat)
    requires n >= 20 && atr > 0.0 && travel > 0.0
    ensures 20 <= k <= 120 && k <= n
  {
    IMin(IMax(20, IMin(120, Covered(atr, travel).Floor)), n)
  }

  function SwingAnchor(lows: seq<real>, highs: seq<real>, atr: real, bullish: bool): Option<real>
    requires |lows| == |highs|
  {
    if atr <= 0.0 || |lows| < 20 then None
    else
      var travel := Highest(Tail(highs, 60)) - Lowest(Tail(lows, 60));
      if travel <= 0.0 then None
      else
        var k := Lookback(|lows|, atr, travel);
        Some(if bullish then Lowest(Tail(lows, k)) else Highest(Tail(highs, k)))
  }

  lemma {:induction false} LowestIsLeast(xs: seq<real>, i: nat)
    requires i < |xs|
    ensures Lowest(xs) <= xs[i] <= Highest(xs)
  {
    if |xs| > 1 {
      LowestIsLeast(Front(xs), if i < |xs| - 1 then i else 0);
    }
  }

  // A stop anchored on the swing clears every one of the last twenty bars by its buffer.
  lemma SwingStopClearsRecentBars(t: StopTuning, c: Candidate, atr: real, level: Level, lows: seq<real>, highs: seq<real>,
                                  entry: real, w: Widening, i: nat)
    requires c.WellFormed() && PositiveBuffers(t) && (w.override.Some? ==> w.override.value > 0.0) && |lows| == |highs|
    requires |lows| - 20 <= i < |lows|
    ensures var swing := SwingAnchor(lows, highs, atr, c.bullish);
            var r := ComputeStop(t, c, atr, level, swing, entry, w);
            swing.Some? && r.Placed? && r.anchor == swing.value ==>
              if c.bullish then r.stop < lows[i] else r.stop > highs[i]
  {
    hide Buffer, Anchor, Lookback, Admissible, Lowest, Highest;
    var swing := SwingAnchor(lows, highs, atr, c.bullish);
    if swing.Some? && ComputeStop(t, c, atr, level, swing, entry, w).Placed? {
      SwingCoversTail(lows, highs, atr, c.bullish, i);
      AtrIsPositive(c, atr);
      BufferGrows(t, level, w, w, atr);
    }
  }

  lemma AtrIsPositive(c: Candidate, atr: real)
    ensures Admissible(c, atr) ==> atr > 0.0
  {
  }

  lemma SwingCoversTail(lows: seq<real>, highs: seq<real>, atr: real, bullish: bool, i: nat)
    requires |lows| == |highs| && |lows| - 20 <= i < |lows|
    ensures var x := SwingAnchor(lows, highs, atr, bullish);
            x.Some? ==> if bullish then x.value <= lows[i] else x.value >= highs[i]
  {
    hide Lookback, Lowest, Highest;
    if SwingAnchor(lows, highs, atr, bullish).Some? {
      var k := Lookback(|lows|, atr, Highest(Tail(highs, 60)) - Lowest(Tail(lows, 60)));
      LowestIsLeast(Tail(lows, k), i - (|lows| - k));
      LowestIsLeast(Tail(highs, k), i - (|lows| - k));
    }
  }
}
