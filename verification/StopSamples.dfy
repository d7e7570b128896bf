/** What a literal stop multiple can do, settled by one sample setup that emits for every literal. */
module StopSamples {
  import opened Prelude
  import opened StopGeometry

  // A literal multiple of 0.5 on a reference signal makes a buffer of 0.75 ATR.
  lemma HalfBecomesThreeQuarters(t: StopTuning, level: Level)
    ensures BufferMult(t, level, Widening(1.0, Normal, Some(GradeReference), Some(0.5))) == 0.75
  {
  }

  // A long candidate with a zone from 95 to 100, the price at its lower edge and an ATR of 10.
  const SAMPLE_TUNING := StopTuning(0.5, 0.5, 0.5, 0.4, 0.6, 1.2, 0.0, 0.0, 20, 50)
  const SAMPLE := Candidate(XABCD, false, true, true, [80.0, 195.0, 120.0, 160.0, 97.0], 95.0, 100.0)

  function SampleContext(literal: real): Context {
    Context(95.0, 95.0, 97.0, false, 10.0, 60, 0, false, false, None, 50.0, 75.0, true, false, Normal, Some(literal))
  }

  function SampleWidening(literal: real): Widening {
    Widening(1.0, Normal, Some(GradeReference), Some(literal))
  }

  lemma SampleEntry(literal: real)
    ensures StatusOf(SampleContext(literal), SAMPLE) == InPrz && EntryOf(SampleContext(literal), SAMPLE) == 95.0
    ensures SAMPLE.WellFormed() && SAMPLE.A() == 195.0 && SAMPLE.PrzLow() == 95.0 && SAMPLE.PrzHigh() == 100.0
  {
  }

  lemma SampleStop(w: Widening)
    ensures BufferMult(SAMPLE_TUNING, Conservative, w) < 9.0 ==>
              ComputeStop(SAMPLE_TUNING, SAMPLE, 10.0, Conservative, None, 95.0, w)
              == Placed(95.0 - BufferMult(SAMPLE_TUNING, Conservative, w) * 10.0, 95.0)
  {
    SampleEntry(0.0);
    hide BufferMult;
    assert Anchor(SAMPLE, Conservative, None, 95.0) == 95.0;
    assert Admissible(SAMPLE, 10.0);
    hide Anchor, Admissible;
  }

  lemma SampleTarget(fib: real)
    ensures Target(SAMPLE_TUNING, SAMPLE, 95.0, fib) == 95.0 + fib * 100.0
  {
    SampleEntry(0.0);
    SampleIsLong();
    hide SAMPLE;
    assert Target(SAMPLE_TUNING, SAMPLE, 95.0, fib) == 95.0 + Rung(fib, 100.0);
  }

  lemma SampleIsLong()
    ensures SAMPLE.bullish
  {
  }

  lemma SampleRatio(risk: real, reward: real)
    requires risk > 0.0 && reward > 0.0
    ensures NetRr(SAMPLE_TUNING, 95.0, 95.0 - risk, 95.0 + reward) == Some(reward / risk)
  {
    assert CostOf(SAMPLE_TUNING, 95.0) == 0.0;
    var cost := CostOf(SAMPLE_TUNING, 95.0);
    assert RAbs(95.0 + reward - 95.0) - cost == reward && RAbs(95.0 - (95.0 - risk)) + cost == risk;
    SameQuotient(RAbs(95.0 + reward - 95.0) - cost, RAbs(95.0 - (95.0 - risk)) + cost, reward, risk);
    hide CostOf, RAbs;
  }

  lemma SameQuotient(x: real, d: real, y: real, e: real)
    requires d > 0.0 && x == y && d == e
    ensures x / d == y / e
  {
  }

  lemma SampleGrade(literal: real)
    ensures GradeFor(SampleContext(literal), SAMPLE, Some(8.0), Some(12.0)) == Some(GradeReference)
  {
    assert Width(SAMPLE) == (100.0 - 95.0) / ((95.0 + 100.0) / 2.0) > 0.04;
    hide Width;
  }

  lemma SampleMultiples(literal: real)
    ensures BufferMult(SAMPLE_TUNING, Conservative, NO_WIDENING) == 0.5
    ensures TrapMultiplier(0) == 1.0
    ensures BufferMult(SAMPLE_TUNING, Conservative, SampleWidening(literal)) == RMin(1.5 * literal, 2.0)
  {
  }

  lemma SamplePasses(literal: real, ctx: Context)
    requires ctx == SampleContext(literal)
    ensures PositiveBuffers(SAMPLE_TUNING) && FibsRise(SAMPLE_TUNING) && SAMPLE.WellFormed() && SAMPLE.bullish
    ensures ctx.atr == 10.0 && ctx.swing == None && !ctx.trapVeto && !ctx.momentumVeto && ctx.trapScore == 0
    ensures ctx.regime == Normal && ctx.override == Some(literal) && !Vetoed(SAMPLE_TUNING, ctx, SAMPLE)
    ensures GateOk(SAMPLE, 95.0, 90.0, 135.0, 155.0, 215.0)
    ensures SAMPLE_TUNING.fib1 == 0.4 && SAMPLE_TUNING.fib2 == 0.6 && SAMPLE_TUNING.fib3 == 1.2
  {
  }

  // The sample emits for every literal, its stop 15 literal below the entry, at most 20.
  lemma SampleEmits(literal: real)
    ensures PositiveBuffers(SAMPLE_TUNING) && SAMPLE.WellFormed() && SAMPLE.bullish
    ensures var r := Score(SAMPLE_TUNING, SampleContext(literal), SAMPLE, Conservative);
            && r.Emitted? && r.signal.entry == 95.0 && r.signal.t1 == 135.0
            && r.signal.stop == 95.0 - 10.0 * RMin(1.5 * literal, 2.0)
            && r.signal.rr1 == NetRr(SAMPLE_TUNING, 95.0, r.signal.stop, 135.0)
  {
    hide ComputeStop, EntryOf, StatusOf, Target, NetRr, GradeFor, TrapMultiplier, BufferMult, Chain, SampleContext;
    hide Vetoed, GateOk, SAMPLE, SAMPLE_TUNING;
    var ctx := SampleContext(literal);
    SamplePasses(literal, ctx);
    SampleEntry(literal);
    SampleMultiples(literal);
    SampleStop(NO_WIDENING);
    SampleStop(SampleWidening(literal));
    SampleTarget(0.4);
    SampleTarget(0.6);
    SampleTarget(1.2);
    SampleRatio(5.0, 40.0);
    SampleRatio(5.0, 60.0);
    SampleGrade(literal);
  }

  ghost predicate EmitsWith(literal: real, t: StopTuning, ctx: Context, c: Candidate, level: Level) {
    c.WellFormed() && PositiveBuffers(t) && ctx.override == Some(literal) && Score(t, ctx, c, level).Emitted?
  }

  ghost predicate StopBehind(s: Signal, bullish: bool) {
    if bullish then s.stop < s.entry else s.stop > s.entry
  }

  // Every signal emitted with a literal multiple has its stop strictly behind its entry if and
  // only if the multiple is positive.
  lemma LiteralIsSafeIff(literal: real)
    ensures (forall t, ctx, c, level :: EmitsWith(literal, t, ctx, c, level) ==>
               StopBehind(Score(t, ctx, c, level).signal, c.bullish)) <==> literal > 0.0
  {
    hide Score, SampleContext, SAMPLE, SAMPLE_TUNING;
    if literal > 0.0 {
      forall t, ctx, c, level | EmitsWith(literal, t, ctx, c, level)
        ensures StopBehind(Score(t, ctx, c, level).signal, c.bullish)
      {
        EmittedGeometry(t, ctx, c, level);
      }
    } else {
      SampleEmits(literal);
      SamplePasses(literal, SampleContext(literal));
      assert EmitsWith(literal, SAMPLE_TUNING, SampleContext(literal), SAMPLE, Conservative);
    }
  }

  // A literal below a third flatters the sample: graded at 8, it reports a better ratio.
  lemma SmallLiteralFlatters(literal: real)
    requires 0.0 < literal < 1.0 / 3.0
    ensures NetRr(SAMPLE_TUNING, 95.0, 90.0, 135.0) == Some(8.0)
    ensures ComputeStop(SAMPLE_TUNING, SAMPLE, 10.0, Conservative, None, 95.0, NO_WIDENING) == Placed(90.0, 95.0)
    ensures var r := Score(SAMPLE_TUNING, SampleContext(literal), SAMPLE, Conservative);
            r.Emitted? && r.signal.rr1.Some? && r.signal.rr1.value > 8.0
  {
    hide Score, NetRr, ComputeStop, BufferMult, SampleContext, SAMPLE, SAMPLE_TUNING;
    SampleMultiples(literal);
    SampleStop(NO_WIDENING);
    SampleEmits(literal);
    SmallRiskPays(15.0 * literal);
  }

  lemma SmallRiskPays(risk: real)
    requires 0.0 < risk < 5.0
    ensures NetRr(SAMPLE_TUNING, 95.0, 90.0, 135.0) == Some(8.0)
    ensures var rr := NetRr(SAMPLE_TUNING, 95.0, 95.0 - risk, 135.0); rr.Some? && rr.value > 8.0
  {
    hide NetRr, SAMPLE_TUNING;
    SampleRatio(5.0, 40.0);
    SampleRatio(risk, 40.0);
    StrictlySmallerDenominator(40.0, risk, 5.0);
  }
}
