/**
  What a mutation does to a tuning: which attempt is taken, where it moves the value, and what the
  constructor accepts, in terms of the fields themselves.
 */
module TuningMoves {
  import opened Prelude
  import opened Tuning
  import opened Mutation

  // ------------------------------------------------------------------
  // Which attempt is taken
  // ------------------------------------------------------------------

  ghost predicate FirstAccepted(t: Tuning, m: Member, attempts: seq<seq<real>>, i: nat) {
    && i < |attempts| && Valid(Candidate(t, m, attempts[i]))
    && forall j :: 0 <= j < i ==> !Valid(Candidate(t, m, attempts[j]))
  }

  ghost predicate AllRefused(t: Tuning, m: Member, attempts: seq<seq<real>>) {
    forall j :: 0 <= j < |attempts| ==> !Valid(Candidate(t, m, attempts[j]))
  }

  // The first accepted attempt is the result.
  lemma {:induction false} TakesFirstAccepted(t: Tuning, m: Member, attempts: seq<seq<real>>, i: nat)
    requires FirstAccepted(t, m, attempts, i)
    ensures FieldMutation(t, m, attempts) == Candidate(t, m, attempts[i])
  {
    hide Valid, Candidate;
    if i > 0 {
      assert !Valid(Candidate(t, m, attempts[0]));
      TakesFirstAccepted(t, m, attempts[1..], i - 1);
    }
  }

  lemma {:induction false} RefusedKeeps(t: Tuning, m: Member, attempts: seq<seq<real>>)
    requires AllRefused(t, m, attempts)
    ensures FieldMutation(t, m, attempts) == t
  {
    hide Valid, Candidate;
    if attempts != [] {
      RefusedKeeps(t, m, attempts[1..]);
    }
  }

  lemma {:induction false} SomeAccepted(t: Tuning, m: Member, attempts: seq<seq<real>>) returns (i: nat)
    requires !AllRefused(t, m, attempts)
    ensures FirstAccepted(t, m, attempts, i)
  {
    hide Valid, Candidate;
    if Valid(Candidate(t, m, attempts[0])) {
      i := 0;
    } else {
      i := SomeAccepted(t, m, attempts[1..]);
      i := i + 1;
    }
  }

  // The tuning stays as it is exactly when every attempt is refused or the first accepted one
  // does not move it.
  lemma UnchangedIff(t: Tuning, m: Member, attempts: seq<seq<real>>)
    ensures FieldMutation(t, m, attempts) == t <==>
              AllRefused(t, m, attempts)
              || exists i: nat :: FirstAccepted(t, m, attempts, i) && Candidate(t, m, attempts[i]) == t
  {
    if AllRefused(t, m, attempts) {
      RefusedKeeps(t, m, attempts);
    } else {
      var i := SomeAccepted(t, m, attempts);
      TakesFirstAccepted(t, m, attempts, i);
      forall j: nat | FirstAccepted(t, m, attempts, j)
        ensures j == i
      {
      }
    }
    hide FieldMutation, Candidate, Valid;
  }

  // ------------------------------------------------------------------
  // Where a value moves
  // ------------------------------------------------------------------

  // y is x moved into the bounds, if it is not there already.
  predicate Clipped(x: real, b: Bounds, y: real) {
    (b.lo <= x <= b.hi ==> y == x) && (x < b.lo <= b.hi ==> y == b.lo) && (b.lo <= b.hi < x ==> y == b.hi)
  }

  lemma ClipIs(x: real, b: Bounds)
    ensures Clipped(x, b, Clip(x, b.lo, b.hi))
  {
  }

  // Numbers: the draw is added, or taken as a proportion, and the result clipped; windows and
  // thresholds move to the nearest integer, ties to the even one, inside their bounds.
  lemma NumberMoves(t: Tuning, m: Member, draws: seq<real>)
    requires !m.PerKey? && m.field in t.nums && draws != []
    ensures var x, y := t.nums[m.field], Candidate(t, m, draws).nums[m.field];
            match m
            case AbsSmall(_, b) => Clipped(x + draws[0], b, y)
            case RelLarge(_, b) => Clipped(x * (1.0 + draws[0]), b, y)
            case IntStep(_, lo, hi) => Clipped(Round(x + draws[0]) as real, Bounds(lo as real, hi as real), y)
            case _ => true
    ensures Candidate(t, m, draws) == t.(nums := t.nums[m.field := Candidate(t, m, draws).nums[m.field]])
  {
    hide Round;
  }

  // Dictionaries: every key moves by its own draw, clipped to its own bounds or the common ones, in
  // place; with a target sum the moved values are then renormalised.
  lemma EntriesMove(t: Tuning, m: Member, draws: seq<real>) returns (moved: seq<Entry>)
    requires m.PerKey? && m.dict in t.dicts && |draws| >= |t.dicts[m.dict]|
    ensures var es := t.dicts[m.dict];
            && |moved| == |es|
            && (forall i :: 0 <= i < |es| ==>
                  && moved[i].key == es[i].key
                  && Clipped(es[i].value + draws[i],
                             if es[i].key in m.keyBounds then m.keyBounds[es[i].key] else m.rest, moved[i].value))
            && Candidate(t, m, draws) ==
                 t.(dicts := t.dicts[m.dict := if m.targetSum.Some? then Renormalised(moved, m.targetSum.value) else moved])
  {
    hide Renormalised;
    moved := Perturbed(t.dicts[m.dict], m, draws);
  }

  // Without a sum to divide by, renormalising leaves the entries alone.
  lemma ZeroSumStays(es: seq<Entry>, target: int)
    ensures Total(es) == 0.0 ==> Renormalised(es, target) == es
  {
  }

  // ------------------------------------------------------------------
  // Clusters
  // ------------------------------------------------------------------

  // Two members that mutate different things.
  predicate Apart(m: Member, n: Member) {
    if m.PerKey? && n.PerKey? then m.dict != n.dict
    else if !m.PerKey? && !n.PerKey? then m.field != n.field
    else true
  }

  // The value of the thing a member mutates.
  predicate SameAt(t: Tuning, t': Tuning, m: Member) {
    if m.PerKey? then Dict(t, m.dict) == Dict(t', m.dict) else Num(t, m.field) == Num(t', m.field)
  }

  // No mutation of another member touches it.
  lemma OthersLeaveIt(t: Tuning, m: Member, n: Member, attempts: seq<seq<real>>)
    requires Complete(t) && Apart(m, n)
    ensures SameAt(t, FieldMutation(t, n, attempts), m)
  {
    hide FieldMutation, RespectsBounds, Valid;
    FieldMutationIsSafe(t, n, attempts);
  }

  lemma {:induction false} ClusterIsComplete(t: Tuning, chosen: seq<Member>, attempts: seq<seq<seq<real>>>)
    requires Complete(t) && |attempts| == |chosen|
    ensures Complete(ClusterMutation(t, chosen, attempts))
  {
    hide ClusterMutation, Valid, Confined;
    ClusterMutationIsSafe(t, chosen, attempts);
  }

  // In a cluster mutation each chosen member moves once: up to its turn the others have left it
  // alone, its own mutation is applied to the tuning of its turn, and it stays where that put it.
  lemma {:induction false} EachMovesOnce(t: Tuning, chosen: seq<Member>, attempts: seq<seq<seq<real>>>, k: nat)
    requires Complete(t) && |attempts| == |chosen| && k < |chosen|
    requires forall i :: 0 <= i < |chosen| && i != k ==> Apart(chosen[k], chosen[i])
    ensures var before := ClusterMutation(t, chosen[..k], attempts[..k]);
            && SameAt(t, before, chosen[k])
            && SameAt(FieldMutation(before, chosen[k], attempts[k]), ClusterMutation(t, chosen, attempts), chosen[k])
  {
    hide Complete, FieldMutation;
    if k == |chosen| - 1 {
      assert Front(chosen) == chosen[..k] && Front(attempts) == attempts[..k];
      UntouchedBefore(t, chosen[..k], attempts[..k], chosen[k]);
    } else {
      var front, last := ClusterMutation(t, Front(chosen), Front(attempts)), |chosen| - 1;
      EachMovesOnce(t, Front(chosen), Front(attempts), k);
      assert Front(chosen)[..k] == chosen[..k] && Front(attempts)[..k] == attempts[..k];
      ClusterIsComplete(t, Front(chosen), Front(attempts));
      OthersLeaveIt(front, chosen[k], chosen[last], attempts[last]);
    }
  }

  lemma {:induction false} UntouchedBefore(t: Tuning, chosen: seq<Member>, attempts: seq<seq<seq<real>>>, m: Member)
    requires Complete(t) && |attempts| == |chosen|
    requires forall i :: 0 <= i < |chosen| ==> Apart(m, chosen[i])
    ensures SameAt(t, ClusterMutation(t, chosen, attempts), m)
  {
    hide Complete, FieldMutation, Apart;
    if chosen != [] {
      UntouchedBefore(t, Front(chosen), Front(attempts), m);
      ClusterIsComplete(t, Front(chosen), Front(attempts));
      OthersLeaveIt(ClusterMutation(t, Front(chosen), Front(attempts)), m, Last(chosen), Last(attempts));
    }
  }

  // ------------------------------------------------------------------
  // What the constructor accepts
  // ------------------------------------------------------------------

  predicate Holds(es: seq<Entry>, key: string) {
    exists i :: 0 <= i < |es| && es[i].key == key
  }

  lemma HasKeysIs(es: seq<Entry>, required: seq<string>)
    ensures HasKeys(es, required) <==> forall i :: 0 <= i < |required| ==> Holds(es, required[i])
  {
    forall key
      ensures key in KeysOf(es) <==> Holds(es, key)
    {
      if key in KeysOf(es) {
        var i :| 0 <= i < |es| && KeysOf(es)[i] == key;
        assert es[i].key == key;
      }
      if Holds(es, key) {
        var i :| 0 <= i < |es| && es[i].key == key;
        assert KeysOf(es)[i] == key;
      }
    }
  }

  // Orderings between fields.
  predicate OrderingsHold(t: Tuning)
    requires forall f: Field :: f in t.nums
  {
    && t.nums[FibTp1] < t.nums[FibTp2] && t.nums[FibTp2] < t.nums[FibTp3]
    && t.nums[AuthenticityVeto] < t.nums[AuthenticityHalve]
    && t.nums[RegimeModerate] < t.nums[RegimeHigh]
    && t.nums[AtrLongWindow] >= t.nums[AtrWindow]
    && t.nums[MultTrendingInverse] <= t.nums[MultExtremeInverse] && t.nums[MultRangingInverse] <= t.nums[MultExtremeInverse]
    && (t.nums[MultTrendingAligned] >= t.nums[MultTrendingInverse] || t.nums[MultTrendingAligned] >= t.nums[MultRangingInverse])
    && (t.nums[MultRangingAligned] >= t.nums[MultTrendingInverse] || t.nums[MultRangingAligned] >= t.nums[MultRangingInverse])
  }

  // Ranges of single fields.
  predicate RangesHold(t: Tuning)
    requires forall f: Field :: f in t.nums
  {
    && t.nums[MultExtremeInverse] <= 1.5
    && 0.5 <= t.nums[MultDataShort] <= 1.0
    && t.nums[MaxDAgeBars] > 0.0 && t.nums[DefaultTtlBars] > 0.0 && t.nums[AtrWindow] > 0.0
    && t.nums[AtrLongWindow] > 0.0 && t.nums[RsiWindow] > 0.0 && t.nums[VolumeMaWindow] > 0.0
    && t.nums[SwingLookback] > 0.0 && t.nums[StabilityWindow] > 0.0 && t.nums[MinCandles] > 0.0
    && t.nums[MinDailyBars] > 0.0 && t.nums[QuantTrapLookback] > 0.0 && t.nums[VolumeAuthenticityWindow] > 0.0
    && t.nums[QuantRegimeWindow] > 0.0 && t.nums[PerBarSharpeWindow] > 0.0 && t.nums[AuthenticityHalve] > 0.0
    && t.nums[AuthenticityVeto] > 0.0 && t.nums[RegimeModerate] > 0.0 && t.nums[RegimeHigh] > 0.0
    && t.nums[AGradeMin] > 0.0 && t.nums[AGradeMinHighQuant] > 0.0
  }

  lemma ScalarsOkIff(t: Tuning)
    requires forall f: Field :: f in t.nums
    ensures ScalarsOk(t) <==> OrderingsHold(t) && RangesHold(t)
  {
    PositiveFieldsAre(t);
    hide POSITIVE_FIELDS;
  }

  lemma PositiveFieldsAre(t: Tuning)
    requires forall f: Field :: f in t.nums
    ensures (forall f :: f in POSITIVE_FIELDS ==> Num(t, f) > 0.0) <==>
              && t.nums[MaxDAgeBars] > 0.0 && t.nums[DefaultTtlBars] > 0.0 && t.nums[AtrWindow] > 0.0
              && t.nums[AtrLongWindow] > 0.0 && t.nums[RsiWindow] > 0.0 && t.nums[VolumeMaWindow] > 0.0
              && t.nums[SwingLookback] > 0.0 && t.nums[StabilityWindow] > 0.0 && t.nums[MinCandles] > 0.0
              && t.nums[MinDailyBars] > 0.0 && t.nums[QuantTrapLookback] > 0.0 && t.nums[VolumeAuthenticityWindow] > 0.0
              && t.nums[QuantRegimeWindow] > 0.0 && t.nums[PerBarSharpeWindow] > 0.0 && t.nums[AuthenticityHalve] > 0.0
              && t.nums[AuthenticityVeto] > 0.0 && t.nums[RegimeModerate] > 0.0 && t.nums[RegimeHigh] > 0.0
              && t.nums[AGradeMin] > 0.0 && t.nums[AGradeMinHighQuant] > 0.0
  {
    if forall f :: f in POSITIVE_FIELDS ==> Num(t, f) > 0.0 {
      assert forall f :: f in POSITIVE_FIELDS ==> t.nums[f] > 0.0;
    }
  }

  // The dictionaries: weights that sum to 100, a standard buffer of 0.2 to 0.5, and no key missing.
  ghost predicate DictionariesHold(t: Tuning)
    requires forall d: DictField :: d in t.dicts
  {
    var weights, buffers, scores := t.dicts[ConfluenceWeights], t.dicts[StopBuffer], t.dicts[PatternBaseScore];
    && 99.999999 <= Total(weights) <= 100.000001
    && (forall i :: 0 <= i < |buffers| && buffers[i].key == "standard" ==> 0.2 <= buffers[i].value <= 0.5)
    && Holds(weights, "price_action") && Holds(weights, "htf_trend") && Holds(weights, "rsi")
    && Holds(weights, "structure") && Holds(weights, "macd") && Holds(weights, "funding")
    && Holds(buffers, "conservative") && Holds(buffers, "standard") && Holds(buffers, "aggressive")
    && Holds(scores, "gartley") && Holds(scores, "bat") && Holds(scores, "butterfly") && Holds(scores, "crab")
    && Holds(scores, "deep crab") && Holds(scores, "shark")
  }

  // The fields the search leaves alone.
  predicate FixedHold(f: Frozen) {
    && SumInts(f.tpClosePcts) == 100
    && "butterfly" in f.extendedPatterns && "deep butterfly" in f.extendedPatterns && "crab" in f.extendedPatterns
    && "deep crab" in f.extendedPatterns && "shark" in f.extendedPatterns && "deep shark" in f.extendedPatterns
    && "15m" in f.htfIntervals && "1h" in f.htfIntervals && "4h" in f.htfIntervals
    && "1d" in f.htfIntervals && "1w" in f.htfIntervals
  }

  lemma SixKeys(es: seq<Entry>, a: string, b: string, c: string, d: string, e: string, f: string)
    ensures HasKeys(es, [a, b, c, d, e, f]) <==>
              Holds(es, a) && Holds(es, b) && Holds(es, c) && Holds(es, d) && Holds(es, e) && Holds(es, f)
  {
    var required := [a, b, c, d, e, f];
    HasKeysIs(es, required);
    assert required[0] == a && required[1] == b && required[2] == c && required[3] == d && required[4] == e && required[5] == f;
    hide Holds, HasKeys;
  }

  lemma ThreeKeys(es: seq<Entry>, a: string, b: string, c: string)
    ensures HasKeys(es, [a, b, c]) <==> Holds(es, a) && Holds(es, b) && Holds(es, c)
  {
    var required := [a, b, c];
    HasKeysIs(es, required);
    assert required[0] == a && required[1] == b && required[2] == c;
    hide Holds, HasKeys;
  }

  // A tuning is accepted exactly when its orderings, ranges, dictionaries and fixed fields hold.
  lemma AcceptedIff(t: Tuning)
    requires Complete(t)
    ensures Valid(t) <==> OrderingsHold(t) && RangesHold(t) && DictionariesHold(t) && FixedHold(t.frozen)
  {
    ScalarsOkIff(t);
    var weights, buffers, scores := t.dicts[ConfluenceWeights], t.dicts[StopBuffer], t.dicts[PatternBaseScore];
    SixKeys(weights, "price_action", "htf_trend", "rsi", "structure", "macd", "funding");
    ThreeKeys(buffers, "conservative", "standard", "aggressive");
    SixKeys(scores, "gartley", "bat", "butterfly", "crab", "deep crab", "shark");
    assert FrozenOk(t.frozen) <==> FixedHold(t.frozen);
    hide ScalarsOk, OrderingsHold, RangesHold, HasKeys, Holds, FrozenOk, FixedHold, Total;
  }
}
