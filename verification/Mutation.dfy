/**
  Cluster mutation of the tuning (app/loop/mutation.py) under arbitrary draws:
  clipping, retries on refusal, and integer renormalisation of weights.
 */
module Mutation {
  import opened Prelude
  import opened Tuning

  // ------------------------------------------------------------------
  // Clipping
  // ------------------------------------------------------------------

  function Clip(x: real, lo: real, hi: real): real {
    RMax(lo, RMin(hi, x))
  }

  function Grown(x: real, rate: real): real {
    x * (1.0 + rate)
  }

  function ClipInt(n: int, lo: int, hi: int): int {
    var m := if hi <= n then hi else n;
    if lo >= m then lo else m
  }

  // ------------------------------------------------------------------
  // Members of a cluster
  // ------------------------------------------------------------------

  datatype Bounds = Bounds(lo: real, hi: real)

  datatype Member =
    | AbsSmall(field: Field, bounds: Bounds)
    | RelLarge(field: Field, bounds: Bounds)
    | IntStep(field: Field, lo: int, hi: int)
    | PerKey(dict: DictField, keyBounds: map<string, Bounds>, rest: Bounds, targetSum: Option<int>)

  // One draw for a number, one per key for a dictionary; missing draws count as no move.
  function Draw(draws: seq<real>, i: nat): real {
    if i < |draws| then draws[i] else 0.0
  }

  function BoundsFor(m: Member, key: string): Bounds
    requires m.PerKey?
  {
    if key in m.keyBounds then m.keyBounds[key] else m.rest
  }

  function Perturbed(es: seq<Entry>, m: Member, draws: seq<real>): (r: seq<Entry>)
    requires m.PerKey?
    ensures |r| == |es|
    ensures forall i :: 0 <= i < |es| ==> r[i].key == es[i].key
  {
    seq(|es|, i requires 0 <= i < |es| =>
      var b := BoundsFor(m, es[i].key);
      Entry(es[i].key, Clip(es[i].value + Draw(draws, i), b.lo, b.hi)))
  }

  // ------------------------------------------------------------------
  // Renormalisation
  // ------------------------------------------------------------------

  function Share(x: real, scale: real): real {
    x * scale
  }

  function RoundedShare(x: real, scale: real): (r: real)
    ensures RAbs(r - Share(x, scale)) <= 0.5
  {
    Round(Share(x, scale)) as real
  }

  function Scaled(es: seq<Entry>, scale: real): (r: seq<Entry>)
    ensures |r| == |es|
    ensures forall i :: 0 <= i < |es| ==> r[i] == Entry(es[i].key, RoundedShare(es[i].value, scale))
  {
    if es == [] then []
    else Scaled(Front(es), scale) + [Entry(Last(es).key, RoundedShare(Last(es).value, scale))]
  }

  // Round every scaled value; the last key takes the drift.
  function Renormalised(es: seq<Entry>, target: int): (r: seq<Entry>)
    ensures |r| == |es|
    ensures forall i :: 0 <= i < |es| ==> r[i].key == es[i].key
  {
    if Total(es) == 0.0 || es == [] then es
    else
      var scaled := Scaled(es, target as real / Total(es));
      var drift := target as real - Total(scaled);
      scaled[|es| - 1 := Last(scaled).(value := Last(scaled).value + drift)]
  }

  predicate IsInt(x: real) {
    x.Floor as real == x
  }

  lemma TotalOfUpdate(es: seq<Entry>, x: real)
    requires es != []
    ensures Total(es[|es| - 1 := Last(es).(value := x)]) == Total(es) - Last(es).value + x
  {
    assert Front(es[|es| - 1 := Last(es).(value := x)]) == Front(es);
  }

  lemma {:induction false} TotalOfInts(es: seq<Entry>)
    requires forall i :: 0 <= i < |es| ==> IsInt(es[i].value)
    ensures IsInt(Total(es))
  {
    if es != [] {
      TotalOfInts(Front(es));
      assert Total(es) == (Total(Front(es)).Floor + Last(es).value.Floor) as real;
    }
  }

  lemma RoundedIsInt(x: real, scale: real)
    ensures IsInt(RoundedShare(x, scale))
  {
    assert (Round(Share(x, scale)) as real).Floor == Round(Share(x, scale));
  }

  lemma SharesAdd(x: real, y: real, scale: real)
    ensures Share(x + y, scale) == Share(x, scale) + Share(y, scale)
    ensures Share(0.0, scale) == 0.0
  {
  }

  lemma TotalOfScaled(es: seq<Entry>, scale: real)
    requires es != []
    ensures Total(Scaled(es, scale)) == Total(Scaled(Front(es), scale)) + RoundedShare(Last(es).value, scale)
  {
    hide RoundedShare;
    assert Front(Scaled(es, scale)) == Scaled(Front(es), scale);
  }

  // The rounding errors of n values add up to at most n / 2.
  lemma {:induction false} RoundingError(es: seq<Entry>, scale: real)
    ensures RAbs(Total(Scaled(es, scale)) - Share(Total(es), scale)) <= 0.5 * |es| as real
  {
    SharesAdd(0.0, 0.0, scale);
    if es != [] {
      RoundingError(Front(es), scale);
      TotalOfScaled(es, scale);
      SharesAdd(Total(Front(es)), Last(es).value, scale);
      hide Share, RoundedShare, Scaled;
    }
  }

  // The result is the scaled dictionary with the drift on its last key.
  lemma RenormalisedIs(es: seq<Entry>, target: int)
    requires Total(es) != 0.0
    ensures var r, scaled := Renormalised(es, target), Scaled(es, target as real / Total(es));
            && r == scaled[|es| - 1 := Last(scaled).(value := Last(r).value)]
            && Last(r).value == Last(scaled).value + (target as real - Total(scaled))
  {
  }

  lemma LastShare(es: seq<Entry>, scale: real)
    requires es != []
    ensures var scaled := Scaled(es, scale);
            RAbs(Last(scaled).value - Total(scaled) + Share(Total(es), scale) - Share(Last(es).value, scale))
            <= 0.5 * (|es| - 1) as real
  {
    RoundingError(Front(es), scale);
    assert Front(Scaled(es, scale)) == Scaled(Front(es), scale);
    SharesAdd(Total(Front(es)), Last(es).value, scale);
  }

  lemma ScaledAreInts(es: seq<Entry>, scale: real)
    ensures var scaled := Scaled(es, scale);
            && IsInt(Total(scaled))
            && forall i :: 0 <= i < |es| ==> IsInt(scaled[i].value)
  {
    hide RoundedShare, IsInt;
    forall i | 0 <= i < |es|
      ensures IsInt(Scaled(es, scale)[i].value)
    {
      RoundedIsInt(es[i].value, scale);
    }
    TotalOfInts(Scaled(es, scale));
  }

  lemma FullShare(es: seq<Entry>, target: int)
    requires Total(es) != 0.0
    ensures Share(Total(es), target as real / Total(es)) == target as real
  {
    hide Total;
  }

  // Integers adding up to the target; every key but the last is the nearest integer of its
  // exact share, and the last is off by at most half a unit per other key.
  ghost predicate ExactShares(es: seq<Entry>, r: seq<Entry>, scale: real, target: int)
    requires |r| == |es| > 0
  {
    && Total(r) == target as real
    && (forall i :: 0 <= i < |es| ==> IsInt(r[i].value))
    && (forall i :: 0 <= i < |es| - 1 ==> RAbs(r[i].value - Share(es[i].value, scale)) <= 0.5)
    && RAbs(Last(r).value - Share(Last(es).value, scale)) <= 0.5 * (|es| - 1) as real
  }

  lemma DriftOnTheLast(es: seq<Entry>, target: int, scale: real, x: real)
    requires es != [] && Share(Total(es), scale) == target as real
    requires x == Last(Scaled(es, scale)).value + (target as real - Total(Scaled(es, scale)))
    ensures var scaled := Scaled(es, scale);
            ExactShares(es, scaled[|es| - 1 := Last(scaled).(value := x)], scale, target)
  {
    hide Share, RoundedShare, IsInt;
    var scaled := Scaled(es, scale);
    TotalOfUpdate(scaled, x);
    ScaledAreInts(es, scale);
    IntSum(Last(scaled).value, target, Total(scaled));
    LastShare(es, scale);
    hide Total, Scaled;
  }

  // Every dictionary with a non-zero sum is renormalised exactly.
  lemma RenormalisedExactly(es: seq<Entry>, target: int)
    requires Total(es) != 0.0
    ensures ExactShares(es, Renormalised(es, target), target as real / Total(es), target)
  {
    RenormalisedIs(es, target);
    FullShare(es, target);
    hide Renormalised, ExactShares;
    DriftOnTheLast(es, target, target as real / Total(es), Last(Renormalised(es, target)).value);
  }

  lemma IntSum(x: real, target: int, total: real)
    requires IsInt(x) && IsInt(total)
    ensures IsInt(x + (target as real - total))
  {
    assert x + (target as real - total) == (x.Floor + target - total.Floor) as real;
  }

  // ------------------------------------------------------------------
  // One mutation
  // ------------------------------------------------------------------

  function NewEntries(es: seq<Entry>, m: Member, draws: seq<real>): (r: seq<Entry>)
    requires m.PerKey?
    ensures |r| == |es| && forall i :: 0 <= i < |es| ==> r[i].key == es[i].key
  {
    var moved := Perturbed(es, m, draws);
    if m.targetSum.Some? then Renormalised(moved, m.targetSum.value) else moved
  }

  // The candidate before the constructor's checks.
  function Candidate(t: Tuning, m: Member, draws: seq<real>): Tuning {
    match m
    case AbsSmall(f, b) => t.(nums := t.nums[f := Clip(Num(t, f) + Draw(draws, 0), b.lo, b.hi)])
    case RelLarge(f, b) => t.(nums := t.nums[f := Clip(Grown(Num(t, f), Draw(draws, 0)), b.lo, b.hi)])
    case IntStep(f, lo, hi) =>
      t.(nums := t.nums[f := ClipInt(Round(Num(t, f) + Draw(draws, 0)), lo, hi) as real])
    case PerKey(d, _, _, _) => t.(dicts := t.dicts[d := NewEntries(Dict(t, d), m, draws)])
  }

  // The first attempt the constructor accepts, or the tuning unchanged.
  function FieldMutation(t: Tuning, m: Member, attempts: seq<seq<real>>): Tuning {
    if attempts == [] then t
    else if Valid(Candidate(t, m, attempts[0])) then Candidate(t, m, attempts[0])
    else FieldMutation(t, m, attempts[1..])
  }

  function ClusterMutation(t: Tuning, members: seq<Member>, attempts: seq<seq<seq<real>>>): Tuning
    requires |attempts| == |members|
  {
    if members == [] then t
    else FieldMutation(ClusterMutation(t, Front(members), Front(attempts)), Last(members), Last(attempts))
  }

  // ------------------------------------------------------------------
  // The code
  // ------------------------------------------------------------------

  method Renormalise(es: seq<Entry>, target: int) returns (r: seq<Entry>)
    ensures r == Renormalised(es, target)
  {
    hide RoundedShare;
    var sum := Total(es);
    if sum == 0.0 {
      return es;
    }
    var scale := target as real / sum;
    r := [];
    for i := 0 to |es|
      invariant r == Scaled(es[..i], scale)
    {
      assert Front(es[..i + 1]) == es[..i];
      r := r + [Entry(es[i].key, RoundedShare(es[i].value, scale))];
    }
    assert es[..|es|] == es;
    var drift := target as real - Total(r);
    var last := |r| - 1;
    r := r[last := r[last].(value := r[last].value + drift)];
  }

  method Perturb(es: seq<Entry>, m: Member, draws: seq<real>) returns (r: seq<Entry>)
    requires m.PerKey?
    ensures r == Perturbed(es, m, draws)
  {
    r := [];
    for i := 0 to |es|
      invariant r == Perturbed(es, m, draws)[..i]
    {
      var b := BoundsFor(m, es[i].key);
      r := r + [Entry(es[i].key, Clip(es[i].value + Draw(draws, i), b.lo, b.hi))];
    }
  }

  method ApplyOne(t: Tuning, m: Member, draws: seq<real>) returns (candidate: Tuning)
    ensures candidate == Candidate(t, m, draws)
  {
    hide Round, Grown, Perturbed, Renormalised;
    match m {
      case AbsSmall(f, b) =>
        candidate := t.(nums := t.nums[f := Clip(Num(t, f) + Draw(draws, 0), b.lo, b.hi)]);
      case RelLarge(f, b) =>
        candidate := t.(nums := t.nums[f := Clip(Grown(Num(t, f), Draw(draws, 0)), b.lo, b.hi)]);
      case IntStep(f, lo, hi) =>
        var rounded := Round(Num(t, f) + Draw(draws, 0));
        candidate := t.(nums := t.nums[f := ClipInt(rounded, lo, hi) as real]);
      case PerKey(d, _, _, target) =>
        var moved := Perturb(Dict(t, d), m, draws);
        if target.Some? {
          moved := Renormalise(moved, target.value);
        }
        candidate := t.(dicts := t.dicts[d := moved]);
    }
  }

  method MutateField(t: Tuning, m: Member, attempts: seq<seq<real>>) returns (r: Tuning)
    ensures r == FieldMutation(t, m, attempts)
  {
    hide Valid, Candidate;
    for i := 0 to |attempts|
      invariant FieldMutation(t, m, attempts) == FieldMutation(t, m, attempts[i..])
    {
      var candidate := ApplyOne(t, m, attempts[i]);
      if Valid(candidate) {
        return candidate;
      }
      assert attempts[i..][1..] == attempts[i + 1..];
    }
    r := t;
  }

  method MutateCluster(t: Tuning, chosen: seq<Member>, attempts: seq<seq<seq<real>>>) returns (r: Tuning)
    requires |attempts| == |chosen|
    ensures r == ClusterMutation(t, chosen, attempts)
  {
    hide FieldMutation;
    r := t;
    for i := 0 to |chosen|
      invariant r == ClusterMutation(t, chosen[..i], attempts[..i])
    {
      r := MutateField(r, chosen[i], attempts[i]);
      assert Front(chosen[..i + 1]) == chosen[..i] && Front(attempts[..i + 1]) == attempts[..i];
    }
    assert chosen[..|chosen|] == chosen && attempts[..|chosen|] == attempts;
  }

  // ------------------------------------------------------------------
  // What any draws keep
  // ------------------------------------------------------------------

  // Outside this member nothing differs.
  ghost predicate SameBut(t: Tuning, t': Tuning, m: Member) {
    && t'.frozen == t.frozen
    && t'.nums.Keys == t.nums.Keys && t'.dicts.Keys == t.dicts.Keys
    && (forall f :: f in t.nums && (m.PerKey? || f != m.field) ==> t'.nums[f] == t.nums[f])
    && (forall d :: d in t.dicts && (!m.PerKey? || d != m.dict) ==> t'.dicts[d] == t.dicts[d])
  }

  predicate Between(x: real, b: Bounds) {
    b.lo <= b.hi ==> b.lo <= x <= b.hi
  }

  // Every value respects its key's bounds.
  ghost predicate Within(es: seq<Entry>, m: Member)
    requires m.PerKey?
  {
    forall i :: 0 <= i < |es| ==> Between(es[i].value, BoundsFor(m, es[i].key))
  }

  // The mutated value respects the member's own bounds; renormalised entries come from
  // entries that do.
  ghost predicate RespectsBounds(t: Tuning, m: Member) {
    match m
    case AbsSmall(f, b) => Between(Num(t, f), b)
    case RelLarge(f, b) => Between(Num(t, f), b)
    case IntStep(f, lo, hi) => IsInt(Num(t, f)) && Between(Num(t, f), Bounds(lo as real, hi as real))
    case PerKey(d, _, _, None) => Within(Dict(t, d), m)
    case PerKey(d, _, _, Some(target)) =>
      exists moved :: Within(moved, m) && Dict(t, d) == Renormalised(moved, target)
  }

  lemma IntIsInt(n: int)
    ensures IsInt(n as real)
  {
    assert (n as real).Floor == n;
  }

  lemma PerturbedWithin(es: seq<Entry>, m: Member, draws: seq<real>)
    requires m.PerKey?
    ensures Within(Perturbed(es, m, draws), m)
  {
  }

  lemma CandidateShape(t: Tuning, m: Member, draws: seq<real>)
    requires Complete(t)
    ensures SameBut(t, Candidate(t, m, draws), m) && RespectsBounds(Candidate(t, m, draws), m)
  {
    hide Round, Renormalised;
    if m.PerKey? {
      PerturbedWithin(Dict(t, m.dict), m, draws);
    }
    if m.IntStep? {
      IntIsInt(ClipInt(Round(Num(t, m.field) + Draw(draws, 0)), m.lo, m.hi));
    }
  }

  ghost predicate SafeMove(t: Tuning, t': Tuning, m: Member) {
    && (Valid(t) ==> Valid(t'))
    && Complete(t')
    && SameBut(t, t', m)
    && (t' == t || RespectsBounds(t', m))
  }

  lemma AcceptedMove(t: Tuning, m: Member, draws: seq<real>)
    requires Complete(t) && Valid(Candidate(t, m, draws))
    ensures SafeMove(t, Candidate(t, m, draws), m)
  {
    hide Valid, RespectsBounds, Candidate;
    CandidateShape(t, m, draws);
  }

  lemma NoMove(t: Tuning, m: Member)
    requires Complete(t)
    ensures SafeMove(t, t, m)
  {
    hide Valid, RespectsBounds;
  }

  // One field mutation: valid stays valid, and either nothing changes or only this member,
  // to a value within its bounds.
  lemma {:induction false} FieldMutationIsSafe(t: Tuning, m: Member, attempts: seq<seq<real>>)
    requires Complete(t)
    ensures SafeMove(t, FieldMutation(t, m, attempts), m)
  {
    hide Valid, Candidate, SafeMove, Complete;
    if attempts == [] {
      NoMove(t, m);
    } else if Valid(Candidate(t, m, attempts[0])) {
      AcceptedMove(t, m, attempts[0]);
    } else {
      FieldMutationIsSafe(t, m, attempts[1..]);
    }
  }

  // The fields and dictionaries whose value differs.
  function ChangedNums(t: Tuning, t': Tuning): set<Field> {
    set f | f in t.nums && (f !in t'.nums || t'.nums[f] != t.nums[f])
  }

  function ChangedDicts(t: Tuning, t': Tuning): set<DictField> {
    set d | d in t.dicts && (d !in t'.dicts || t'.dicts[d] != t.dicts[d])
  }

  function FieldOf(m: Member): set<Field> {
    if m.PerKey? then {} else {m.field}
  }

  function DictOf(m: Member): set<DictField> {
    if m.PerKey? then {m.dict} else {}
  }

  function FieldsOf(members: seq<Member>): set<Field> {
    if members == [] then {} else FieldsOf(Front(members)) + FieldOf(Last(members))
  }

  function DictsOf(members: seq<Member>): set<DictField> {
    if members == [] then {} else DictsOf(Front(members)) + DictOf(Last(members))
  }

  // Only these fields and dictionaries may differ.
  ghost predicate Confined(t: Tuning, t': Tuning, fields: set<Field>, dicts: set<DictField>) {
    && t'.frozen == t.frozen
    && (forall f :: f in t.nums && f !in fields ==> f in t'.nums && t'.nums[f] == t.nums[f])
    && (forall d :: d in t.dicts && d !in dicts ==> d in t'.dicts && t'.dicts[d] == t.dicts[d])
  }

  lemma ConfinedStep(t: Tuning, mid: Tuning, t': Tuning, fields: set<Field>, dicts: set<DictField>, m: Member)
    requires Confined(t, mid, fields, dicts) && SameBut(mid, t', m)
    ensures Confined(t, t', fields + FieldOf(m), dicts + DictOf(m))
  {
  }

  // For any draws a cluster mutation keeps a valid tuning valid, leaves the frozen part alone,
  // and changes only the fields of the chosen members.
  lemma {:induction false} ClusterMutationIsSafe(t: Tuning, chosen: seq<Member>, attempts: seq<seq<seq<real>>>)
    requires Complete(t) && |attempts| == |chosen|
    ensures var t' := ClusterMutation(t, chosen, attempts);
            && (Valid(t) ==> Valid(t'))
            && Complete(t')
            && Confined(t, t', FieldsOf(chosen), DictsOf(chosen))
  {
    if chosen != [] {
      hide Valid, FieldMutation, RespectsBounds, SameBut, Confined, Complete, FieldOf, DictOf;
      var m := Last(chosen);
      var mid := ClusterMutation(t, Front(chosen), Front(attempts));
      ClusterMutationIsSafe(t, Front(chosen), Front(attempts));
      FieldMutationIsSafe(mid, m, Last(attempts));
      ConfinedStep(t, mid, FieldMutation(mid, m, Last(attempts)), FieldsOf(Front(chosen)), DictsOf(Front(chosen)), m);
    }
  }

  lemma {:induction false} AtMostOneEach(members: seq<Member>)
    ensures |FieldsOf(members)| + |DictsOf(members)| <= |members|
  {
    if members != [] {
      AtMostOneEach(Front(members));
      assert |FieldOf(Last(members))| + |DictOf(Last(members))| == 1;
      hide FieldOf, DictOf;
    }
  }

  // At most as many fields change as members were chosen.
  lemma ChangesAreFew(t: Tuning, chosen: seq<Member>, attempts: seq<seq<seq<real>>>)
    requires Complete(t) && |attempts| == |chosen|
    ensures var t' := ClusterMutation(t, chosen, attempts);
            && ChangedNums(t, t') <= FieldsOf(chosen) && ChangedDicts(t, t') <= DictsOf(chosen)
            && |ChangedNums(t, t')| + |ChangedDicts(t, t')| <= |chosen|
  {
    hide Valid, ClusterMutation, FieldsOf, DictsOf;
    ClusterMutationIsSafe(t, chosen, attempts);
    AtMostOneEach(chosen);
    var t' := ClusterMutation(t, chosen, attempts);
    SizeOfSubset(ChangedNums(t, t'), FieldsOf(chosen));
    SizeOfSubset(ChangedDicts(t, t'), DictsOf(chosen));
  }

  lemma {:induction false} SizeOfSubset<T>(a: set<T>, b: set<T>)
    requires a <= b
    ensures |a| <= |b|
  {
    if a != {} {
      var x :| x in a;
      SizeOfSubset(a - {x}, b - {x});
    }
  }

  // A generation: some members of a cluster, each with its attempts.
  datatype Generation = Generation(chosen: seq<Member>, attempts: seq<seq<seq<real>>>)

  function Evolve(t: Tuning, generations: seq<Generation>): Tuning
    requires forall i :: 0 <= i < |generations| ==> |generations[i].attempts| == |generations[i].chosen|
  {
    if generations == [] then t
    else
      var g := Last(generations);
      ClusterMutation(Evolve(t, Front(generations)), g.chosen, g.attempts)
  }

  // Any sequence of cluster mutations from a valid tuning stays valid.
  lemma {:induction false} EvolutionStaysValid(t: Tuning, generations: seq<Generation>)
    requires forall i :: 0 <= i < |generations| ==> |generations[i].attempts| == |generations[i].chosen|
    requires Complete(t) && Valid(t)
    ensures Complete(Evolve(t, generations)) && Valid(Evolve(t, generations))
    ensures Evolve(t, generations).frozen == t.frozen
  {
    if generations != [] {
      hide Valid, ClusterMutation;
      EvolutionStaysValid(t, Front(generations));
      var g := Last(generations);
      ClusterMutationIsSafe(Evolve(t, Front(generations)), g.chosen, g.attempts);
    }
  }

  // ------------------------------------------------------------------
  // When renormalised values keep their bounds
  // ------------------------------------------------------------------

  function Ceiling(x: real): int {
    -(-x).Floor
  }

  // The exact values that round to an integer between the bounds.
  predicate RoundsBetween(x: real, b: Bounds) {
    var lo, hi := Ceiling(b.lo), b.hi.Floor;
    && (lo as real - 0.5 < x || (lo as real - 0.5 == x && lo % 2 == 0))
    && (x < hi as real + 0.5 || (x == hi as real + 0.5 && hi % 2 == 0))
  }

  lemma RoundAtLeast(x: real, lo: int)
    ensures Round(x) >= lo <==> lo as real - 0.5 < x || (lo as real - 0.5 == x && lo % 2 == 0)
  {
    var n := Round(x);
    if lo as real - 0.5 == x {
      assert n == lo || n == lo - 1;
    }
  }

  lemma RoundAtMost(x: real, hi: int)
    ensures Round(x) <= hi <==> x < hi as real + 0.5 || (x == hi as real + 0.5 && hi % 2 == 0)
  {
    RoundAtLeast(x, hi + 1);
  }

  lemma IntegersBetween(n: int, b: Bounds)
    ensures b.lo <= n as real <= b.hi <==> Ceiling(b.lo) <= n <= b.hi.Floor
  {
  }

  lemma RoundsBetweenIff(x: real, b: Bounds)
    requires b.lo <= b.hi
    ensures Between(Round(x) as real, b) <==> RoundsBetween(x, b)
  {
    IntegersBetween(Round(x), b);
    RoundAtLeast(x, Ceiling(b.lo));
    RoundAtMost(x, b.hi.Floor);
  }

  // What the rounded other keys leave for the last one.
  function Leftover(es: seq<Entry>, target: int, scale: real): real
    requires es != []
  {
    target as real - Total(Scaled(Front(es), scale))
  }

  predicate ShareFits(e: Entry, m: Member, scale: real)
    requires m.PerKey?
  {
    var b := BoundsFor(m, e.key);
    b.lo <= b.hi ==> RoundsBetween(Share(e.value, scale), b)
  }

  lemma RenormalisedValues(es: seq<Entry>, target: int)
    requires Total(es) != 0.0
    ensures var r, scale := Renormalised(es, target), target as real / Total(es);
            && Last(r).value == Leftover(es, target, scale)
            && forall i :: 0 <= i < |es| - 1 ==> r[i].value == RoundedShare(es[i].value, scale)
  {
    var scale := target as real / Total(es);
    RenormalisedIs(es, target);
    hide RoundedShare, Renormalised;
    var scaled := Scaled(es, scale);
    assert Front(scaled) == Scaled(Front(es), scale);
    assert Total(scaled) == Total(Front(scaled)) + Last(scaled).value;
    hide Total, Scaled;
  }

  // Renormalised values stay within their bounds if and only if every exact share but the last
  // rounds between its bounds, and what is left over lies between the last ones.
  lemma RenormalisedWithinIff(es: seq<Entry>, m: Member, target: int)
    requires m.PerKey? && Total(es) != 0.0
    ensures var scale := target as real / Total(es);
            Within(Renormalised(es, target), m) <==>
              && (forall i :: 0 <= i < |es| - 1 ==> ShareFits(es[i], m, scale))
              && Between(Leftover(es, target, scale), BoundsFor(m, Last(es).key))
  {
    RenormalisedValues(es, target);
    hide Renormalised, Leftover, Total, RoundedShare, ShareFits, Between, BoundsFor, Within;
    WithinByShares(es, Renormalised(es, target), m, target as real / Total(es));
  }

  lemma WithinByShares(es: seq<Entry>, r: seq<Entry>, m: Member, scale: real)
    requires m.PerKey? && |r| == |es| > 0 && forall i :: 0 <= i < |es| ==> r[i].key == es[i].key
    requires forall i :: 0 <= i < |es| - 1 ==> r[i].value == RoundedShare(es[i].value, scale)
    ensures Within(r, m) <==>
              && (forall i :: 0 <= i < |es| - 1 ==> ShareFits(es[i], m, scale))
              && Between(Last(r).value, BoundsFor(m, Last(es).key))
  {
    hide RoundedShare, ShareFits, Between, BoundsFor;
    WithinSplits(r, m);
    hide Within;
    forall i | 0 <= i < |es| - 1
      ensures ShareFits(es[i], m, scale) <==> Between(r[i].value, BoundsFor(m, r[i].key))
    {
      ShareFitsIff(es[i], m, scale);
    }
  }

  lemma ShareFitsIff(e: Entry, m: Member, scale: real)
    requires m.PerKey?
    ensures ShareFits(e, m, scale) <==> Between(RoundedShare(e.value, scale), BoundsFor(m, e.key))
  {
    var b := BoundsFor(m, e.key);
    if b.lo <= b.hi {
      RoundsBetweenIff(Share(e.value, scale), b);
    }
    hide BoundsFor, Share, Round, RoundsBetween;
  }

  lemma WithinSplits(r: seq<Entry>, m: Member)
    requires m.PerKey? && r != []
    ensures Within(r, m) <==>
              && (forall i :: 0 <= i < |r| - 1 ==> Between(r[i].value, BoundsFor(m, r[i].key)))
              && Between(Last(r).value, BoundsFor(m, Last(r).key))
  {
    hide Between, BoundsFor;
  }

  // They need not: entries within the default bounds, renormalised to values far outside.
  lemma RenormalisingBreaksBounds()
    ensures var m := PerKey(ConfluenceWeights, map[], Bounds(-50.0, 200.0), Some(100));
            var es := [Entry("rsi", -40.0), Entry("macd", 41.0)];
            Within(es, m) && Renormalised(es, 100) == [Entry("rsi", -4000.0), Entry("macd", 4100.0)]
  {
    var es := [Entry("rsi", -40.0), Entry("macd", 41.0)];
    assert Front(es) == [Entry("rsi", -40.0)] && Front(Front(es)) == [];
    assert Total(es) == 1.0;
    var r := Renormalised(es, 100);
    RenormalisedValues(es, 100);
    assert Round(-4000.0) == -4000;
    assert RoundedShare(-40.0, 100.0) == -4000.0;
    hide RoundedShare, Share;
    assert Scaled(Front(es), 100.0) == [Entry("rsi", -4000.0)];
    assert Front([Entry("rsi", -4000.0)]) == [];
    assert Total([Entry("rsi", -4000.0)]) == -4000.0;
    hide Renormalised;
    assert r[0] == Entry("rsi", -4000.0) && r[1] == Last(r) == Entry("macd", 4100.0);
  }

  lemma {:induction false} PartOfTotal(es: seq<Entry>, i: nat)
    requires i < |es| && forall k :: 0 <= k < |es| ==> es[k].value >= 0.0
    ensures es[i].value <= Total(es)
  {
    TotalIsNonNegative(Front(es));
    if i < |es| - 1 {
      PartOfTotal(Front(es), i);
    }
  }

  lemma {:induction false} TotalIsNonNegative(es: seq<Entry>)
    requires forall k :: 0 <= k < |es| ==> es[k].value >= 0.0
    ensures Total(es) >= 0.0
  {
    if es != [] {
      TotalIsNonNegative(Front(es));
    }
  }

  lemma ShareOfPart(x: real, total: real, target: int)
    requires 0.0 <= x <= total && total > 0.0 && target >= 0
    ensures 0.0 <= Share(x, target as real / total) <= target as real
  {
    var scale := target as real / total;
    assert scale * total == target as real;
    assert scale >= 0.0;
    assert x * scale <= total * scale by {
      assert (total - x) * scale >= 0.0;
    }
  }

  // Non-negative weights leave no bound that has room for half a unit per key around 0 and the
  // target; with six weights and a target of 100 the default bounds have.
  lemma NonNegativeStayWithin(es: seq<Entry>, m: Member, target: int)
    requires m.PerKey? && target >= 0 && Total(es) > 0.0
    requires forall i :: 0 <= i < |es| ==> es[i].value >= 0.0
    requires forall i :: 0 <= i < |es| ==>
               var b := BoundsFor(m, es[i].key); b.lo <= -0.5 * |es| as real && target as real + 0.5 * |es| as real <= b.hi
    ensures Within(Renormalised(es, target), m)
  {
    var r, scale := Renormalised(es, target), target as real / Total(es);
    RenormalisedExactly(es, target);
    hide Renormalised, Share, ExactShares, Total, Between, BoundsFor;
    forall i | 0 <= i < |es|
      ensures Between(r[i].value, BoundsFor(m, r[i].key))
    {
      EntryFits(es, r, scale, target, i, BoundsFor(m, es[i].key));
    }
  }

  lemma EntryFits(es: seq<Entry>, r: seq<Entry>, scale: real, target: int, i: nat, b: Bounds)
    requires |r| == |es| && i < |es| && target >= 0 && Total(es) > 0.0 && scale == target as real / Total(es)
    requires ExactShares(es, r, scale, target) && forall k :: 0 <= k < |es| ==> es[k].value >= 0.0
    requires b.lo <= -0.5 * |es| as real && target as real + 0.5 * |es| as real <= b.hi
    ensures Between(r[i].value, b)
  {
    PartOfTotal(es, i);
    hide Total, Share, ExactShares;
    ShareOfPart(es[i].value, Total(es), target);
    ExactAt(es, r, scale, target, i);
    NearShareFits(r[i].value, Share(es[i].value, scale), 0.5 * |es| as real, target as real, b);
  }

  lemma ExactAt(es: seq<Entry>, r: seq<Entry>, scale: real, target: int, i: nat)
    requires |r| == |es| > 0 && i < |es| && ExactShares(es, r, scale, target)
    ensures RAbs(r[i].value - Share(es[i].value, scale)) <= 0.5 * |es| as real
  {
    hide Share, RAbs, Total;
    if i == |es| - 1 {
      assert r[i] == Last(r) && es[i] == Last(es);
    }
  }

  lemma NearShareFits(x: real, share: real, slack: real, target: real, b: Bounds)
    requires RAbs(x - share) <= slack && 0.0 <= share <= target
    requires b.lo <= -slack && target + slack <= b.hi
    ensures Between(x, b)
  {
  }

  // ------------------------------------------------------------------
  // When the constructor refuses a candidate
  // ------------------------------------------------------------------

  lemma KeysStay(es: seq<Entry>, es': seq<Entry>, required: seq<string>)
    requires |es'| == |es| && forall i :: 0 <= i < |es| ==> es'[i].key == es[i].key
    ensures HasKeys(es, required) == HasKeys(es', required)
  {
    assert KeysOf(es) == KeysOf(es');
  }

  // Renormalised weights are refused exactly when the perturbed weights cancel to zero.
  lemma WeightsRefusedIff(t: Tuning, m: Member, draws: seq<real>)
    requires Complete(t) && Valid(t)
    requires m.PerKey? && m.dict == ConfluenceWeights && m.targetSum == Some(100)
    ensures Valid(Candidate(t, m, draws)) <==> Total(Perturbed(Dict(t, ConfluenceWeights), m, draws)) != 0.0
  {
    hide Perturbed, Renormalised, ScalarsOk, StopBufferOk, HasKeys, FrozenOk;
    var es := Dict(t, ConfluenceWeights);
    var moved := Perturbed(es, m, draws);
    var t' := Candidate(t, m, draws);
    KeysStay(es, NewEntries(es, m, draws), REQUIRED_CONFLUENCE);
    SameScalars(t, t');
    if Total(moved) != 0.0 {
      RenormalisedExactly(moved, 100);
    } else {
      ZeroStays(moved, 100);
    }
  }

  lemma ZeroStays(es: seq<Entry>, target: int)
    requires Total(es) == 0.0
    ensures Renormalised(es, target) == es
  {
  }

  lemma SameScalars(t: Tuning, t': Tuning)
    requires t.nums == t'.nums
    ensures ScalarsOk(t) == ScalarsOk(t')
  {
  }

  // With its own bounds inside [0.2, 0.5], the standard buffer is never refused.
  lemma StopBufferNeverRefused(t: Tuning, m: Member, draws: seq<real>)
    requires Complete(t) && Valid(t)
    requires m.PerKey? && m.dict == StopBuffer && m.targetSum.None?
    requires "standard" in m.keyBounds
    requires 0.2 <= m.keyBounds["standard"].lo <= m.keyBounds["standard"].hi <= 0.5
    ensures Valid(Candidate(t, m, draws))
  {
    hide ScalarsOk, HasKeys, FrozenOk, WeightsOk;
    var es := Dict(t, StopBuffer);
    KeysStay(es, NewEntries(es, m, draws), REQUIRED_LEVELS);
    SameScalars(t, Candidate(t, m, draws));
  }
}
