/** What the pattern detector accepts and reports, in the prices of the five points. */
module PatternRules {
  import opened Prelude
  import opened ZigZag
  import opened Harmonic

  // The admissible ratios of each name: AB to XA, BC to AB, AD to XA, CD to BC.
  datatype Ratios = Ratios(
    b0: real, b1: real, c0: real, c1: real, d0: real, d1: real, p0: real, p1: real)

  function RatiosOf(name: Name): Ratios {
    match name
    case Gartley => Ratios(0.618, 0.618, 0.382, 0.886, 0.786, 0.786, 1.272, 1.618)
    case Bat => Ratios(0.382, 0.5, 0.382, 0.886, 0.886, 0.886, 1.618, 2.618)
    case Butterfly => Ratios(0.786, 0.786, 0.382, 0.886, 1.272, 1.618, 1.618, 2.24)
    case Crab => Ratios(0.382, 0.618, 0.382, 0.886, 1.618, 1.618, 2.24, 3.618)
    case DeepCrab => Ratios(0.886, 0.886, 0.382, 0.886, 1.618, 1.618, 2.0, 3.618)
    case Shark => Ratios(0.382, 0.618, 1.13, 1.618, 0.886, 1.13, 1.618, 2.24)
  }

  lemma RatiosAre(name: Name)
    ensures var s, r := SpecOf(name), RatiosOf(name);
            && s.bxa == Range(r.b0, r.b1) && s.cab == Range(r.c0, r.c1)
            && s.dxa == Range(r.d0, r.d1) && s.cdbc == Range(r.p0, r.p1)
  {
  }

  // A leg between two multiples of another, up to the tolerance: the ratio test without division.
  predicate LegFits(leg: real, unit: real, lo: real, hi: real, tol: real) {
    lo * (1.0 - tol) * unit <= leg <= hi * (1.0 + tol) * unit
  }

  lemma QuotientBetween(x: real, d: real, lo: real, hi: real)
    requires d > 0.0
    ensures lo <= x / d <= hi <==> lo * d <= x <= hi * d
  {
    var q := x / d;
    assert x == q * d;
    Cancel(lo, q, d);
    Cancel(q, hi, d);
  }

  lemma Cancel(x: real, y: real, d: real)
    requires d > 0.0
    ensures x <= y <==> x * d <= y * d
  {
    if x > y {
      StrictProduct(x - y, d);
      assert (x - y) * d == x * d - y * d;
    } else {
      ProductInOrder(x, y, d);
    }
  }

  lemma LegFitsIff(leg: real, unit: real, r: Range, tol: real)
    requires unit > 0.0
    ensures InRange(leg / unit, r, tol) <==> LegFits(leg, unit, r.lo, r.hi, tol)
  {
    QuotientBetween(leg, unit, Lower(r, tol), Upper(r, tol));
  }

  // Bullish points fall and rise in turn, with D below A or not; bearish ones the other way round.
  predicate BullLegs(p: Points) {
    p.x < p.a && p.b < p.a && p.b < p.c && p.d < p.c
  }

  predicate BearLegs(p: Points) {
    p.x > p.a && p.b > p.a && p.b > p.c && p.d > p.c
  }

  predicate LegsFit(xa: real, ab: real, bc: real, cd: real, ad: real, r: Ratios, tol: real) {
    && LegFits(ab, xa, r.b0, r.b1, tol)
    && LegFits(bc, ab, r.c0, r.c1, tol)
    && LegFits(ad, xa, r.d0, r.d1, tol)
    && LegFits(cd, bc, r.p0, r.p1, tol)
  }

  // A name is accepted exactly when the points turn each time and the four legs fit.
  lemma AcceptedIff(p: Points, name: Name, tol: real)
    ensures Validate(p, name, tol).Match? <==>
            (BullLegs(p) && LegsFit(p.a - p.x, p.a - p.b, p.c - p.b, p.c - p.d,
                                    if p.d <= p.a then p.a - p.d else p.d - p.a, RatiosOf(name), tol))
            || (BearLegs(p) && LegsFit(p.x - p.a, p.b - p.a, p.b - p.c, p.d - p.c,
                                       if p.d <= p.a then p.a - p.d else p.d - p.a, RatiosOf(name), tol))
    ensures Validate(p, name, tol).ZeroLeg? <==> p.a == p.x || p.b == p.a || p.c == p.b
  {
    RatiosAre(name);
    hide SpecOf, RatiosOf;
    if p.a != p.x && p.b != p.a && p.c != p.b {
      var s := SpecOf(name);
      LegFitsIff(AB(p), XA(p), s.bxa, tol);
      LegFitsIff(BC(p), AB(p), s.cab, tol);
      LegFitsIff(AD(p), XA(p), s.dxa, tol);
      LegFitsIff(CD(p), BC(p), s.cdbc, tol);
    }
    hide InRange, LegFits, Emit;
  }

  // The two projections of D: from A by multiples of XA, and from C by multiples of BC.
  datatype Zones = Zones(lo1: real, hi1: real, lo2: real, hi2: real)

  function Times(leg: real, ratio: real): real {
    leg * ratio
  }

  function ZonesOf(p: Points, r: Ratios): Zones {
    if p.a > p.x then
      Zones(p.a - Times(p.a - p.x, r.d1), p.a - Times(p.a - p.x, r.d0),
            p.c - Times(p.c - p.b, r.p1), p.c - Times(p.c - p.b, r.p0))
    else
      Zones(p.a + Times(p.x - p.a, r.d0), p.a + Times(p.x - p.a, r.d1),
            p.c + Times(p.b - p.c, r.p0), p.c + Times(p.b - p.c, r.p1))
  }

  // The zone holds exactly the prices in both projections, or spans both when none is.
  ghost predicate ZoneIs(z: Zones, lo: real, hi: real) {
    if exists x: real :: Between(x, z.lo1, z.hi1) && Between(x, z.lo2, z.hi2)
    then lo <= hi && forall x: real :: Between(x, lo, hi) <==> Between(x, z.lo1, z.hi1) && Between(x, z.lo2, z.hi2)
    else (lo == z.lo1 && hi == z.hi2) || (lo == z.lo2 && hi == z.hi1)
  }

  predicate Between(x: real, lo: real, hi: real) {
    lo <= x <= hi
  }

  lemma PrzIs(z: Zones)
    requires z.lo1 <= z.hi1 && z.lo2 <= z.hi2
    ensures var r := Prz((z.lo1, z.hi1), (z.lo2, z.hi2));
            && r == Prz((z.hi1, z.lo1), (z.lo2, z.hi2))
            && ZoneIs(z, r.0, r.1) && r.0 <= r.1
  {
    var lo, hi := RMax(z.lo1, z.lo2), RMin(z.hi1, z.hi2);
    if lo <= hi {
      assert Between(lo, z.lo1, z.hi1) && Between(lo, z.lo2, z.hi2);
    }
  }

  // What an accepted pattern reports: D, its side, the zone, a stop a twentieth of XA beyond the
  // zone, and targets at 0.382 and 0.618 of the way from D to A.
  ghost predicate ReportIs(p: Points, name: Name, m: Pattern) {
    && m.name == name && m.entry == p.d && m.bullish == (p.x < p.a)
    && ZoneIs(ZonesOf(p, RatiosOf(name)), m.przLo, m.przHi)
    && m.przLo <= m.przHi
    && (if p.x < p.a then m.przLo - m.stop == 0.05 * (p.a - p.x) else m.stop - m.przHi == 0.05 * (p.x - p.a))
    && m.tp1 - p.d == 0.382 * (p.a - p.d) && m.tp2 - p.d == 0.618 * (p.a - p.d)
  }

  lemma RatiosAreOrdered(name: Name)
    ensures var r := RatiosOf(name); 0.0 < r.d0 <= r.d1 && 0.0 < r.p0 <= r.p1
  {
  }

  lemma TimesInOrder(leg: real, lo: real, hi: real)
    requires leg >= 0.0 && lo <= hi
    ensures Times(leg, lo) <= Times(leg, hi)
  {
    ProductInOrder(lo, hi, leg);
  }

  lemma ZonesAreOrdered(p: Points, name: Name)
    requires p.a != p.x && if p.a > p.x then p.b < p.c else p.b > p.c
    ensures var z := ZonesOf(p, RatiosOf(name)); z.lo1 <= z.hi1 && z.lo2 <= z.hi2
  {
    RatiosAreOrdered(name);
    hide RatiosOf, Times;
    var r := RatiosOf(name);
    if p.a > p.x {
      TimesInOrder(p.a - p.x, r.d0, r.d1);
      TimesInOrder(p.c - p.b, r.p0, r.p1);
    } else {
      TimesInOrder(p.x - p.a, r.d0, r.d1);
      TimesInOrder(p.b - p.c, r.p0, r.p1);
    }
  }

  // The projections in terms of the model's legs.
  lemma ZonesFromLegs(p: Points, name: Name)
    requires p.a != p.x && if p.a > p.x then p.b < p.c else p.b > p.c
    ensures var s, xa, bc, z := SpecOf(name), XA(p), BC(p), ZonesOf(p, RatiosOf(name));
            if p.a > p.x then
              && z.lo1 == p.a - Part(xa, s.dxa.hi) && z.hi1 == p.a - Part(xa, s.dxa.lo)
              && z.lo2 == p.c - Part(bc, s.cdbc.hi) && z.hi2 == p.c - Part(bc, s.cdbc.lo)
            else
              && z.lo1 == p.a + Part(xa, s.dxa.lo) && z.hi1 == p.a + Part(xa, s.dxa.hi)
              && z.lo2 == p.c + Part(bc, s.cdbc.lo) && z.hi2 == p.c + Part(bc, s.cdbc.hi)
  {
    RatiosAre(name);
    hide SpecOf, RatiosOf;
    forall leg, ratio
      ensures Part(leg, ratio) == Times(leg, ratio)
    {
    }
    hide Part, Times;
  }

  lemma EmittedPrz(p: Points, name: Name)
    requires p.a != p.x
    ensures var m, s, xa, bc := Emit(p, name), SpecOf(name), XA(p), BC(p);
            (m.przLo, m.przHi) ==
            if p.a > p.x then Prz((p.a - Part(xa, s.dxa.lo), p.a - Part(xa, s.dxa.hi)),
                                  (p.c - Part(bc, s.cdbc.hi), p.c - Part(bc, s.cdbc.lo)))
            else Prz((p.a + Part(xa, s.dxa.lo), p.a + Part(xa, s.dxa.hi)),
                     (p.c + Part(bc, s.cdbc.lo), p.c + Part(bc, s.cdbc.hi)))
  {
    hide SpecOf, Part, Prz, XA, BC;
  }

  // The zone of the report is that of the projections.
  lemma EmittedZoneIs(p: Points, name: Name)
    requires p.a != p.x && if p.a > p.x then p.b < p.c else p.b > p.c
    ensures var m := Emit(p, name); ZoneIs(ZonesOf(p, RatiosOf(name)), m.przLo, m.przHi) && m.przLo <= m.przHi
  {
    hide Emit, ZoneIs, ZonesOf, RatiosOf, SpecOf, Part, Prz, XA, BC;
    EmittedPrz(p, name);
    ZonesFromLegs(p, name);
    ZonesAreOrdered(p, name);
    PrzIs(ZonesOf(p, RatiosOf(name)));
  }

  lemma EmittedLevels(p: Points, name: Name)
    requires p.a != p.x
    ensures var m := Emit(p, name);
            && (if p.x < p.a then m.przLo - m.stop == 0.05 * (p.a - p.x) else m.stop - m.przHi == 0.05 * (p.x - p.a))
            && m.tp1 - p.d == 0.382 * (p.a - p.d) && m.tp2 - p.d == 0.618 * (p.a - p.d)
            && m.name == name && m.entry == p.d && m.bullish == (p.x < p.a)
  {
    hide SpecOf, Prz, Part;
  }

  lemma MatchReports(p: Points, name: Name, tol: real)
    ensures var v := Validate(p, name, tol); v.Match? ==> ReportIs(p, name, v.pattern)
  {
    hide Emit, RatiosFit, ZoneIs, ZonesOf, RatiosOf, SpecOf;
    if Validate(p, name, tol).Match? {
      EmittedZoneIs(p, name);
      EmittedLevels(p, name);
    }
  }

  // ------------------------------------------------------------------
  // The scan
  // ------------------------------------------------------------------

  // A place where a pattern can be found: the pivot at D and the position of the name.
  datatype Slot = Slot(at: nat, name: nat)

  predicate Before(s: Slot, t: Slot) {
    s.at < t.at || (s.at == t.at && s.name < t.name)
  }

  predicate Inside(s: Slot, ps: seq<Pivot>, names: seq<Name>, start: nat, n: nat) {
    4 <= start <= s.at < n <= |ps| && s.name < |names|
  }

  // The verdict on the five pivots that end at the slot.
  function VerdictAt(ps: seq<Pivot>, names: seq<Name>, tol: real, s: Slot): Verdict
    requires 4 <= s.at < |ps| && s.name < |names|
  {
    Validate(Points(ps[s.at - 4].price, ps[s.at - 3].price, ps[s.at - 2].price, ps[s.at - 1].price, ps[s.at].price),
             names[s.name], tol)
  }

  predicate AllInside(slots: seq<Slot>, ps: seq<Pivot>, names: seq<Name>, start: nat, n: nat) {
    forall k :: 0 <= k < |slots| ==> Inside(slots[k], ps, names, start, n)
  }

  predicate InOrder(slots: seq<Slot>) {
    forall j, k :: 0 <= j < k < |slots| ==> Before(slots[j], slots[k])
  }

  predicate Matches(slots: seq<Slot>, ps: seq<Pivot>, names: seq<Name>, tol: real, signals: seq<Pattern>) {
    && |slots| == |signals|
    && forall k :: 0 <= k < |slots| ==>
         4 <= slots[k].at < |ps| && slots[k].name < |names|
         && VerdictAt(ps, names, tol, slots[k]) == Match(signals[k])
  }

  // The signals are the matches of the slots, in order, each once, with none left out.
  ghost predicate Lists(ps: seq<Pivot>, names: seq<Name>, tol: real, start: nat, n: nat, signals: seq<Pattern>,
                        slots: seq<Slot>)
  {
    && AllInside(slots, ps, names, start, n) && InOrder(slots) && Matches(slots, ps, names, tol, signals)
    && (forall s: Slot :: Inside(s, ps, names, start, n) && VerdictAt(ps, names, tol, s).Match? ==> s in slots)
  }

  lemma {:induction false} FoundLists(ps: seq<Pivot>, names: seq<Name>, tol: real, i: nat) returns (slots: seq<Slot>)
    requires 4 <= i < |ps|
    ensures Lists(ps, names, tol, i, i + 1, Found(ps, names, tol, i), slots)
  {
    hide Validate;
    if names == [] {
      slots := [];
    } else {
      var front := Front(names);
      var before := FoundLists(ps, front, tol, i);
      var s := Slot(i, |names| - 1);
      slots := before + if VerdictAt(ps, names, tol, s).Match? then [s] else [];
      forall t: Slot | Inside(t, ps, names, i, i + 1) && VerdictAt(ps, names, tol, t).Match?
        ensures t in slots
      {
        if t != s {
          assert Inside(t, ps, front, i, i + 1) && VerdictAt(ps, front, tol, t) == VerdictAt(ps, names, tol, t);
        }
      }
      forall k | 0 <= k < |slots|
        ensures Inside(slots[k], ps, names, i, i + 1)
        ensures VerdictAt(ps, names, tol, slots[k]) == Match(Found(ps, names, tol, i)[k])
      {
        if k < |before| {
          assert VerdictAt(ps, front, tol, slots[k]) == VerdictAt(ps, names, tol, slots[k]);
        }
      }
    }
  }

  lemma InOrderJoin(before: seq<Slot>, here: seq<Slot>, ps: seq<Pivot>, names: seq<Name>, start: nat, n: nat)
    requires AllInside(before, ps, names, start, n) && AllInside(here, ps, names, n, n + 1) && 4 <= start <= n < |ps|
    requires InOrder(before) && InOrder(here)
    ensures InOrder(before + here) && AllInside(before + here, ps, names, start, n + 1)
  {
    var all := before + here;
    forall k | 0 <= k < |all|
      ensures Inside(all[k], ps, names, start, n + 1)
    {
      if k < |before| {
        assert Inside(before[k], ps, names, start, n);
      } else {
        assert Inside(here[k - |before|], ps, names, n, n + 1);
      }
    }
    forall j, k | 0 <= j < k < |all|
      ensures Before(all[j], all[k])
    {
      if j < |before| <= k {
        assert Inside(before[j], ps, names, start, n) && Inside(here[k - |before|], ps, names, n, n + 1);
      } else if k < |before| {
        assert Before(before[j], before[k]);
      } else {
        assert Before(here[j - |before|], here[k - |before|]);
      }
    }
  }

  lemma {:induction false} FoundFromLists(ps: seq<Pivot>, names: seq<Name>, tol: real, start: nat, n: nat)
      returns (slots: seq<Slot>)
    requires 4 <= start <= n <= |ps|
    ensures Lists(ps, names, tol, start, n, FoundFrom(ps, names, tol, start, n), slots)
  {
    if start == n {
      slots := [];
    } else {
      var before := FoundFromLists(ps, names, tol, start, n - 1);
      var here := FoundLists(ps, names, tol, n - 1);
      InOrderJoin(before, here, ps, names, start, n - 1);
      slots := before + here;
      hide InOrder, AllInside, Found, VerdictAt;
      forall t: Slot | Inside(t, ps, names, start, n) && VerdictAt(ps, names, tol, t).Match?
        ensures t in slots
      {
        if t.at < n - 1 {
          assert Inside(t, ps, names, start, n - 1);
        } else {
          assert Inside(t, ps, names, n - 1, n);
        }
      }
      MatchesJoin(before, here, ps, names, tol, FoundFrom(ps, names, tol, start, n - 1), Found(ps, names, tol, n - 1));
      hide Matches;
    }
  }

  lemma MatchesJoin(before: seq<Slot>, here: seq<Slot>, ps: seq<Pivot>, names: seq<Name>, tol: real,
                    first: seq<Pattern>, second: seq<Pattern>)
    requires Matches(before, ps, names, tol, first) && Matches(here, ps, names, tol, second)
    ensures Matches(before + here, ps, names, tol, first + second)
  {
    hide VerdictAt;
  }

  // Some slots list the signals.
  ghost predicate Listed(ps: seq<Pivot>, names: seq<Name>, tol: real, start: nat, signals: seq<Pattern>) {
    exists slots :: Lists(ps, names, tol, start, |ps|, signals, slots)
  }

  // What a scan returns: nothing for fewer than five pivots; else the matches of all five-pivot
  // windows, or of the last window only, each under every chosen name, in order.
  lemma ScanIsExact(bars: seq<Bar>, pct: real, tol: real, names: seq<Name>, onlyLatest: bool, signals: seq<Pattern>)
    requires Scanned(bars, pct, tol, names, onlyLatest, signals)
    ensures exists ps :: ZigZagOf(bars, pct, ps) &&
              if |ps| < 5 then signals == []
              else Listed(ps, if names == [] then [Gartley, Bat, Butterfly, Crab, DeepCrab] else names, tol,
                          if onlyLatest then |ps| - 1 else 4, signals)
  {
    var ps :| ZigZagOf(bars, pct, ps) && signals == Report(ps, NamesOr(names), tol, onlyLatest);
    hide ZigZagOf, Lists, FoundFrom;
    if |ps| >= 5 {
      var slots := FoundFromLists(ps, NamesOr(names), tol, if onlyLatest then |ps| - 1 else 4, |ps|);
      assert DEFAULT_NAMES == [Gartley, Bat, Butterfly, Crab, DeepCrab];
    }
  }
}
