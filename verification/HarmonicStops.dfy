/**
  Where the stop of an accepted pattern lies relative to its entry: the last lines of
  `validate_pattern` in docs/harmonic_detector.py, whose stop is placed off the zone while the
  entry is D.
 */
module HarmonicStops {
  import opened Prelude
  import opened ZigZag
  import opened Harmonic

  // The stop is strictly on the losing side of the entry.
  predicate StopBehind(m: Pattern) {
    if m.bullish then m.stop < m.entry else m.stop > m.entry
  }

  predicate Exposed(p: Points, name: Name, tol: real) {
    Validate(p, name, tol).Match? && !StopBehind(Validate(p, name, tol).pattern)
  }

  // Distance of the stop from the zone, in units of XA.
  const MARGIN := 0.05

  // D can be MARGIN below the end of the projection of XA, or, for the Shark, of BC.
  predicate CanExpose(name: Name, tol: real) {
    var s := SpecOf(name);
    if name == Shark then tol > 0.0 && BcReaches(s, tol) else tol * s.dxa.hi >= MARGIN
  }

  predicate BcReaches(s: Spec, tol: real) {
    Part(Part(s.cdbc.hi, tol), Upper(s.dxa, tol) - Lower(s.bxa, tol)) >= MARGIN * (Upper(s.cdbc, tol) - 1.0)
  }

  // ------------------------------------------------------------------
  // Necessity
  // ------------------------------------------------------------------

  // The zone starts where one of its two projections does, and not above either end.
  lemma ZoneStart(m1: (real, real), m2: (real, real))
    requires m1.1 <= m1.0 && m2.0 <= m2.1
    ensures Prz(m1, m2).0 == m1.1 || Prz(m1, m2).0 == m2.0
    ensures Prz(m1, m2).0 <= m1.0
  {
  }

  // The end of the projection that D undercuts by the margin.
  lemma Undercuts(p: Points, name: Name, tol: real)
    requires Exposed(p, name, tol) && p.a > p.x
    ensures var s := SpecOf(name);
            && p.d < p.a
            && (AD(p) >= Part(XA(p), s.dxa.hi) + MARGIN * XA(p) || CD(p) >= Part(BC(p), s.cdbc.hi) + MARGIN * XA(p))
  {
    SpecIsPositive(name);
    hide RatiosFit, Prz, SpecOf, Part, XA, AB, BC, CD, AD;
    var s, xa, bc := SpecOf(name), XA(p), BC(p);
    PartsInOrder(s.dxa, xa);
    PartsInOrder(s.cdbc, bc);
    ZoneStart((p.a - Part(xa, s.dxa.lo), p.a - Part(xa, s.dxa.hi)), (p.c - Part(bc, s.cdbc.hi), p.c - Part(bc, s.cdbc.lo)));
    if p.d < p.a {
      LegsIntoD(p);
    }
  }

  lemma PartsInOrder(r: Range, unit: real)
    requires PositiveRange(r) && unit > 0.0
    ensures 0.0 < Part(unit, r.lo) <= Part(unit, r.hi)
  {
    ProductInOrder(r.lo, r.hi, unit);
    StrictProduct(unit, r.lo);
  }

  // The same in units of XA: r is AB, b is BC, e is CD and q is AD.
  ghost predicate Ratios(s: Spec, tol: real, r: real, b: real, e: real, q: real) {
    && r > 0.0 && b > 0.0
    && Lower(s.bxa, tol) <= r <= Upper(s.bxa, tol)
    && b <= Part(Upper(s.cab, tol), r)
    && e <= Part(Upper(s.cdbc, tol), b)
    && q == r - b + e && q <= Upper(s.dxa, tol)
  }

  lemma QuotientBound(x: real, d: real, hi: real, u: real)
    requires d > 0.0 && u > 0.0 && x / d <= hi
    ensures x / u <= Part(hi, d / u)
  {
    assert x == (x / d) * d;
    ProductInOrder(x / d, hi, d);
    assert x <= hi * d;
    assert (hi * d) / u == hi * (d / u);
    DivideInOrder(x, hi * d, u);
  }

  lemma DivideInOrder(x: real, y: real, d: real)
    requires d > 0.0 && x <= y
    ensures x / d <= y / d
  {
  }

  lemma SumOfQuotients(x: real, y: real, z: real, d: real)
    requires d > 0.0
    ensures (x - y + z) / d == x / d - y / d + z / d
  {
  }

  lemma InUnits(p: Points, name: Name, tol: real)
    requires p.a > p.x && p.d < p.a
    ensures Validate(p, name, tol).Match? ==>
              Ratios(SpecOf(name), tol, AB(p) / XA(p), BC(p) / XA(p), CD(p) / XA(p), AD(p) / XA(p))
  {
    if !Validate(p, name, tol).Match? {
      return;
    }
    LegsIntoD(p);
    assert AD(p) == AB(p) - BC(p) + CD(p);
    hide Emit, SpecOf, Lower, Upper, XA, AB, BC, CD, AD, Part, Zigzags;
    SumOfQuotients(AB(p), BC(p), CD(p), XA(p));
    QuotientBound(BC(p), AB(p), Upper(SpecOf(name).cab, tol), XA(p));
    QuotientBound(CD(p), BC(p), Upper(SpecOf(name).cdbc, tol), XA(p));
    PositiveQuotient(AB(p), XA(p));
    PositiveQuotient(BC(p), XA(p));
  }

  lemma MarginInUnits(leg: real, unit: real, ratio: real, xa: real)
    requires xa > 0.0 && leg >= Part(unit, ratio) + MARGIN * xa
    ensures leg / xa >= Part(unit / xa, ratio) + MARGIN
  {
    DivideInOrder(Part(unit, ratio) + MARGIN * xa, leg, xa);
    assert (unit * ratio + MARGIN * xa) / xa == (unit * ratio) / xa + (MARGIN * xa) / xa;
    assert (unit * ratio) / xa == (unit / xa) * ratio;
    assert (MARGIN * xa) / xa == MARGIN;
  }

  // Undercutting the projection of XA takes a tolerance of MARGIN relative to its length.
  lemma XaUndercut(s: Spec, tol: real, q: real)
    requires q <= Upper(s.dxa, tol) && q >= s.dxa.hi + MARGIN
    ensures tol * s.dxa.hi >= MARGIN
  {
  }

  // Undercutting the projection of BC: the tolerance, BC and the room below A must suffice together.
  lemma BcUndercut(s: Spec, tol: real, r: real, b: real, e: real, q: real)
    requires e >= Part(b, s.cdbc.hi) + MARGIN && s.cdbc.hi >= 1.0
    ensures Ratios(s, tol, r, b, e, q) ==>
              tol > 0.0 && BcReaches(s, tol) && (Upper(s.cab, tol) > 0.0 ==> RoomForB(s, tol))
  {
    if !Ratios(s, tol, r, b, e, q) {
      return;
    }
    UpperIs(s.cdbc, tol);
    hide Upper, Lower, Part;
    BcScalars(s.cdbc.hi, Part(s.cdbc.hi, tol), r, b, e, q, Upper(s.dxa, tol), Lower(s.bxa, tol), Upper(s.cab, tol));
    PositivePart(s.cdbc.hi, tol);
  }

  lemma UpperIs(r: Range, tol: real)
    ensures Upper(r, tol) == r.hi + Part(r.hi, tol)
  {
  }

  lemma PositivePart(h: real, tol: real)
    requires h >= 1.0 && Part(h, tol) > 0.0
    ensures tol > 0.0
  {
    PositiveFactor(h, tol);
  }

  lemma BcScalars(h: real, k: real, r: real, b: real, e: real, q: real, u: real, v: real, c: real)
    requires h >= 1.0 && r > 0.0 && b > 0.0 && e <= Part(h + k, b) && e >= Part(b, h) + MARGIN
    requires q == r - b + e && q <= u && v <= r && b <= Part(c, r)
    ensures k > 0.0 && Part(k, u - v) >= MARGIN * (h + k - 1.0)
    ensures c > 0.0 ==> Part(k, Part(c, u)) >= MARGIN * (1.0 + Part(c, h + k - 1.0))
  {
    assert Part(h + k, b) == Part(b, h) + b * k;
    assert b * k >= MARGIN;
    PositiveFactor(b, k);
    assert k * b == b * k;
    MultipliedRoom(k, b, h, u - v);
    assert (h - 1.0) * b == b * h - b;
    if c > 0.0 {
      MultipliedShare(k, b, h, u, c, r);
    }
  }

  lemma PositiveFactor(b: real, k: real)
    requires b > 0.0 && b * k > 0.0
    ensures k > 0.0
  {
    OtherFactor(b, k);
  }

  // BC is at most its admitted multiple of AB.
  predicate RoomForB(s: Spec, tol: real) {
    Part(Part(s.cdbc.hi, tol), Part(Upper(s.cab, tol), Upper(s.dxa, tol)))
    >= MARGIN * (1.0 + Part(Upper(s.cab, tol), Upper(s.cdbc, tol) - 1.0))
  }

  lemma MultipliedRoom(k: real, b: real, h: real, room: real)
    requires k > 0.0 && k * b >= MARGIN && h >= 1.0 && room >= b * h - b + MARGIN
    ensures k * room >= MARGIN * (h + k - 1.0)
  {
    ProductInOrder(b * h - b + MARGIN, room, k);
    assert k * (b * h - b + MARGIN) == (k * b) * (h - 1.0) + k * MARGIN;
    ProductInOrder(MARGIN, k * b, h - 1.0);
  }

  lemma MultipliedShare(k: real, b: real, h: real, u: real, c: real, r: real)
    requires k > 0.0 && k * b >= MARGIN && h >= 1.0 && c > 0.0 && b <= c * r
    requires u >= r + (h - 1.0) * b + MARGIN
    ensures k * (c * u) >= MARGIN * (1.0 + c * (h + k - 1.0))
  {
    ProductInOrder(r + (h - 1.0) * b + MARGIN, u, c);
    assert c * (r + (h - 1.0) * b + MARGIN) == c * r + (c * (h - 1.0)) * b + c * MARGIN;
    ProductInOrder(b + (c * (h - 1.0)) * b + c * MARGIN, c * u, k);
    assert k * (b + (c * (h - 1.0)) * b + c * MARGIN) == (k * b) * (1.0 + c * (h - 1.0)) + k * (c * MARGIN);
    ProductInOrder(0.0, h - 1.0, c);
    ProductInOrder(MARGIN, k * b, 1.0 + c * (h - 1.0));
  }

  // For every name but the Shark, undercutting BC's projection needs more tolerance than
  // undercutting XA's.
  lemma BcNeedsMore(name: Name, tol: real)
    requires name != Shark && tol > 0.0 && BcReaches(SpecOf(name), tol) && RoomForB(SpecOf(name), tol)
    ensures tol * SpecOf(name).dxa.hi >= MARGIN
  {
    if tol * SpecOf(name).dxa.hi < MARGIN {
      match name {
        case Gartley => SquareBelow(tol, 0.0637);
        case Bat => SquareBelow(tol, 0.0565);
        case Butterfly => SquareBelow(tol, 0.0310);
        case Crab => CrabHasNoRoom(tol);
        case DeepCrab => SquareBelow(tol, 0.0310);
      }
    }
  }

  lemma SquareBelow(tol: real, bound: real)
    requires 0.0 < tol <= bound
    ensures 0.0 < tol * tol <= bound * tol
    ensures 0.0 < Part(tol, tol) <= bound * tol
  {
    ProductInOrder(tol, bound, tol);
    StrictProduct(tol, tol);
    PartSign(tol, tol);
    PartAtMost(tol, tol, bound);
    hide Part;
  }

  lemma CrabHasNoRoom(tol: real)
    requires 0.0 < tol <= 0.0310 && tol * 1.618 < MARGIN
    ensures !RoomForB(SpecOf(Crab), tol)
  {
    hide Upper, Part;
    SquareBelow(tol, 0.0310);
    CrabNumbers(tol);
    CrabProduct(tol, Part(tol, tol));
  }

  lemma CrabNumbers(tol: real)
    ensures var s, square := SpecOf(Crab), Part(tol, tol);
            && Part(Upper(s.cab, tol), Upper(s.dxa, tol)) == 1.433548 * (1.0 + 2.0 * tol + square)
            && Part(Upper(s.cab, tol), Upper(s.cdbc, tol) - 1.0) == 0.886 * (2.618 + 6.236 * tol + 3.618 * square)
            && Part(s.cdbc.hi, tol) == 3.618 * tol
  {
  }

  lemma CrabProduct(tol: real, square: real)
    requires 0.0 < tol && tol * 1.618 < MARGIN && 0.0 < square <= 0.0310 * tol
    ensures Part(3.618 * tol, 1.433548 * (1.0 + 2.0 * tol + square)) < MARGIN * (1.0 + 0.886 * (2.618 + 6.236 * tol))
  {
    PartAtMost(3.618 * tol, 1.433548 * (1.0 + 2.0 * tol + square), 1.52378);
    hide Part;
  }

  lemma PartAtMost(u: real, x: real, top: real)
    requires u >= 0.0 && x <= top
    ensures Part(u, x) <= u * top
  {
    ProductInOrder(x, top, u);
  }

  // For the Shark it is the other way round.
  lemma SharkXaNeedsMore(tol: real)
    requires tol * SpecOf(Shark).dxa.hi >= MARGIN
    ensures tol > 0.0 && BcReaches(SpecOf(Shark), tol)
  {
    var s := SpecOf(Shark);
    assert tol >= 0.0442;
    StrictProduct(tol, tol);
    assert Part(Part(s.cdbc.hi, tol), Upper(s.dxa, tol) - Lower(s.bxa, tol)) == 2.24 * (0.748 * tol + 1.512 * (tol * tol));
  }

  // An accepted pattern whose stop is not behind its entry shows that its name and tolerance
  // allow one.
  lemma ExposedNeeds(p: Points, name: Name, tol: real)
    ensures Exposed(p, name, tol) ==> CanExpose(name, tol)
  {
    if Exposed(p, name, tol) {
      if p.a > p.x {
        LongExposedNeeds(p, name, tol);
      } else {
        ValidateMirror(0.0, p, name, tol);
        MirrorExposed(p, name, tol);
        LongExposedNeeds(MirrorPoints(0.0, p), name, tol);
      }
    }
  }

  lemma MirrorExposed(p: Points, name: Name, tol: real)
    requires Exposed(p, name, tol) && !(p.a > p.x)
    ensures Exposed(MirrorPoints(0.0, p), name, tol) && MirrorPoints(0.0, p).a > MirrorPoints(0.0, p).x
  {
    ValidateMirror(0.0, p, name, tol);
    ZoneAndStop(p, name, tol);
    hide Emit, RatiosFit, Zigzags;
  }

  lemma LongExposedNeeds(p: Points, name: Name, tol: real)
    requires Exposed(p, name, tol) && p.a > p.x
    ensures CanExpose(name, tol)
  {
    Undercuts(p, name, tol);
    InUnits(p, name, tol);
    hide Validate, XA, AB, BC, CD, AD, Ratios, StopBehind, SpecOf, CanExpose, Exposed;
    var s, xa := SpecOf(name), XA(p);
    UnitIsPositive(p);
    if AD(p) >= Part(xa, s.dxa.hi) + MARGIN * xa {
      MarginInUnits(AD(p), xa, s.dxa.hi, xa);
      OneUnit(xa, s.dxa.hi);
    } else {
      MarginInUnits(CD(p), BC(p), s.cdbc.hi, xa);
    }
    hide Part;
    RatiosNeed(name, tol, AB(p) / xa, BC(p) / xa, CD(p) / xa, AD(p) / xa);
  }

  lemma RatiosNeed(name: Name, tol: real, r: real, b: real, e: real, q: real)
    requires var s := SpecOf(name); q >= s.dxa.hi + MARGIN || e >= Part(b, s.cdbc.hi) + MARGIN
    ensures Ratios(SpecOf(name), tol, r, b, e, q) ==> CanExpose(name, tol)
  {
    SpecIsPositive(name);
    hide Ratios, BcReaches, RoomForB, SpecOf;
    var s := SpecOf(name);
    if Ratios(s, tol, r, b, e, q) {
      UnitsBound(s, tol, r, b, e, q);
      if q >= s.dxa.hi + MARGIN {
        XaUndercut(s, tol, q);
        if name == Shark {
          SharkXaNeedsMore(tol);
        }
      } else {
        BcUndercut(s, tol, r, b, e, q);
        if name != Shark {
          UpperIsPositive(s.cab, tol);
          BcNeedsMore(name, tol);
        }
      }
    }
  }

  lemma UnitIsPositive(p: Points)
    requires p.a > p.x
    ensures XA(p) > 0.0
  {
  }

  lemma OneUnit(xa: real, ratio: real)
    requires xa > 0.0
    ensures Part(xa / xa, ratio) == ratio
  {
    assert xa / xa == 1.0;
  }

  lemma UnitsBound(s: Spec, tol: real, r: real, b: real, e: real, q: real)
    requires Ratios(s, tol, r, b, e, q)
    ensures q <= Upper(s.dxa, tol)
  {
  }

  lemma UpperIsPositive(r: Range, tol: real)
    requires PositiveRange(r) && tol > 0.0
    ensures Upper(r, tol) > 0.0
  {
    StrictProduct(r.hi, tol);
  }

  // ------------------------------------------------------------------
  // Sufficiency
  // ------------------------------------------------------------------

  // A long with XA of length 1, AB of length r, BC of length b and D a distance q below A.
  function Shape(r: real, b: real, q: real): Points {
    Points(0.0, 1.0, 1.0 - r, 1.0 - r + b, 1.0 - q)
  }

  // Its legs meet every range.
  predicate Fits(s: Spec, tol: real, r: real, b: real, q: real) {
    var e := q - r + b;
    && r > 0.0 && b > 0.0 && e > 0.0 && q > 0.0
    && Lower(s.bxa, tol) <= r <= Upper(s.bxa, tol)
    && Part(Lower(s.cab, tol), r) <= b <= Part(Upper(s.cab, tol), r)
    && Lower(s.dxa, tol) <= q <= Upper(s.dxa, tol)
    && Part(Lower(s.cdbc, tol), b) <= e <= Part(Upper(s.cdbc, tol), b)
  }

  // Its projections meet, and D lies the margin or more below the start of the zone.
  predicate BelowZone(s: Spec, r: real, b: real, q: real) {
    var c := 1.0 - r + b;
    var start := RMax(1.0 - s.dxa.hi, c - Part(b, s.cdbc.hi));
    && start <= RMin(1.0 - s.dxa.lo, c - Part(b, s.cdbc.lo))
    && 1.0 - q <= start - MARGIN
  }

  lemma ShapeLegs(r: real, b: real, q: real)
    requires r > 0.0 && b > 0.0 && q > 0.0 && q - r + b > 0.0
    ensures var p := Shape(r, b, q);
            && XA(p) == 1.0 && AB(p) == r && BC(p) == b && AD(p) == q && CD(p) == q - r + b
            && Zigzags(p) && p.a > p.x && p.a != p.b && p.b != p.c
  {
  }

  lemma ShapeFits(s: Spec, tol: real, r: real, b: real, q: real)
    ensures Fits(s, tol, r, b, q) ==>
              var p := Shape(r, b, q); p.a != p.x && p.b != p.a && p.c != p.b && RatiosFit(p, s, tol)
  {
    if !Fits(s, tol, r, b, q) {
      return;
    }
    ShapeLegs(r, b, q);
    hide Shape, XA, AB, BC, CD, AD, Zigzags, Lower, Upper, Part;
    QuotientOfPart(b, r, Lower(s.cab, tol), Upper(s.cab, tol));
    QuotientOfPart(q - r + b, b, Lower(s.cdbc, tol), Upper(s.cdbc, tol));
    QuotientIs(r, 1.0, r);
    QuotientIs(q, 1.0, q);
  }

  lemma QuotientOfPart(x: real, d: real, lo: real, hi: real)
    requires d > 0.0 && Part(lo, d) <= x <= Part(hi, d)
    ensures lo <= x / d <= hi
  {
    QuotientInRange(x, d, lo, hi);
  }

  lemma ZoneOf(m1: (real, real), m2: (real, real))
    requires m1.1 <= m1.0 && m2.0 <= m2.1 && RMax(m1.1, m2.0) <= RMin(m1.0, m2.1)
    ensures Prz(m1, m2).0 == RMax(m1.1, m2.0)
  {
  }

  lemma ShapeExposed(name: Name, tol: real, r: real, b: real, q: real)
    requires Fits(SpecOf(name), tol, r, b, q) && BelowZone(SpecOf(name), r, b, q)
    ensures Exposed(Shape(r, b, q), name, tol)
  {
    SpecIsPositive(name);
    ShapeLegs(r, b, q);
    ShapeFits(SpecOf(name), tol, r, b, q);
    hide SpecOf, Fits, RatiosFit, XA, BC, Zigzags, Prz;
    var s, p := SpecOf(name), Shape(r, b, q);
    ProductInOrder(s.cdbc.lo, s.cdbc.hi, b);
    assert Part(1.0, s.dxa.lo) == s.dxa.lo && Part(1.0, s.dxa.hi) == s.dxa.hi;
    ZoneOf((p.a - Part(1.0, s.dxa.lo), p.a - Part(1.0, s.dxa.hi)), (p.c - Part(b, s.cdbc.hi), p.c - Part(b, s.cdbc.lo)));
    hide Part, RMax, RMin;
  }

  // Lengths at which D undercuts the projection of XA by exactly the margin.
  function Lengths(name: Name): (real, real) {
    match name
    case Gartley => (0.618, 0.4)
    case Bat => (0.45, 0.35)
    case Butterfly => (0.786, 0.715)
    case Crab => (0.6, 0.5)
    case DeepCrab => (0.886, 0.5)
    case Shark => (0.5, 0.7)
  }

  lemma XaUndercutExists(name: Name, tol: real)
    requires tol * SpecOf(name).dxa.hi >= MARGIN
    ensures var (r, b) := Lengths(name); Exposed(Shape(r, b, SpecOf(name).dxa.hi + MARGIN), name, tol)
  {
    LengthsFit(name, tol);
    LengthsBelow(name);
    hide SpecOf, Lengths, Fits, BelowZone, Exposed;
    var (r, b) := Lengths(name);
    ShapeExposed(name, tol, r, b, SpecOf(name).dxa.hi + MARGIN);
  }

  lemma LengthsFit(name: Name, tol: real)
    requires tol * SpecOf(name).dxa.hi >= MARGIN
    ensures var (r, b) := Lengths(name); Fits(SpecOf(name), tol, r, b, SpecOf(name).dxa.hi + MARGIN)
  {
    assert tol >= 0.0309;
    match name {
      case Gartley => LengthFits(name, tol, 0.618, 0.4, 0.836);
      case Bat => LengthFits(name, tol, 0.45, 0.35, 0.936);
      case Butterfly => LengthFits(name, tol, 0.786, 0.715, 1.668);
      case Crab => LengthFits(name, tol, 0.6, 0.5, 1.668);
      case DeepCrab => LengthFits(name, tol, 0.886, 0.5, 1.668);
      case Shark => LengthFits(name, tol, 0.5, 0.7, 1.18);
    }
  }

  // Ratios within the plain ranges, but for AD and a slightly long BC, fit at the tolerance.
  lemma LengthFits(name: Name, tol: real, r: real, b: real, q: real)
    requires tol >= 0.0309 && r > 0.0 && b > 0.0 && q - r + b > 0.0
    requires var s := SpecOf(name);
             && s.bxa.lo <= r <= s.bxa.hi
             && Part(s.cab.lo, r) <= b <= Part(1.0309 * s.cab.hi, r)
             && s.dxa.lo <= q <= s.dxa.hi + tol * s.dxa.hi
             && Part(s.cdbc.lo, b) <= q - r + b <= Part(s.cdbc.hi, b)
    ensures Fits(SpecOf(name), tol, r, b, q)
  {
    SpecIsPositive(name);
    hide SpecOf;
    var s := SpecOf(name);
    WidenedRange(s.bxa, tol);
    WidenedRange(s.cab, tol);
    WidenedRange(s.dxa, tol);
    WidenedRange(s.cdbc, tol);
    UpperGrows(s.cab, tol);
    UpperGrows(s.dxa, tol);
    hide Lower, Upper, Part;
    PartInOrder(Lower(s.cab, tol), s.cab.lo, r);
    PartInOrder(1.0309 * s.cab.hi, Upper(s.cab, tol), r);
    PartInOrder(Lower(s.cdbc, tol), s.cdbc.lo, b);
    PartInOrder(s.cdbc.hi, Upper(s.cdbc, tol), b);
  }

  lemma UpperGrows(r: Range, tol: real)
    requires tol >= 0.0309 && r.hi > 0.0
    ensures Upper(r, tol) >= 1.0309 * r.hi && Upper(r, tol) == r.hi + tol * r.hi
  {
    ProductInOrder(0.0309, tol, r.hi);
  }

  lemma PartInOrder(x: real, y: real, u: real)
    requires x <= y && u >= 0.0
    ensures Part(x, u) <= Part(y, u)
  {
    ProductInOrder(x, y, u);
  }

  lemma LengthsBelow(name: Name)
    ensures var (r, b) := Lengths(name); BelowZone(SpecOf(name), r, b, SpecOf(name).dxa.hi + MARGIN)
  {
  }

  // For the Shark at the smaller tolerances: shortest AB, longest CD.
  lemma BcUndercutExists(tol: real) returns (p: Points)
    requires tol > 0.0 && BcReaches(SpecOf(Shark), tol) && tol * 1.13 < MARGIN
    ensures Exposed(p, Shark, tol)
  {
    var s := SpecOf(Shark);
    var b, r := MARGIN / (2.24 * tol), 0.382 * (1.0 - tol);
    var q := r + 1.24 * b + MARGIN;
    SharkLength(tol, b);
    SharkFits(tol, b);
    SharkBelow(tol, b);
    ShapeExposed(Shark, tol, r, b, q);
    p := Shape(r, b, q);
  }

  // What the tolerance says about that BC.
  predicate SharkBc(tol: real, b: real) {
    && 0.0364 <= tol <= 0.04425 && 0.5044 <= b <= 0.6133 && tol * b == MARGIN / 2.24
    && 0.382 * (1.0 - tol) + 1.24 * b + MARGIN <= 1.13 * (1.0 + tol)
  }

  lemma SharkLength(tol: real, b: real)
    requires tol > 0.0 && BcReaches(SpecOf(Shark), tol) && tol * 1.13 < MARGIN && b == MARGIN / (2.24 * tol)
    ensures SharkBc(tol, b)
  {
    var s := SpecOf(Shark);
    var room := 0.748 + 1.512 * tol;
    assert Part(Part(s.cdbc.hi, tol), Upper(s.dxa, tol) - Lower(s.bxa, tol)) == (2.24 * tol) * room;
    assert (2.24 * tol) * b == MARGIN;
    assert (2.24 * tol) * room == 2.24 * (0.748 * tol + 1.512 * (tol * tol));
    SquareBelow(tol, 0.04425);
    if tol < 0.0364 {
      SquareBelow(tol, 0.0364);
    }
    assert (2.24 * tol) * room >= MARGIN * (1.24 + 2.24 * tol) == (2.24 * tol) * (1.24 * b + MARGIN);
    CancelFactor(2.24 * tol, 1.24 * b + MARGIN, room);
    assert b > 0.0;
    ProductInOrder(0.0364, tol, b);
    ProductInOrder(tol, 0.04425, b);
  }

  lemma CancelFactor(k: real, x: real, y: real)
    requires k > 0.0 && k * x <= k * y
    ensures x <= y
  {
    assert k * (x - y) == k * x - k * y;
    if y < x {
      StrictProduct(k, x - y);
    }
  }

  lemma SharkFits(tol: real, b: real)
    requires SharkBc(tol, b)
    ensures Fits(SpecOf(Shark), tol, 0.382 * (1.0 - tol), b, 0.382 * (1.0 - tol) + 1.24 * b + MARGIN)
  {
    var s, r := SpecOf(Shark), 0.382 * (1.0 - tol);
    SquareBelow(tol, 0.04425);
    assert Part(Upper(s.cab, tol), r) == 0.618076 * (1.0 - tol * tol);
    assert Part(Lower(s.cab, tol), r) == 0.43166 * (1.0 - 2.0 * tol + tol * tol);
    assert Part(Upper(s.cdbc, tol), b) == 2.24 * b + 2.24 * (tol * b);
    assert Part(Lower(s.cdbc, tol), b) == 1.618 * b - 1.618 * (tol * b);
  }

  lemma SharkBelow(tol: real, b: real)
    requires SharkBc(tol, b)
    ensures BelowZone(SpecOf(Shark), 0.382 * (1.0 - tol), b, 0.382 * (1.0 - tol) + 1.24 * b + MARGIN)
  {
    assert Part(b, 2.24) == 2.24 * b && Part(b, 1.618) == 1.618 * b;
  }

  // ------------------------------------------------------------------
  // The threshold
  // ------------------------------------------------------------------

  // For every name and tolerance: some accepted pattern has its stop at or beyond its entry if
  // and only if the tolerance lets D undercut the zone by the margin.
  lemma ExposedIff(name: Name, tol: real)
    ensures (exists p :: Exposed(p, name, tol)) <==> CanExpose(name, tol)
  {
    if CanExpose(name, tol) {
      if name == Shark && tol * 1.13 < MARGIN {
        var p := BcUndercutExists(tol);
      } else {
        XaUndercutExists(name, tol);
      }
    }
    forall p | Exposed(p, name, tol)
      ensures CanExpose(name, tol)
    {
      ExposedNeeds(p, name, tol);
    }
  }

  // Up to a tolerance of 0.03 every stop is behind its entry.
  lemma StopsHold(p: Points, name: Name, tol: real)
    requires tol <= 0.03
    ensures Validate(p, name, tol).Match? ==> StopBehind(Validate(p, name, tol).pattern)
  {
    if Exposed(p, name, tol) {
      ExposedNeeds(p, name, tol);
      SmallTolerance(name, tol);
    }
    hide Validate, StopBehind;
  }

  lemma SmallTolerance(name: Name, tol: real)
    requires tol <= 0.03
    ensures !CanExpose(name, tol)
  {
    if name == Shark && tol > 0.0 {
      var s := SpecOf(name);
      SquareBelow(tol, 0.03);
      assert Part(Part(s.cdbc.hi, tol), Upper(s.dxa, tol) - Lower(s.bxa, tol)) == 2.24 * (0.748 * tol + 1.512 * (tol * tol));
    }
  }

  // At the default tolerance it is not: each known name accepts a long that is entered below
  // or at its stop.
  lemma DefaultsAreExposed(name: Name)
    ensures exists p :: Exposed(p, name, DEFAULT_TOL)
  {
    XaUndercutExists(name, DEFAULT_TOL);
  }

  // What no accepted pattern of the asked names can break, no reported signal does.
  lemma {:induction false} FoundAreStopped(ps: seq<Pivot>, names: seq<Name>, tol: real, start: nat, n: nat)
    requires 4 <= start <= n <= |ps| && forall j :: 0 <= j < |names| ==> !CanExpose(names[j], tol)
    ensures forall m :: m in FoundFrom(ps, names, tol, start, n) ==> StopBehind(m)
  {
    hide CanExpose, Validate, StopBehind;
    if start < n {
      FoundAreStopped(ps, names, tol, start, n - 1);
      forall m | m in Found(ps, names, tol, n - 1)
        ensures StopBehind(m)
      {
        var j := NameOf(ps, names, tol, n - 1, m);
        ExposedNeeds(Window(ps, n - 1), names[j], tol);
      }
      hide Found;
    }
  }

  // A scan whose tolerance is below every chosen name's threshold reports only signals whose
  // stop is behind their entry.
  lemma SignalsAreStopped(
      bars: seq<Bar>, pct: real, tol: real, names: seq<Name>, onlyLatest: bool, signals: seq<Pattern>)
    requires forall j :: 0 <= j < |NamesOr(names)| ==> !CanExpose(NamesOr(names)[j], tol)
    ensures Scanned(bars, pct, tol, names, onlyLatest, signals) ==> forall m :: m in signals ==> StopBehind(m)
  {
    hide CanExpose, FoundFrom, StopBehind, NamesOr;
    if Scanned(bars, pct, tol, names, onlyLatest, signals) {
      var ps :| ZigZagOf(bars, pct, ps) && signals == Report(ps, NamesOr(names), tol, onlyLatest);
      if |ps| >= 5 {
        FoundAreStopped(ps, NamesOr(names), tol, if onlyLatest then |ps| - 1 else 4, |ps|);
      }
    }
  }
}
