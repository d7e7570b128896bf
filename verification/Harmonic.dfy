/**
  Five-point harmonic patterns over zigzag pivots: `validate_pattern` and
  `scan` in docs/harmonic_detector.py.
 */
module Harmonic {
  import opened Prelude
  import opened ZigZag

  datatype Name = Gartley | Bat | Butterfly | Crab | DeepCrab | Shark

  datatype Range = Range(lo: real, hi: real)

  // Admissible leg ratios of one pattern.
  datatype Spec = Spec(bxa: Range, cab: Range, dxa: Range, cdbc: Range)

  function SpecOf(name: Name): Spec {
    match name
    case Gartley => Spec(Range(0.618, 0.618), Range(0.382, 0.886), Range(0.786, 0.786), Range(1.272, 1.618))
    case Bat => Spec(Range(0.382, 0.50), Range(0.382, 0.886), Range(0.886, 0.886), Range(1.618, 2.618))
    case Butterfly => Spec(Range(0.786, 0.786), Range(0.382, 0.886), Range(1.272, 1.618), Range(1.618, 2.24))
    case Crab => Spec(Range(0.382, 0.618), Range(0.382, 0.886), Range(1.618, 1.618), Range(2.24, 3.618))
    case DeepCrab => Spec(Range(0.886, 0.886), Range(0.382, 0.886), Range(1.618, 1.618), Range(2.0, 3.618))
    case Shark => Spec(Range(0.382, 0.618), Range(1.13, 1.618), Range(0.886, 1.13), Range(1.618, 2.24))
  }

  const DEFAULT_TOL := 0.12
  const DEFAULT_NAMES: seq<Name> := [Gartley, Bat, Butterfly, Crab, DeepCrab]
  const TP1_RATIO := 0.382
  const TP2_RATIO := 0.618

  function Lower(r: Range, tol: real): real {
    r.lo * (1.0 - tol)
  }

  function Upper(r: Range, tol: real): real {
    r.hi * (1.0 + tol)
  }

  predicate InRange(ratio: real, r: Range, tol: real) {
    Lower(r, tol) <= ratio <= Upper(r, tol)
  }

  datatype Pattern = Pattern(
    name: Name, bullish: bool, przLo: real, przHi: real, entry: real, stop: real, tp1: real, tp2: real)

  // The outcome of validation, with the reason for each rejection.
  datatype Verdict = ZeroLeg | WrongShape | RatioMiss | Match(pattern: Pattern)

  // Prices at X, A, B, C, D.
  datatype Points = Points(x: real, a: real, b: real, c: real, d: real)

  // Lengths of the legs, and the distance from A to D.
  function XA(p: Points): (r: real)
    ensures p.a != p.x ==> r > 0.0
  {
    RAbs(p.a - p.x)
  }

  function AB(p: Points): (r: real)
    ensures p.b != p.a ==> r > 0.0
  {
    RAbs(p.b - p.a)
  }

  function BC(p: Points): (r: real)
    ensures p.c != p.b ==> r > 0.0
  {
    RAbs(p.c - p.b)
  }

  function CD(p: Points): real {
    RAbs(p.d - p.c)
  }

  function AD(p: Points): real {
    RAbs(p.a - p.d)
  }

  predicate Zigzags(p: Points) {
    if p.a > p.x then p.b < p.a && p.c > p.b && p.d < p.c
    else p.b > p.a && p.c < p.b && p.d > p.c
  }

  predicate RatiosFit(p: Points, s: Spec, tol: real)
    requires p.a != p.x && p.b != p.a && p.c != p.b
  {
    var xa, ab, bc := XA(p), AB(p), BC(p);
    && InRange(ab / xa, s.bxa, tol)
    && InRange(bc / ab, s.cab, tol)
    && InRange(AD(p) / xa, s.dxa, tol)
    && InRange(CD(p) / bc, s.cdbc, tol)
  }

  // Intersection of the two projections, or their hull when they do not meet.
  function Prz(m1: (real, real), m2: (real, real)): (real, real) {
    var lo := RMax(RMin(m1.0, m1.1), RMin(m2.0, m2.1));
    var hi := RMin(RMax(m1.0, m1.1), RMax(m2.0, m2.1));
    if lo > hi then (RMin(RMin(m1.0, m1.1), RMin(m2.0, m2.1)), RMax(RMax(m1.0, m1.1), RMax(m2.0, m2.1)))
    else (lo, hi)
  }

  // A multiple of a leg.
  function Part(leg: real, ratio: real): real {
    leg * ratio
  }

  function Emit(p: Points, name: Name): Pattern {
    var s, xa, bc := SpecOf(name), XA(p), BC(p);
    var buf := 0.5 * xa * 0.1;
    if p.a > p.x then
      var prz := Prz((p.a - Part(xa, s.dxa.lo), p.a - Part(xa, s.dxa.hi)),
                     (p.c - Part(bc, s.cdbc.hi), p.c - Part(bc, s.cdbc.lo)));
      Pattern(name, true, prz.0, prz.1, p.d, prz.0 - buf,
              p.d + (p.a - p.d) * TP1_RATIO, p.d + (p.a - p.d) * TP2_RATIO)
    else
      var prz := Prz((p.a + Part(xa, s.dxa.lo), p.a + Part(xa, s.dxa.hi)),
                     (p.c + Part(bc, s.cdbc.lo), p.c + Part(bc, s.cdbc.hi)));
      Pattern(name, false, prz.0, prz.1, p.d, prz.1 + buf,
              p.d - (p.d - p.a) * TP1_RATIO, p.d - (p.d - p.a) * TP2_RATIO)
  }

  function Validate(p: Points, name: Name, tol: real): Verdict {
    if p.a == p.x || p.b == p.a || p.c == p.b then ZeroLeg
    else if !Zigzags(p) then WrongShape
    else if !RatiosFit(p, SpecOf(name), tol) then RatioMiss
    else Match(Emit(p, name))
  }

  // ------------------------------------------------------------------
  // Geometry of accepted patterns
  // ------------------------------------------------------------------

  // D lies on the trade's side of A, so the targets lie strictly between them in order.
  predicate TargetsInOrder(p: Points, m: Pattern) {
    if m.bullish then p.d < m.tp1 < m.tp2 < p.a else p.d > m.tp1 > m.tp2 > p.a
  }

  // For any accepted pattern: the zone is never inverted and the stop is strictly outside it.
  lemma ZoneAndStop(p: Points, name: Name, tol: real)
    requires Validate(p, name, tol).Match?
    ensures var m := Validate(p, name, tol).pattern;
            && m.przLo <= m.przHi
            && m.bullish == (p.a > p.x)
            && if m.bullish then m.stop < m.przLo else m.stop > m.przHi
  {
    hide RatiosFit, Prz, SpecOf;
    forall m1: (real, real), m2: (real, real)
      ensures Prz(m1, m2).0 <= Prz(m1, m2).1
    {
      PrzIsOrdered(m1, m2);
    }
  }

  lemma PrzIsOrdered(m1: (real, real), m2: (real, real))
    ensures Prz(m1, m2).0 <= Prz(m1, m2).1
  {
  }

  // The targets are in order exactly when D is on the right side of A.
  lemma TargetsInOrderIff(p: Points, name: Name, tol: real)
    requires Validate(p, name, tol).Match?
    ensures TargetsInOrder(p, Validate(p, name, tol).pattern) <==> if p.a > p.x then p.d < p.a else p.d > p.a
  {
    hide RatiosFit, Prz, SpecOf;
  }

  // Where a walk ends whose legs turn back each time, each a given ratio of the leg before.
  function Walk(leg: real, ratios: seq<real>): real
    decreases |ratios|
  {
    if ratios == [] then 0.0 else Part(leg, ratios[0]) - Walk(Part(leg, ratios[0]), ratios[1..])
  }

  // How far D passes A, in units of XA, when the leg ratios are x (AB to XA), y (BC to AB) and
  // z (CD to BC).
  function Overshoot(x: real, y: real, z: real): real {
    -Walk(1.0, [x, y, z])
  }

  lemma OvershootIs(x: real, y: real, z: real)
    ensures Overshoot(x, y, z) == x * (y * (1.0 - z) - 1.0)
  {
    WalkOn(1.0, x, [y, z]);
    WalkOn(x, y, [z]);
    WalkOn(Part(x, y), z, []);
    assert Part(1.0, x) == x;
    assert [x] + [y, z] == [x, y, z] && [y] + [z] == [y, z] && [z] + [] == [z];
    hide Walk;
    Regroup(x, y, z);
    assert x * y * z == x * (y * z);
  }

  lemma WalkOn(leg: real, ratio: real, more: seq<real>)
    ensures Walk(leg, [ratio] + more) == Part(leg, ratio) - Walk(Part(leg, ratio), more)
    ensures Walk(leg, []) == 0.0
  {
    var ratios := [ratio] + more;
    assert ratios != [] && ratios[0] == ratio && ratios[1..] == more;
  }

  // The longest admitted B and C retracements with the shortest admitted CD bring D past A, far
  // enough for the shortest admitted AD.
  predicate CanOvershoot(name: Name, tol: real) {
    var s := SpecOf(name);
    Overshoot(Upper(s.bxa, tol), Upper(s.cab, tol), Lower(s.cdbc, tol)) >= Lower(s.dxa, tol)
  }

  predicate Safe(name: Name, tol: real) {
    !CanOvershoot(name, tol)
  }

  predicate OutOfOrder(p: Points, name: Name, tol: real) {
    Validate(p, name, tol).Match? && !TargetsInOrder(p, Validate(p, name, tol).pattern)
  }

  lemma StrictProduct(a: real, b: real)
    requires a > 0.0 && b > 0.0
    ensures a * b > 0.0
  {
  }

  lemma OvershootGrows(x: real, y: real, z: real, x': real, y': real, z': real)
    requires 0.0 < x <= x' && 0.0 < y <= y' && z' <= z && Overshoot(x, y, z) >= 0.0
    ensures Overshoot(x, y, z) <= Overshoot(x', y', z')
  {
    OvershootIs(x, y, z);
    OvershootIs(x', y', z');
    hide Overshoot;
    var a, a' := 1.0 - z, 1.0 - z';
    var g, g' := y * a - 1.0, y' * a' - 1.0;
    assert Overshoot(x, y, z) == x * g && Overshoot(x', y', z') == x' * g';
    OtherFactor(x, g);
    assert y * a >= 1.0;
    OtherFactor(y, a);
    ProductsInOrder(y, y', a, a');
    ProductsInOrder(x, x', g, g');
  }

  lemma ProductsInOrder(x: real, x': real, g: real, g': real)
    requires 0.0 < x <= x' && 0.0 <= g <= g'
    ensures x * g <= x' * g'
  {
    ProductInOrder(x, x', g);
    ProductInOrder(g, g', x');
  }

  lemma OtherFactor(x: real, g: real)
    requires x > 0.0
    ensures x * g >= 0.0 <==> g >= 0.0
  {
    if g < 0.0 {
      StrictProduct(x, -g);
      assert x * g == -(x * -g);
    }
  }

  // The distance from A to a D beyond it, read off the leg ratios.
  lemma OvershootOfLegs(xa: real, ab: real, bc: real, cd: real)
    requires xa > 0.0 && ab > 0.0 && bc > 0.0
    ensures (bc - ab - cd) / xa == Overshoot(ab / xa, bc / ab, cd / bc)
  {
    var x, y, z := ab / xa, bc / ab, cd / bc;
    assert ab == x * xa && bc == y * ab && cd == z * bc;
    assert bc - cd == ab * (y * (1.0 - z)) by {
      assert bc - cd == bc * (1.0 - z);
      Regroup(y, ab, 1.0 - z);
    }
    assert bc - ab - cd == ab * (y * (1.0 - z) - 1.0);
    Regroup(x, xa, y * (1.0 - z) - 1.0);
    OvershootIs(x, y, z);
    QuotientIs(bc - ab - cd, xa, Overshoot(x, y, z));
  }

  lemma Regroup(a: real, b: real, c: real)
    ensures (a * b) * c == b * (a * c)
  {
  }

  lemma QuotientIs(x: real, d: real, q: real)
    requires d > 0.0 && x == d * q
    ensures x / d == q
  {
  }

  lemma LegsPastA(p: Points)
    requires Zigzags(p) && p.a != p.x && !(if p.a > p.x then p.d < p.a else p.d > p.a)
    ensures AD(p) == BC(p) - AB(p) - CD(p) >= 0.0
  {
  }

  // An accepted pattern that is out of order shows that its name and tolerance allow one.
  lemma OutOfOrderOvershoots(p: Points, name: Name, tol: real)
    ensures OutOfOrder(p, name, tol) ==> CanOvershoot(name, tol)
  {
    if !OutOfOrder(p, name, tol) {
      return;
    }
    TargetsInOrderIff(p, name, tol);
    LegsPastA(p);
    hide Emit, SpecOf, Lower, Upper, TargetsInOrder, Zigzags, XA, AB, BC, CD, AD;
    var s, x, y, z := SpecOf(name), AB(p) / XA(p), BC(p) / AB(p), CD(p) / BC(p);
    OvershootOfLegs(XA(p), AB(p), BC(p), CD(p));
    PositiveQuotient(AB(p), XA(p));
    PositiveQuotient(BC(p), AB(p));
    PositiveQuotient(AD(p), XA(p));
    hide Overshoot;
    OvershootGrows(x, y, z, Upper(s.bxa, tol), Upper(s.cab, tol), Lower(s.cdbc, tol));
  }

  lemma PositiveQuotient(x: real, d: real)
    requires x >= 0.0 && d > 0.0
    ensures x / d >= 0.0
    ensures x > 0.0 ==> x / d > 0.0
  {
  }

  // A negative tolerance allows none.
  lemma NegativeIsSafe(name: Name, tol: real)
    requires tol < 0.0
    ensures Safe(name, tol)
  {
    var s := SpecOf(name);
    var x, y, z := Upper(s.bxa, tol), Upper(s.cab, tol), Lower(s.cdbc, tol);
    assert 0.0 < s.bxa.hi < s.dxa.lo && s.cab.hi > 0.0 && s.cdbc.lo > 1.0;
    ShrunkenRanges(s.bxa, s.cab, s.cdbc, s.dxa, tol);
  }

  lemma ShrunkenRanges(bxa: Range, cab: Range, cdbc: Range, dxa: Range, tol: real)
    requires tol < 0.0 && 0.0 < bxa.hi < dxa.lo && cab.hi > 0.0 && cdbc.lo > 1.0
    ensures Overshoot(Upper(bxa, tol), Upper(cab, tol), Lower(cdbc, tol)) < Lower(dxa, tol)
  {
    LowerRises(cdbc, tol);
    LowerRises(dxa, tol);
    UpperShrinks(bxa, tol);
    UpperShrinks(cab, tol);
    InvertedBound(bxa, dxa, tol);
    hide Upper, Lower, Overshoot;
    var x, y, z := Upper(bxa, tol), Upper(cab, tol), Lower(cdbc, tol);
    if tol >= -1.0 {
      NoOvershootBackwards(x, y, z);
    } else {
      LittleOvershootInverted(x, y, z);
    }
  }

  lemma LowerRises(r: Range, tol: real)
    requires tol < 0.0 && r.lo > 0.0
    ensures Lower(r, tol) > r.lo
  {
    StrictProduct(r.lo, -tol);
    assert Lower(r, tol) == r.lo + r.lo * -tol;
  }

  lemma UpperShrinks(r: Range, tol: real)
    requires r.hi > 0.0
    ensures if tol >= -1.0 then Upper(r, tol) >= 0.0 else Upper(r, tol) < 0.0
  {
    if tol >= -1.0 {
      ProductInOrder(0.0, 1.0 + tol, r.hi);
    } else {
      StrictProduct(r.hi, -1.0 - tol);
      assert -Upper(r, tol) == r.hi * (-1.0 - tol);
    }
  }

  lemma InvertedBound(a: Range, b: Range, tol: real)
    requires 0.0 < a.hi < b.lo
    ensures tol < -1.0 ==> -Upper(a, tol) < Lower(b, tol)
  {
    if tol < -1.0 {
      ProductInOrder(a.hi, b.lo, -1.0 - tol);
      assert -Upper(a, tol) == (-1.0 - tol) * a.hi;
      assert Lower(b, tol) == (-1.0 - tol) * b.lo + 2.0 * b.lo;
    }
  }

  lemma NoOvershootBackwards(x: real, y: real, z: real)
    requires x >= 0.0 && y >= 0.0 && z > 1.0
    ensures Overshoot(x, y, z) <= 0.0
  {
    OvershootIs(x, y, z);
    ProductInOrder(1.0 - z, 0.0, y);
    ProductInOrder(y * (1.0 - z) - 1.0, 0.0, x);
  }

  lemma LittleOvershootInverted(x: real, y: real, z: real)
    requires x < 0.0 && y < 0.0 && z > 1.0
    ensures Overshoot(x, y, z) <= -x
  {
    OvershootIs(x, y, z);
    var g := (-y) * (z - 1.0) - 1.0;
    StrictProduct(-y, z - 1.0);
    assert y * (1.0 - z) - 1.0 == g;
    ProductInOrder(-1.0, g, -x);
    assert x * g == -((-x) * g);
  }

  // Out of order at exactly the longest retracements: D a distance v past A.
  function Extreme(x: real, y: real, v: real): Points {
    Points(0.0, 1.0, 1.0 - x, 1.0 - x + Part(x, y), 1.0 + v)
  }

  lemma ExtremeLegs(x: real, y: real, v: real)
    requires x > 0.0 && y > 0.0 && v >= 0.0 && Part(x, y) - x - v > 0.0
    ensures var p := Extreme(x, y, v);
            && XA(p) == 1.0 && AB(p) == x && BC(p) == Part(x, y) && CD(p) == Part(x, y) - x - v && AD(p) == v
            && Zigzags(p) && p.a > p.x && p.d >= p.a && p.a != p.b && p.b != p.c
            && AB(p) / XA(p) == x && BC(p) / AB(p) == y && AD(p) / XA(p) == v
  {
    QuotientIs(Part(x, y), x, y);
    StrictProduct(x, y);
    hide Part;
    QuotientIs(v, 1.0, v);
    QuotientIs(x, 1.0, x);
  }

  lemma QuotientInRange(x: real, d: real, lo: real, hi: real)
    requires d > 0.0 && lo * d <= x <= hi * d
    ensures lo <= x / d <= hi
  {
    assert x == (x / d) * d;
  }

  // A D at distance v past A is within reach of the ratios x, y and at least z.
  predicate WithinReach(x: real, y: real, z: real, v: real) {
    x > 0.0 && y > 0.0 && v >= 0.0 && Part(x, y) - x - v > 0.0 && Overshoot(x, y, z) >= v
  }

  // So the extreme points at that distance meet every range.
  predicate FitsAt(s: Spec, tol: real, v: real) {
    && WithinReach(Upper(s.bxa, tol), Upper(s.cab, tol), Lower(s.cdbc, tol), v)
    && Lower(s.bxa, tol) <= Upper(s.bxa, tol) && Lower(s.cab, tol) <= Upper(s.cab, tol)
    && Lower(s.dxa, tol) <= v <= Upper(s.dxa, tol) && Upper(s.cdbc, tol) >= 1.0
  }

  lemma ExtremeCd(x: real, y: real, z: real, v: real, top: real)
    requires WithinReach(x, y, z, v) && top >= 1.0
    ensures Part(x, y) > 0.0 && z <= (Part(x, y) - x - v) / Part(x, y) <= top
  {
    StrictProduct(x, y);
    OvershootExpanded(x, y, z);
    hide Overshoot, Part;
    CdInRange(x, Part(x, y), z, v, top);
  }

  lemma CdInRange(x: real, bc: real, z: real, v: real, top: real)
    requires x > 0.0 && bc > 0.0 && v >= 0.0 && top >= 1.0 && bc - Part(z, bc) - x >= v
    ensures z <= (bc - x - v) / bc <= top
  {
    ProductInOrder(1.0, top, bc);
    assert top * bc == bc * top && z * bc == Part(z, bc);
    QuotientInRange(bc - x - v, bc, z, top);
  }

  lemma ExtremeFits(s: Spec, tol: real, v: real)
    requires FitsAt(s, tol, v)
    ensures var p := Extreme(Upper(s.bxa, tol), Upper(s.cab, tol), v);
            && Zigzags(p) && p.a > p.x && p.d >= p.a && p.a != p.b && p.b != p.c && RatiosFit(p, s, tol)
  {
    var x, y, z := Upper(s.bxa, tol), Upper(s.cab, tol), Lower(s.cdbc, tol);
    hide Lower, Upper;
    ExtremeLegs(x, y, v);
    ExtremeCd(x, y, z, v, Upper(s.cdbc, tol));
    hide Extreme, Overshoot, WithinReach, XA, AB, BC, CD, AD, Zigzags, Part;
  }

  lemma LowerIsPositive(r: Range, tol: real)
    requires r.lo > 0.0 && tol < 1.0
    ensures Lower(r, tol) > 0.0
  {
    StrictProduct(r.lo, 1.0 - tol);
  }

  // Bounds of the ranges at a tolerance that does not shrink them.
  lemma WidenedRange(r: Range, tol: real)
    requires 0.0 < r.lo <= r.hi && tol >= 0.0
    ensures Lower(r, tol) <= r.lo <= r.hi <= Upper(r, tol)
    ensures tol < 1.0 ==> Lower(r, tol) > 0.0
    ensures tol >= 1.0 ==> Lower(r, tol) <= 0.0 && Upper(r, tol) >= 2.0 * r.hi
  {
    ProductInOrder(0.0, tol, r.lo);
    ProductInOrder(0.0, tol, r.hi);
    if tol < 1.0 {
      LowerIsPositive(r, tol);
    } else {
      ProductInOrder(1.0, tol, r.lo);
      ProductInOrder(1.0, tol, r.hi);
    }
  }

  predicate PositiveRange(r: Range) {
    0.0 < r.lo <= r.hi
  }

  lemma SpecIsPositive(name: Name)
    ensures var s := SpecOf(name);
            && PositiveRange(s.bxa) && PositiveRange(s.cab) && PositiveRange(s.dxa) && PositiveRange(s.cdbc)
            && s.cab.hi > 0.5 && s.cdbc.hi >= 1.0
  {
  }

  lemma ExtremeExists(name: Name, tol: real) returns (p: Points)
    requires CanOvershoot(name, tol)
    ensures OutOfOrder(p, name, tol)
  {
    if tol < 0.0 {
      NegativeIsSafe(name, tol);
    }
    SpecIsPositive(name);
    hide SpecOf, Emit, FitsAt, Overshoot;
    var s := SpecOf(name);
    var v := ExtremeLength(s, tol);
    ExtremeFits(s, tol, v);
    p := Extreme(Upper(s.bxa, tol), Upper(s.cab, tol), v);
    hide Extreme, Lower, Upper, RatiosFit, TargetsInOrder, Zigzags;
    assert Validate(p, name, tol).Match?;
    TargetsInOrderIff(p, name, tol);
  }

  // How far past A the extreme D is put: just far enough to be admitted.
  lemma ExtremeLength(s: Spec, tol: real) returns (v: real)
    requires PositiveRange(s.bxa) && PositiveRange(s.cab) && PositiveRange(s.dxa) && PositiveRange(s.cdbc)
    requires s.cab.hi > 0.5 && s.cdbc.hi >= 1.0 && tol >= 0.0
    requires Overshoot(Upper(s.bxa, tol), Upper(s.cab, tol), Lower(s.cdbc, tol)) >= Lower(s.dxa, tol)
    ensures FitsAt(s, tol, v)
  {
    WidenedRange(s.bxa, tol);
    WidenedRange(s.cab, tol);
    WidenedRange(s.dxa, tol);
    WidenedRange(s.cdbc, tol);
    hide Lower, Upper, Overshoot, WithinReach;
    v := RMax(Lower(s.dxa, tol), 0.0);
    LongEnough(Upper(s.bxa, tol), Upper(s.cab, tol), Lower(s.cdbc, tol), v, tol);
  }

  lemma OvershootExpanded(x: real, y: real, z: real)
    ensures Overshoot(x, y, z) == Part(x, y) - Part(z, Part(x, y)) - x
  {
    OvershootIs(x, y, z);
    hide Overshoot;
    assert x * (y * (1.0 - z) - 1.0) == x * (y * (1.0 - z)) - x;
    Regroup(x, y, 1.0 - z);
    var bc := Part(x, y);
    assert x * (y * (1.0 - z)) == bc * (1.0 - z);
  }

  lemma LongEnough(x: real, y: real, z: real, v: real, tol: real)
    requires x > 0.0 && y > 0.0 && v >= 0.0
    requires if tol < 1.0 then z > 0.0 && Overshoot(x, y, z) >= v else z <= 0.0 && y > 1.0 && v == 0.0
    ensures WithinReach(x, y, z, v)
  {
    StrictProduct(x, y);
    OvershootExpanded(x, y, z);
    hide Overshoot;
    if tol < 1.0 {
      PartSign(z, Part(x, y));
    } else {
      StrictProduct(x, y - 1.0);
      assert Part(x, y) - x == x * (y - 1.0);
      PartSign(z, Part(x, y));
    }
    hide Part;
  }

  lemma PartSign(z: real, bc: real)
    requires bc > 0.0
    ensures z > 0.0 ==> Part(z, bc) > 0.0
    ensures z <= 0.0 ==> Part(z, bc) <= 0.0
  {
    if z > 0.0 {
      StrictProduct(z, bc);
    } else {
      ProductInOrder(z, 0.0, bc);
    }
  }

  // The exact threshold, for every name and tolerance: some accepted pattern is out of order
  // if and only if the extreme ratios bring D far enough past A.
  lemma OvershootIff(name: Name, tol: real)
    ensures (exists p :: OutOfOrder(p, name, tol)) <==> CanOvershoot(name, tol)
  {
    if CanOvershoot(name, tol) {
      var p := ExtremeExists(name, tol);
    }
    forall p | OutOfOrder(p, name, tol)
      ensures CanOvershoot(name, tol)
    {
      OutOfOrderOvershoots(p, name, tol);
    }
  }

  // Below the threshold every accepted pattern has its targets in order.
  lemma SafeTargets(p: Points, name: Name, tol: real)
    requires Safe(name, tol)
    ensures Validate(p, name, tol).Match? ==> TargetsInOrder(p, Validate(p, name, tol).pattern)
  {
    hide CanOvershoot;
    if OutOfOrder(p, name, tol) {
      OutOfOrderOvershoots(p, name, tol);
    }
  }

  // A smaller tolerance than a safe one is safe.
  lemma SafeBelow(name: Name, tol: real, larger: real)
    requires 0.0 <= tol <= larger && Safe(name, larger)
    ensures Safe(name, tol)
  {
    if CanOvershoot(name, tol) {
      var p := ExtremeExists(name, tol);
      WiderAccepts(p, name, tol, larger);
      OutOfOrderOvershoots(p, name, larger);
    }
  }

  lemma WiderRange(ratio: real, r: Range, tol: real, larger: real)
    requires PositiveRange(r) && 0.0 <= tol <= larger && InRange(ratio, r, tol)
    ensures InRange(ratio, r, larger)
  {
    ProductInOrder(tol, larger, r.lo);
    ProductInOrder(tol, larger, r.hi);
  }

  lemma WiderAccepts(p: Points, name: Name, tol: real, larger: real)
    requires 0.0 <= tol <= larger && Validate(p, name, tol).Match?
    ensures Validate(p, name, larger) == Validate(p, name, tol)
  {
    SpecIsPositive(name);
    hide SpecOf, InRange, Emit, XA, AB, BC, CD, AD;
    var s := SpecOf(name);
    WiderRange(AB(p) / XA(p), s.bxa, tol, larger);
    WiderRange(BC(p) / AB(p), s.cab, tol, larger);
    WiderRange(AD(p) / XA(p), s.dxa, tol, larger);
    WiderRange(CD(p) / BC(p), s.cdbc, tol, larger);
  }

  // Every pattern the detector knows is safe at twice the default tolerance, the disabled Shark
  // included.
  lemma DefaultsAreSafe(name: Name)
    ensures Safe(name, 2.0 * DEFAULT_TOL) && Safe(name, DEFAULT_TOL) && Safe(name, 0.0)
  {
    var tol := 2.0 * DEFAULT_TOL;
    assert tol == 0.24;
    NumbersAreSafe(name);
    SafeBelow(name, DEFAULT_TOL, tol);
    SafeBelow(name, 0.0, tol);
  }

  lemma NumbersAreSafe(name: Name)
    ensures Safe(name, 0.24)
  {
    var s := SpecOf(name);
    OvershootIs(Upper(s.bxa, 0.24), Upper(s.cab, 0.24), Lower(s.cdbc, 0.24));
    hide Overshoot;
    assert Upper(s.bxa, 0.24) == s.bxa.hi * 1.24 && Upper(s.cab, 0.24) == s.cab.hi * 1.24;
    assert Lower(s.cdbc, 0.24) == s.cdbc.lo * 0.76 && Lower(s.dxa, 0.24) == s.dxa.lo * 0.76;
  }

  // Far beyond the default some names are still safe.
  lemma LooseButSafe(tol: real)
    ensures 0.0 <= tol <= 0.3 ==> Safe(Gartley, tol)
    ensures 0.0 <= tol <= 0.5 ==> Safe(Shark, tol)
  {
    var g, s := SpecOf(Gartley), SpecOf(Shark);
    OvershootIs(Upper(g.bxa, 0.3), Upper(g.cab, 0.3), Lower(g.cdbc, 0.3));
    OvershootIs(Upper(s.bxa, 0.5), Upper(s.cab, 0.5), Lower(s.cdbc, 0.5));
    hide Overshoot;
    assert Upper(g.bxa, 0.3) == 0.8034 && Upper(g.cab, 0.3) == 1.1518 && Lower(g.cdbc, 0.3) == 0.8904;
    assert Upper(s.bxa, 0.5) == 0.927 && Upper(s.cab, 0.5) == 2.427 && Lower(s.cdbc, 0.5) == 0.809;
    if 0.0 <= tol <= 0.3 {
      SafeBelow(Gartley, tol, 0.3);
    }
    if 0.0 <= tol <= 0.5 {
      SafeBelow(Shark, tol, 0.5);
    }
  }

  // With a loose tolerance the order does fail: an accepted Shark whose targets lie below D.
  lemma LooseShark() returns (p: Points, m: Pattern)
    ensures Validate(p, Shark, 0.8) == Match(m) && m.bullish && m.tp2 < m.tp1 < p.d
  {
    p := Points(10.0, 20.0, 10.0, 35.0, 25.0);
    assert 10.0 / 10.0 == 1.0 && 25.0 / 10.0 == 2.5 && 5.0 / 10.0 == 0.5 && 10.0 / 25.0 == 0.4;
    assert RatiosFit(p, SpecOf(Shark), 0.8);
    m := Emit(p, Shark);
    hide Prz, SpecOf;
  }

  // ------------------------------------------------------------------
  // The zone and the point that completes the pattern
  // ------------------------------------------------------------------

  lemma ProductInOrder(x: real, y: real, u: real)
    requires x <= y && u >= 0.0
    ensures u * x <= u * y
  {
  }

  // A leg whose ratio is admitted misses the exact multiples of its unit by the tolerance at most.
  lemma LegReach(leg: real, unit: real, r: Range, tol: real)
    requires unit > 0.0 && 0.0 <= r.lo <= r.hi && tol >= 0.0 && InRange(leg / unit, r, tol)
    ensures Part(unit, r.lo) <= Part(unit, r.hi)
    ensures Part(unit, r.lo) - Part(tol, Part(unit, r.hi)) <= leg <= Part(unit, r.hi) + Part(tol, Part(unit, r.hi))
  {
    assert leg == unit * (leg / unit);
    ProductInOrder(Lower(r, tol), leg / unit, unit);
    ProductInOrder(leg / unit, Upper(r, tol), unit);
    assert unit * Lower(r, tol) == unit * r.lo - tol * (unit * r.lo);
    assert unit * Upper(r, tol) == unit * r.hi + tol * (unit * r.hi);
    ProductInOrder(r.lo, r.hi, unit);
    ProductInOrder(unit * r.lo, unit * r.hi, tol);
  }

  predicate Near(d: real, m: (real, real), slack: real) {
    RMin(m.0, m.1) - slack <= d <= RMax(m.0, m.1) + slack
  }

  // How far the tolerance lets D stray.
  function Slack(p: Points, name: Name, tol: real): real {
    Part(tol, RMax(Part(XA(p), SpecOf(name).dxa.hi), Part(BC(p), SpecOf(name).cdbc.hi)))
  }

  lemma SpecIsOrdered(name: Name)
    ensures 0.0 <= SpecOf(name).dxa.lo <= SpecOf(name).dxa.hi
    ensures 0.0 <= SpecOf(name).cdbc.lo <= SpecOf(name).cdbc.hi
  {
  }

  // A leg of about the right length ends near its projection from the origin.
  lemma ProjectionBelow(d: real, origin: real, leg: real, lo: real, hi: real, slack: real)
    requires lo <= hi && lo - slack <= leg <= hi + slack && d == origin - leg
    ensures Near(d, (origin - lo, origin - hi), slack) && Near(d, (origin - hi, origin - lo), slack)
  {
  }

  lemma ProjectionAbove(d: real, origin: real, leg: real, lo: real, hi: real, slack: real)
    requires lo <= hi && lo - slack <= leg <= hi + slack && d == origin + leg
    ensures Near(d, (origin + lo, origin + hi), slack)
  {
  }

  // Both legs into D have about their projected lengths.
  predicate LegsReach(p: Points, name: Name, slack: real) {
    var s, xa, bc := SpecOf(name), XA(p), BC(p);
    && Part(xa, s.dxa.lo) <= Part(xa, s.dxa.hi) && Part(bc, s.cdbc.lo) <= Part(bc, s.cdbc.hi)
    && Part(xa, s.dxa.lo) - slack <= AD(p) <= Part(xa, s.dxa.hi) + slack
    && Part(bc, s.cdbc.lo) - slack <= CD(p) <= Part(bc, s.cdbc.hi) + slack
  }

  lemma LegsReachD(p: Points, name: Name, tol: real)
    requires Validate(p, name, tol).Match? && tol >= 0.0
    ensures LegsReach(p, name, Slack(p, name, tol))
    ensures tol == 0.0 ==> Slack(p, name, tol) == 0.0
  {
    var s, xa, bc := SpecOf(name), XA(p), BC(p);
    SpecIsOrdered(name);
    hide Emit, SpecOf, InRange, Part, XA, BC, CD, AD;
    LegReach(AD(p), xa, s.dxa, tol);
    LegReach(CD(p), bc, s.cdbc, tol);
    PartOfLonger(tol, Part(xa, s.dxa.hi), Part(bc, s.cdbc.hi));
  }

  lemma PartOfLonger(tol: real, x: real, y: real)
    requires tol >= 0.0
    ensures Part(tol, x) <= Part(tol, RMax(x, y)) && Part(tol, y) <= Part(tol, RMax(x, y))
    ensures tol == 0.0 ==> Part(tol, RMax(x, y)) == 0.0
  {
    ProductInOrder(x, RMax(x, y), tol);
    ProductInOrder(y, RMax(x, y), tol);
  }

  lemma LegsIntoD(p: Points)
    requires Zigzags(p) && if p.a > p.x then p.d < p.a else p.d > p.a
    ensures p.a > p.x ==> p.d == p.a - AD(p) && p.d == p.c - CD(p)
    ensures p.a <= p.x ==> p.d == p.a + AD(p) && p.d == p.c + CD(p)
  {
  }

  // D ends near both of the projections that span the zone.
  predicate NearProjections(p: Points, name: Name, slack: real) {
    var s, xa, bc := SpecOf(name), XA(p), BC(p);
    var xlo, xhi, blo, bhi := Part(xa, s.dxa.lo), Part(xa, s.dxa.hi), Part(bc, s.cdbc.lo), Part(bc, s.cdbc.hi);
    if p.a > p.x then Near(p.d, (p.a - xlo, p.a - xhi), slack) && Near(p.d, (p.c - bhi, p.c - blo), slack)
    else Near(p.d, (p.a + xlo, p.a + xhi), slack) && Near(p.d, (p.c + blo, p.c + bhi), slack)
  }

  lemma EmittedZone(p: Points, name: Name, slack: real)
    requires NearProjections(p, name, slack)
    ensures var m := Emit(p, name); m.przLo - slack <= p.d <= m.przHi + slack
  {
    hide Near, Prz, SpecOf, Part, XA, BC;
    var s, xa, bc := SpecOf(name), XA(p), BC(p);
    var xlo, xhi := Part(xa, s.dxa.lo), Part(xa, s.dxa.hi);
    var blo, bhi := Part(bc, s.cdbc.lo), Part(bc, s.cdbc.hi);
    if p.a > p.x {
      NearZone(p.d, (p.a - xlo, p.a - xhi), (p.c - bhi, p.c - blo), slack);
    } else {
      NearZone(p.d, (p.a + xlo, p.a + xhi), (p.c + blo, p.c + bhi), slack);
    }
  }

  lemma AcceptedNearProjections(p: Points, name: Name, slack: real)
    requires LegsReach(p, name, slack) && Zigzags(p)
    requires if p.a > p.x then p.d < p.a else p.d > p.a
    ensures NearProjections(p, name, slack)
  {
    LegsIntoD(p);
    hide SpecOf, Near, Part, XA, BC, CD, AD, Zigzags;
    var s, xa, bc := SpecOf(name), XA(p), BC(p);
    if p.a > p.x {
      ProjectionBelow(p.d, p.a, AD(p), Part(xa, s.dxa.lo), Part(xa, s.dxa.hi), slack);
      ProjectionBelow(p.d, p.c, CD(p), Part(bc, s.cdbc.lo), Part(bc, s.cdbc.hi), slack);
    } else {
      ProjectionAbove(p.d, p.a, AD(p), Part(xa, s.dxa.lo), Part(xa, s.dxa.hi), slack);
      ProjectionAbove(p.d, p.c, CD(p), Part(bc, s.cdbc.lo), Part(bc, s.cdbc.hi), slack);
    }
  }

  // Every accepted D that has not passed A lies in the zone up to the tolerance's share of the
  // longer projection.
  lemma CompletionNearZone(p: Points, name: Name, tol: real)
    requires tol >= 0.0 && if p.a > p.x then p.d < p.a else p.d > p.a
    ensures var v := Validate(p, name, tol);
            v.Match? ==> v.pattern.przLo - Slack(p, name, tol) <= p.d <= v.pattern.przHi + Slack(p, name, tol)
  {
    if Validate(p, name, tol).Match? {
      LegsReachD(p, name, tol);
      hide Emit, RatiosFit, Slack, NearProjections, LegsReach;
      AcceptedNearProjections(p, name, Slack(p, name, tol));
      EmittedZone(p, name, Slack(p, name, tol));
    }
  }

  // Without tolerance every accepted D lies inside the zone.
  lemma CompletionInZone(p: Points, name: Name)
    ensures var v := Validate(p, name, 0.0); v.Match? ==> v.pattern.przLo <= p.d <= v.pattern.przHi
  {
    if Validate(p, name, 0.0).Match? {
      DefaultsAreSafe(name);
      SafeTargets(p, name, 0.0);
      TargetsInOrderIff(p, name, 0.0);
      CompletionNearZone(p, name, 0.0);
      LegsReachD(p, name, 0.0);
      hide Validate, Slack;
    }
  }

  lemma NearZone(d: real, m1: (real, real), m2: (real, real), slack: real)
    requires Near(d, m1, slack) && Near(d, m2, slack)
    ensures Prz(m1, m2).0 - slack <= d <= Prz(m1, m2).1 + slack
  {
  }

  // ------------------------------------------------------------------
  // Reflection
  // ------------------------------------------------------------------

  function MirrorPoints(k: real, p: Points): Points {
    Points(k - p.x, k - p.a, k - p.b, k - p.c, k - p.d)
  }

  function MirrorVerdict(k: real, v: Verdict): Verdict {
    match v
    case Match(m) => Match(Pattern(m.name, !m.bullish, k - m.przHi, k - m.przLo, k - m.entry, k - m.stop,
                                   k - m.tp1, k - m.tp2))
    case _ => v
  }

  lemma PrzMirror(k: real, m1: (real, real), m2: (real, real), n1: (real, real), n2: (real, real))
    requires n1 == (k - m1.0, k - m1.1) && n2 == (k - m2.1, k - m2.0)
    ensures Prz(n1, n2) == (k - Prz(m1, m2).1, k - Prz(m1, m2).0)
  {
  }

  lemma LegsMirror(k: real, p: Points)
    ensures var q := MirrorPoints(k, p);
            && XA(q) == XA(p) && AB(q) == AB(p)
            && BC(q) == BC(p) && AD(q) == AD(p)
            && CD(q) == CD(p)
  {
  }

  lemma EmitMirror(k: real, p: Points, name: Name)
    requires p.a != p.x
    ensures Match(Emit(MirrorPoints(k, p), name)) == MirrorVerdict(k, Match(Emit(p, name)))
  {
    LegsMirror(k, p);
    hide Prz, SpecOf, Part, XA, BC;
    var s, xa, bc := SpecOf(name), XA(p), BC(p);
    var xlo, xhi := Part(xa, s.dxa.lo), Part(xa, s.dxa.hi);
    var blo, bhi := Part(bc, s.cdbc.lo), Part(bc, s.cdbc.hi);
    var q := MirrorPoints(k, p);
    if p.a > p.x {
      PrzMirror(k, (p.a - xlo, p.a - xhi), (p.c - bhi, p.c - blo), (q.a + xlo, q.a + xhi), (q.c + blo, q.c + bhi));
    } else {
      PrzMirror(k, (p.a + xlo, p.a + xhi), (p.c + blo, p.c + bhi), (q.a - xlo, q.a - xhi), (q.c - bhi, q.c - blo));
    }
  }

  // Turning all prices upside down turns bullish verdicts into bearish ones, and back.
  lemma ValidateMirror(k: real, p: Points, name: Name, tol: real)
    ensures Validate(MirrorPoints(k, p), name, tol) == MirrorVerdict(k, Validate(p, name, tol))
  {
    LegsMirror(k, p);
    hide Emit, InRange, SpecOf, XA, AB, BC, CD, AD;
    if p.a != p.x {
      EmitMirror(k, p, name);
    }
  }

  // ------------------------------------------------------------------
  // Scanning windows of five pivots
  // ------------------------------------------------------------------

  function Window(ps: seq<Pivot>, i: nat): Points
    requires 4 <= i < |ps|
  {
    Points(ps[i - 4].price, ps[i - 3].price, ps[i - 2].price, ps[i - 1].price, ps[i].price)
  }

  predicate Positive(bars: seq<Bar>) {
    forall k :: 0 <= k < |bars| ==> 0.0 < bars[k].low && 0.0 < bars[k].high && 0.0 < bars[k].close
  }

  lemma UpDown(price: real, pct: real)
    requires price > 0.0 && 0.0 < pct < 1.0
    ensures 0.0 < Down(price, pct) < price < Up(price, pct)
  {
    assert price * pct > 0.0;
    assert price * (1.0 - pct) > 0.0;
  }

  // Five well-swung positive pivots pass the structural checks for every pattern and tolerance.
  lemma WindowIsStructured(ps: seq<Pivot>, pct: real, i: nat, name: Name, tol: real)
    requires 4 <= i < |ps| && WellSwung(ps, pct) && 0.0 < pct < 1.0
    requires forall k :: 0 <= k < |ps| ==> ps[k].price > 0.0
    ensures !Validate(Window(ps, i), name, tol).ZeroLeg?
    ensures !Validate(Window(ps, i), name, tol).WrongShape?
    ensures (Window(ps, i).a > Window(ps, i).x) == ps[i].kind.L?
  {
    hide Up, Down, RatiosFit, Emit;
    forall k | 0 < k < |ps|
      ensures ps[k].kind == ps[k - 1].kind.Other()
      ensures if ps[k].kind.H? then ps[k].price > ps[k - 1].price else ps[k].price < ps[k - 1].price
    {
      UpDown(ps[k - 1].price, pct);
      assert Swing(ps[k - 1], ps[k], pct);
    }
    assert ps[i - 3].kind == ps[i - 4].kind.Other();
    assert ps[i - 2].kind == ps[i - 3].kind.Other();
    assert ps[i - 1].kind == ps[i - 2].kind.Other();
    assert ps[i].kind == ps[i - 1].kind.Other();
  }

  lemma {:induction false} SeedIsPositive(bars: seq<Bar>, i: nat)
    requires Positive(bars) && 0 < i <= |bars|
    ensures Seed(bars, i).1 > 0.0
  {
    if i > 1 {
      SeedIsPositive(bars, i - 1);
    }
  }

  lemma PivotsArePositive(bars: seq<Bar>, pct: real, out: seq<Pivot>, cs: seq<nat>)
    requires Positive(bars) && IsZigZag(bars, pct, out, cs)
    ensures forall k :: 0 <= k < |out| ==> out[k].price > 0.0
  {
    PivotsAreWellSwung(bars, pct, out, cs);
    hide Leg, Confirmed, WellSwung, Quiet, Seed;
    if |out| > 1 {
      SeedIsPositive(bars, cs[0]);
      assert out[0] == Front(out)[0];
      forall k | 0 < k < |out|
        ensures out[k].price > 0.0
      {
        if k < |out| - 1 {
          assert InnerExtreme(bars, out, cs, k);
        }
      }
    }
  }

  // The patterns found in window i, in the order of the names.
  function Found(ps: seq<Pivot>, names: seq<Name>, tol: real, i: nat): seq<Pattern>
    requires 4 <= i < |ps|
  {
    if names == [] then []
    else
      var v := Validate(Window(ps, i), Last(names), tol);
      Found(ps, Front(names), tol, i) + if v.Match? then [v.pattern] else []
  }

  function FoundFrom(ps: seq<Pivot>, names: seq<Name>, tol: real, start: nat, n: nat): seq<Pattern>
    requires 4 <= start <= n <= |ps|
  {
    if n == start then [] else FoundFrom(ps, names, tol, start, n - 1) + Found(ps, names, tol, n - 1)
  }

  function Report(ps: seq<Pivot>, names: seq<Name>, tol: real, onlyLatest: bool): seq<Pattern> {
    if |ps| < 5 then [] else FoundFrom(ps, names, tol, if onlyLatest then |ps| - 1 else 4, |ps|)
  }

  // No names stands for the configured ones.
  function NamesOr(names: seq<Name>): seq<Name> {
    if names == [] then DEFAULT_NAMES else names
  }

  // The signals are what the windows of the bars' zigzag report.
  ghost predicate Scanned(bars: seq<Bar>, pct: real, tol: real, names: seq<Name>, onlyLatest: bool,
                          signals: seq<Pattern>)
  {
    exists ps :: ZigZagOf(bars, pct, ps) && signals == Report(ps, NamesOr(names), tol, onlyLatest)
  }

  method Scan(bars: seq<Bar>, pct: real, tol: real, names: seq<Name>, onlyLatest: bool)
      returns (signals: seq<Pattern>)
    ensures Scanned(bars, pct, tol, names, onlyLatest, signals)
  {
    hide Validate, ZigZagOf, NamesOr;
    signals := [];
    var pts := FindPivots(bars, pct);
    if |pts| < 5 {
      return;
    }
    var chosen := NamesOr(names);
    var start := if onlyLatest then |pts| - 1 else 4;
    for i := start to |pts|
      invariant signals == FoundFrom(pts, chosen, tol, start, i)
    {
      ghost var before := signals;
      for j := 0 to |chosen|
        invariant signals == before + Found(pts, chosen[..j], tol, i)
      {
        assert Front(chosen[..j + 1]) == chosen[..j];
        var v := Validate(Window(pts, i), chosen[j], tol);
        if v.Match? {
          signals := signals + [v.pattern];
        }
      }
      assert chosen[..|chosen|] == chosen;
    }
  }

  // Every signal comes from a window that only its ratios could have rejected.
  ghost predicate FromWindow(ps: seq<Pivot>, names: seq<Name>, tol: real, m: Pattern) {
    exists i, j :: 4 <= i < |ps| && 0 <= j < |names| && Validate(Window(ps, i), names[j], tol) == Match(m)
      && m.bullish == ps[i].kind.L?
      && TargetsInOrder(Window(ps, i), m)
  }

  // The stop is outside the zone and the targets lie ahead of the entry.
  predicate Placed(m: Pattern) {
    && m.przLo <= m.przHi
    && if m.bullish then m.stop < m.przLo && m.entry < m.tp1 < m.tp2
       else m.stop > m.przHi && m.entry > m.tp1 > m.tp2
  }

  lemma MatchIsPlaced(ps: seq<Pivot>, pct: real, i: nat, names: seq<Name>, j: nat, tol: real, m: Pattern)
    requires 4 <= i < |ps| && WellSwung(ps, pct) && 0.0 < pct < 1.0
    requires forall k :: 0 <= k < |ps| ==> ps[k].price > 0.0
    requires j < |names| && Safe(names[j], tol)
    ensures Validate(Window(ps, i), names[j], tol) == Match(m) ==> FromWindow(ps, names, tol, m) && Placed(m)
  {
    hide WellSwung, Safe, Validate;
    if Validate(Window(ps, i), names[j], tol) == Match(m) {
      WindowIsStructured(ps, pct, i, names[j], tol);
      SafeTargets(Window(ps, i), names[j], tol);
      ZoneAndStop(Window(ps, i), names[j], tol);
      EntryIsD(Window(ps, i), names[j], tol);
    }
  }

  lemma SoundPivots(bars: seq<Bar>, pct: real, ps: seq<Pivot>, cs: seq<nat>)
    requires Positive(bars) && IsZigZag(bars, pct, ps, cs)
    ensures WellSwung(ps, pct) && forall k :: 0 <= k < |ps| ==> ps[k].price > 0.0
  {
    hide IsZigZag, Positive, WellSwung;
    PivotsAreWellSwung(bars, pct, ps, cs);
    PivotsArePositive(bars, pct, ps, cs);
  }

  // On positive bars, for safe names, everything a scan reports is a genuine turn at D with
  // its stop outside the zone and its targets strictly between D and A.
  lemma {:induction false} ScannedPatterns(
      bars: seq<Bar>, pct: real, ps: seq<Pivot>, cs: seq<nat>, names: seq<Name>, tol: real, start: nat, n: nat)
    requires Positive(bars) && 0.0 < pct < 1.0 && IsZigZag(bars, pct, ps, cs)
    requires forall j :: 0 <= j < |names| ==> Safe(names[j], tol)
    requires 4 <= start <= n <= |ps|
    ensures forall m :: m in FoundFrom(ps, names, tol, start, n) ==> FromWindow(ps, names, tol, m) && Placed(m)
  {
    hide IsZigZag, Safe, Validate, Positive, FromWindow, Placed, WellSwung;
    if start < n {
      ScannedPatterns(bars, pct, ps, cs, names, tol, start, n - 1);
      SoundPivots(bars, pct, ps, cs);
      hide Found;
      forall m | m in Found(ps, names, tol, n - 1)
        ensures FromWindow(ps, names, tol, m) && Placed(m)
      {
        var j := NameOf(ps, names, tol, n - 1, m);
        MatchIsPlaced(ps, pct, n - 1, names, j, tol, m);
      }
    }
  }

  // So does everything the scan returns, for whichever windows it was asked.
  lemma SignalsArePlaced(
      bars: seq<Bar>, pct: real, tol: real, names: seq<Name>, onlyLatest: bool, signals: seq<Pattern>)
    requires Positive(bars) && 0.0 < pct < 1.0
    requires forall j :: 0 <= j < |NamesOr(names)| ==> Safe(NamesOr(names)[j], tol)
    ensures Scanned(bars, pct, tol, names, onlyLatest, signals) ==>
              exists ps :: ZigZagOf(bars, pct, ps) && forall m :: m in signals ==>
                FromWindow(ps, NamesOr(names), tol, m) && Placed(m)
  {
    hide Positive, Safe, FoundFrom, FromWindow, Placed, IsZigZag, NamesOr;
    if Scanned(bars, pct, tol, names, onlyLatest, signals) {
      var ps :| ZigZagOf(bars, pct, ps) && signals == Report(ps, NamesOr(names), tol, onlyLatest);
      if |ps| >= 5 {
        var cs :| IsZigZag(bars, pct, ps, cs);
        ScannedPatterns(bars, pct, ps, cs, NamesOr(names), tol, if onlyLatest then |ps| - 1 else 4, |ps|);
      }
    }
  }

  // In particular a scan with the default names and tolerance, whatever the swing threshold.
  lemma DefaultSignalsArePlaced(bars: seq<Bar>, pct: real, onlyLatest: bool, signals: seq<Pattern>)
    requires Positive(bars) && 0.0 < pct < 1.0
    ensures Scanned(bars, pct, DEFAULT_TOL, [], onlyLatest, signals) ==>
              exists ps :: ZigZagOf(bars, pct, ps) && forall m :: m in signals ==>
                FromWindow(ps, DEFAULT_NAMES, DEFAULT_TOL, m) && Placed(m)
  {
    hide Positive, Safe, Scanned, FromWindow, Placed;
    assert NamesOr([]) == DEFAULT_NAMES;
    forall j | 0 <= j < |DEFAULT_NAMES|
      ensures Safe(DEFAULT_NAMES[j], DEFAULT_TOL)
    {
      DefaultsAreSafe(DEFAULT_NAMES[j]);
    }
    SignalsArePlaced(bars, pct, DEFAULT_TOL, [], onlyLatest, signals);
  }

  lemma EntryIsD(p: Points, name: Name, tol: real)
    requires Validate(p, name, tol).Match?
    ensures Validate(p, name, tol).pattern.entry == p.d
  {
    hide Prz, SpecOf, RatiosFit;
  }

  lemma {:induction false} NameOf(ps: seq<Pivot>, names: seq<Name>, tol: real, i: nat, m: Pattern) returns (j: nat)
    requires 4 <= i < |ps| && m in Found(ps, names, tol, i)
    ensures j < |names| && Validate(Window(ps, i), names[j], tol) == Match(m)
  {
    hide Validate;
    if m in Found(ps, Front(names), tol, i) {
      j := NameOf(ps, Front(names), tol, i, m);
    } else {
      j := |names| - 1;
    }
  }
}
