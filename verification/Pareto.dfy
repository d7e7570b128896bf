/** The Pareto front of app/loop/pareto.py. */
module Pareto {
  import opened Prelude

  datatype Point = Point(
    sha: string, gen: int, cluster: string, runDir: string,
    sharpe: Option<real>, calmar: Option<real>, profitFactor: Option<real>, worstRegime: Option<real>,
    tradeCount: int, fitness: real)

  // A missing metric counts as a worst case.
  function Safe(x: Option<real>, default: real): real {
    if x.Some? then x.value else default
  }

  function Objectives(p: Point): (real, real, real, real) {
    (Safe(p.sharpe, -10.0), Safe(p.calmar, -10.0), Safe(p.profitFactor, 0.0), Safe(p.worstRegime, -10.0))
  }

  predicate Dominates(a: Point, b: Point) {
    var x, y := Objectives(a), Objectives(b);
    && x.0 >= y.0 && x.1 >= y.1 && x.2 >= y.2 && x.3 >= y.3
    && (x.0 > y.0 || x.1 > y.1 || x.2 > y.2 || x.3 > y.3)
  }

  // The metric, or the stand-in for a missing one.
  ghost predicate Reads(x: Option<real>, missing: real, value: real) {
    match x case Some(v) => value == v case None => value == missing
  }

  // Dominance compares Sharpe, Calmar, profit factor and worst regime: none below, and not all equal.
  lemma DominatesIff(a: Point, b: Point, s: real, c: real, f: real, w: real, s': real, c': real, f': real, w': real)
    requires Reads(a.sharpe, -10.0, s) && Reads(a.calmar, -10.0, c)
    requires Reads(a.profitFactor, 0.0, f) && Reads(a.worstRegime, -10.0, w)
    requires Reads(b.sharpe, -10.0, s') && Reads(b.calmar, -10.0, c')
    requires Reads(b.profitFactor, 0.0, f') && Reads(b.worstRegime, -10.0, w')
    ensures Dominates(a, b) <==> s >= s' && c >= c' && f >= f' && w >= w' && (s, c, f, w) != (s', c', f', w')
  {
  }

  lemma DominanceIsTransitive(a: Point, b: Point, c: Point)
    requires Dominates(a, b) && Dominates(b, c)
    ensures Dominates(a, c)
  {
  }

  function Undominated(front: seq<Point>, p: Point): (kept: seq<Point>)
    ensures forall q :: q in kept <==> q in front && !Dominates(p, q)
  {
    if front == [] then []
    else Undominated(Front(front), p) + if Dominates(p, Last(front)) then [] else [Last(front)]
  }

  // One offer: the new front and whether it moved.
  function Offer(front: seq<Point>, p: Point): (seq<Point>, bool) {
    if ShaOn(front, p) then (front, false)
    else
      var kept := Undominated(front, p);
      if exists q :: q in kept && Dominates(q, p) then (front, false) else (kept + [p], true)
  }

  class ParetoSet {
    var points: seq<Point>

    constructor ()
      ensures points == []
    {
      points := [];
    }

    method Add(p: Point) returns (moved: bool)
      modifies this
      ensures (points, moved) == Offer(old(points), p)
    {
      if ShaOn(points, p) {
        return false;
      }
      var kept: seq<Point> := [];
      for i := 0 to |points|
        invariant points == old(points)
        invariant kept == Undominated(points[..i], p)
      {
        assert Front(points[..i + 1]) == points[..i];
        if !Dominates(p, points[i]) {
          kept := kept + [points[i]];
        }
      }
      assert points[..|points|] == points;
      if exists q :: q in kept && Dominates(q, p) {
        return false;
      }
      points := kept + [p];
      moved := true;
    }
  }

  // The front after a sequence of offers.
  function FrontOf(offers: seq<Point>): seq<Point> {
    if offers == [] then [] else Offer(FrontOf(Front(offers)), Last(offers)).0
  }

  // The same experiment always reports the same objectives.
  ghost predicate Consistent(offers: seq<Point>) {
    forall a, b :: a in offers && b in offers && a.sha == b.sha ==> Objectives(a) == Objectives(b)
  }

  ghost predicate Nondominated(offers: seq<Point>, p: Point) {
    p in offers && forall q :: q in offers ==> !Dominates(q, p)
  }

  ghost predicate OnePerSha(front: seq<Point>) {
    forall i, j :: 0 <= i < j < |front| ==> front[i].sha != front[j].sha
  }

  predicate ShaOn(front: seq<Point>, p: Point) {
    exists f :: f in front && f.sha == p.sha
  }

  // The offers that were compared at all: those whose sha was not on the front at their time.
  function Heard(offers: seq<Point>): seq<Point> {
    if offers == [] then []
    else Heard(Front(offers)) + if ShaOn(FrontOf(Front(offers)), Last(offers)) then [] else [Last(offers)]
  }

  // The point is a member, or a member dominates it.
  ghost predicate Covers(front: seq<Point>, p: Point) {
    p in front || exists f :: f in front && Dominates(f, p)
  }

  ghost predicate Antichain(front: seq<Point>) {
    forall a, b :: a in front && b in front ==> !Dominates(a, b)
  }

  // What every offer keeps, whatever was offered.
  ghost predicate Inv(front: seq<Point>, heard: seq<Point>) {
    && OnePerSha(front)
    && Antichain(front)
    && (forall f :: f in front ==> f in heard)
    && (forall p :: p in heard ==> Covers(front, p))
  }

  lemma {:induction false} UndominatedDistinct(front: seq<Point>, p: Point)
    requires OnePerSha(front)
    ensures OnePerSha(Undominated(front, p))
  {
    if front != [] {
      UndominatedDistinct(Front(front), p);
      assert forall q :: q in Undominated(Front(front), p) ==> q.sha != Last(front).sha;
    }
  }

  lemma OfferKeepsInv(front: seq<Point>, heard: seq<Point>, p: Point)
    requires Inv(front, heard) && !ShaOn(front, p)
    ensures Inv(Offer(front, p).0, heard + [p])
  {
    var kept, after := Undominated(front, p), Offer(front, p).0;
    hide Dominates;
    if exists q :: q in kept && Dominates(q, p) {
      assert after == front;
      forall q | q in heard + [p]
        ensures Covers(after, q)
      {
        assert q in heard || q == p;
      }
    } else {
      UndominatedDistinct(front, p);
      assert after == kept + [p];
      assert p in after;
      forall q | q in heard + [p]
        ensures Covers(after, q)
      {
        if q in heard {
          StillCovered(front, kept, after, p, q);
        }
      }
      forall a, b | a in after && b in after
        ensures !Dominates(a, b)
      {
        Irreflexive(p);
        assert (a in kept || a == p) && (b in kept || b == p);
      }
      hide Undominated, Offer;
    }
  }

  // What a member stood for, the point that dominates the member stands for.
  lemma StillCovered(front: seq<Point>, kept: seq<Point>, after: seq<Point>, p: Point, q: Point)
    requires forall f :: f in kept <==> f in front && !Dominates(p, f)
    requires after == kept + [p] && Covers(front, q)
    ensures Covers(after, q)
  {
    hide Dominates;
    var f := if q in front then q else var f :| f in front && Dominates(f, q); f;
    if f in kept {
      assert f in after;
    } else {
      assert p in after;
      if f != q {
        DominanceIsTransitive(p, f, q);
      }
    }
  }

  lemma Irreflexive(p: Point)
    ensures !Dominates(p, p)
  {
  }

  lemma {:induction false} FrontKeepsInv(offers: seq<Point>)
    ensures Inv(FrontOf(offers), Heard(offers))
  {
    if offers != [] {
      var front, p := FrontOf(Front(offers)), Last(offers);
      FrontKeepsInv(Front(offers));
      if ShaOn(front, p) {
        assert Heard(Front(offers)) + [] == Heard(Front(offers));
      } else {
        hide Offer, Inv, ShaOn;
        OfferKeepsInv(front, Heard(Front(offers)), p);
      }
    }
  }

  // Whatever was offered, in whatever order and with whatever metrics: the front holds exactly
  // the non-dominated ones among the offers that were heard.
  lemma FrontIsHeardNondominated(offers: seq<Point>, p: Point)
    ensures p in FrontOf(offers) <==> Nondominated(Heard(offers), p)
    ensures OnePerSha(FrontOf(offers))
  {
    FrontKeepsInv(offers);
    hide Dominates, FrontOf, Heard;
    var front := FrontOf(offers);
    if p in front {
      forall q | q in Heard(offers)
        ensures !Dominates(q, p)
      {
        if q !in front && Dominates(q, p) {
          var f :| f in front && Dominates(f, q);
          DominanceIsTransitive(f, q, p);
        }
      }
    }
  }

  lemma {:induction false} HeardWasOffered(offers: seq<Point>)
    ensures forall p :: p in Heard(offers) ==> p in offers
  {
    if offers != [] {
      HeardWasOffered(Front(offers));
    }
  }

  // A member is dominated by an offer exactly when it is dominated by one that was not heard.
  lemma DominatedMembers(offers: seq<Point>, f: Point)
    requires f in FrontOf(offers)
    ensures !Nondominated(offers, f) <==> exists q :: q in offers && q !in Heard(offers) && Dominates(q, f)
  {
    FrontIsHeardNondominated(offers, f);
    HeardWasOffered(offers);
    hide Dominates, FrontOf, Heard;
  }

  // Every offer has a heard offer of its sha.
  lemma {:induction false} ShaWasHeard(offers: seq<Point>, p: Point) returns (h: Point)
    requires p in offers
    ensures h in Heard(offers) && h.sha == p.sha
  {
    var front := FrontOf(Front(offers));
    if p in Front(offers) {
      h := ShaWasHeard(Front(offers), p);
    } else if ShaOn(front, p) {
      h :| h in front && h.sha == p.sha;
      FrontIsHeardNondominated(Front(offers), h);
    } else {
      h := p;
    }
  }

  // When equal shas mean equal objectives, the shas on the front are exactly those of the
  // non-dominated offers, each once.
  lemma FrontIsNondominated(offers: seq<Point>)
    requires Consistent(offers)
    ensures OnePerSha(FrontOf(offers))
    ensures forall f :: f in FrontOf(offers) ==> Nondominated(offers, f)
    ensures forall p :: Nondominated(offers, p) ==> exists f :: f in FrontOf(offers) && f.sha == p.sha
  {
    HeardWasOffered(offers);
    if offers != [] {
      FrontIsHeardNondominated(offers, offers[0]);
    }
    hide Dominates, FrontOf, Heard, Consistent, Objectives;
    forall f | f in FrontOf(offers)
      ensures Nondominated(offers, f)
    {
      FrontIsHeardNondominated(offers, f);
      forall q | q in offers
        ensures !Dominates(q, f)
      {
        var h := ShaWasHeard(offers, q);
        SameObjectives(offers, h, q, f);
      }
    }
    forall p | Nondominated(offers, p)
      ensures exists f :: f in FrontOf(offers) && f.sha == p.sha
    {
      var h := ShaWasHeard(offers, p);
      forall q | q in Heard(offers)
        ensures !Dominates(q, h)
      {
        SameObjectives(offers, h, p, q);
      }
      FrontIsHeardNondominated(offers, h);
    }
  }

  lemma SameObjectives(offers: seq<Point>, g: Point, q: Point, f: Point)
    requires Consistent(offers) && g in offers && q in offers && g.sha == q.sha
    ensures Dominates(g, f) == Dominates(q, f) && Dominates(f, g) == Dominates(f, q)
  {
    assert Objectives(g) == Objectives(q);
  }

  // The order of the offers does not matter.
  lemma OrderDoesNotMatter(offers: seq<Point>, offers': seq<Point>)
    requires Consistent(offers) && multiset(offers) == multiset(offers')
    ensures (set f | f in FrontOf(offers) :: f.sha) == (set f | f in FrontOf(offers') :: f.sha)
  {
    hide FrontOf, Nondominated, Consistent, Objectives;
    SameNondominated(offers, offers');
    FrontIsNondominated(offers);
    FrontIsNondominated(offers');
    ShasInclude(FrontOf(offers), FrontOf(offers'), offers, offers');
    ShasInclude(FrontOf(offers'), FrontOf(offers), offers', offers);
  }

  lemma SameNondominated(offers: seq<Point>, offers': seq<Point>)
    requires Consistent(offers) && multiset(offers) == multiset(offers')
    ensures Consistent(offers')
    ensures forall p :: Nondominated(offers, p) <==> Nondominated(offers', p)
  {
    hide Dominates, Objectives;
    assert forall p :: p in offers <==> p in multiset(offers);
    assert forall p :: p in offers' <==> p in multiset(offers');
    assert forall p :: p in offers <==> p in offers';
  }

  lemma ShasInclude(front: seq<Point>, front': seq<Point>, offers: seq<Point>, offers': seq<Point>)
    requires forall f :: f in front ==> Nondominated(offers, f)
    requires forall p :: Nondominated(offers, p) <==> Nondominated(offers', p)
    requires forall p :: Nondominated(offers', p) ==> exists f :: f in front' && f.sha == p.sha
    ensures (set f | f in front :: f.sha) <= (set f | f in front' :: f.sha)
  {
    hide Nondominated;
  }

  // `Add` reports true exactly when the front changed.
  lemma MovedIffChanged(front: seq<Point>, p: Point)
    ensures Offer(front, p).1 <==> Offer(front, p).0 != front
  {
    var (after, moved) := Offer(front, p);
    if moved {
      assert p in after && p !in front;
    }
  }

  // Without consistent objectives the front can keep a dominated point: a re-run of a
  // member's sha is ignored however good its metrics.
  lemma RerunIsIgnored(p: Point, better: Point)
    requires better.sha == p.sha && Dominates(better, p)
    ensures FrontOf([p, better]) == [p] && !Nondominated([p, better], p)
  {
    assert Front([p, better]) == [p] && Front([p]) == [];
    assert FrontOf([p]) == [p];
    assert better in [p, better];
    assert p in [p] && p.sha == better.sha && ShaOn([p], better);
  }
}
