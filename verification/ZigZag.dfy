/**
  Swing points by percentage reversal: `zigzag` in docs/harmonic_detector.py.
 */
module ZigZag {
  import opened Prelude

  datatype Bar = Bar(high: real, low: real, close: real)

  datatype Kind = H | L {
    function Other(): Kind {
      if H? then L else H
    }
  }

  datatype Pivot = Pivot(idx: nat, price: real, kind: Kind)

  function Up(price: real, pct: real): real {
    price * (1.0 + pct)
  }

  function Down(price: real, pct: real): real {
    price * (1.0 - pct)
  }

  // The side of a bar a pivot of this kind can sit on.
  function Side(kind: Kind, b: Bar): real {
    if kind.H? then b.high else b.low
  }

  // Price x is at least as extreme as y for this kind.
  predicate Beyond(kind: Kind, x: real, y: real) {
    if kind.H? then x >= y else x <= y
  }

  // The bar turns away from an extreme at `price` by at least pct.
  predicate Turns(kind: Kind, b: Bar, price: real, pct: real) {
    if kind.H? then b.low <= Down(price, pct) else b.high >= Up(price, pct)
  }

  // ------------------------------------------------------------------
  // What the output means
  // ------------------------------------------------------------------

  // The starting extreme before bar i: the first close, then every strictly lower low.
  function Seed(bars: seq<Bar>, i: nat): (nat, real)
    requires 0 < i <= |bars|
  {
    if i == 1 then (0, bars[0].close)
    else
      var s := Seed(bars, i - 1);
      if bars[i - 1].low < s.1 then (i - 1, bars[i - 1].low) else s
  }

  predicate Triggers(bars: seq<Bar>, pct: real, k: nat)
    requires 0 < k < |bars|
  {
    var price := Seed(bars, k).1;
    bars[k].high >= Up(price, pct) || bars[k].low <= Down(price, pct)
  }

  // No bar before i has moved by pct from the starting extreme of its time.
  ghost predicate Quiet(bars: seq<Bar>, pct: real, i: nat)
    requires i <= |bars|
  {
    forall k :: 0 < k < i ==> !Triggers(bars, pct, k)
  }

  // Bar j holds the extreme of the bars from `from` up to k (exclusive).
  ghost predicate Tops(bars: seq<Bar>, kind: Kind, from: nat, j: nat, k: nat)
    requires from <= j < k <= |bars|
  {
    forall i :: from <= i < k ==> Beyond(kind, Side(kind, bars[j]), Side(kind, bars[i]))
  }

  // Bar k either matches the extreme since `from`, or does not turn away from it.
  ghost predicate Follows(bars: seq<Bar>, pct: real, kind: Kind, from: nat, k: nat)
    requires from < k < |bars|
  {
    exists j :: from <= j < k && Tops(bars, kind, from, j, k)
      && (Beyond(kind, Side(kind, bars[k]), Side(kind, bars[j]))
          || !Turns(kind, bars[k], Side(kind, bars[j]), pct))
  }

  // Up to bar i (exclusive), p is the extreme of the leg that follows the pivot at `prev`,
  // confirmed at bar `from`: the last most extreme bar after `prev`, with no turn missed on the way.
  ghost predicate Leg(bars: seq<Bar>, pct: real, prev: nat, from: nat, p: Pivot, i: nat)
    requires i <= |bars|
  {
    && prev < from <= p.idx < i
    && p.price == Side(p.kind, bars[p.idx])
    && (forall k :: prev < k < i ==> Beyond(p.kind, p.price, Side(p.kind, bars[k])))
    && (forall k :: p.idx < k < i ==> p.price != Side(p.kind, bars[k]) && !Turns(p.kind, bars[k], p.price, pct))
    && (forall k :: from < k < i ==> Follows(bars, pct, p.kind, from, k))
  }

  // p is the pivot of its leg, confirmed at bar c: the first bar that turns by pct.
  ghost predicate Confirmed(bars: seq<Bar>, pct: real, prev: nat, from: nat, p: Pivot, c: nat) {
    && c < |bars|
    && Leg(bars, pct, prev, from, p, c)
    && !Beyond(p.kind, Side(p.kind, bars[c]), p.price)
    && Turns(p.kind, bars[c], p.price, pct)
  }

  ghost predicate FirstPivot(bars: seq<Bar>, pct: real, p: Pivot, c: nat) {
    && 0 < c < |bars|
    && Quiet(bars, pct, c)
    && Triggers(bars, pct, c)
    && (p.idx, p.price) == Seed(bars, c)
    && p.kind == if bars[c].high >= Up(p.price, pct) then L else H
  }

  // All pivots confirmed so far, with the bars that confirmed them.
  ghost predicate Chain(bars: seq<Bar>, pct: real, ps: seq<Pivot>, cs: seq<nat>) {
    && |ps| == |cs| > 0
    && FirstPivot(bars, pct, ps[0], cs[0])
    && (forall k :: 0 < k < |ps| ==>
          ps[k].kind == ps[k - 1].kind.Other()
          && Confirmed(bars, pct, ps[k - 1].idx, cs[k - 1], ps[k], cs[k]))
  }

  // The complete output: confirmed pivots, then the extreme of the unfinished leg.
  ghost predicate IsZigZag(bars: seq<Bar>, pct: real, out: seq<Pivot>, cs: seq<nat>) {
    if |bars| < 6 then out == []
    else if out == [] then Quiet(bars, pct, |bars|)
    else
      && |out| >= 2
      && Chain(bars, pct, Front(out), cs)
      && Last(out).kind == out[|out| - 2].kind.Other()
      && Leg(bars, pct, out[|out| - 2].idx, Last(cs), Last(out), |bars|)
  }

  // The same without naming the confirming bars.
  ghost predicate ZigZagOf(bars: seq<Bar>, pct: real, out: seq<Pivot>) {
    exists cs :: IsZigZag(bars, pct, out, cs)
  }

  // ------------------------------------------------------------------
  // Steps of the scan
  // ------------------------------------------------------------------

  lemma {:induction false} SeedHolds(bars: seq<Bar>, k: nat, i: nat)
    requires 0 < i <= |bars| && Seed(bars, i).0 < k <= i
    ensures Seed(bars, i).0 < i && Seed(bars, k) == Seed(bars, i)
  {
    if k < i {
      SeedHolds(bars, k, i - 1);
    }
  }

  lemma {:induction false} SeedIndex(bars: seq<Bar>, i: nat)
    requires 0 < i <= |bars|
    ensures Seed(bars, i).0 < i
  {
    if i > 1 {
      SeedIndex(bars, i - 1);
    }
  }

  // The bar that triggers the first pivot opens the first leg.
  lemma FirstLeg(bars: seq<Bar>, pct: real, p: Pivot, c: nat)
    requires FirstPivot(bars, pct, p, c)
    ensures Leg(bars, pct, p.idx, c, Pivot(c, Side(p.kind.Other(), bars[c]), p.kind.Other()), c + 1)
  {
    SeedIndex(bars, c);
    hide Up, Down;
    forall k | p.idx < k < c
      ensures bars[k].high < Up(p.price, pct) && bars[k].low > Down(p.price, pct)
    {
      SeedHolds(bars, k, c);
      assert !Triggers(bars, pct, k);
    }
  }

  // The bar that confirms a pivot opens the next leg.
  lemma NextLeg(bars: seq<Bar>, pct: real, prev: nat, from: nat, p: Pivot, c: nat)
    requires Confirmed(bars, pct, prev, from, p, c)
    ensures Leg(bars, pct, p.idx, c, Pivot(c, Side(p.kind.Other(), bars[c]), p.kind.Other()), c + 1)
  {
    hide Up, Down;
  }

  // A bar at least as extreme as the current extreme takes over.
  lemma LegMoves(bars: seq<Bar>, pct: real, prev: nat, from: nat, p: Pivot, i: nat)
    requires i < |bars| && Leg(bars, pct, prev, from, p, i)
    requires Beyond(p.kind, Side(p.kind, bars[i]), p.price)
    ensures Leg(bars, pct, prev, from, Pivot(i, Side(p.kind, bars[i]), p.kind), i + 1)
  {
    hide Turns, Side;
    assert Tops(bars, p.kind, from, p.idx, i);
    assert Follows(bars, pct, p.kind, from, i);
    hide Follows, Tops;
  }

  // A bar that neither extends nor turns leaves the leg as it is.
  lemma LegWaits(bars: seq<Bar>, pct: real, prev: nat, from: nat, p: Pivot, i: nat)
    requires i < |bars| && Leg(bars, pct, prev, from, p, i)
    requires !Beyond(p.kind, Side(p.kind, bars[i]), p.price) && !Turns(p.kind, bars[i], p.price, pct)
    ensures Leg(bars, pct, prev, from, p, i + 1)
  {
    hide Turns;
    assert Tops(bars, p.kind, from, p.idx, i);
    assert Follows(bars, pct, p.kind, from, i);
    hide Follows;
  }

  lemma ChainExtend(bars: seq<Bar>, pct: real, ps: seq<Pivot>, cs: seq<nat>, p: Pivot, c: nat)
    requires Chain(bars, pct, ps, cs) && p.kind == Last(ps).kind.Other()
    requires Confirmed(bars, pct, Last(ps).idx, Last(cs), p, c)
    ensures Chain(bars, pct, ps + [p], cs + [c])
  {
    hide Confirmed, FirstPivot;
  }

  // ------------------------------------------------------------------
  // The code
  // ------------------------------------------------------------------

  // The rows whose type differs from that of the row before them.
  function Changes(ps: seq<Pivot>): seq<Pivot> {
    if |ps| <= 1 then ps
    else Changes(Front(ps)) + if Last(ps).kind != ps[|ps| - 2].kind then [Last(ps)] else []
  }

  method DropRepeats(ps: seq<Pivot>) returns (out: seq<Pivot>)
    ensures out == Changes(ps)
  {
    out := [];
    for k := 0 to |ps|
      invariant out == Changes(ps[..k])
    {
      assert Front(ps[..k + 1]) == ps[..k];
      if k == 0 || ps[k].kind != ps[k - 1].kind {
        out := out + [ps[k]];
      }
    }
    assert ps[..|ps|] == ps;
  }

  predicate Alternates(ps: seq<Pivot>) {
    forall k :: 0 < k < |ps| ==> ps[k].kind != ps[k - 1].kind
  }

  lemma {:induction false} NothingRepeats(ps: seq<Pivot>)
    requires Alternates(ps)
    ensures Changes(ps) == ps
  {
    if |ps| > 1 {
      NothingRepeats(Front(ps));
    }
  }

  method FindPivots(bars: seq<Bar>, pct: real) returns (out: seq<Pivot>)
    ensures ZigZagOf(bars, pct, out)
  {
    hide Turns, Leg, Chain, Quiet, Up, Down, Seed, Changes;
    var n := |bars|;
    ghost var cs: seq<nat> := [];
    if n < 6 {
      assert IsZigZag(bars, pct, [], cs);
      return [];
    }
    var pivots: seq<Pivot> := [];
    var trend: Option<Kind> := None;
    var extIdx, extPrice := 0, bars[0].close;
    SeedStart(bars, pct);
    for i := 1 to n
      invariant trend.None? ==> pivots == [] && (extIdx, extPrice) == Seed(bars, i) && Quiet(bars, pct, i)
      invariant trend.Some? ==>
        && |pivots| > 0 && |cs| > 0
        && Chain(bars, pct, pivots, cs)
        && trend.value == Last(pivots).kind.Other()
        && Leg(bars, pct, Last(pivots).idx, Last(cs), Pivot(extIdx, extPrice, trend.value), i)
    {
      var h, l := bars[i].high, bars[i].low;
      ghost var ext := Pivot(extIdx, extPrice, if trend.Some? then trend.value else H);
      if trend == None {
        if h >= Up(extPrice, pct) {
          StartChain(bars, pct, Pivot(extIdx, extPrice, L), i);
          assert pivots + [Pivot(extIdx, extPrice, L)] == [Pivot(extIdx, extPrice, L)];
          pivots, cs := pivots + [Pivot(extIdx, extPrice, L)], [i];
          trend, extIdx, extPrice := Some(H), i, h;
        } else if l <= Down(extPrice, pct) {
          StartChain(bars, pct, Pivot(extIdx, extPrice, H), i);
          assert pivots + [Pivot(extIdx, extPrice, H)] == [Pivot(extIdx, extPrice, H)];
          pivots, cs := pivots + [Pivot(extIdx, extPrice, H)], [i];
          trend, extIdx, extPrice := Some(L), i, l;
        } else {
          SeedStep(bars, pct, i);
          if l < extPrice {
            extIdx, extPrice := i, l;
          }
        }
      } else if trend == Some(H) {
        if h >= extPrice {
          LegMoves(bars, pct, Last(pivots).idx, Last(cs), ext, i);
          extIdx, extPrice := i, h;
        } else if l <= Down(extPrice, pct) {
          GrowChain(bars, pct, pivots, cs, ext, i);
          pivots, cs := pivots + [Pivot(extIdx, extPrice, H)], cs + [i];
          trend, extIdx, extPrice := Some(L), i, l;
        } else {
          Unturned(ext, bars[i], pct);
          LegWaits(bars, pct, Last(pivots).idx, Last(cs), ext, i);
        }
      } else {
        if l <= extPrice {
          LegMoves(bars, pct, Last(pivots).idx, Last(cs), ext, i);
          extIdx, extPrice := i, l;
        } else if h >= Up(extPrice, pct) {
          GrowChain(bars, pct, pivots, cs, ext, i);
          pivots, cs := pivots + [Pivot(extIdx, extPrice, L)], cs + [i];
          trend, extIdx, extPrice := Some(H), i, h;
        } else {
          Unturned(ext, bars[i], pct);
          LegWaits(bars, pct, Last(pivots).idx, Last(cs), ext, i);
        }
      }
    }
    ghost var chain := pivots;
    if trend == Some(H) {
      pivots := pivots + [Pivot(extIdx, extPrice, H)];
    } else if trend == Some(L) {
      pivots := pivots + [Pivot(extIdx, extPrice, L)];
    }
    if trend.Some? {
      assert Front(pivots) == chain;
      ChainAlternates(bars, pct, chain, cs);
    }
    NothingRepeats(pivots);
    out := DropRepeats(pivots);
    assert IsZigZag(bars, pct, out, cs);
  }

  lemma ChainAlternates(bars: seq<Bar>, pct: real, ps: seq<Pivot>, cs: seq<nat>)
    requires Chain(bars, pct, ps, cs)
    ensures Alternates(ps)
  {
    hide FirstPivot, Confirmed;
  }

  lemma SeedStart(bars: seq<Bar>, pct: real)
    requires bars != []
    ensures Seed(bars, 1) == (0, bars[0].close) && Quiet(bars, pct, 1)
  {
  }

  lemma SeedStep(bars: seq<Bar>, pct: real, i: nat)
    requires 0 < i < |bars| && Quiet(bars, pct, i)
    requires bars[i].high < Up(Seed(bars, i).1, pct) && bars[i].low > Down(Seed(bars, i).1, pct)
    ensures Quiet(bars, pct, i + 1)
    ensures Seed(bars, i + 1) == if bars[i].low < Seed(bars, i).1 then (i, bars[i].low) else Seed(bars, i)
  {
  }

  lemma StartChain(bars: seq<Bar>, pct: real, p: Pivot, i: nat)
    requires 0 < i < |bars| && Quiet(bars, pct, i) && (p.idx, p.price) == Seed(bars, i)
    requires if p.kind.L? then bars[i].high >= Up(p.price, pct)
             else bars[i].high < Up(p.price, pct) && bars[i].low <= Down(p.price, pct)
    ensures Chain(bars, pct, [p], [i])
    ensures Leg(bars, pct, p.idx, i, Pivot(i, Side(p.kind.Other(), bars[i]), p.kind.Other()), i + 1)
  {
    assert FirstPivot(bars, pct, p, i);
    FirstLeg(bars, pct, p, i);
  }

  lemma GrowChain(bars: seq<Bar>, pct: real, ps: seq<Pivot>, cs: seq<nat>, p: Pivot, i: nat)
    requires i < |bars| && Chain(bars, pct, ps, cs) && p.kind == Last(ps).kind.Other()
    requires Leg(bars, pct, Last(ps).idx, Last(cs), p, i)
    requires if p.kind.H? then bars[i].high < p.price && bars[i].low <= Down(p.price, pct)
             else bars[i].low > p.price && bars[i].high >= Up(p.price, pct)
    ensures Chain(bars, pct, ps + [p], cs + [i])
    ensures Leg(bars, pct, p.idx, i, Pivot(i, Side(p.kind.Other(), bars[i]), p.kind.Other()), i + 1)
  {
    hide Leg, FirstPivot;
    assert Confirmed(bars, pct, Last(ps).idx, Last(cs), p, i);
    ChainExtend(bars, pct, ps, cs, p, i);
    NextLeg(bars, pct, Last(ps).idx, Last(cs), p, i);
  }

  lemma Unturned(p: Pivot, b: Bar, pct: real)
    requires if p.kind.H? then b.low > Down(p.price, pct) else b.high < Up(p.price, pct)
    ensures !Turns(p.kind, b, p.price, pct)
  {
  }

  // ------------------------------------------------------------------
  // The description leaves no choice: at most one output meets it
  // ------------------------------------------------------------------

  // A leg cannot run past the bar that confirms its pivot.
  lemma NoLaterLeg(bars: seq<Bar>, pct: real, prev: nat, from: nat, p: Pivot, c: nat, q: Pivot, i: nat)
    requires Confirmed(bars, pct, prev, from, p, c) && p.kind == q.kind
    requires i <= |bars| && Leg(bars, pct, prev, from, q, i)
    ensures i <= c
  {
    if c < i {
      hide Turns;
      assert Follows(bars, pct, q.kind, from, c);
      var j :| from <= j < c && Tops(bars, p.kind, from, j, c)
        && (Beyond(p.kind, Side(p.kind, bars[c]), Side(p.kind, bars[j]))
            || !Turns(p.kind, bars[c], Side(p.kind, bars[j]), pct));
    }
  }

  lemma SameLeg(bars: seq<Bar>, pct: real, prev: nat, from: nat, p: Pivot, q: Pivot, i: nat)
    requires i <= |bars| && Leg(bars, pct, prev, from, p, i) && Leg(bars, pct, prev, from, q, i)
    requires p.kind == q.kind
    ensures p == q
  {
    hide Turns, Follows;
    assert p.price == q.price;
  }

  lemma {:induction false} ChainsAgree(
      bars: seq<Bar>, pct: real, ps: seq<Pivot>, cs: seq<nat>, qs: seq<Pivot>, ds: seq<nat>, k: nat)
    requires Chain(bars, pct, ps, cs) && Chain(bars, pct, qs, ds)
    requires k < |ps| && k < |qs|
    ensures ps[k] == qs[k] && cs[k] == ds[k]
  {
    if k == 0 {
      hide Triggers, Seed, Confirmed;
    } else {
      ChainsAgree(bars, pct, ps, cs, qs, ds, k - 1);
      hide Chain, FirstPivot;
      ChainKinds(bars, pct, ps, cs, k);
      ChainKinds(bars, pct, qs, ds, k);
      hide Turns, Follows;
      var prev, from := ps[k - 1].idx, cs[k - 1];
      NoLaterLeg(bars, pct, prev, from, ps[k], cs[k], qs[k], ds[k]);
      NoLaterLeg(bars, pct, prev, from, qs[k], ds[k], ps[k], cs[k]);
      SameLeg(bars, pct, prev, from, ps[k], qs[k], cs[k]);
    }
  }

  lemma ZigZagIsUnique(bars: seq<Bar>, pct: real, out: seq<Pivot>, cs: seq<nat>, out': seq<Pivot>, cs': seq<nat>)
    requires IsZigZag(bars, pct, out, cs) && IsZigZag(bars, pct, out', cs')
    ensures out == out'
  {
    if |bars| >= 6 {
      if out == [] || out' == [] {
        hide Triggers, Confirmed, Leg;
      } else if |out| <= |out'| {
        SameOutput(bars, pct, out, cs, out', cs');
      } else {
        SameOutput(bars, pct, out', cs', out, cs);
      }
    }
  }

  lemma SameOutput(bars: seq<Bar>, pct: real, out: seq<Pivot>, cs: seq<nat>, out': seq<Pivot>, cs': seq<nat>)
    requires IsZigZag(bars, pct, out, cs) && IsZigZag(bars, pct, out', cs')
    requires |bars| >= 6 && 0 < |out| <= |out'|
    ensures out == out'
  {
    hide FirstPivot, Confirmed, Leg, Chain;
    var m := |out| - 1;
    ChainLengths(bars, pct, Front(out), cs);
    ChainLengths(bars, pct, Front(out'), cs');
    forall k | 0 <= k < m
      ensures out[k] == out'[k] && cs[k] == cs'[k]
    {
      ChainsAgree(bars, pct, Front(out), cs, Front(out'), cs', k);
    }
    if |out| < |out'| {
      ChainKinds(bars, pct, Front(out'), cs', m);
      ConfirmedInside(bars, pct, out'[m - 1].idx, cs'[m - 1], out'[m], cs'[m]);
      NoLaterLeg(bars, pct, out'[m - 1].idx, cs'[m - 1], out'[m], cs'[m], out[m], |bars|);
    } else {
      SameLeg(bars, pct, out[m - 1].idx, cs[m - 1], out[m], out'[m], |bars|);
    }
  }

  lemma ChainLengths(bars: seq<Bar>, pct: real, ps: seq<Pivot>, cs: seq<nat>)
    requires Chain(bars, pct, ps, cs)
    ensures |ps| == |cs|
  {
  }

  lemma ChainKinds(bars: seq<Bar>, pct: real, ps: seq<Pivot>, cs: seq<nat>, k: nat)
    requires Chain(bars, pct, ps, cs) && 0 < k < |ps|
    ensures ps[k].kind == ps[k - 1].kind.Other()
    ensures Confirmed(bars, pct, ps[k - 1].idx, cs[k - 1], ps[k], cs[k])
  {
  }

  lemma ConfirmedInside(bars: seq<Bar>, pct: real, prev: nat, from: nat, p: Pivot, c: nat)
    requires Confirmed(bars, pct, prev, from, p, c)
    ensures c < |bars|
  {
  }

  // ------------------------------------------------------------------
  // What users of the pivots rely on
  // ------------------------------------------------------------------

  // The move from p to q covers at least pct of p's price.
  predicate Swing(p: Pivot, q: Pivot, pct: real) {
    if p.kind.L? then q.price >= Up(p.price, pct) else q.price <= Down(p.price, pct)
  }

  // Indices rise, types alternate, and neighbours are at least pct apart.
  ghost predicate WellSwung(ps: seq<Pivot>, pct: real) {
    forall k :: 0 < k < |ps| ==>
      && ps[k - 1].idx < ps[k].idx
      && ps[k].kind == ps[k - 1].kind.Other()
      && Swing(ps[k - 1], ps[k], pct)
  }

  // A pivot after the first is the extreme of the bars after its predecessor, up to bar c.
  ghost predicate ExtremeOf(bars: seq<Bar>, prev: nat, p: Pivot, c: nat) {
    && prev < p.idx <= c < |bars|
    && p.price == Side(p.kind, bars[p.idx])
    && forall k :: prev < k <= c ==> Beyond(p.kind, p.price, Side(p.kind, bars[k]))
  }

  ghost predicate InnerExtreme(bars: seq<Bar>, out: seq<Pivot>, cs: seq<nat>, k: nat)
    requires 0 < k < |out|
  {
    k < |cs| && ExtremeOf(bars, out[k - 1].idx, out[k], cs[k])
  }

  // For all bars and thresholds: order, alternation and swing size of the output, tail
  // included; every pivot after the first is the extreme from just after its predecessor
  // through its confirming bar, the last one through the end of the data.
  lemma PivotsAreWellSwung(bars: seq<Bar>, pct: real, out: seq<Pivot>, cs: seq<nat>)
    requires IsZigZag(bars, pct, out, cs)
    ensures WellSwung(out, pct)
    ensures forall k :: 0 < k < |out| - 1 ==> InnerExtreme(bars, out, cs, k)
    ensures |out| > 1 ==> ExtremeOf(bars, out[|out| - 2].idx, Last(out), |bars| - 1)
  {
    if |out| > 1 {
      hide Leg, Chain, Confirmed, Swing, ExtremeOf;
      ChainLengths(bars, pct, Front(out), cs);
      forall k | 0 < k < |out|
        ensures out[k - 1].idx < out[k].idx && out[k].kind == out[k - 1].kind.Other()
        ensures Swing(out[k - 1], out[k], pct)
        ensures ExtremeOf(bars, out[k - 1].idx, out[k], if k < |cs| then cs[k] else |bars| - 1)
      {
        var p, q, c := out[k - 1], out[k], cs[k - 1];
        TurnsAt(bars, pct, Front(out), cs, k - 1);
        if k < |cs| {
          ChainKinds(bars, pct, Front(out), cs, k);
          ConfirmedExtreme(bars, pct, p.idx, c, q, cs[k]);
        } else {
          LegExtreme(bars, pct, p.idx, c, q, |bars|);
        }
        TurnSwings(bars, pct, p, q, c);
      }
    }
  }

  lemma LegExtreme(bars: seq<Bar>, pct: real, prev: nat, from: nat, p: Pivot, i: nat)
    requires i <= |bars| && Leg(bars, pct, prev, from, p, i)
    ensures ExtremeOf(bars, prev, p, i - 1) && Beyond(p.kind, p.price, Side(p.kind, bars[from]))
  {
    hide Turns, Follows;
  }

  lemma ConfirmedExtreme(bars: seq<Bar>, pct: real, prev: nat, from: nat, p: Pivot, c: nat)
    requires Confirmed(bars, pct, prev, from, p, c)
    ensures ExtremeOf(bars, prev, p, c) && from < |bars| && Beyond(p.kind, p.price, Side(p.kind, bars[from]))
  {
    hide Turns, Follows;
  }

  lemma TurnSwings(bars: seq<Bar>, pct: real, p: Pivot, q: Pivot, c: nat)
    requires c < |bars| && Turns(p.kind, bars[c], p.price, pct)
    requires q.kind == p.kind.Other() && Beyond(q.kind, q.price, Side(q.kind, bars[c]))
    ensures Swing(p, q, pct)
  {
    hide Up, Down;
  }

  lemma TurnsAt(bars: seq<Bar>, pct: real, ps: seq<Pivot>, cs: seq<nat>, k: nat)
    requires Chain(bars, pct, ps, cs) && k < |ps|
    ensures cs[k] < |bars| && Turns(ps[k].kind, bars[cs[k]], ps[k].price, pct)
  {
    hide Up, Down, Leg;
    if k > 0 {
      ChainKinds(bars, pct, ps, cs, k);
    }
  }
}
