/** The zigzag in terms of the highs, lows and closes of its bars. */
module PivotPrices {
  import opened Prelude
  import opened ZigZag

  // Bar j has the highest high from bar `from` up to bar k, and bar k matches it or stays within pct
  // below it.
  ghost predicate HoldsUpAt(bars: seq<Bar>, pct: real, from: nat, j: nat, k: nat)
    requires from <= j < k < |bars|
  {
    && (forall i :: from <= i < k ==> bars[i].high <= bars[j].high)
    && (bars[k].high >= bars[j].high || bars[k].low > bars[j].high * (1.0 - pct))
  }

  ghost predicate HoldsDownAt(bars: seq<Bar>, pct: real, from: nat, j: nat, k: nat)
    requires from <= j < k < |bars|
  {
    && (forall i :: from <= i < k ==> bars[i].low >= bars[j].low)
    && (bars[k].low <= bars[j].low || bars[k].high < bars[j].low * (1.0 + pct))
  }

  ghost predicate HoldsUp(bars: seq<Bar>, pct: real, from: nat, k: nat)
    requires from < k < |bars|
  {
    exists j :: from <= j < k && HoldsUpAt(bars, pct, from, j, k)
  }

  ghost predicate HoldsDown(bars: seq<Bar>, pct: real, from: nat, k: nat)
    requires from < k < |bars|
  {
    exists j :: from <= j < k && HoldsDownAt(bars, pct, from, j, k)
  }

  // A high at bar p.idx on the way up that began with bar `from`: the last bar with the highest high
  // since just after the previous pivot, up to bar n (exclusive), with no fall by pct missed.
  ghost predicate HighLeg(bars: seq<Bar>, pct: real, prev: nat, from: nat, p: Pivot, n: nat)
    requires n <= |bars|
  {
    && p.kind.H? && prev < from <= p.idx < n
    && p.price == bars[p.idx].high
    && (forall k :: prev < k < n ==> bars[k].high <= p.price)
    && (forall k :: p.idx < k < n ==> bars[k].high < p.price && bars[k].low > p.price * (1.0 - pct))
    && (forall k :: from < k < n ==> HoldsUp(bars, pct, from, k))
  }

  ghost predicate LowLeg(bars: seq<Bar>, pct: real, prev: nat, from: nat, p: Pivot, n: nat)
    requires n <= |bars|
  {
    && p.kind.L? && prev < from <= p.idx < n
    && p.price == bars[p.idx].low
    && (forall k :: prev < k < n ==> bars[k].low >= p.price)
    && (forall k :: p.idx < k < n ==> bars[k].low > p.price && bars[k].high < p.price * (1.0 + pct))
    && (forall k :: from < k < n ==> HoldsDown(bars, pct, from, k))
  }

  lemma UpAt(bars: seq<Bar>, pct: real, from: nat, j: nat, k: nat)
    requires from <= j < k < |bars| && Tops(bars, H, from, j, k)
    requires Beyond(H, Side(H, bars[k]), Side(H, bars[j])) || !Turns(H, bars[k], Side(H, bars[j]), pct)
    ensures HoldsUpAt(bars, pct, from, j, k)
  {
  }

  lemma DownAt(bars: seq<Bar>, pct: real, from: nat, j: nat, k: nat)
    requires from <= j < k < |bars| && Tops(bars, L, from, j, k)
    requires Beyond(L, Side(L, bars[k]), Side(L, bars[j])) || !Turns(L, bars[k], Side(L, bars[j]), pct)
    ensures HoldsDownAt(bars, pct, from, j, k)
  {
  }

  lemma FollowsUp(bars: seq<Bar>, pct: real, from: nat, k: nat)
    requires from < k < |bars| && Follows(bars, pct, H, from, k)
    ensures HoldsUp(bars, pct, from, k)
  {
    hide Turns, Tops, Beyond, Side, HoldsUpAt;
    var j :| from <= j < k && Tops(bars, H, from, j, k)
             && (Beyond(H, Side(H, bars[k]), Side(H, bars[j])) || !Turns(H, bars[k], Side(H, bars[j]), pct));
    UpAt(bars, pct, from, j, k);
  }

  lemma FollowsDown(bars: seq<Bar>, pct: real, from: nat, k: nat)
    requires from < k < |bars| && Follows(bars, pct, L, from, k)
    ensures HoldsDown(bars, pct, from, k)
  {
    hide Turns, Tops, Beyond, Side, HoldsDownAt;
    var j :| from <= j < k && Tops(bars, L, from, j, k)
             && (Beyond(L, Side(L, bars[k]), Side(L, bars[j])) || !Turns(L, bars[k], Side(L, bars[j]), pct));
    DownAt(bars, pct, from, j, k);
  }

  lemma HighLegIs(bars: seq<Bar>, pct: real, prev: nat, from: nat, p: Pivot, n: nat)
    requires n <= |bars| && Leg(bars, pct, prev, from, p, n) && p.kind.H?
    ensures HighLeg(bars, pct, prev, from, p, n)
  {
    hide Follows, HoldsUp;
    forall k | from < k < n
      ensures HoldsUp(bars, pct, from, k)
    {
      FollowsUp(bars, pct, from, k);
    }
  }

  lemma LowLegIs(bars: seq<Bar>, pct: real, prev: nat, from: nat, p: Pivot, n: nat)
    requires n <= |bars| && Leg(bars, pct, prev, from, p, n) && p.kind.L?
    ensures LowLeg(bars, pct, prev, from, p, n)
  {
    hide Follows, HoldsDown;
    forall k | from < k < n
      ensures HoldsDown(bars, pct, from, k)
    {
      FollowsDown(bars, pct, from, k);
    }
  }

  // The starting extreme before bar n: the first close, or the first of the lowest lows below it.
  ghost predicate StartsAt(bars: seq<Bar>, n: nat, idx: nat, price: real)
    requires 0 < n <= |bars|
  {
    && idx < n
    && price <= bars[0].close
    && (forall k :: 0 < k < n ==> price <= bars[k].low)
    && (forall k :: 0 < k < idx ==> price < bars[k].low)
    && if idx == 0 then price == bars[0].close else price == bars[idx].low && price < bars[0].close
  }

  lemma {:induction false} SeedIs(bars: seq<Bar>, n: nat)
    requires 0 < n <= |bars|
    ensures StartsAt(bars, n, Seed(bars, n).0, Seed(bars, n).1)
  {
    if n > 1 {
      SeedIs(bars, n - 1);
    }
  }

  lemma {:induction false} SeedIsOnly(bars: seq<Bar>, n: nat, idx: nat, price: real)
    requires 0 < n <= |bars| && StartsAt(bars, n, idx, price)
    ensures Seed(bars, n) == (idx, price)
  {
    SeedIs(bars, n);
    hide Seed;
  }

  // The bar reaches a price by pct above or below another.
  predicate Moves(b: Bar, price: real, pct: real) {
    b.high >= price * (1.0 + pct) || b.low <= price * (1.0 - pct)
  }

  // Bar k moves by pct from the starting extreme before it.
  ghost predicate Breaks(bars: seq<Bar>, pct: real, k: nat)
    requires 0 < k < |bars|
  {
    exists idx, price :: StartsAt(bars, k, idx, price) && Moves(bars[k], price, pct)
  }

  lemma MovesIs(b: Bar, price: real, pct: real)
    ensures Moves(b, price, pct) <==> b.high >= Up(price, pct) || b.low <= Down(price, pct)
  {
  }

  lemma TriggersIs(bars: seq<Bar>, pct: real, k: nat)
    requires 0 < k < |bars|
    ensures Triggers(bars, pct, k) <==> Breaks(bars, pct, k)
  {
    SeedIs(bars, k);
    MovesIs(bars[k], Seed(bars, k).1, pct);
    hide Moves, Up, Down;
    if Breaks(bars, pct, k) {
      var idx, price :| StartsAt(bars, k, idx, price) && Moves(bars[k], price, pct);
      SeedIsOnly(bars, k, idx, price);
    }
    hide Seed, StartsAt;
  }

  // The first pivot is that extreme on the first bar that moves by pct: a low if the bar rises, which
  // is looked at first, else a high.
  ghost predicate FirstAt(bars: seq<Bar>, pct: real, p: Pivot, c: nat) {
    && 0 < c < |bars|
    && StartsAt(bars, c, p.idx, p.price)
    && (forall k :: 0 < k < c ==> !Breaks(bars, pct, k))
    && if p.kind.L? then bars[c].high >= p.price * (1.0 + pct)
       else bars[c].high < p.price * (1.0 + pct) && bars[c].low <= p.price * (1.0 - pct)
  }

  lemma FirstIs(bars: seq<Bar>, pct: real, p: Pivot, c: nat)
    requires FirstPivot(bars, pct, p, c)
    ensures FirstAt(bars, pct, p, c)
  {
    SeedIs(bars, c);
    hide Seed, StartsAt, Breaks;
    forall k | 0 < k < c
      ensures !Breaks(bars, pct, k)
    {
      TriggersIs(bars, pct, k);
    }
  }

  // Pivot k is the extreme of its leg, which bar c ends: the first to move back by pct.
  ghost predicate TurnsAt(bars: seq<Bar>, pct: real, prev: nat, from: nat, p: Pivot, c: nat) {
    && c < |bars|
    && if p.kind.H?
       then HighLeg(bars, pct, prev, from, p, c) && bars[c].high < p.price && bars[c].low <= p.price * (1.0 - pct)
       else LowLeg(bars, pct, prev, from, p, c) && bars[c].low > p.price && bars[c].high >= p.price * (1.0 + pct)
  }

  lemma ConfirmedTurns(bars: seq<Bar>, pct: real, prev: nat, from: nat, p: Pivot, c: nat)
    requires Confirmed(bars, pct, prev, from, p, c)
    ensures TurnsAt(bars, pct, prev, from, p, c)
  {
    if p.kind.H? {
      HighLegIs(bars, pct, prev, from, p, c);
    } else {
      LowLegIs(bars, pct, prev, from, p, c);
    }
    hide Leg, HighLeg, LowLeg;
  }

  // Everything the scan returns: no pivots exactly while no bar moves by pct; else the first, then
  // alternating turns, each confirmed by the first bar that moves back far enough, and last the
  // extreme of the leg that is still open.
  lemma PivotsInPrices(bars: seq<Bar>, pct: real, out: seq<Pivot>, cs: seq<nat>)
    requires IsZigZag(bars, pct, out, cs)
    ensures |bars| < 6 ==> out == []
    ensures out == [] && |bars| >= 6 ==> forall k :: 0 < k < |bars| ==> !Breaks(bars, pct, k)
    ensures out != [] ==>
              var n := |out| - 1;
              && n > 0 && |cs| == n
              && FirstAt(bars, pct, out[0], cs[0])
              && (forall k :: 0 < k < n ==> TurnsAt(bars, pct, out[k - 1].idx, cs[k - 1], out[k], cs[k]))
              && (forall k :: 0 < k <= n ==> out[k].kind != out[k - 1].kind)
              && if out[n].kind.H? then HighLeg(bars, pct, out[n - 1].idx, cs[n - 1], out[n], |bars|)
                 else LowLeg(bars, pct, out[n - 1].idx, cs[n - 1], out[n], |bars|)
  {
    hide Leg, HighLeg, LowLeg, Confirmed, TurnsAt, FirstPivot, FirstAt, Breaks, Triggers;
    if |bars| < 6 {
      return;
    }
    if out == [] {
      forall k | 0 < k < |bars|
        ensures !Breaks(bars, pct, k)
      {
        TriggersIs(bars, pct, k);
      }
    } else {
      var n, front := |out| - 1, Front(out);
      FirstIs(bars, pct, front[0], cs[0]);
      forall k | 0 < k < n
        ensures TurnsAt(bars, pct, out[k - 1].idx, cs[k - 1], out[k], cs[k]) && out[k].kind != out[k - 1].kind
      {
        ConfirmedTurns(bars, pct, front[k - 1].idx, cs[k - 1], front[k], cs[k]);
      }
      if out[n].kind.H? {
        HighLegIs(bars, pct, out[n - 1].idx, cs[n - 1], out[n], |bars|);
      } else {
        LowLegIs(bars, pct, out[n - 1].idx, cs[n - 1], out[n], |bars|);
      }
    }
  }
}
