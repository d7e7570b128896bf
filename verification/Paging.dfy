/**
  Backward pagination over candles: `_fetch_paginated` in app/infra/marketdata.py
  and the cursor loop of scripts/_binance_stdlib.py.
 */
module Paging {
  import opened Prelude

  // Open time in milliseconds; the close price stands for the rest of the row.
  datatype Candle = Candle(openTime: int, close: real)

  const PAGE := 1000

  ghost predicate Ascending(s: seq<Candle>) {
    forall i, j :: 0 <= i < j < |s| ==> s[i].openTime < s[j].openTime
  }

  // How many candles of the series open at t or earlier.
  function Upto(s: seq<Candle>, t: int): (k: nat)
    ensures k <= |s|
    ensures forall i :: k <= i < |s| ==> s[i].openTime > t
    ensures k > 0 ==> s[k - 1].openTime <= t
  {
    if s == [] then 0
    else if Last(s).openTime <= t then |s|
    else Upto(Front(s), t)
  }

  lemma UptoSplits(s: seq<Candle>, t: int, i: nat)
    requires Ascending(s) && i < |s|
    ensures i < Upto(s, t) <==> s[i].openTime <= t
  {
    hide Upto;
    var k := Upto(s, t);
    if i + 1 < k {
      assert s[i].openTime < s[k - 1].openTime;
    }
  }

  // The exchange's reply: the last `limit` candles up to the end time.
  function Query(s: seq<Candle>, end: Option<int>, limit: nat): (r: seq<Candle>)
    ensures |r| <= limit
  {
    var k := if end.Some? then Upto(s, end.value) else |s|;
    if limit <= k then s[k - limit..k] else s[..k]
  }

  function KeepFrom(rows: seq<Candle>, start: int): seq<Candle> {
    if rows == [] then []
    else KeepFrom(Front(rows), start) + if Last(rows).openTime >= start then [Last(rows)] else []
  }

  // Bounds of the requested range as positions in the series.
  function Low(s: seq<Candle>, start: Option<int>): nat {
    if start.Some? then Upto(s, start.value - 1) else 0
  }

  function High(s: seq<Candle>, end: Option<int>): nat {
    if end.Some? then Upto(s, end.value) else |s|
  }

  // The last `num` candles of the range, in one slice.
  function Window(s: seq<Candle>, start: Option<int>, end: Option<int>, num: int): (r: seq<Candle>)
    ensures |r| == IMin(IMax(num, 0), IMax(High(s, end) - Low(s, start), 0))
  {
    var lo, hi := Low(s, start), High(s, end);
    if lo >= hi then [] else s[IMax(lo, hi - IMax(num, 0))..hi]
  }

  predicate InBounds(c: Candle, start: Option<int>, end: Option<int>) {
    (start.Some? ==> c.openTime >= start.value) && (end.Some? ==> c.openTime <= end.value)
  }

  // The positions between the bounds are exactly the candles in [start, end].
  lemma BoundsMeanRange(s: seq<Candle>, start: Option<int>, end: Option<int>, i: nat)
    requires Ascending(s) && i < |s|
    ensures Low(s, start) <= i < High(s, end) <==> InBounds(s[i], start, end)
  {
    hide Upto;
    if start.Some? {
      UptoSplits(s, start.value - 1, i);
    }
    if end.Some? {
      UptoSplits(s, end.value, i);
    }
  }

  // The later candles of the range.
  ghost function LaterInBounds(s: seq<Candle>, start: Option<int>, end: Option<int>, i: nat): set<nat> {
    set j: nat | i < j < |s| && InBounds(s[j], start, end)
  }

  ghost function Interval(a: nat, b: nat): (r: set<nat>)
    requires a <= b
    ensures |r| == b - a && forall j :: j in r <==> a <= j < b
    decreases b
  {
    if a == b then {} else Interval(a, b - 1) + {b - 1}
  }

  lemma LaterSize(s: seq<Candle>, start: Option<int>, end: Option<int>, i: nat)
    requires Ascending(s) && i < |s| && InBounds(s[i], start, end)
    ensures |LaterInBounds(s, start, end, i)| == High(s, end) - 1 - i
  {
    BoundsMeanRange(s, start, end, i);
    forall j: nat | j < |s|
      ensures InBounds(s[j], start, end) <==> Low(s, start) <= j < High(s, end)
    {
      BoundsMeanRange(s, start, end, j);
    }
    hide InBounds;
    HighFits(s, end);
    hide Low, High;
    assert LaterInBounds(s, start, end, i) == Interval(i + 1, High(s, end));
  }

  lemma HighFits(s: seq<Candle>, end: Option<int>)
    ensures High(s, end) <= |s|
  {
  }

  // What a window holds: a candle is in it exactly when it lies in the range and fewer than `num`
  // candles of the range come after it.
  lemma WindowIs(s: seq<Candle>, start: Option<int>, end: Option<int>, num: int) returns (a: nat, b: nat)
    requires Ascending(s)
    ensures a <= b <= |s| && Window(s, start, end, num) == s[a..b]
    ensures forall i: nat :: i < |s| ==>
              (a <= i < b <==> InBounds(s[i], start, end) && |LaterInBounds(s, start, end, i)| < num)
  {
    var lo, hi := Low(s, start), High(s, end);
    HighFits(s, end);
    forall i: nat | i < |s|
      ensures lo <= i < hi <==> InBounds(s[i], start, end)
      ensures lo <= i < hi ==> |LaterInBounds(s, start, end, i)| == hi - 1 - i
    {
      BoundsMeanRange(s, start, end, i);
      if lo <= i < hi {
        LaterSize(s, start, end, i);
      }
    }
    hide Low, High, InBounds, LaterInBounds, Ascending;
    if lo >= hi {
      a, b := 0, 0;
    } else {
      a, b := IMax(lo, hi - IMax(num, 0)), hi;
    }
  }

  lemma SliceLast(s: seq<Candle>, a: nat, b: nat)
    requires a < b <= |s|
    ensures s[a..b] != [] && Front(s[a..b]) == s[a..b - 1] && Last(s[a..b]) == s[b - 1]
    ensures s[a..b] == s[a..b - 1] + [s[b - 1]]
  {
  }

  lemma KeepLast(rows: seq<Candle>, c: Candle, start: int)
    ensures KeepFrom(rows + [c], start) == if c.openTime >= start then KeepFrom(rows, start) + [c] else KeepFrom(rows, start)
  {
    assert Front(rows + [c]) == rows;
  }

  // Dropping the rows before a start time cuts a slice at the lower bound.
  lemma {:induction false} KeepCuts(s: seq<Candle>, a: nat, b: nat, start: int)
    requires Ascending(s) && a <= b <= |s|
    ensures var lo := Upto(s, start - 1);
            KeepFrom(s[a..b], start) == if b <= lo then [] else s[IMax(a, lo)..b]
  {
    hide Upto, Ascending;
    var lo := Upto(s, start - 1);
    if a == b {
      assert s[a..b] == [];
    } else {
      hide KeepFrom;
      KeepCuts(s, a, b - 1, start);
      SliceLast(s, a, b);
      KeepLast(s[a..b - 1], s[b - 1], start);
      UptoSplits(s, start - 1, b - 1);
      if lo < b {
        SliceLast(s, IMax(a, lo), b);
      }
    }
  }

  // Just before the first row of a page lie exactly the candles not yet fetched.
  lemma CursorStops(s: seq<Candle>, p: nat)
    requires Ascending(s) && p < |s|
    ensures Upto(s, s[p].openTime - 1) == p
  {
    hide Upto;
    var k := Upto(s, s[p].openTime - 1);
    UptoSplits(s, s[p].openTime - 1, p);
    if p > 0 {
      UptoSplits(s, s[p].openTime - 1, p - 1);
    }
  }

  // ------------------------------------------------------------------
  // app/infra/marketdata.py
  // ------------------------------------------------------------------

  lemma PageIsSlice(s: seq<Candle>, end: Option<int>, size: nat)
    ensures var p := High(s, end); Query(s, end, size) == s[IMax(p - size, 0)..p]
  {
  }

  lemma Join(s: seq<Candle>, q: nat, p: nat, hi: nat)
    requires q <= p <= hi <= |s|
    ensures s[q..p] + s[p..hi] == s[q..hi]
  {
  }

  // Either the cap is reached, or the lower bound is, within the cap.
  lemma IsWindow(s: seq<Candle>, start: Option<int>, end: Option<int>, num: int, q: nat)
    requires var lo, hi, n := Low(s, start), High(s, end), IMax(num, 0);
             && q <= hi && hi - q <= n
             && (q >= lo || q == hi)
             && (hi - q == n || q <= lo)
    ensures s[q..High(s, end)] == Window(s, start, end, num)
  {
  }

  // One request, without the rows before the start.
  method FetchPage(s: seq<Candle>, start: Option<int>, endTime: Option<int>, size: nat) returns (batch: seq<Candle>)
    requires Ascending(s)
    ensures var p, lo := High(s, endTime), Low(s, start);
            batch == if p <= lo then [] else s[IMax(IMax(p - size, 0), lo)..p]
  {
    hide Upto, KeepFrom, Query;
    PageIsSlice(s, endTime, size);
    batch := Query(s, endTime, size);
    if start.Some? {
      KeepCuts(s, IMax(High(s, endTime) - size, 0), High(s, endTime), start.value);
      batch := KeepFrom(batch, start.value);
    }
  }

  // Paged fetching equals one query of the range, whatever the bounds and the cap.
  method FetchPaginated(s: seq<Candle>, start: Option<int>, end: Option<int>, num: int)
      returns (collected: seq<Candle>)
    requires Ascending(s)
    ensures collected == Window(s, start, end, num)
  {
    hide Upto, Window, High, Low, Ascending;
    collected := [];
    var endTime := end;
    ghost var lo, hi := Low(s, start), High(s, end);
    ghost var p: nat := hi;
    BoundsInside(s, start, end);
    while |collected| < num
      invariant p <= hi && (p >= lo || p == hi)
      invariant collected == s[p..hi]
      invariant High(s, endTime) == p
      invariant hi - p <= IMax(num, 0)
      decreases num - |collected|
    {
      var size := IMin(num - |collected|, PAGE);
      var batch := FetchPage(s, start, endTime, size);
      if batch == [] {
        IsWindow(s, start, end, num, p);
        return;
      }
      ghost var q: nat := IMax(IMax(p - size, 0), lo);
      Join(s, q, p, hi);
      collected := batch + collected;
      p := q;
      if |batch| < size {
        IsWindow(s, start, end, num, p);
        return;
      }
      endTime := Some(batch[0].openTime - 1);
      CursorStops(s, q);
      EndIsHigh(s, endTime.value);
      if start.Some? && endTime.value < start.value {
        StartIsLow(s, start.value);
        AtStart(s, q, start.value);
        IsWindow(s, start, end, num, p);
        return;
      }
    }
    IsWindow(s, start, end, num, p);
  }

  lemma BoundsInside(s: seq<Candle>, start: Option<int>, end: Option<int>)
    ensures Low(s, start) <= |s| && High(s, end) <= |s|
  {
  }

  lemma StartIsLow(s: seq<Candle>, start: int)
    ensures Low(s, Some(start)) == Upto(s, start - 1)
  {
  }

  lemma EndIsHigh(s: seq<Candle>, end: int)
    ensures High(s, Some(end)) == Upto(s, end)
  {
  }

  // A candle opening exactly at the start is the first of the range.
  lemma AtStart(s: seq<Candle>, q: nat, start: int)
    requires Ascending(s) && q < |s| && s[q].openTime - 1 < start && q >= Upto(s, start - 1)
    ensures Upto(s, start - 1) == q
  {
    hide Upto;
    if q > 0 {
      UptoSplits(s, start - 1, q - 1);
    }
  }

  // ------------------------------------------------------------------
  // scripts/_binance_stdlib.py
  // ------------------------------------------------------------------

  // Milliseconds of each supported interval.
  function IntervalMs(interval: string): (ms: Option<int>)
    ensures ms.Some? ==> ms.value >= 60_000
  {
    if interval == "1m" then Some(60_000)
    else if interval == "5m" then Some(300_000)
    else if interval == "15m" then Some(900_000)
    else if interval == "1h" then Some(3_600_000)
    else if interval == "4h" then Some(14_400_000)
    else if interval == "1d" then Some(86_400_000)
    else if interval == "1w" then Some(604_800_000)
    else None
  }

  datatype Fetch = BadInterval | BadRange | NoData | Frame(rows: seq<Candle>)

  ghost predicate Opens(s: seq<Candle>, t: int) {
    exists i :: 0 <= i < |s| && s[i].openTime == t
  }

  // The one family of requests the cursor loop gets wrong: a page ends on the candle one
  // millisecond after the start, and a candle opens at the start itself.
  ghost predicate Misses(s: seq<Candle>, start: int, end: int) {
    && Opens(s, start)
    && Opens(s, start + 1)
    && (Upto(s, end) - Upto(s, start)) % PAGE == 0
  }

  // What the loop returns: the range, short of its first candle in the missing case.
  ghost function Fetched(s: seq<Candle>, start: int, end: int): Fetch {
    var lo, hi := Upto(s, start - 1), Upto(s, end);
    if end <= start then BadRange
    else if hi == 0 then NoData
    else if lo >= hi then Frame([])
    else Frame(s[if Misses(s, start, end) then lo + 1 else lo..hi])
  }

  // How far back the loop has gone when it stops.
  ghost predicate Stopped(s: seq<Candle>, start: int, end: int, p: nat) {
    && p <= Upto(s, end)
    && (p == Upto(s, end) ==> p == 0)
    && if Misses(s, start, end) then p == Upto(s, start) else p <= Upto(s, start - 1)
  }

  method FetchKlines(s: seq<Candle>, interval: string, start: int, end: int) returns (r: Fetch)
    requires Ascending(s)
    ensures r == if IntervalMs(interval).None? then BadInterval else Fetched(s, start, end)
  {
    hide Upto, KeepFrom, Misses, Opens, Ascending, Stopped, Query, Fetched, IntervalMs;
    if IntervalMs(interval).None? {
      return BadInterval;
    }
    if end <= start {
      InvalidRange(s, start, end);
      return BadRange;
    }
    var rows: seq<Candle> := [];
    var cursor := end;
    ghost var hi := Upto(s, end);
    ghost var p: nat := hi;
    ghost var stopped := false;
    while cursor > start
      invariant !stopped
      invariant AtPage(s, start, end, cursor, p)
      invariant p <= hi && rows == s[p..hi]
      decreases cursor - start
    {
      PageOfCursor(s, cursor, PAGE);
      var batch := Query(s, Some(cursor), PAGE);
      ghost var q: nat := IMax(p - PAGE, 0);
      PageStep(s, start, end, cursor, p);
      if batch == [] {
        stopped := true;
        break;
      }
      var first := batch[0].openTime;
      Join(s, q, p, hi);
      rows := batch + rows;
      p := q;
      if first <= start {
        stopped := true;
        break;
      }
      cursor := first - 1;
      if |batch| < PAGE {
        stopped := true;
        break;
      }
    }
    if !stopped {
      GuardStop(s, start, end, cursor, p);
    }
    r := Finish(s, start, end, rows, p);
  }

  // The tail of the function: no rows is an error, early rows are cut off.
  method Finish(s: seq<Candle>, start: int, end: int, rows: seq<Candle>, ghost p: nat) returns (r: Fetch)
    requires Ascending(s) && start < end && Stopped(s, start, end, p) && rows == s[p..Upto(s, end)]
    ensures r == Fetched(s, start, end)
  {
    hide Upto, KeepFrom, Opens;
    StartPositions(s, start, end);
    if rows == [] {
      return NoData;
    }
    KeepCuts(s, p, Upto(s, end), start);
    r := Frame(KeepFrom(rows, start));
  }

  lemma InvalidRange(s: seq<Candle>, start: int, end: int)
    requires end <= start
    ensures Fetched(s, start, end) == BadRange
  {
  }

  lemma PageOfCursor(s: seq<Candle>, cursor: int, size: nat)
    ensures var p := Upto(s, cursor); Query(s, Some(cursor), size) == s[IMax(p - size, 0)..p]
  {
  }

  // The loop head: full pages only so far, the cursor just before the oldest row.
  ghost predicate AtPage(s: seq<Candle>, start: int, end: int, cursor: int, p: nat) {
    && start < end
    && Upto(s, cursor) == p <= Upto(s, end)
    && (Upto(s, end) - p) % PAGE == 0
    && (if p == Upto(s, end) then cursor == end else s[p].openTime == cursor + 1 && start <= cursor)
  }

  lemma StartPositions(s: seq<Candle>, start: int, end: int)
    requires Ascending(s) && start < end
    ensures Upto(s, start - 1) <= Upto(s, start) <= Upto(s, end)
    ensures Upto(s, start) == Upto(s, start - 1) + if Opens(s, start) then 1 else 0
    ensures Opens(s, start + 1) <==> Upto(s, start) < |s| && s[Upto(s, start)].openTime == start + 1
  {
    hide Upto;
    UptoGrows(s, start - 1, start);
    UptoGrows(s, start, end);
    OpensIff(s, start);
    OpensIff(s, start + 1);
    var lo := Upto(s, start - 1);
    if lo < |s| {
      UptoSplits(s, start, lo);
    }
    if lo + 1 < |s| {
      UptoSplits(s, start, lo + 1);
    }
  }

  lemma UptoGrows(s: seq<Candle>, t: int, u: int)
    requires Ascending(s) && t <= u
    ensures Upto(s, t) <= Upto(s, u)
  {
    hide Upto;
    if Upto(s, u) < |s| {
      UptoSplits(s, t, Upto(s, u));
    }
  }

  lemma OpensIff(s: seq<Candle>, t: int)
    requires Ascending(s)
    ensures Opens(s, t) <==> Upto(s, t - 1) < |s| && s[Upto(s, t - 1)].openTime == t
  {
    hide Upto;
    var k := Upto(s, t - 1);
    if k < |s| {
      var next := s[k].openTime;
      assert next >= t;
    }
    forall i | 0 <= i < |s| && s[i].openTime == t
      ensures i == k
    {
      UptoSplits(s, t - 1, i);
    }
  }

  // One more page: if it empties, reaches the start or is short, the loop has stopped where it
  // should; otherwise the next head is at a page again.
  lemma PageStep(s: seq<Candle>, start: int, end: int, cursor: int, p: nat)
    requires Ascending(s) && AtPage(s, start, end, cursor, p) && cursor > start
    ensures var q := IMax(p - PAGE, 0);
            if p == 0 || s[q].openTime <= start || p - q < PAGE then Stopped(s, start, end, q)
            else AtPage(s, start, end, s[q].openTime - 1, q)
  {
    hide Upto, Opens;
    var at, hi := Upto(s, start), Upto(s, end);
    StartPositions(s, start, end);
    UptoGrows(s, start, cursor);
    var q := IMax(p - PAGE, 0);
    if p > 0 {
      CursorStops(s, q);
      UptoSplits(s, start, q);
      if Misses(s, start, end) {
        AheadOfMiss(s, start, end, cursor, p);
      }
    }
  }

  // In the missing case every page before the last ends at or after the candle past the start.
  lemma AheadOfMiss(s: seq<Candle>, start: int, end: int, cursor: int, p: nat)
    requires Ascending(s) && AtPage(s, start, end, cursor, p) && cursor > start && Misses(s, start, end)
    ensures p - PAGE >= Upto(s, start)
  {
    hide Upto, Opens;
    StartPositions(s, start, end);
    UptoGrows(s, start, cursor);
    var at := Upto(s, start);
    UptoSplits(s, end, at);
    assert p != at;
    Multiples(Upto(s, end) - at, Upto(s, end) - p);
  }

  lemma Multiples(x: int, y: int)
    requires x % PAGE == 0 && y % PAGE == 0 && x > y
    ensures x - y >= PAGE
  {
  }

  lemma GuardStop(s: seq<Candle>, start: int, end: int, cursor: int, p: nat)
    requires Ascending(s) && AtPage(s, start, end, cursor, p) && cursor <= start
    ensures Stopped(s, start, end, p)
  {
    hide Upto, Opens;
    StartPositions(s, start, end);
  }

  // The result is every candle of [start, end] exactly when the request is not a missing one.
  lemma CompleteIff(s: seq<Candle>, start: int, end: int)
    requires Ascending(s) && start < end && Upto(s, start - 1) < Upto(s, end)
    ensures Fetched(s, start, end) == Frame(s[Upto(s, start - 1)..Upto(s, end)]) <==> !Misses(s, start, end)
  {
    hide Upto, Misses;
    var lo, hi := Upto(s, start - 1), Upto(s, end);
    assert |s[lo..hi]| == hi - lo && |s[lo + 1..hi]| == hi - lo - 1;
  }

  // Candles at least two milliseconds apart are never missed.
  lemma SpacedIsComplete(s: seq<Candle>, start: int, end: int)
    requires Ascending(s)
    requires forall i :: 0 < i < |s| ==> s[i].openTime >= s[i - 1].openTime + 2
    ensures !Misses(s, start, end)
  {
    hide Upto;
    forall i, j | 0 <= i < j < |s|
      ensures s[j].openTime >= s[i].openTime + 2
    {
      assert s[j].openTime >= s[j - 1].openTime + 2;
      assert i < j - 1 ==> s[i].openTime < s[j - 1].openTime;
    }
  }

  // Neighbouring candles open at least `ms` apart.
  ghost predicate Spaced(s: seq<Candle>, ms: int) {
    forall i :: 0 < i < |s| ==> s[i].openTime >= s[i - 1].openTime + ms
  }

  // So for exchange data of any supported interval the loop returns the whole range: every
  // request for one is complete.
  lemma SupportedIsComplete(s: seq<Candle>, interval: string, start: int, end: int)
    requires Ascending(s) && IntervalMs(interval).Some? && Spaced(s, IntervalMs(interval).value)
    ensures var lo, hi := Upto(s, start - 1), Upto(s, end);
            Fetched(s, start, end) == if end <= start then BadRange
                                      else if hi == 0 then NoData
                                      else Frame(if lo < hi then s[lo..hi] else [])
  {
    hide IntervalMs, Upto, Misses;
    SpacedIsComplete(s, start, end);
  }

  // Candles one millisecond apart do miss: of 1001 candles asked for, the first is not returned.
  lemma DenseMisses() returns (s: seq<Candle>)
    ensures Ascending(s) && |s| == 1001 && forall i :: 0 <= i < |s| ==> InBounds(s[i], Some(0), Some(1000))
    ensures Fetched(s, 0, 1000) == Frame(s[1..])
  {
    s := seq(1001, i => Candle(i, 1.0));
    hide Upto;
    UptoSplits(s, -1, 0);
    UptoSplits(s, 0, 0);
    UptoSplits(s, 0, 1);
    UptoSplits(s, 1000, 1000);
    assert Upto(s, -1) == 0 && Upto(s, 0) == 1 && Upto(s, 1000) == 1001;
    assert s[0].openTime == 0 && s[1].openTime == 1;
    assert Opens(s, 0) && Opens(s, 1);
    assert s[1..1001] == s[1..];
  }
}
