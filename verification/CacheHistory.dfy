/**
  Any history of the cache refines an unbounded map: what a hit returns, and
  the only reasons for a miss.
 */
module CacheHistory {
  import opened Keys
  import opened Prelude
  import opened MemoryCache

  datatype Op<+V> = Get(key: Key, now: real) | Set(key: Key, value: V, now: real) | Delete(key: Key) | Clear

  // What an operation turned out to be.
  datatype Event<+V> = Stored(key: Key, item: Item<V>) | Hit(key: Key) | Missed(key: Key) | Deleted(key: Key) | Cleared

  function Exec<V>(s: Store<V>, op: Op<V>, lim: Limits): (Store<V>, Event<V>) {
    match op
    case Get(k, now) =>
      var (s', r) := GetSpec(s, k, now);
      (s', if r.Some? then Hit(k) else Missed(k))
    case Set(k, v, now) => (SetSpec(s, k, v, now, lim), Stored(k, Item(now + lim.ttl, v)))
    case Delete(k) => (Remove(s, k), Deleted(k))
    case Clear => (Store([], map[]), Cleared)
  }

  function After<V>(ops: seq<Op<V>>, lim: Limits): Store<V> {
    if ops == [] then Store([], map[]) else Exec(After(Front(ops), lim), Last(ops), lim).0
  }

  function Events<V>(ops: seq<Op<V>>, lim: Limits): seq<Event<V>> {
    if ops == [] then []
    else Events(Front(ops), lim) + [Exec(After(Front(ops), lim), Last(ops), lim).1]
  }

  // ------------------------------------------------------------------
  // The unbounded map, read off the events alone
  // ------------------------------------------------------------------

  // The last item stored under k, unless it was deleted or everything cleared since.
  function Latest<V>(evs: seq<Event<V>>, k: Key): Option<Item<V>> {
    if evs == [] then None
    else
      match Last(evs)
      case Stored(k', item) => if k' == k then Some(item) else Latest(Front(evs), k)
      case Deleted(k') => if k' == k then None else Latest(Front(evs), k)
      case Cleared => None
      case _ => Latest(Front(evs), k)
  }

  // The other keys stored or hit since k was last stored or hit.
  function OthersSince<V>(evs: seq<Event<V>>, k: Key): set<Key> {
    if evs == [] then {}
    else
      var e := Last(evs);
      if e.Stored? || e.Hit? then
        if e.key == k then {} else OthersSince(Front(evs), k) + {e.key}
      else OthersSince(Front(evs), k)
  }

  // The clock after the operations, if one has been read.
  function Clock<V>(ops: seq<Op<V>>): Option<real> {
    if ops == [] then None
    else
      match Last(ops)
      case Get(_, now) => Some(now)
      case Set(_, _, now) => Some(now)
      case _ => Clock(Front(ops))
  }

  predicate NotBefore(clock: Option<real>, now: real) {
    clock.Some? ==> clock.value <= now
  }

  ghost predicate ClockRises<V>(ops: seq<Op<V>>) {
    ops != [] ==>
      && ClockRises(Front(ops))
      && (Last(ops).Get? || Last(ops).Set? ==> NotBefore(Clock(Front(ops)), Last(ops).now))
  }

  // ------------------------------------------------------------------
  // The invariant
  // ------------------------------------------------------------------

  // Keys behind position i were all stored or hit since the key at i was.
  ghost predicate Ranked<V>(s: Store<V>, evs: seq<Event<V>>) {
    forall i, j :: 0 <= i < j < |s.order| ==> s.order[j] in OthersSince(evs, s.order[i])
  }

  ghost predicate Excused<V>(evs: seq<Event<V>>, k: Key, clock: Option<real>, lim: Limits) {
    Latest(evs, k).Some? ==>
      || (clock.Some? && Latest(evs, k).value.expires < clock.value)
      || |OthersSince(evs, k)| >= lim.maxSize
  }

  ghost predicate Inv<V>(s: Store<V>, evs: seq<Event<V>>, clock: Option<real>, lim: Limits) {
    && WellFormed(s)
    && |s.order| <= lim.maxSize
    && Ranked(s, evs)
    && (forall k :: k in s.data ==> Latest(evs, k) == Some(s.data[k]))
    && (forall k :: k !in s.data ==> Excused(evs, k, clock, lim))
  }

  lemma {:induction false} DistinctFit(ks: seq<Key>, others: set<Key>)
    requires Distinct(ks) && forall k :: k in ks ==> k in others
    ensures |ks| <= |others|
  {
    if ks != [] {
      var k := Last(ks);
      assert k !in Front(ks);
      DistinctFit(Front(ks), others - {k});
    }
  }

  lemma EventLatest<V>(evs: seq<Event<V>>, e: Event<V>, k: Key)
    ensures Latest(evs + [e], k) ==
            match e
            case Stored(k', item) => if k' == k then Some(item) else Latest(evs, k)
            case Deleted(k') => if k' == k then None else Latest(evs, k)
            case Cleared => None
            case _ => Latest(evs, k)
    ensures OthersSince(evs + [e], k) ==
            if e.Stored? || e.Hit? then (if e.key == k then {} else OthersSince(evs, k) + {e.key})
            else OthersSince(evs, k)
  {
    assert Front(evs + [e]) == evs;
  }

  lemma {:induction false} WithoutKeepsOrder(ks: seq<Key>, k: Key, i: nat, j: nat) returns (i': nat, j': nat)
    requires i < j < |Without(ks, k)|
    ensures i' < j' < |ks| && ks[i'] == Without(ks, k)[i] && ks[j'] == Without(ks, k)[j]
  {
    if j < |Without(Front(ks), k)| {
      i', j' := WithoutKeepsOrder(Front(ks), k, i, j);
    } else {
      j' := |ks| - 1;
      var x := Without(ks, k)[i];
      assert x == Without(Front(ks), k)[i];
      assert x in Front(ks);
      i' :| 0 <= i' < |ks| - 1 && ks[i'] == x;
    }
  }

  // Removing a key, or moving it to the end on a touch, keeps the ranking.
  lemma RankedWithout<V>(s: Store<V>, evs: seq<Event<V>>, k: Key)
    requires Ranked(s, evs)
    ensures Ranked(Remove(s, k), evs)
  {
    forall i, j | 0 <= i < j < |Without(s.order, k)|
      ensures Without(s.order, k)[j] in OthersSince(evs, Without(s.order, k)[i])
    {
      var i', j' := WithoutKeepsOrder(s.order, k, i, j);
    }
  }

  lemma RankedTouched<V>(order: seq<Key>, data: map<Key, Item<V>>, evs: seq<Event<V>>, e: Event<V>)
    requires Ranked(Store(order, data), evs) && (e.Stored? || e.Hit?) && e.key !in order
    ensures Ranked(Store(order + [e.key], data), evs + [e])
  {
    var order' := order + [e.key];
    forall i, j | 0 <= i < j < |order'|
      ensures order'[j] in OthersSince(evs + [e], order'[i])
    {
      assert order[i] in order;
      EventLatest(evs, e, order'[i]);
    }
  }

  lemma RankedQuiet<V>(s: Store<V>, evs: seq<Event<V>>, e: Event<V>)
    requires Ranked(s, evs) && !e.Stored? && !e.Hit?
    ensures Ranked(s, evs + [e])
  {
    forall i, j | 0 <= i < j < |s.order|
      ensures s.order[j] in OthersSince(evs + [e], s.order[i])
    {
      EventLatest(evs, e, s.order[i]);
    }
  }

  // A key that is absent stays excused: its own events aside, nothing shortens its list of others.
  lemma StillExcused<V>(evs: seq<Event<V>>, e: Event<V>, k: Key, clock: Option<real>, clock': Option<real>, lim: Limits)
    requires Excused(evs, k, clock, lim)
    requires clock.Some? ==> clock'.Some? && clock.value <= clock'.value
    requires (e.Stored? || e.Hit?) ==> e.key != k
    ensures Excused(evs + [e], k, clock', lim)
  {
    EventLatest(evs, e, k);
    if e.Stored? || e.Hit? {
      Grow(OthersSince(evs, k), e.key);
    }
  }

  lemma Grow(s: set<Key>, k: Key)
    ensures |s + {k}| >= |s|
  {
    if k in s {
      assert s + {k} == s;
    }
  }

  lemma GetKeepsInv<V>(s: Store<V>, evs: seq<Event<V>>, clock: Option<real>, lim: Limits, k: Key, now: real)
    requires Inv(s, evs, clock, lim) && NotBefore(clock, now)
    ensures var (s', r) := GetSpec(s, k, now);
            Inv(s', evs + [if r.Some? then Hit(k) else Missed(k)], Some(now), lim)
  {
    hide OthersSince, Latest, Excused;
    var (s', r) := GetSpec(s, k, now);
    var e: Event<V> := if r.Some? then Hit(k) else Missed(k);
    GetStaysWellFormed(s, k, now);
    forall x
      ensures Latest(evs + [e], x) == Latest(evs, x)
    {
      EventLatest(evs, e, x);
    }
    RankedWithout(s, evs, k);
    if r.Some? {
      RankedTouched(Without(s.order, k), s.data, evs, e);
      TouchSize(s, k);
    } else {
      RankedQuiet(s', evs, e);
    }
    forall x | x !in s'.data
      ensures Excused(evs + [e], x, Some(now), lim)
    {
      if x in s.data {
        JustExpired(evs, e, x, now, lim);
      } else {
        StillExcused(evs, e, x, clock, Some(now), lim);
      }
    }
  }

  lemma JustExpired<V>(evs: seq<Event<V>>, e: Event<V>, k: Key, now: real, lim: Limits)
    requires Latest(evs, k).Some? && Latest(evs, k).value.expires < now && e.Missed?
    ensures Excused(evs + [e], k, Some(now), lim)
  {
    EventLatest(evs, e, k);
  }

  lemma TouchSize<V>(s: Store<V>, k: Key)
    requires WellFormed(s)
    ensures |Touch(s, k).order| == if k in s.data then |s.order| else |s.order| + 1
  {
    if k in s.data {
      WithoutLength(s.order, k);
    }
  }

  // The invariant, but for one key too many.
  ghost predicate Overfull<V>(s: Store<V>, evs: seq<Event<V>>, clock: Option<real>, lim: Limits) {
    && WellFormed(s)
    && |s.order| <= lim.maxSize + 1
    && Ranked(s, evs)
    && (forall k :: k in s.data ==> Latest(evs, k) == Some(s.data[k]))
    && (forall k :: k !in s.data ==> Excused(evs, k, clock, lim))
  }

  // Evicting the least recently used of maxSize + 1 keys leaves it with maxSize others behind it.
  lemma EvictKeepsInv<V>(s: Store<V>, evs: seq<Event<V>>, clock: Option<real>, lim: Limits)
    requires Overfull(s, evs, clock, lim)
    ensures Inv(Evict(s, lim.maxSize), evs, clock, lim)
  {
    hide OthersSince, Latest;
    EvictStaysWellFormed(s, lim.maxSize);
    if |s.order| > lim.maxSize {
      var k, rest := s.order[0], s.order[1..];
      var s' := Store(rest, s.data - {k});
      assert Evict(s, lim.maxSize) == s';
      assert forall j :: 0 <= j < |rest| ==> rest[j] == s.order[j + 1];
      DistinctFit(rest, OthersSince(evs, k));
    }
  }

  lemma SetKeepsInv<V>(s: Store<V>, evs: seq<Event<V>>, clock: Option<real>, lim: Limits, k: Key, v: V, now: real)
    requires Inv(s, evs, clock, lim) && NotBefore(clock, now)
    ensures Inv(SetSpec(s, k, v, now, lim), evs + [Stored(k, Item(now + lim.ttl, v))], Some(now), lim)
  {
    hide Inv, Evict, Overfull;
    var item := Item(now + lim.ttl, v);
    StoreOverfills(s, evs, clock, lim, k, item, now);
    EvictKeepsInv(Touch(s, k).(data := s.data[k := item]), evs + [Stored(k, item)], Some(now), lim);
  }

  lemma StoreOverfills<V>(s: Store<V>, evs: seq<Event<V>>, clock: Option<real>, lim: Limits, k: Key, item: Item<V>, now: real)
    requires Inv(s, evs, clock, lim) && NotBefore(clock, now)
    ensures Overfull(Touch(s, k).(data := s.data[k := item]), evs + [Stored(k, item)], Some(now), lim)
  {
    hide OthersSince, Latest, Excused, Ranked, WellFormed;
    StoredRanks(s, evs, lim, k, item);
    StoredLatest(s, evs, k, item);
    forall x | x !in s.data[k := item]
      ensures Excused(evs + [Stored(k, item)], x, Some(now), lim)
    {
      StillExcused(evs, Stored(k, item), x, clock, Some(now), lim);
    }
  }

  lemma StoredRanks<V>(s: Store<V>, evs: seq<Event<V>>, lim: Limits, k: Key, item: Item<V>)
    requires WellFormed(s) && Ranked(s, evs) && |s.order| <= lim.maxSize
    ensures var s' := Touch(s, k).(data := s.data[k := item]);
            WellFormed(s') && Ranked(s', evs + [Stored(k, item)]) && |s'.order| <= lim.maxSize + 1
  {
    hide OthersSince, Ranked;
    var s' := Touch(s, k).(data := s.data[k := item]);
    TouchStaysWellFormed(s, k, item);
    TouchSize(s, k);
    RankedWithout(s, evs, k);
    RankedData(Without(s.order, k), s.data - {k}, s'.data, evs);
    RankedTouched(Without(s.order, k), s'.data, evs, Stored(k, item));
  }

  lemma RankedData<V>(order: seq<Key>, data: map<Key, Item<V>>, data': map<Key, Item<V>>, evs: seq<Event<V>>)
    requires Ranked(Store(order, data), evs)
    ensures Ranked(Store(order, data'), evs)
  {
  }

  lemma StoredLatest<V>(s: Store<V>, evs: seq<Event<V>>, k: Key, item: Item<V>)
    requires forall x :: x in s.data ==> Latest(evs, x) == Some(s.data[x])
    ensures var data := s.data[k := item];
            forall x :: x in data ==> Latest(evs + [Stored(k, item)], x) == Some(data[x])
  {
    hide Latest;
    forall x | x in s.data[k := item]
      ensures Latest(evs + [Stored(k, item)], x) == Some(s.data[k := item][x])
    {
      EventLatest(evs, Stored(k, item), x);
    }
  }

  lemma RemoveKeepsInv<V>(s: Store<V>, evs: seq<Event<V>>, clock: Option<real>, lim: Limits, k: Key)
    requires Inv(s, evs, clock, lim)
    ensures Inv(Remove(s, k), evs + [Deleted(k)], clock, lim)
  {
    hide OthersSince, Latest;
    var e: Event<V> := Deleted(k);
    RemoveStaysWellFormed(s, k);
    RankedWithout(s, evs, k);
    RankedQuiet(Remove(s, k), evs, e);
    forall x
      ensures Latest(evs + [e], x) == if x == k then None else Latest(evs, x)
      ensures OthersSince(evs + [e], x) == OthersSince(evs, x)
    {
      EventLatest(evs, e, x);
    }
  }

  lemma ClearKeepsInv<V>(s: Store<V>, evs: seq<Event<V>>, clock: Option<real>, lim: Limits)
    requires Inv(s, evs, clock, lim)
    ensures Inv(Store([], map[]), evs + [Cleared], clock, lim)
  {
    hide OthersSince, Latest;
    forall x
      ensures Latest(evs + [Cleared], x) == None
    {
      EventLatest(evs, Cleared, x);
    }
  }

  // ------------------------------------------------------------------
  // The refinement, over all histories
  // ------------------------------------------------------------------

  lemma {:induction false} HistoryInv<V>(ops: seq<Op<V>>, lim: Limits)
    requires lim.maxSize > 0 && ClockRises(ops)
    ensures Inv(After(ops, lim), Events(ops, lim), Clock(ops), lim)
  {
    if ops != [] {
      hide Inv, GetSpec, SetSpec;
      HistoryInv(Front(ops), lim);
      var s, evs, clock := After(Front(ops), lim), Events(Front(ops), lim), Clock(Front(ops));
      match Last(ops) {
        case Get(k, now) => GetKeepsInv(s, evs, clock, lim, k, now);
        case Set(k, v, now) => SetKeepsInv(s, evs, clock, lim, k, v, now);
        case Delete(k) => RemoveKeepsInv(s, evs, clock, lim, k);
        case Clear => ClearKeepsInv(s, evs, clock, lim);
      }
    } else {
      EmptyInv<V>(lim);
    }
  }

  lemma EmptyInv<V>(lim: Limits)
    ensures Inv<V>(Store([], map[]), [], None, lim)
  {
  }

  // A lookup after any history with a rising clock: the size limit holds; a hit returns the
  // latest stored value, unexpired; a miss on a stored key means expiry, or at least maxSize
  // distinct other keys stored or hit since its own last touch.
  lemma CacheRefinesMap<V>(ops: seq<Op<V>>, lim: Limits, k: Key, now: real)
    requires lim.maxSize > 0 && ClockRises(ops) && NotBefore(Clock(ops), now)
    ensures |After(ops, lim).order| <= lim.maxSize
    ensures var r := GetSpec(After(ops, lim), k, now).1;
            var evs := Events(ops, lim);
            match r
            case Some(v) => Latest(evs, k).Some? && Latest(evs, k).value.value == v && now <= Latest(evs, k).value.expires
            case None => Latest(evs, k).Some? ==>
              now > Latest(evs, k).value.expires || |OthersSince(evs, k)| >= lim.maxSize
  {
    HistoryInv(ops, lim);
    hide After, Events, Latest, OthersSince;
    assert k !in After(ops, lim).data ==> Excused(Events(ops, lim), k, Clock(ops), lim);
  }

  // Within its lifetime a key survives until maxSize other keys have been touched.
  lemma RecentKeyIsServed<V>(ops: seq<Op<V>>, lim: Limits, k: Key, now: real)
    requires lim.maxSize > 0 && ClockRises(ops) && NotBefore(Clock(ops), now)
    requires var item := Latest(Events(ops, lim), k); item.Some? && now <= item.value.expires
    requires |OthersSince(Events(ops, lim), k)| < lim.maxSize
    ensures GetSpec(After(ops, lim), k, now).1 == Some(Latest(Events(ops, lim), k).value.value)
  {
    hide GetSpec, After, Events, Latest, OthersSince;
    CacheRefinesMap(ops, lim, k, now);
  }
}
