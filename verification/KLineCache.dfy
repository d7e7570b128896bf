/**
  Pattern invalidation over the memory backend: `set` and `invalidate` of
  app/infra/kline_cache.py.
 */
module KLineCache {
  import opened Keys
  import opened Prelude
  import opened MemoryCache

  // "exchange:symbol:interval" of a cached frame.
  type Params = string

  // What each parameter string has been stored under.
  type Index = map<Params, set<Key>>

  datatype State<+V> = State(store: Store<V>, index: Index)

  function IndexAdd(index: Index, p: Params, k: Key): Index {
    index[p := (if p in index then index[p] else {}) + {k}]
  }

  function SetFrame<V>(s: State<V>, k: Key, p: Params, v: V, now: real, lim: Limits): State<V> {
    State(SetSpec(s.store, k, v, now, lim), IndexAdd(s.index, p, k))
  }

  // Every key indexed under a matching parameter string.
  function Matched(index: Index, matches: Params -> bool): set<Key> {
    set p, k | p in index && matches(p) && k in index[p] :: k
  }

  // The index without these keys and without the sets that become empty.
  function Prune(index: Index, keys: set<Key>): Index {
    map p | p in index && index[p] - keys != {} :: index[p] - keys
  }

  function Drop(ks: seq<Key>, keys: set<Key>): seq<Key> {
    if ks == [] then [] else Drop(Front(ks), keys) + if Last(ks) in keys then [] else [Last(ks)]
  }

  function DropKeys<V>(s: Store<V>, keys: set<Key>): Store<V> {
    Store(Drop(s.order, keys), s.data - keys)
  }

  function InvalidateFrames<V>(s: State<V>, matches: Params -> bool): State<V> {
    var keys := Matched(s.index, matches);
    State(DropKeys(s.store, keys), Prune(s.index, keys))
  }

  lemma DropLast(ks: seq<Key>, keys: set<Key>)
    requires ks != []
    ensures Last(ks) in keys ==> Drop(ks, keys) == Drop(Front(ks), keys)
    ensures Last(ks) !in keys ==> Drop(ks, keys) == Drop(Front(ks), keys) + [Last(ks)]
  {
    assert Drop(Front(ks), keys) + [] == Drop(Front(ks), keys);
  }

  // Deleting key after key, in whatever order, drops them all.
  lemma {:induction false} DropMore(ks: seq<Key>, keys: set<Key>, k: Key, more: set<Key>)
    requires more == keys + {k}
    ensures Without(Drop(ks, keys), k) == Drop(ks, more)
  {
    if ks != [] {
      hide Drop, Without;
      DropMore(Front(ks), keys, k, more);
      DropLast(ks, keys);
      DropLast(ks, more);
      WithoutAppend(Drop(Front(ks), keys), Last(ks), k);
      assert Drop(Front(ks), more) + [] == Drop(Front(ks), more);
    } else {
      assert Drop(ks, keys) == [];
    }
  }

  lemma {:induction false} DropNone(ks: seq<Key>, none: set<Key>)
    requires none == {}
    ensures Drop(ks, none) == ks
  {
    if ks != [] {
      DropNone(Front(ks), none);
      DropLast(ks, none);
      hide Drop;
      assert ks == Front(ks) + [Last(ks)];
    }
  }

  // ------------------------------------------------------------------
  // The code, in memory mode
  // ------------------------------------------------------------------

  class KLineCache<V> {
    const memory: MemoryCache<V>
    var index: Index

    ghost function Contents(): State<V>
      reads this, memory
    {
      State(memory.Contents(), index)
    }

    ghost predicate Valid()
      reads this, memory
    {
      memory.Valid()
    }

    constructor (ttl: real)
      ensures Valid() && fresh(memory) && memory.lim == Limits(256, ttl)
      ensures Contents() == State(Store([], map[]), map[])
    {
      memory := new MemoryCache(256, ttl);
      index := map[];
    }

    method Get(k: Key, now: real) returns (r: Option<V>)
      requires Valid()
      modifies memory
      ensures Valid() && index == old(index)
      ensures (memory.Contents(), r) == GetSpec(old(memory.Contents()), k, now)
    {
      r := memory.Get(k, now);
    }

    method Set(k: Key, p: Params, v: V, now: real)
      requires Valid()
      modifies this, memory
      ensures Valid()
      ensures Contents() == SetFrame(old(Contents()), k, p, v, now, memory.lim)
    {
      memory.Set(k, v, now);
      if p !in index {
        index := index[p := {}];
      }
      index := index[p := index[p] + {k}];
    }

    method DeleteAll(keys: set<Key>)
      requires Valid()
      modifies memory
      ensures Valid() && index == old(index)
      ensures memory.Contents() == DropKeys(old(memory.Contents()), keys)
    {
      hide Drop, Without;
      var left := keys;
      ghost var order, data := memory.order, memory.data;
      DropNone(order, keys - left);
      assert keys - left == {} && data - {} == data;
      while left != {}
        invariant left <= keys
        invariant Valid() && index == old(index)
        invariant memory.order == Drop(order, keys - left)
        invariant memory.data == data - (keys - left)
        decreases |left|
      {
        var k :| k in left;
        DropMore(order, keys - left, k, keys - (left - {k}));
        var _ := memory.Delete(k);
        left := left - {k};
      }
      assert keys - left == keys;
    }

    // A pattern that does not compile is logged and removes nothing.
    method Invalidate(compiled: Option<Params -> bool>) returns (count: nat)
      requires Valid()
      modifies this, memory
      ensures Valid()
      ensures compiled.None? ==> count == 0 && Contents() == old(Contents())
      ensures compiled.Some? ==>
                && count == |Matched(old(index), compiled.value)|
                && Contents() == InvalidateFrames(old(Contents()), compiled.value)
    {
      if compiled.None? {
        return 0;
      }
      var matches := compiled.value;
      var keys := set p, k | p in index && matches(p) && k in index[p] :: k;
      DeleteAll(keys);
      index := map p | p in index && index[p] - keys != {} :: index[p] - keys;
      count := |keys|;
    }
  }

  // ------------------------------------------------------------------
  // Histories
  // ------------------------------------------------------------------

  datatype Op<!V> =
    | Lookup(key: Key, now: real)
    | Save(key: Key, params: Params, value: V, now: real)
    | Invalidation(matches: Params -> bool)

  function Exec<V>(s: State<V>, op: Op<V>, lim: Limits): State<V> {
    match op
    case Lookup(k, now) => s.(store := GetSpec(s.store, k, now).0)
    case Save(k, p, v, now) => SetFrame(s, k, p, v, now, lim)
    case Invalidation(matches) => InvalidateFrames(s, matches)
  }

  function After<V>(ops: seq<Op<V>>, lim: Limits): State<V> {
    if ops == [] then State(Store([], map[]), map[]) else Exec(After(Front(ops), lim), Last(ops), lim)
  }

  // The parameters k was last saved with.
  function LastParams<V>(ops: seq<Op<V>>, k: Key): Option<Params> {
    if ops == [] then None
    else if Last(ops).Save? && Last(ops).key == k then Some(Last(ops).params)
    else LastParams(Front(ops), k)
  }

  ghost predicate SavedUnder<V>(ops: seq<Op<V>>, k: Key, p: Params) {
    exists i :: 0 <= i < |ops| && ops[i].Save? && ops[i].key == k && ops[i].params == p
  }

  // The parameters k was saved with since an invalidation last matched one of them.
  ghost function Tags<V>(ops: seq<Op<V>>, k: Key): set<Params> {
    if ops == [] then {}
    else
      var tags := Tags(Front(ops), k);
      match Last(ops)
      case Lookup(_, _) => tags
      case Save(k', p, _, _) => if k' == k then tags + {p} else tags
      case Invalidation(matches) => if exists p :: p in tags && matches(p) then {} else tags
  }

  // The key is always saved with the same parameters.
  ghost predicate OneParams<V>(ops: seq<Op<V>>, k: Key) {
    forall p, q :: SavedUnder(ops, k, p) && SavedUnder(ops, k, q) ==> p == q
  }

  // The index covers the live keys, and holds nothing that was never saved.
  ghost predicate Covers<V>(s: State<V>, ops: seq<Op<V>>) {
    && (forall k :: k in s.store.data ==>
          var p := LastParams(ops, k); p.Some? && p.value in s.index && k in s.index[p.value])
    && (forall p, k :: p in s.index && k in s.index[p] ==> SavedUnder(ops, k, p))
  }

  lemma SavedUnderGrows<V>(ops: seq<Op<V>>, op: Op<V>, k: Key, p: Params)
    requires SavedUnder(ops, k, p)
    ensures SavedUnder(ops + [op], k, p)
  {
    var i :| 0 <= i < |ops| && ops[i].Save? && ops[i].key == k && ops[i].params == p;
    assert (ops + [op])[i] == ops[i];
  }

  // Lookups, evictions and expiries only take keys away.
  lemma {:induction false} EvictTakesAway<V>(s: Store<V>, maxSize: nat)
    ensures forall k :: k in Evict(s, maxSize).data ==> k in s.data
    decreases |s.order|
  {
    if |s.order| > maxSize {
      EvictTakesAway(Store(s.order[1..], s.data - {s.order[0]}), maxSize);
    }
  }

  lemma ExecCovers<V>(s: State<V>, ops: seq<Op<V>>, op: Op<V>, lim: Limits)
    requires Covers(s, ops)
    ensures Covers(Exec(s, op, lim), ops + [op])
  {
    var s' := Exec(s, op, lim);
    assert Front(ops + [op]) == ops;
    forall k, p | SavedUnder(ops, k, p)
      ensures SavedUnder(ops + [op], k, p)
    {
      SavedUnderGrows(ops, op, k, p);
    }
    if op.Save? {
      assert (ops + [op])[|ops|] == op;
      EvictTakesAway(Touch(s.store, op.key).(data := s.store.data[op.key := Item(op.now + lim.ttl, op.value)]), lim.maxSize);
      assert forall k :: k in s'.store.data ==> k == op.key || k in s.store.data;
    } else if op.Invalidation? {
      var keys := Matched(s.index, op.matches);
      forall k | k in s'.store.data
        ensures var p := LastParams(ops, k).value; p in s'.index && k in s'.index[p]
      {
        assert k in s.index[LastParams(ops, k).value] - keys;
      }
    } else {
      assert forall k :: k in s'.store.data ==> k in s.store.data;
    }
  }

  lemma {:induction false} HistoryCovers<V>(ops: seq<Op<V>>, lim: Limits)
    ensures Covers(After(ops, lim), ops)
  {
    if ops != [] {
      HistoryCovers(Front(ops), lim);
      assert Front(ops) + [Last(ops)] == ops;
      hide Covers, Exec;
      ExecCovers(After(Front(ops), lim), Front(ops), Last(ops), lim);
    }
  }

  // After any history of saves, lookups, evictions, expiries and invalidations:
  // every live key whose current parameters match is removed; a removed key was at some time
  // saved under matching parameters; everything else is untouched.
  lemma InvalidateRemovesMatches<V>(ops: seq<Op<V>>, matches: Params -> bool, lim: Limits)
    ensures var before, after := After(ops, lim).store.data, After(ops + [Invalidation(matches)], lim).store.data;
            && (forall k :: k in before ==> LastParams(ops, k).Some?)
            && (forall k :: k in before && matches(LastParams(ops, k).value) ==> k !in after)
            && (forall k :: k in before && k !in after ==> exists p :: SavedUnder(ops, k, p) && matches(p))
            && (forall k :: k in after ==> k in before && after[k] == before[k])
  {
    HistoryCovers(ops, lim);
    assert Front(ops + [Invalidation(matches)]) == ops;
    hide LastParams, SavedUnder;
    var s := After(ops, lim);
    forall k | k in s.store.data && k in Matched(s.index, matches)
      ensures exists p :: SavedUnder(ops, k, p) && matches(p)
    {
      var p :| p in s.index && matches(p) && k in s.index[p];
      assert SavedUnder(ops, k, p);
    }
  }

  predicate IndexedUnder(index: Index, p: Params, k: Key) {
    p in index && k in index[p]
  }

  lemma MatchedIff(index: Index, matches: Params -> bool, k: Key)
    ensures k in Matched(index, matches) <==> exists p :: IndexedUnder(index, p, k) && matches(p)
  {
    if k in Matched(index, matches) {
      var p :| p in index && matches(p) && k in index[p];
      assert IndexedUnder(index, p, k);
    }
  }

  lemma PruneIff(index: Index, keys: set<Key>, p: Params, k: Key)
    ensures IndexedUnder(Prune(index, keys), p, k) <==> IndexedUnder(index, p, k) && k !in keys
  {
    if IndexedUnder(index, p, k) && k !in keys {
      assert k in index[p] - keys;
    }
  }

  // The index holds every key under exactly its tags.
  lemma {:induction false} IndexIsTags<V>(ops: seq<Op<V>>, lim: Limits, p: Params, k: Key)
    ensures IndexedUnder(After(ops, lim).index, p, k) <==> p in Tags(ops, k)
  {
    if ops != [] {
      var front, op := Front(ops), Last(ops);
      var index := After(front, lim).index;
      IndexIsTags(front, lim, p, k);
      if op.Invalidation? {
        MatchedIff(index, op.matches, k);
        PruneIff(index, Matched(index, op.matches), p, k);
        forall q
          ensures IndexedUnder(index, q, k) <==> q in Tags(front, k)
        {
          IndexIsTags(front, lim, q, k);
        }
        hide IndexedUnder, Matched, Prune;
      }
    }
  }

  // A pattern collects the keys with a matching tag.
  lemma MatchedIsTagged<V>(ops: seq<Op<V>>, matches: Params -> bool, lim: Limits, k: Key)
    ensures k in Matched(After(ops, lim).index, matches) <==> exists p :: p in Tags(ops, k) && matches(p)
  {
    var index := After(ops, lim).index;
    MatchedIff(index, matches, k);
    forall p
      ensures IndexedUnder(index, p, k) <==> p in Tags(ops, k)
    {
      IndexIsTags(ops, lim, p, k);
    }
    hide IndexedUnder, Matched, Tags;
  }

  // A live key goes exactly when a pattern matches one of its tags.
  lemma RemovedIff<V>(ops: seq<Op<V>>, matches: Params -> bool, lim: Limits, k: Key)
    requires k in After(ops, lim).store.data
    ensures k !in After(ops + [Invalidation(matches)], lim).store.data <==> exists p :: p in Tags(ops, k) && matches(p)
  {
    assert Front(ops + [Invalidation(matches)]) == ops;
    MatchedIsTagged(ops, matches, lim, k);
    hide Matched, Prune, Tags;
  }

  // The current parameters of a live key are among its tags.
  lemma CurrentIsTag<V>(ops: seq<Op<V>>, lim: Limits, k: Key)
    requires k in After(ops, lim).store.data
    ensures LastParams(ops, k).Some? && LastParams(ops, k).value in Tags(ops, k)
  {
    HistoryCovers(ops, lim);
    IndexIsTags(ops, lim, LastParams(ops, k).value, k);
  }

  // The pattern takes the key if and only if it matches the current parameters.
  ghost predicate TreatedExactly<V>(ops: seq<Op<V>>, matches: Params -> bool, lim: Limits, k: Key)
    requires LastParams(ops, k).Some?
  {
    k in After(ops + [Invalidation(matches)], lim).store.data <==> !matches(LastParams(ops, k).value)
  }

  // Every pattern treats a live key exactly if and only if its current parameters are its only tag.
  lemma ExactIff<V>(ops: seq<Op<V>>, lim: Limits, k: Key)
    requires k in After(ops, lim).store.data
    ensures LastParams(ops, k).Some?
    ensures (forall matches :: TreatedExactly(ops, matches, lim, k)) <==> Tags(ops, k) == {LastParams(ops, k).value}
  {
    CurrentIsTag(ops, lim, k);
    var current, tags := LastParams(ops, k).value, Tags(ops, k);
    hide After, LastParams, Tags;
    if tags == {current} {
      forall matches: Params -> bool
        ensures TreatedExactly(ops, matches, lim, k)
      {
        RemovedIff(ops, matches, lim, k);
      }
    } else {
      var stale :| stale in tags && stale != current;
      var matches := (p: Params) => p == stale;
      RemovedIff(ops, matches, lim, k);
      assert matches(stale);
      assert !TreatedExactly(ops, matches, lim, k);
    }
  }

  lemma {:induction false} TagsWereSaved<V>(ops: seq<Op<V>>, k: Key, p: Params)
    requires p in Tags(ops, k)
    ensures SavedUnder(ops, k, p)
  {
    if p in Tags(Front(ops), k) {
      TagsWereSaved(Front(ops), k, p);
      SavedUnderGrows(Front(ops), Last(ops), k, p);
      assert Front(ops) + [Last(ops)] == ops;
    } else {
      assert ops[|ops| - 1] == Last(ops);
    }
  }

  // In particular, a live key that was only ever saved with one parameter string is treated exactly.
  lemma InvalidateIsExact<V>(ops: seq<Op<V>>, matches: Params -> bool, lim: Limits, k: Key)
    requires OneParams(ops, k) && k in After(ops, lim).store.data
    ensures LastParams(ops, k).Some? && TreatedExactly(ops, matches, lim, k)
  {
    CurrentIsTag(ops, lim, k);
    ExactIff(ops, lim, k);
    hide After, LastParams, SavedUnder, TreatedExactly;
    forall p | p in Tags(ops, k)
      ensures p == LastParams(ops, k).value
    {
      TagsWereSaved(ops, k, p);
      TagsWereSaved(ops, k, LastParams(ops, k).value);
    }
    assert Tags(ops, k) == {LastParams(ops, k).value};
  }

  // It is enough that its other parameters went out with an invalidation: a key saved under p,
  // invalidated by p and saved under q has q as its only tag.
  lemma ResavedAfterInvalidation<V>(ops: seq<Op<V>>, k: Key, matches: Params -> bool, q: Params, v: V, now: real)
    requires exists p :: p in Tags(ops, k) && matches(p)
    ensures Tags(ops + [Invalidation(matches), Save(k, q, v, now)], k) == {q}
  {
    var mid := ops + [Invalidation(matches)];
    assert Front(mid) == ops;
    assert ops + [Invalidation(matches), Save(k, q, v, now)] == mid + [Save(k, q, v, now)];
    assert Front(mid + [Save(k, q, v, now)]) == mid;
    assert Tags(mid, k) == {};
  }

  // Saving into a cache that holds at most this key leaves exactly this key.
  lemma SaveOne(s: State<int>, k: Key, p: Params, v: int, now: real, lim: Limits)
    requires s.store.order == [] || s.store.order == [k]
    requires lim.maxSize > 0
    ensures var s' := SetFrame(s, k, p, v, now, lim);
            && s'.store.order == [k]
            && s'.store.data == s.store.data[k := Item(now + lim.ttl, v)]
            && s'.index == IndexAdd(s.index, p, k)
  {
    assert Without(s.store.order, k) == [];
  }

  // A key saved again under new parameters is still removed by a pattern for the old ones.
  lemma StaleParamsRemoveLiveEntry()
    ensures var lim, k := Limits(256, 900.0), "kline:v1:00";
            var ops: seq<Op<int>> := [Save(k, "binance:BTCUSDT:4h", 1, 0.0), Save(k, "okx:BTCUSDT:4h", 2, 1.0)];
            && k in After(ops, lim).store.data
            && LastParams(ops, k) == Some("okx:BTCUSDT:4h")
            && k !in After(ops + [Invalidation((p: Params) => p == "binance:BTCUSDT:4h")], lim).store.data
  {
    var lim, k := Limits(256, 900.0), "kline:v1:00";
    var old_, new_ := "binance:BTCUSDT:4h", "okx:BTCUSDT:4h";
    var ops: seq<Op<int>> := [Save(k, old_, 1, 0.0), Save(k, new_, 2, 1.0)];
    assert Front(ops) == [Save(k, old_, 1, 0.0)] && Front(Front(ops)) == [];
    var s0: State<int> := State(Store([], map[]), map[]);
    assert After(Front(Front(ops)), lim) == s0;
    SaveOne(s0, k, old_, 1, 0.0, lim);
    hide SetFrame;
    var s1 := After(Front(ops), lim);
    assert s1 == SetFrame(s0, k, old_, 1, 0.0, lim);
    SaveOne(s1, k, new_, 2, 1.0, lim);
    var s2 := After(ops, lim);
    assert k in s2.index[old_];
    var inv: Op<int> := Invalidation((p: Params) => p == "binance:BTCUSDT:4h");
    assert Front(ops + [inv]) == ops;
    assert k in Matched(s2.index, inv.matches);
  }

  lemma {:induction false} SubsetSize(a: set<Key>, b: set<Key>)
    requires a <= b
    ensures |a| <= |b|
    ensures |a| == |b| <==> a == b
  {
    if a != {} {
      var k :| k in a;
      SubsetSize(a - {k}, b - {k});
    }
  }

  lemma {:induction false} EvictKeepsLast<V>(s: Store<V>, maxSize: nat)
    requires maxSize > 0 && s.order != [] && Distinct(s.order) && Last(s.order) in s.data
    ensures Last(s.order) in Evict(s, maxSize).data
    ensures Evict(s, maxSize).data[Last(s.order)] == s.data[Last(s.order)]
    decreases |s.order|
  {
    if |s.order| > maxSize {
      EvictKeepsLast(Store(s.order[1..], s.data - {s.order[0]}), maxSize);
    }
  }

  // What was just saved is looked up until its lifetime is over, whatever the cache held.
  lemma SavedIsServed<V>(s: State<V>, k: Key, p: Params, v: V, now: real, lim: Limits, later: real)
    requires lim.maxSize > 0 && WellFormed(s.store)
    ensures GetSpec(SetFrame(s, k, p, v, now, lim).store, k, later).1 == if later <= now + lim.ttl then Some(v) else None
  {
    var touched := Touch(s.store, k).(data := s.store.data[k := Item(now + lim.ttl, v)]);
    TouchStaysWellFormed(s.store, k, Item(now + lim.ttl, v));
    assert Last(touched.order) == k && touched.data[k] == Item(now + lim.ttl, v);
    EvictKeepsLast(touched, lim.maxSize);
    hide Evict, Touch, WellFormed;
  }

  // What an invalidation reports and what it takes away.
  ghost function Reported<V>(ops: seq<Op<V>>, matches: Params -> bool, lim: Limits): nat {
    |Matched(After(ops, lim).index, matches)|
  }

  ghost function Removed<V>(ops: seq<Op<V>>, matches: Params -> bool, lim: Limits): set<Key> {
    After(ops, lim).store.data.Keys - After(ops + [Invalidation(matches)], lim).store.data.Keys
  }

  // After any history the reported count is at least the number of removed entries, and equal
  // exactly when every key with a matching tag is still live: keys that were evicted or expired
  // since they were tagged are counted too.
  lemma CountIsRemovedIff<V>(ops: seq<Op<V>>, matches: Params -> bool, lim: Limits)
    ensures |Removed(ops, matches, lim)| <= Reported(ops, matches, lim)
    ensures |Removed(ops, matches, lim)| == Reported(ops, matches, lim) <==>
              forall k, p :: p in Tags(ops, k) && matches(p) ==> k in After(ops, lim).store.data
  {
    var before := After(ops, lim);
    var keys, removed := Matched(before.index, matches), Removed(ops, matches, lim);
    RemovedKeys(ops, matches, lim);
    SubsetSize(removed, keys);
    hide Matched, After, Tags, Removed;
    assert removed == keys <==> forall k :: k in keys ==> k in before.store.data;
    forall k
      ensures k in keys <==> exists p :: p in Tags(ops, k) && matches(p)
    {
      MatchedIsTagged(ops, matches, lim, k);
    }
  }

  lemma RemovedKeys<V>(ops: seq<Op<V>>, matches: Params -> bool, lim: Limits)
    ensures Removed(ops, matches, lim) == After(ops, lim).store.data.Keys * Matched(After(ops, lim).index, matches)
  {
    assert Front(ops + [Invalidation(matches)]) == ops;
    hide Matched, Prune;
  }

  // One save and a lookup past its expiry: the invalidation reports a key and removes nothing.
  lemma ExpiredKeyIsReported()
    ensures var lim := Limits(256, 900.0);
            var ops: seq<Op<int>> := [Save("kline:v1:00", "binance:BTCUSDT:4h", 1, 0.0), Lookup("kline:v1:00", 901.0)];
            var matches := (p: Params) => p == "binance:BTCUSDT:4h";
            Reported(ops, matches, lim) == 1 && Removed(ops, matches, lim) == {}
  {
    var lim, k, p0 := Limits(256, 900.0), "kline:v1:00", "binance:BTCUSDT:4h";
    var ops: seq<Op<int>> := [Save(k, p0, 1, 0.0), Lookup(k, 901.0)];
    var matches := (p: Params) => p == "binance:BTCUSDT:4h";
    assert Front(ops) == [Save(k, p0, 1, 0.0)] && Front(Front(ops)) == [];
    var s0: State<int> := State(Store([], map[]), map[]);
    assert After(Front(Front(ops)), lim) == s0;
    SaveOne(s0, k, p0, 1, 0.0, lim);
    hide SetFrame;
    var s1, s := After(Front(ops), lim), After(ops, lim);
    assert s1 == SetFrame(s0, k, p0, 1, 0.0, lim);
    assert s1.index[p0] == {} + {k} == {k};
    assert s1.store.data == map[k := Item(900.0, 1)] && s1.index == map[p0 := {k}];
    assert s.store.data == map[] && s.index == s1.index;
    assert Matched(s.index, matches) == {k};
  }
}
