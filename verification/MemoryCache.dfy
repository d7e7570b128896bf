/** The bounded TTL + LRU cache of app/infra/memory_cache.py. */
module MemoryCache {
  import opened Keys
  import opened Prelude

  datatype Item<+V> = Item(expires: real, value: V)

  // An insertion-ordered dictionary: least recently used key first.
  datatype Store<+V> = Store(order: seq<Key>, data: map<Key, Item<V>>)

  datatype Limits = Limits(maxSize: nat, ttl: real)

  ghost predicate WellFormed<V>(s: Store<V>) {
    Distinct(s.order) && forall k :: k in s.order <==> k in s.data
  }

  function Remove<V>(s: Store<V>, k: Key): Store<V> {
    Store(Without(s.order, k), s.data - {k})
  }

  function Touch<V>(s: Store<V>, k: Key): Store<V> {
    s.(order := Without(s.order, k) + [k])
  }

  // Drop least recently used keys until the size fits.
  function Evict<V>(s: Store<V>, maxSize: nat): Store<V>
    decreases |s.order|
  {
    if |s.order| <= maxSize then s
    else Evict(Store(s.order[1..], s.data - {s.order[0]}), maxSize)
  }

  function GetSpec<V>(s: Store<V>, k: Key, now: real): (Store<V>, Option<V>) {
    if k !in s.data then (s, None)
    else if now > s.data[k].expires then (Remove(s, k), None)
    else (Touch(s, k), Some(s.data[k].value))
  }

  function SetSpec<V>(s: Store<V>, k: Key, v: V, now: real, lim: Limits): Store<V> {
    Evict(Touch(s, k).(data := s.data[k := Item(now + lim.ttl, v)]), lim.maxSize)
  }

  // ------------------------------------------------------------------
  // The code
  // ------------------------------------------------------------------

  class MemoryCache<V> {
    const lim: Limits
    var order: seq<Key>
    var data: map<Key, Item<V>>

    ghost function Contents(): Store<V>
      reads this
    {
      Store(order, data)
    }

    ghost predicate Valid()
      reads this
    {
      lim.maxSize > 0 && WellFormed(Contents())
    }

    constructor (maxSize: nat, ttl: real)
      requires maxSize > 0
      ensures Valid() && Contents() == Store([], map[]) && lim == Limits(maxSize, ttl)
    {
      lim := Limits(maxSize, ttl);
      order, data := [], map[];
    }

    method MoveToEnd(k: Key)
      requires k in order
      modifies this`order
      ensures order == Without(old(order), k) + [k]
    {
      order := Without(order, k) + [k];
    }

    method Get(k: Key, now: real) returns (r: Option<V>)
      requires Valid()
      modifies this
      ensures Valid()
      ensures (Contents(), r) == GetSpec(old(Contents()), k, now)
    {
      if k !in data {
        return None;
      }
      var item := data[k];
      GetStaysWellFormed(Contents(), k, now);
      if now > item.expires {
        order, data := Without(order, k), data - {k};
        return None;
      }
      MoveToEnd(k);
      r := Some(item.value);
    }

    method Set(k: Key, v: V, now: real)
      requires Valid()
      modifies this
      ensures Valid()
      ensures Contents() == SetSpec(old(Contents()), k, v, now, lim)
    {
      SetStaysWellFormed(Contents(), k, v, now, lim);
      if k in data {
        MoveToEnd(k);
      } else {
        order := order + [k];
      }
      data := data[k := Item(now + lim.ttl, v)];
      while |order| > lim.maxSize
        invariant Evict(Contents(), lim.maxSize) == SetSpec(old(Contents()), k, v, now, lim)
        decreases |order|
      {
        data := data - {order[0]};
        order := order[1..];
      }
    }

    method Delete(k: Key) returns (found: bool)
      requires Valid()
      modifies this
      ensures Valid()
      ensures found == (k in old(data))
      ensures Contents() == Remove(old(Contents()), k)
    {
      RemoveStaysWellFormed(Contents(), k);
      found := k in data;
      if found {
        order, data := Without(order, k), data - {k};
      } else {
        assert data - {k} == data;
      }
    }

    method Clear()
      requires Valid()
      modifies this
      ensures Valid() && Contents() == Store([], map[])
    {
      order, data := [], map[];
    }
  }

  // ------------------------------------------------------------------
  // Each operation keeps the dictionary well formed
  // ------------------------------------------------------------------

  lemma RemoveStaysWellFormed<V>(s: Store<V>, k: Key)
    requires WellFormed(s)
    ensures WellFormed(Remove(s, k))
  {
    WithoutDistinct(s.order, k);
  }

  lemma TouchStaysWellFormed<V>(s: Store<V>, k: Key, item: Item<V>)
    requires WellFormed(s)
    ensures WellFormed(Touch(s, k).(data := s.data[k := item]))
  {
    WithoutDistinct(s.order, k);
  }

  lemma {:induction false} EvictStaysWellFormed<V>(s: Store<V>, maxSize: nat)
    requires WellFormed(s)
    ensures WellFormed(Evict(s, maxSize)) && |Evict(s, maxSize).order| <= maxSize
    decreases |s.order|
  {
    if |s.order| > maxSize {
      var s' := Store(s.order[1..], s.data - {s.order[0]});
      assert s.order == [s.order[0]] + s'.order;
      EvictStaysWellFormed(s', maxSize);
    }
  }

  lemma GetStaysWellFormed<V>(s: Store<V>, k: Key, now: real)
    requires WellFormed(s)
    ensures WellFormed(GetSpec(s, k, now).0)
  {
    if k in s.data {
      RemoveStaysWellFormed(s, k);
      TouchStaysWellFormed(s, k, s.data[k]);
      assert s.data[k := s.data[k]] == s.data;
    }
  }

  lemma SetStaysWellFormed<V>(s: Store<V>, k: Key, v: V, now: real, lim: Limits)
    requires WellFormed(s)
    ensures WellFormed(SetSpec(s, k, v, now, lim)) && |SetSpec(s, k, v, now, lim).order| <= lim.maxSize
  {
    TouchStaysWellFormed(s, k, Item(now + lim.ttl, v));
    EvictStaysWellFormed(Touch(s, k).(data := s.data[k := Item(now + lim.ttl, v)]), lim.maxSize);
  }
}
