/** What a lookup answers, in the operations before it alone. */
module CacheRules {
  import opened Keys
  import opened Prelude
  import opened MemoryCache
  import opened CacheHistory

  // The operation leaves no earlier value of k.
  predicate Replaces<V>(op: Op<V>, k: Key) {
    op.Clear? || ((op.Set? || op.Delete?) && op.key == k)
  }

  // Operation i stored what k now holds.
  ghost predicate LastStore<V>(ops: seq<Op<V>>, i: nat, k: Key)
    requires i < |ops|
  {
    ops[i].Set? && ops[i].key == k && forall j :: i < j < |ops| ==> !Replaces(ops[j], k)
  }

  // Operation j stores k, or looks it up and finds it.
  predicate Touches<V>(ops: seq<Op<V>>, lim: Limits, j: nat, k: Key)
    requires j < |ops|
  {
    match ops[j]
    case Set(x, _, _) => x == k
    case Get(x, now) => x == k && GetSpec(After(ops[..j], lim), k, now).1.Some?
    case _ => false
  }

  // Operation j touches x, and none after it touches k.
  ghost predicate ShowsTouch<V>(ops: seq<Op<V>>, lim: Limits, j: nat, x: Key, k: Key)
    requires j < |ops|
  {
    Touches(ops, lim, j, x) && forall m :: j < m < |ops| ==> !Touches(ops, lim, m, k)
  }

  // Some operation touches x after the last one that touches k.
  ghost predicate TouchedSince<V>(ops: seq<Op<V>>, lim: Limits, x: Key, k: Key) {
    x != k && exists j :: 0 <= j < |ops| && ShowsTouch(ops, lim, j, x, k)
  }

  lemma LastStoreFront<V>(ops: seq<Op<V>>, i: nat, k: Key)
    requires i < |ops| - 1
    ensures LastStore(ops, i, k) <==> LastStore(Front(ops), i, k) && !Replaces(Last(ops), k)
  {
    if LastStore(Front(ops), i, k) && !Replaces(Last(ops), k) {
      forall j | i < j < |ops|
        ensures !Replaces(ops[j], k)
      {
        if j < |ops| - 1 {
          assert Front(ops)[j] == ops[j];
        }
      }
    }
    if LastStore(ops, i, k) {
      forall j | i < j < |ops| - 1
        ensures !Replaces(Front(ops)[j], k)
      {
        assert Front(ops)[j] == ops[j];
      }
    }
  }

  // The latest item is the value of the last store, for its time plus the lifetime.
  ghost predicate LatestFrom<V>(ops: seq<Op<V>>, lim: Limits, k: Key, latest: Option<Item<V>>) {
    match latest
    case None => forall i :: 0 <= i < |ops| ==> !LastStore(ops, i, k)
    case Some(item) =>
      exists i :: 0 <= i < |ops| && LastStore(ops, i, k) && item == Item(ops[i].now + lim.ttl, ops[i].value)
  }

  lemma EventOf<V>(ops: seq<Op<V>>, lim: Limits, k: Key)
    requires ops != []
    ensures Latest(Events(ops, lim), k) ==
            if Replaces(Last(ops), k) then
              if Last(ops).Set? then Some(Item(Last(ops).now + lim.ttl, Last(ops).value)) else None
            else Latest(Events(Front(ops), lim), k)
  {
    hide GetSpec, SetSpec;
    EventLatest(Events(Front(ops), lim), Exec(After(Front(ops), lim), Last(ops), lim).1, k);
    hide Latest;
  }

  lemma {:induction false} LatestIs<V>(ops: seq<Op<V>>, lim: Limits, k: Key)
    ensures LatestFrom(ops, lim, k, Latest(Events(ops, lim), k))
  {
    if ops != [] {
      LatestIs(Front(ops), lim, k);
      EventOf(ops, lim, k);
      hide Latest, Events;
      var n := |ops| - 1;
      if Replaces(Last(ops), k) {
        assert ops[n] == Last(ops);
        if Last(ops).Set? {
          assert LastStore(ops, n, k);
        }
      } else {
        forall i | 0 <= i < n
          ensures LastStore(ops, i, k) <==> LastStore(Front(ops), i, k)
        {
          LastStoreFront(ops, i, k);
        }
        match Latest(Events(Front(ops), lim), k) {
          case None =>
          case Some(item) =>
            var i :| 0 <= i < n && LastStore(Front(ops), i, k)
                     && item == Item(Front(ops)[i].now + lim.ttl, Front(ops)[i].value);
            assert LastStore(ops, i, k);
        }
      }
    }
  }

  lemma TouchesFront<V>(ops: seq<Op<V>>, lim: Limits, j: nat, k: Key)
    requires j < |ops| - 1
    ensures Touches(ops, lim, j, k) == Touches(Front(ops), lim, j, k)
  {
    assert Front(ops)[..j] == ops[..j] && Front(ops)[j] == ops[j];
  }

  lemma ShowsTouchFront<V>(ops: seq<Op<V>>, lim: Limits, j: nat, x: Key, k: Key)
    requires j < |ops| - 1
    ensures ShowsTouch(ops, lim, j, x, k) <==>
            ShowsTouch(Front(ops), lim, j, x, k) && !Touches(ops, lim, |ops| - 1, k)
  {
    TouchesFront(ops, lim, j, x);
    forall m | 0 <= m < |ops| - 1
      ensures Touches(ops, lim, m, k) == Touches(Front(ops), lim, m, k)
    {
      TouchesFront(ops, lim, m, k);
    }
    hide Touches;
  }

  lemma TouchedSinceFront<V>(ops: seq<Op<V>>, lim: Limits, x: Key, k: Key)
    requires ops != []
    ensures TouchedSince(ops, lim, x, k) <==>
            x != k && (Touches(ops, lim, |ops| - 1, x)
                       || (TouchedSince(Front(ops), lim, x, k) && !Touches(ops, lim, |ops| - 1, k)))
  {
    var n := |ops| - 1;
    forall j | 0 <= j < n
      ensures ShowsTouch(ops, lim, j, x, k) <==> ShowsTouch(Front(ops), lim, j, x, k) && !Touches(ops, lim, n, k)
    {
      ShowsTouchFront(ops, lim, j, x, k);
    }
    assert Touches(ops, lim, n, x) <==> ShowsTouch(ops, lim, n, x, k);
    hide Touches, ShowsTouch;
  }

  lemma OthersOf<V>(ops: seq<Op<V>>, lim: Limits, x: Key, k: Key)
    requires ops != []
    ensures var n, before := |ops| - 1, OthersSince(Events(Front(ops), lim), k);
            x in OthersSince(Events(ops, lim), k) <==>
            !Touches(ops, lim, n, k) && (x in before || Touches(ops, lim, n, x))
  {
    hide GetSpec, SetSpec, OthersSince;
    assert ops[..|ops| - 1] == Front(ops);
    EventLatest(Events(Front(ops), lim), Exec(After(Front(ops), lim), Last(ops), lim).1, k);
    hide After;
  }

  lemma {:induction false} OthersAre<V>(ops: seq<Op<V>>, lim: Limits, x: Key, k: Key)
    ensures x in OthersSince(Events(ops, lim), k) <==> TouchedSince(ops, lim, x, k)
  {
    if ops != [] {
      OthersAre(Front(ops), lim, x, k);
      OthersOf(ops, lim, x, k);
      TouchedSinceFront(ops, lim, x, k);
      if x != k {
        OneTouch(ops, lim, x, k);
      }
      hide OthersSince, Events, TouchedSince, Touches;
    }
  }

  // An operation touches at most one key.
  lemma OneTouch<V>(ops: seq<Op<V>>, lim: Limits, x: Key, k: Key)
    requires ops != [] && x != k
    ensures !(Touches(ops, lim, |ops| - 1, x) && Touches(ops, lim, |ops| - 1, k))
  {
  }

  // A lookup answers with the value of the last store of its key, for as long as it lives, unless as
  // many other keys as the cache can hold were stored or found since the key itself was.
  lemma LookupIs<V>(ops: seq<Op<V>>, lim: Limits, k: Key, now: real)
    requires lim.maxSize > 0 && ClockRises(ops) && NotBefore(Clock(ops), now)
    ensures match GetSpec(After(ops, lim), k, now).1
            case Some(v) =>
              exists i :: 0 <= i < |ops| && LastStore(ops, i, k) && ops[i].value == v && now <= ops[i].now + lim.ttl
            case None =>
              forall i :: 0 <= i < |ops| && LastStore(ops, i, k) && now <= ops[i].now + lim.ttl ==>
                exists others: set<Key> :: |others| >= lim.maxSize && forall x :: x in others ==> TouchedSince(ops, lim, x, k)
  {
    CacheRefinesMap(ops, lim, k, now);
    LatestIs(ops, lim, k);
    hide GetSpec, After, Latest, Events, OthersSince;
    var latest, others := Latest(Events(ops, lim), k), OthersSince(Events(ops, lim), k);
    forall x | x in others
      ensures TouchedSince(ops, lim, x, k)
    {
      OthersAre(ops, lim, x, k);
    }
    hide TouchedSince;
    forall i, j | 0 <= i < |ops| && 0 <= j < |ops| && LastStore(ops, i, k) && LastStore(ops, j, k)
      ensures i == j
    {
    }
  }
}
