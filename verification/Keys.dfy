/** Ordered keys without repeats, as an insertion-ordered dictionary holds them. */
module Keys {
  import opened Prelude

  type Key = string

  ghost predicate Distinct(ks: seq<Key>) {
    forall i, j :: 0 <= i < j < |ks| ==> ks[i] != ks[j]
  }

  function Without(ks: seq<Key>, k: Key): (r: seq<Key>)
    ensures forall x :: x in r <==> x in ks && x != k
    ensures |r| <= |ks|
    ensures k !in ks ==> r == ks
  {
    if ks == [] then []
    else Without(Front(ks), k) + if Last(ks) == k then [] else [Last(ks)]
  }

  lemma WithoutAppend(ks: seq<Key>, x: Key, k: Key)
    ensures Without(ks + [x], k) == Without(ks, k) + if x == k then [] else [x]
  {
    assert Front(ks + [x]) == ks;
  }

  lemma {:induction false} WithoutDistinct(ks: seq<Key>, k: Key)
    requires Distinct(ks)
    ensures Distinct(Without(ks, k))
  {
    if ks != [] {
      WithoutDistinct(Front(ks), k);
      assert Last(ks) !in Front(ks);
    }
  }

  lemma {:induction false} WithoutLength(ks: seq<Key>, k: Key)
    requires Distinct(ks) && k in ks
    ensures |Without(ks, k)| == |ks| - 1
  {
    if Last(ks) == k {
      assert k !in Front(ks);
    } else {
      WithoutLength(Front(ks), k);
    }
  }
}
