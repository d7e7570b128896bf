/** The answer and the effect of every watchlist operation, row by row and field by field. */
module WatchlistRules {
  import opened Keys
  import opened Prelude
  import opened Watchlist

  // The list is one row longer or one row of it is changed or left out, and nothing else.
  ghost predicate OnlyRow(rows: seq<Row>, after: seq<Row>, i: nat, row: Row) {
    && i < |rows| == |after| && after[i] == row
    && forall j :: 0 <= j < |rows| && j != i ==> after[j] == rows[j]
  }

  // ------------------------------------------------------------------
  // Create
  // ------------------------------------------------------------------

  // The index of a new row: 0 in an empty list, else one more than the greatest.
  ghost predicate NextFree(rows: seq<Row>, index: int) {
    if rows == [] then index == 0
    else (forall r :: r in rows ==> r.sortIndex < index) && exists r :: r in rows && r.sortIndex == index - 1
  }

  lemma {:induction false} NextIndexIsFree(rows: seq<Row>)
    ensures NextFree(rows, NextIndex(rows))
  {
    if |rows| == 1 {
      assert rows[0] in rows;
    } else if |rows| > 1 {
      NextIndexIsFree(Front(rows));
      assert forall r :: r in rows <==> r in Front(rows) || r == Last(rows);
    }
  }

  lemma NextFreeOfSorted(rows: seq<Row>, index: int)
    ensures NextFree(Sorted(rows), index) <==> NextFree(rows, index)
  {
    hide Sorted;
    SortedMembers(rows);
  }

  ghost predicate Created(rows: seq<Row>, id: Key, symbol: string, note: string, now: int, after: seq<Row>, r: Response) {
    r.One? && NextFree(rows, r.row.sortIndex)
    && r.row == Row(id, symbol, note, r.row.sortIndex, now, now) && after == rows + [r.row]
  }

  // A creation is refused for a long note, an unknown symbol, a known row of the symbol or a full list,
  // in this order; otherwise it appends the row with the next index.
  lemma CreateIs(rows: seq<Row>, id: Key, symbol: string, note: string, whitelisted: bool, now: int)
    ensures var (after, r) := RExec(rows, Create(id, symbol, note, whitelisted, now));
            if |note| > 280 then after == rows && r == Failed(BadValue)
            else if !whitelisted then after == rows && r == Failed(UnknownSymbol)
            else if exists x :: x in rows && x.symbol == symbol then after == rows && r == Failed(Duplicate)
            else if |rows| >= 50 then after == rows && r == Failed(LimitReached)
            else Created(rows, id, symbol, note, now, after, r)
  {
    NextIndexIsFree(Sorted(rows));
    NextFreeOfSorted(rows, NextIndex(Sorted(rows)));
    hide Sorted, NextIndex, NextFree;
    assert HasSymbol(rows, symbol) <==> exists x :: x in rows && x.symbol == symbol;
  }

  // ------------------------------------------------------------------
  // Update and delete
  // ------------------------------------------------------------------

  ghost predicate FirstOf(rows: seq<Row>, id: Key, i: nat) {
    i < |rows| && rows[i].id == id && forall j :: 0 <= j < i ==> rows[j].id != id
  }

  // What an update makes of a row.
  ghost predicate Updated(row: Row, note: Option<string>, sortIndex: Option<int>, now: int, row': Row) {
    && row'.id == row.id && row'.symbol == row.symbol && row'.createdAt == row.createdAt && row'.updatedAt == now
    && (match note case Some(text) => row'.note == text case None => row'.note == row.note)
    && (match sortIndex case Some(n) => row'.sortIndex == n case None => row'.sortIndex == row.sortIndex)
  }

  ghost predicate UpdatedFirst(
      rows: seq<Row>, id: Key, note: Option<string>, sortIndex: Option<int>, now: int, after: seq<Row>, r: Response)
  {
    r.One? && exists i: nat :: FirstOf(rows, id, i) && OnlyRow(rows, after, i, r.row)
                               && Updated(rows[i], note, sortIndex, now, r.row)
  }

  // An update needs a field to change, a note of at most 280 characters and a row with the id, of
  // which it changes the first.
  lemma UpdateIs(rows: seq<Row>, id: Key, note: Option<string>, sortIndex: Option<int>, now: int)
    ensures var (after, r) := RExec(rows, Update(id, note, sortIndex, now));
            if (note == None && sortIndex == None) || (note.Some? && |note.value| > 280)
            then after == rows && r == Failed(BadValue)
            else if forall x :: x in rows ==> x.id != id then after == rows && r == Failed(NotFound)
            else UpdatedFirst(rows, id, note, sortIndex, now, after, r)
  {
    hide Sorted;
    var i := Find(rows, id);
    if i < |rows| {
      assert FirstOf(rows, id, i);
    }
    hide Find;
  }

  // after is what is left of rows, in order: the rows at the positions `kept`.
  ghost predicate Keeps(rows: seq<Row>, after: seq<Row>, kept: seq<nat>) {
    && |kept| == |after|
    && (forall k :: 0 <= k < |kept| ==> kept[k] < |rows| && after[k] == rows[kept[k]])
    && (forall j, k :: 0 <= j < k < |kept| ==> kept[j] < kept[k])
  }

  lemma KeepsMore(rows: seq<Row>, x: Row, after: seq<Row>, kept: seq<nat>)
    requires Keeps(rows, after, kept)
    ensures Keeps(rows + [x], after, kept)
    ensures Keeps(rows + [x], after + [x], kept + [|rows|])
  {
  }

  ghost predicate KeepsOthers(rows: seq<Row>, id: Key, kept: seq<nat>) {
    forall i :: 0 <= i < |rows| ==> (i in kept <==> rows[i].id != id)
  }

  lemma KeepsOthersMore(rows: seq<Row>, x: Row, id: Key, kept: seq<nat>)
    requires KeepsOthers(rows, id, kept) && forall k :: 0 <= k < |kept| ==> kept[k] < |rows|
    ensures KeepsOthers(rows + [x], id, if x.id == id then kept else kept + [|rows|])
  {
    var more := kept + [|rows|];
    assert more[|kept|] == |rows|;
    assert forall i :: i in kept ==> i in more;
  }

  lemma {:induction false} DroppingKeeps(rows: seq<Row>, id: Key) returns (kept: seq<nat>)
    ensures Keeps(rows, Dropping(rows, id), kept) && KeepsOthers(rows, id, kept)
  {
    kept := [];
    if rows != [] {
      var front, x := Front(rows), Last(rows);
      assert rows == front + [x];
      kept := DroppingKeeps(front, id);
      KeepsMore(front, x, Dropping(front, id), kept);
      KeepsOthersMore(front, x, id, kept);
      assert Dropping(rows, id) == if x.id == id then Dropping(front, id) else Dropping(front, id) + [x];
      hide Keeps, KeepsOthers, Dropping;
      if x.id != id {
        kept := kept + [|front|];
      }
    }
  }

  // A deletion needs a row with the id; it leaves exactly the other rows, in order.
  lemma DeleteIs(rows: seq<Row>, id: Key) returns (kept: seq<nat>)
    ensures var (after, r) := RExec(rows, Delete(id));
            if forall x :: x in rows ==> x.id != id then after == rows && r == Failed(NotFound)
            else r == Removed && Keeps(rows, after, kept) && KeepsOthers(rows, id, kept)
  {
    hide Sorted;
    kept := DroppingKeeps(rows, id);
    LeavesOut(rows, id);
    hide Dropping, Keeps, KeepsOthers;
  }

  lemma {:induction false} LeavesOut(rows: seq<Row>, id: Key)
    ensures |Dropping(rows, id)| < |rows| <==> exists x :: x in rows && x.id == id
  {
    if rows != [] {
      LeavesOut(Front(rows), id);
      assert forall x :: x in rows <==> x in Front(rows) || x == Last(rows);
    }
  }

  // ------------------------------------------------------------------
  // List
  // ------------------------------------------------------------------

  // Row i comes before row j in a listing: by index, then by creation time, then as stored.
  ghost predicate ListsBefore(rows: seq<Row>, i: nat, j: nat)
    requires i < |rows| && j < |rows|
  {
    var a, b := rows[i], rows[j];
    || a.sortIndex < b.sortIndex
    || (a.sortIndex == b.sortIndex && a.createdAt < b.createdAt)
    || (a.sortIndex == b.sortIndex && a.createdAt == b.createdAt && i < j)
  }

  ghost predicate Positions(order: seq<nat>, n: nat) {
    |order| == n && (forall k :: 0 <= k < n ==> order[k] < n) && forall i :: 0 <= i < n ==> i in order
  }

  ghost predicate Arranged(rows: seq<Row>, listed: seq<Row>, order: seq<nat>) {
    |listed| == |order| && forall k :: 0 <= k < |order| ==> order[k] < |rows| && listed[k] == rows[order[k]]
  }

  ghost predicate InListOrder(rows: seq<Row>, order: seq<nat>) {
    (forall k :: 0 <= k < |order| ==> order[k] < |rows|)
    && forall j, k :: 0 <= j < k < |order| ==> ListsBefore(rows, order[j], order[k])
  }

  lemma {:induction false} InsertAt(rows: seq<Row>, x: Row) returns (p: nat)
    ensures p <= |rows| && Insert(rows, x) == rows[..p] + [x] + rows[p..]
    ensures p > 0 ==> Before(rows[p - 1], x)
    ensures forall k :: p <= k < |rows| ==> !Before(rows[k], x)
  {
    if rows == [] {
      p := 0;
    } else if Before(Last(rows), x) {
      p := |rows|;
    } else {
      var front := Front(rows);
      p := InsertAt(front, x);
      assert Insert(rows, x) == Insert(front, x) + [Last(rows)];
      hide Insert, Before;
      Shifted(rows, x, p);
    }
  }

  lemma Shifted(rows: seq<Row>, x: Row, p: nat)
    requires p < |rows|
    ensures rows[..p] + [x] + rows[p..] == Front(rows)[..p] + [x] + Front(rows)[p..] + [Last(rows)]
  {
  }

  // Listing order lasts when a row is stored after the others.
  lemma StillBefore(rows: seq<Row>, x: Row, order: seq<nat>)
    requires InListOrder(rows, order)
    ensures InListOrder(rows + [x], order)
  {
    forall j, k | 0 <= j < k < |order|
      ensures ListsBefore(rows + [x], order[j], order[k])
    {
      assert ListsBefore(rows, order[j], order[k]);
    }
  }

  // The new row comes after those it was inserted behind, and before the others.
  lemma NewRowFits(rows: seq<Row>, x: Row, order: seq<nat>, p: nat)
    requires InListOrder(rows, order) && p <= |order|
    requires p > 0 ==> Before(rows[order[p - 1]], x)
    requires forall k :: p <= k < |order| ==> !Before(rows[order[k]], x)
    ensures forall k :: 0 <= k < p ==> ListsBefore(rows + [x], order[k], |rows|)
    ensures forall k :: p <= k < |order| ==> ListsBefore(rows + [x], |rows|, order[k])
  {
    forall k | 0 <= k < p
      ensures ListsBefore(rows + [x], order[k], |rows|)
    {
      assert k < p - 1 ==> ListsBefore(rows, order[k], order[p - 1]);
    }
  }

  // Where the new row goes among the positions of the earlier ones.
  lemma InsertInOrder(rows: seq<Row>, x: Row, order: seq<nat>, p: nat)
    requires InListOrder(rows, order) && p <= |order|
    requires p > 0 ==> Before(rows[order[p - 1]], x)
    requires forall k :: p <= k < |order| ==> !Before(rows[order[k]], x)
    ensures InListOrder(rows + [x], order[..p] + [|rows|] + order[p..])
  {
    StillBefore(rows, x, order);
    NewRowFits(rows, x, order, p);
    hide ListsBefore, Before;
    var all, order' := rows + [x], order[..p] + [|rows|] + order[p..];
    forall j, k | 0 <= j < k < |order'|
      ensures ListsBefore(all, order'[j], order'[k])
    {
      var j0, k0 := if j < p then j else j - 1, if k < p then k else k - 1;
      assert j != p ==> order'[j] == order[j0];
      assert k != p ==> order'[k] == order[k0];
    }
  }

  lemma InsertPosition(order: seq<nat>, p: nat)
    requires Positions(order, |order|) && p <= |order|
    ensures Positions(order[..p] + [|order|] + order[p..], |order| + 1)
  {
    var n := |order|;
    var order' := order[..p] + [n] + order[p..];
    assert order'[p] == n;
    forall i | 0 <= i <= n
      ensures i in order'
    {
      if i < n {
        assert i in order;
        var k :| 0 <= k < n && order[k] == i;
        assert order'[if k < p then k else k + 1] == i;
      }
    }
  }

  lemma InsertArranged(rows: seq<Row>, x: Row, listed: seq<Row>, order: seq<nat>, p: nat)
    requires Arranged(rows, listed, order) && p <= |order|
    ensures Arranged(rows + [x], listed[..p] + [x] + listed[p..], order[..p] + [|rows|] + order[p..])
  {
  }

  ghost predicate Lists(rows: seq<Row>, listed: seq<Row>, order: seq<nat>) {
    Positions(order, |rows|) && Arranged(rows, listed, order) && InListOrder(rows, order)
  }

  lemma InsertListed(rows: seq<Row>, x: Row, listed: seq<Row>, order: seq<nat>, p: nat)
    requires Lists(rows, listed, order) && p <= |listed| == |order|
    requires p > 0 ==> Before(listed[p - 1], x)
    requires forall k :: p <= k < |listed| ==> !Before(listed[k], x)
    ensures Lists(rows + [x], listed[..p] + [x] + listed[p..], order[..p] + [|rows|] + order[p..])
  {
    hide Before;
    InsertInOrder(rows, x, order, p);
    InsertPosition(order, p);
    InsertArranged(rows, x, listed, order, p);
    hide InListOrder, Positions, Arranged;
  }

  lemma ListingStep(rows: seq<Row>, x: Row, listed: seq<Row>, order: seq<nat>) returns (order': seq<nat>)
    requires Lists(rows, listed, order)
    ensures Lists(rows + [x], Insert(listed, x), order')
  {
    var p := InsertAt(listed, x);
    hide Insert, Before;
    InsertListed(rows, x, listed, order, p);
    hide Lists;
    order' := order[..p] + [|rows|] + order[p..];
  }

  // A listing holds every row once, by index and creation time; rows that agree in both stay in
  // stored order.
  lemma {:induction false} ListingIs(rows: seq<Row>) returns (order: seq<nat>)
    ensures Lists(rows, Sorted(rows), order)
  {
    order := [];
    if rows != [] {
      var front, x := Front(rows), Last(rows);
      assert rows == front + [x];
      assert Sorted(rows) == Insert(Sorted(front), x);
      hide Sorted, Insert, Lists;
      order := ListingIs(front);
      order := ListingStep(front, x, Sorted(front), order);
    }
  }

  lemma ListIs(rows: seq<Row>) returns (order: seq<nat>)
    ensures RExec(rows, List).0 == rows && RExec(rows, List).1.Rows?
    ensures Lists(rows, RExec(rows, List).1.rows, order)
  {
    order := ListingIs(rows);
    hide Sorted;
  }

  // ------------------------------------------------------------------
  // Reorder
  // ------------------------------------------------------------------

  ghost predicate DistinctIds(rows: seq<Row>) {
    forall i, j :: 0 <= i < j < |rows| ==> rows[i].id != rows[j].id
  }

  // Row j after the first n ids were numbered.
  ghost predicate Numbered(row: Row, ids: seq<Key>, n: nat, now: int, row': Row)
    requires n <= |ids|
  {
    && (row.id !in ids[..n] ==> row' == row)
    && (forall k :: 0 <= k < n && ids[k] == row.id ==>
          row' == Row(row.id, row.symbol, row.note, k, row.createdAt, now))
  }

  lemma FindUnique(rows: seq<Row>, i: nat)
    requires DistinctIds(rows) && i < |rows|
    ensures Find(rows, rows[i].id) == i
  {
    hide Find;
    var j := Find(rows, rows[i].id);
  }

  ghost predicate AllNumbered(rows: seq<Row>, ids: seq<Key>, n: nat, now: int, after: seq<Row>)
    requires n <= |ids|
  {
    |after| == |rows| && forall j :: 0 <= j < |rows| ==>
      after[j].id == rows[j].id && Numbered(rows[j], ids, n, now, after[j])
  }

  lemma NumberNext(rows: seq<Row>, ids: seq<Key>, n: nat, now: int, mid: seq<Row>, after: seq<Row>)
    requires n < |ids| && AllNumbered(rows, ids, n, now, mid) && DistinctIds(rows) && NoRepeats(ids)
    requires after == RUpdate(mid, ids[n], None, Some(n), now).0
    ensures AllNumbered(rows, ids, n + 1, now, after)
  {
    hide Find;
    var i := Find(mid, ids[n]);
    forall j | 0 <= j < |rows|
      ensures after[j].id == rows[j].id && Numbered(rows[j], ids, n + 1, now, after[j])
    {
      assert ids[..n + 1] == ids[..n] + [ids[n]];
      if rows[j].id == ids[n] {
        FindUnique(mid, j);
        assert rows[j].id !in ids[..n];
      } else {
        assert after[j] == mid[j];
      }
    }
  }

  lemma {:induction false} ReindexedIs(rows: seq<Row>, ids: seq<Key>, n: nat, now: int)
    requires n <= |ids| && DistinctIds(rows) && NoRepeats(ids)
    ensures AllNumbered(rows, ids, n, now, Reindexed(rows, ids, n, now))
  {
    if n > 0 {
      ReindexedIs(rows, ids, n - 1, now);
      var mid := Reindexed(rows, ids, n - 1, now);
      hide AllNumbered, RUpdate;
      NumberNext(rows, ids, n - 1, now, mid, Reindexed(rows, ids, n, now));
    } else {
      hide Find;
    }
  }

  // The row has the place of its id as its index, and nothing else but the time is changed.
  ghost predicate HasPlace(row: Row, ids: seq<Key>, now: int, row': Row) {
    exists k :: 0 <= k < |ids| && ids[k] == row.id
                && row' == Row(row.id, row.symbol, row.note, k, row.createdAt, now)
  }

  ghost predicate Renumbered(rows: seq<Row>, ids: seq<Key>, now: int, after: seq<Row>) {
    |after| == |rows| && forall j :: 0 <= j < |rows| ==> HasPlace(rows[j], ids, now, after[j])
  }

  lemma NumberedAll(rows: seq<Row>, ids: seq<Key>, now: int, after: seq<Row>)
    requires AllNumbered(rows, ids, |ids|, now, after) && SameIdSet(ids, rows)
    ensures Renumbered(rows, ids, now, after)
  {
    forall j | 0 <= j < |rows|
      ensures HasPlace(rows[j], ids, now, after[j])
    {
      assert rows[j] in rows;
      var k :| 0 <= k < |ids| && ids[k] == rows[j].id;
      assert Numbered(rows[j], ids, |ids|, now, after[j]);
    }
  }

  ghost predicate Rising(rows: seq<Row>) {
    forall j, k :: 0 <= j < k < |rows| ==> rows[j].sortIndex < rows[k].sortIndex
  }

  // So a listing of them is in the requested order.
  lemma RenumberedRise(rows: seq<Row>, ids: seq<Key>, now: int, after: seq<Row>, listed: seq<Row>, order: seq<nat>)
    requires DistinctIds(rows) && Renumbered(rows, ids, now, after) && Lists(after, listed, order)
    ensures Rising(listed)
  {
    forall j, k | 0 <= j < k < |listed|
      ensures listed[j].sortIndex < listed[k].sortIndex
    {
      assert ListsBefore(after, order[j], order[k]);
      assert HasPlace(rows[order[j]], ids, now, after[order[j]]) && HasPlace(rows[order[k]], ids, now, after[order[k]]);
      if order[j] == order[k] {
        assert false;
      }
    }
  }

  ghost predicate SameIdSet(ids: seq<Key>, rows: seq<Row>) {
    (forall id :: id in ids ==> exists x :: x in rows && x.id == id) && forall x :: x in rows ==> x.id in ids
  }

  lemma SameIdsIff(ids: seq<Key>, rows: seq<Row>)
    ensures SameIds(ids, Sorted(rows)) <==> SameIdSet(ids, rows)
    ensures SameIds(ids, rows) ==> AllKnown(rows, ids, |ids|)
  {
    SameIdsUnsorted(ids, rows);
    hide Find, Sorted;
    forall i | 0 <= i < |ids|
      ensures Find(rows, ids[i]) < |rows| <==> exists x :: x in rows && x.id == ids[i]
    {
      if x :| x in rows && x.id == ids[i] {
        var j :| 0 <= j < |rows| && rows[j] == x;
      }
    }
    assert forall j :: 0 <= j < |rows| ==> rows[j] in rows;
    assert forall i :: 0 <= i < |ids| ==> ids[i] in ids;
  }

  // A reorder is refused for a repeated id, or unless the ids are those of the rows; otherwise it
  // numbers the rows in the requested order and lists them by their numbers.
  lemma ReorderIs(rows: seq<Row>, ids: seq<Key>, now: int)
    requires DistinctIds(rows)
    ensures var (after, r) := RExec(rows, Reorder(ids, now));
            if exists i, j :: 0 <= i < j < |ids| && ids[i] == ids[j] then after == rows && r == Failed(BadValue)
            else if !SameIdSet(ids, rows) then after == rows && r == Failed(NotFound)
            else Renumbered(rows, ids, now, after) && r.Rows? && Rising(r.rows)
                 && |r.rows| == |after| && forall x :: x in r.rows <==> x in after
  {
    SameIdsIff(ids, rows);
    hide SameIdSet, SameIds, Sorted, AllKnown, Renumbered, Rising, Reindexed, DistinctIds;
    if NoRepeats(ids) && SameIdSet(ids, rows) {
      SameIdsUnsorted(ids, rows);
      var after := Reindexed(rows, ids, |ids|, now);
      ReindexedIs(rows, ids, |ids|, now);
      NumberedAll(rows, ids, now, after);
      var order := ListingIs(after);
      RenumberedRise(rows, ids, now, after, Sorted(after), order);
      SortedMembers(after);
      hide Lists, AllNumbered;
    }
  }
}
