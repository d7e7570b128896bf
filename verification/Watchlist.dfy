/**
  The watchlist of app/infra/watchlist_store.py in one market: the Redis layout
  (a list of rows) and the memory layout (a dictionary of rows by id).
 */
module Watchlist {
  import opened Keys
  import opened Prelude

  const MAX_ITEMS := 50
  const MAX_NOTE := 280

  // The columns the store itself reads or writes; times stand for ISO strings.
  datatype Row = Row(id: Key, symbol: string, note: string, sortIndex: int, createdAt: int, updatedAt: int)

  datatype Error = NotFound | Duplicate | LimitReached | UnknownSymbol | BadValue

  datatype Response = Rows(rows: seq<Row>) | One(row: Row) | Removed | Failed(error: Error)

  // ------------------------------------------------------------------
  // Sorting, as list.sort does: stable, by (sort_index, created_at)
  // ------------------------------------------------------------------

  predicate Before(a: Row, b: Row) {
    a.sortIndex < b.sortIndex || (a.sortIndex == b.sortIndex && a.createdAt <= b.createdAt)
  }

  function Insert(rows: seq<Row>, x: Row): (r: seq<Row>)
    ensures multiset(r) == multiset(rows) + multiset{x}
  {
    if rows == [] then [x]
    else if Before(Last(rows), x) then rows + [x]
    else
      assert rows == Front(rows) + [Last(rows)];
      Insert(Front(rows), x) + [Last(rows)]
  }

  function Sorted(rows: seq<Row>): (r: seq<Row>)
    ensures multiset(r) == multiset(rows)
  {
    if rows == [] then []
    else
      assert rows == Front(rows) + [Last(rows)];
      Insert(Sorted(Front(rows)), Last(rows))
  }

  // ------------------------------------------------------------------
  // Shared pieces of the public operations
  // ------------------------------------------------------------------

  function MaxIndex(rows: seq<Row>): int
    requires rows != []
  {
    if |rows| == 1 then rows[0].sortIndex
    else if MaxIndex(Front(rows)) >= Last(rows).sortIndex then MaxIndex(Front(rows))
    else Last(rows).sortIndex
  }

  function NextIndex(rows: seq<Row>): int {
    if rows == [] then 0 else MaxIndex(rows) + 1
  }

  function Patch(r: Row, note: Option<string>, sortIndex: Option<int>, now: int): Row {
    r.(note := if note.Some? then note.value else r.note,
       sortIndex := if sortIndex.Some? then sortIndex.value else r.sortIndex,
       updatedAt := now)
  }

  predicate HasSymbol(rows: seq<Row>, symbol: string) {
    exists i :: 0 <= i < |rows| && rows[i].symbol == symbol
  }

  // The first row with this id, or the length.
  function Find(rows: seq<Row>, id: Key): (i: nat)
    ensures i <= |rows|
    ensures i < |rows| ==> rows[i].id == id
    ensures forall j :: 0 <= j < i ==> rows[j].id != id
  {
    if rows == [] then 0
    else
      var i := Find(Front(rows), id);
      if i < |rows| - 1 || Last(rows).id == id then i else |rows|
  }

  // What the public layer checks before either backend is asked.
  datatype Op =
    | List
    | Create(id: Key, symbol: string, note: string, whitelisted: bool, now: int)
    | Update(id: Key, newNote: Option<string>, newIndex: Option<int>, now: int)
    | Delete(id: Key)
    | Reorder(ids: seq<Key>, now: int)

  predicate NoRepeats(ids: seq<Key>) {
    forall i, j :: 0 <= i < j < |ids| ==> ids[i] != ids[j]
  }

  // With repeats ruled out, comparing the sorted id lists compares the sets of ids.
  predicate SameIds(ids: seq<Key>, rows: seq<Row>) {
    && (forall i :: 0 <= i < |ids| ==> Find(rows, ids[i]) < |rows|)
    && (forall j :: 0 <= j < |rows| ==> rows[j].id in ids)
  }

  // `listed` is what list_items returns at this point.
  function Checks(op: Op, listed: seq<Row>): Option<Error> {
    match op
    case Create(_, _, note, whitelisted, _) =>
      if |note| > MAX_NOTE then Some(BadValue) else if !whitelisted then Some(UnknownSymbol) else None
    case Update(_, note, sortIndex, _) =>
      if note.None? && sortIndex.None? then Some(BadValue)
      else if note.Some? && |note.value| > MAX_NOTE then Some(BadValue) else None
    case Reorder(ids, _) =>
      if !NoRepeats(ids) then Some(BadValue) else if !SameIds(ids, listed) then Some(NotFound) else None
    case _ => None
  }

  function Payload(op: Op, listed: seq<Row>): Row
    requires op.Create?
  {
    Row(op.id, op.symbol, op.note, NextIndex(listed), op.now, op.now)
  }

  // ------------------------------------------------------------------
  // The Redis layout: rows in stored order
  // ------------------------------------------------------------------

  function RCreate(rows: seq<Row>, payload: Row): (seq<Row>, Response) {
    if HasSymbol(rows, payload.symbol) then (rows, Failed(Duplicate))
    else if |rows| >= MAX_ITEMS then (rows, Failed(LimitReached))
    else (rows + [payload], One(payload))
  }

  function RUpdate(rows: seq<Row>, id: Key, note: Option<string>, sortIndex: Option<int>, now: int): (seq<Row>, Response) {
    var i := Find(rows, id);
    if i == |rows| then (rows, Failed(NotFound))
    else (rows[i := Patch(rows[i], note, sortIndex, now)], One(Patch(rows[i], note, sortIndex, now)))
  }

  function Dropping(rows: seq<Row>, id: Key): (r: seq<Row>)
    ensures |r| <= |rows|
  {
    if rows == [] then [] else Dropping(Front(rows), id) + if Last(rows).id == id then [] else [Last(rows)]
  }

  function RDelete(rows: seq<Row>, id: Key): (seq<Row>, Response) {
    if |Dropping(rows, id)| == |rows| then (rows, Failed(NotFound)) else (Dropping(rows, id), Removed)
  }

  // The rows after giving the first n ids the indices 0 to n - 1.
  function Reindexed(rows: seq<Row>, ids: seq<Key>, n: nat, now: int): seq<Row>
    requires n <= |ids|
  {
    if n == 0 then rows else RUpdate(Reindexed(rows, ids, n - 1, now), ids[n - 1], None, Some(n - 1), now).0
  }

  predicate AllKnown(rows: seq<Row>, ids: seq<Key>, n: nat)
    requires n <= |ids|
  {
    forall i :: 0 <= i < n ==> Find(rows, ids[i]) < |rows|
  }

  function RReorder(rows: seq<Row>, ids: seq<Key>, now: int): (seq<Row>, Response) {
    if !AllKnown(rows, ids, |ids|) then (rows, Failed(NotFound))
    else
      var after := Reindexed(rows, ids, |ids|, now);
      (after, Rows(Sorted(after)))
  }

  function RExec(rows: seq<Row>, op: Op): (seq<Row>, Response) {
    var refused := Checks(op, Sorted(rows));
    if refused.Some? then (rows, Failed(refused.value))
    else
      match op
      case List => (rows, Rows(Sorted(rows)))
      case Create(_, _, _, _, _) => RCreate(rows, Payload(op, Sorted(rows)))
      case Update(id, note, sortIndex, now) => RUpdate(rows, id, note, sortIndex, now)
      case Delete(id) => RDelete(rows, id)
      case Reorder(ids, now) => RReorder(rows, ids, now)
  }

  // ------------------------------------------------------------------
  // The memory layout: a dictionary in insertion order
  // ------------------------------------------------------------------

  datatype Dict = Dict(order: seq<Key>, rows: map<Key, Row>)

  ghost predicate WellFormed(d: Dict) {
    && Distinct(d.order)
    && (forall k :: k in d.order <==> k in d.rows)
    && (forall k :: k in d.rows ==> d.rows[k].id == k)
  }

  function RowsOf(ks: seq<Key>, rows: map<Key, Row>): (r: seq<Row>)
    requires forall k :: k in ks ==> k in rows
    ensures |r| == |ks|
  {
    seq(|ks|, i requires 0 <= i < |ks| => rows[ks[i]])
  }

  function Values(d: Dict): (rows: seq<Row>)
    requires forall k :: k in d.order ==> k in d.rows
    ensures |rows| == |d.order|
  {
    RowsOf(d.order, d.rows)
  }

  function MCreate(d: Dict, payload: Row): (Dict, Response)
    requires forall k :: k in d.order ==> k in d.rows
  {
    if HasSymbol(Values(d), payload.symbol) then (d, Failed(Duplicate))
    else if |d.order| >= MAX_ITEMS then (d, Failed(LimitReached))
    else
      (Dict(if payload.id in d.rows then d.order else d.order + [payload.id], d.rows[payload.id := payload]),
       One(payload))
  }

  function MUpdate(d: Dict, id: Key, note: Option<string>, sortIndex: Option<int>, now: int): (Dict, Response) {
    if id !in d.rows then (d, Failed(NotFound))
    else
      var row := Patch(d.rows[id], note, sortIndex, now);
      (d.(rows := d.rows[id := row]), One(row))
  }

  function MDelete(d: Dict, id: Key): (Dict, Response) {
    if id !in d.rows then (d, Failed(NotFound))
    else (Dict(Without(d.order, id), d.rows - {id}), Removed)
  }

  // The dictionary, and the updated rows, after the first n patches.
  function MReindexed(d: Dict, ids: seq<Key>, n: nat, now: int): (Dict, seq<Row>)
    requires n <= |ids|
    requires forall i :: 0 <= i < |ids| ==> ids[i] in d.rows
    ensures MReindexed(d, ids, n, now).0.rows.Keys == d.rows.Keys
    ensures MReindexed(d, ids, n, now).0.order == d.order
  {
    if n == 0 then (d, [])
    else
      var (d', out) := MReindexed(d, ids, n - 1, now);
      var (d'', r) := MUpdate(d', ids[n - 1], None, Some(n - 1), now);
      (d'', out + [r.row])
  }

  predicate AllInDict(d: Dict, ids: seq<Key>) {
    forall i :: 0 <= i < |ids| ==> ids[i] in d.rows
  }

  function MReorder(d: Dict, ids: seq<Key>, now: int): (Dict, Response)
    requires AllInDict(d, ids)
  {
    var (d', out) := MReindexed(d, ids, |ids|, now);
    (d', Rows(Sorted(out)))
  }

  lemma SortedMembers(rows: seq<Row>)
    ensures forall r :: r in Sorted(rows) <==> r in rows
    ensures |Sorted(rows)| == |rows|
  {
    hide Sorted;
    assert forall r :: r in Sorted(rows) <==> r in multiset(Sorted(rows));
    assert forall r :: r in rows <==> r in multiset(rows);
    assert |multiset(Sorted(rows))| == |multiset(rows)|;
  }

  // Sorting does not change which ids are known.
  lemma SameIdsUnsorted(ids: seq<Key>, rows: seq<Row>)
    ensures SameIds(ids, Sorted(rows)) <==> SameIds(ids, rows)
  {
    hide Sorted, Find;
    SortedMembers(rows);
    forall id
      ensures Find(Sorted(rows), id) < |rows| <==> Find(rows, id) < |rows|
    {
      var i, j := Find(rows, id), Find(Sorted(rows), id);
      if i < |rows| {
        assert rows[i] in Sorted(rows);
      }
      if j < |rows| {
        assert Sorted(rows)[j] in rows;
      }
    }
    assert forall j :: 0 <= j < |rows| ==> Sorted(rows)[j] in rows;
    assert forall j :: 0 <= j < |rows| ==> rows[j] in Sorted(rows);
  }

  lemma ListedIdsInDict(d: Dict, ids: seq<Key>)
    requires WellFormed(d) && SameIds(ids, Sorted(Values(d)))
    ensures AllInDict(d, ids)
  {
    hide Sorted, Find;
    SameIdsUnsorted(ids, Values(d));
    assert forall j :: 0 <= j < |d.order| ==> d.order[j] in d.order && Values(d)[j].id == d.order[j];
  }

  function MExec(d: Dict, op: Op): (Dict, Response)
    requires WellFormed(d)
  {
    var listed := Sorted(Values(d));
    var refused := Checks(op, listed);
    if refused.Some? then (d, Failed(refused.value))
    else
      match op
      case List => (d, Rows(listed))
      case Create(_, _, _, _, _) => MCreate(d, Payload(op, listed))
      case Update(id, note, sortIndex, now) => MUpdate(d, id, note, sortIndex, now)
      case Delete(id) => MDelete(d, id)
      case Reorder(ids, now) => ListedIdsInDict(d, ids); MReorder(d, ids, now)
  }
}
