/**
  Both watchlist layouts behave alike on every history, within the limits, and
  list rows in the order users asked for.
 */
module WatchlistFacts {
  import opened Keys
  import opened Prelude
  import opened Watchlist

  // The list holds the dictionary's rows, in the dictionary's order.
  ghost predicate Related(rows: seq<Row>, d: Dict) {
    WellFormed(d) && rows == Values(d)
  }

  // ------------------------------------------------------------------
  // Sorting
  // ------------------------------------------------------------------

  ghost predicate Ordered(rows: seq<Row>) {
    forall i, j :: 0 <= i < j < |rows| ==> Before(rows[i], rows[j])
  }

  ghost predicate StrictlyIndexed(rows: seq<Row>) {
    forall i, j :: 0 <= i < j < |rows| ==> rows[i].sortIndex < rows[j].sortIndex
  }

  lemma {:induction false} InsertIsOrdered(rows: seq<Row>, x: Row)
    requires Ordered(rows)
    ensures Ordered(Insert(rows, x))
  {
    if rows != [] && !Before(Last(rows), x) {
      InsertIsOrdered(Front(rows), x);
      forall i | 0 <= i < |Insert(Front(rows), x)|
        ensures Before(Insert(Front(rows), x)[i], Last(rows))
      {
        var r := Insert(Front(rows), x)[i];
        assert r in multiset(Insert(Front(rows), x));
        assert r in Front(rows) || r == x;
      }
    }
  }

  lemma {:induction false} SortedIsOrdered(rows: seq<Row>)
    ensures Ordered(Sorted(rows))
  {
    if rows != [] {
      SortedIsOrdered(Front(rows));
      InsertIsOrdered(Sorted(Front(rows)), Last(rows));
    }
  }

  lemma FrontMultiset(s: seq<Row>)
    requires s != []
    ensures multiset(Front(s)) == multiset(s) - multiset{Last(s)}
    ensures s == Front(s) + [Last(s)]
  {
    assert s == Front(s) + [Last(s)];
  }

  lemma SameMembers(s: seq<Row>, t: seq<Row>)
    requires multiset(s) == multiset(t)
    ensures |s| == |t|
    ensures forall r :: r in s <==> r in t
  {
    assert |s| == |multiset(s)| && |t| == |multiset(t)|;
    assert forall r :: r in s <==> r in multiset(s);
    assert forall r :: r in t <==> r in multiset(t);
  }

  lemma FrontStays(s: seq<Row>)
    requires s != []
    ensures Ordered(s) ==> Ordered(Front(s))
    ensures StrictlyIndexed(s) ==> StrictlyIndexed(Front(s))
  {
  }

  lemma LastAgrees(s: seq<Row>, t: seq<Row>)
    requires Ordered(s) && StrictlyIndexed(t) && s != [] && t != []
    requires forall r :: r in s <==> r in t
    ensures Last(s) == Last(t)
  {
    assert Last(s) in s && Last(t) in t;
    var i :| 0 <= i < |t| && t[i] == Last(s);
    var j :| 0 <= j < |s| && s[j] == Last(t);
  }

  // A strictly indexed arrangement is the only ordered one of its rows.
  lemma {:induction false} OneOrder(s: seq<Row>, t: seq<Row>)
    requires Ordered(s) && StrictlyIndexed(t) && multiset(s) == multiset(t)
    ensures s == t
  {
    hide Ordered, StrictlyIndexed;
    SameMembers(s, t);
    if s != [] {
      LastAgrees(s, t);
      FrontMultiset(s);
      FrontMultiset(t);
      FrontStays(s);
      FrontStays(t);
      OneOrder(Front(s), Front(t));
    }
  }

  lemma SortsTo(rows: seq<Row>, t: seq<Row>)
    requires StrictlyIndexed(t) && multiset(rows) == multiset(t)
    ensures Sorted(rows) == t
  {
    SortedIsOrdered(rows);
    OneOrder(Sorted(rows), t);
  }

  lemma {:induction false} NextIndexIsAbove(rows: seq<Row>)
    ensures forall r :: r in rows ==> r.sortIndex < NextIndex(rows)
  {
    if |rows| > 1 {
      NextIndexIsAbove(Front(rows));
    }
  }

  lemma SortAppended(rows: seq<Row>, x: Row)
    requires x.sortIndex == NextIndex(Sorted(rows))
    ensures Sorted(rows + [x]) == Sorted(rows) + [x]
  {
    var listed := Sorted(rows);
    assert Front(rows + [x]) == rows && Last(rows + [x]) == x;
    NextIndexIsAbove(listed);
    hide NextIndex;
    assert Sorted(rows + [x]) == Insert(listed, x);
    hide Sorted;
    assert listed != [] ==> Last(listed) in listed;
  }

  // A created row lists last.
  lemma CreatedListsLast(rows: seq<Row>, op: Op)
    requires op.Create? && RExec(rows, op).1.One?
    ensures Sorted(RExec(rows, op).0) == Sorted(rows) + [RExec(rows, op).1.row]
  {
    hide Sorted, NextIndex, HasSymbol, Checks;
    SortAppended(rows, Payload(op, Sorted(rows)));
  }

  // ------------------------------------------------------------------
  // Limits
  // ------------------------------------------------------------------

  ghost predicate WithinLimits(rows: seq<Row>) {
    && |rows| <= MAX_ITEMS
    && (forall i, j :: 0 <= i < j < |rows| ==> rows[i].symbol != rows[j].symbol)
  }

  // What a step may do to the symbols: drop some, or add one that was not there.
  lemma {:induction false} DroppingKeepsLimits(rows: seq<Row>, id: Key)
    requires WithinLimits(rows)
    ensures WithinLimits(Dropping(rows, id))
    ensures forall r :: r in Dropping(rows, id) ==> r in rows
  {
    if rows != [] {
      DroppingKeepsLimits(Front(rows), id);
      assert forall r :: r in Front(rows) ==> r.symbol != Last(rows).symbol;
    }
  }

  lemma {:induction false} ReindexedKeepsLimits(rows: seq<Row>, ids: seq<Key>, n: nat, now: int)
    requires n <= |ids| && WithinLimits(rows)
    ensures WithinLimits(Reindexed(rows, ids, n, now))
  {
    if n > 0 {
      ReindexedKeepsLimits(rows, ids, n - 1, now);
    }
  }

  lemma StepKeepsLimits(rows: seq<Row>, op: Op)
    requires WithinLimits(rows)
    ensures WithinLimits(RExec(rows, op).0)
  {
    hide Sorted, Checks, NextIndex, Dropping, Reindexed;
    match op {
      case Delete(id) => DroppingKeepsLimits(rows, id);
      case Reorder(ids, now) => ReindexedKeepsLimits(rows, ids, |ids|, now);
      case _ =>
    }
  }

  // ------------------------------------------------------------------
  // One step of each layout
  // ------------------------------------------------------------------

  lemma FindInDict(d: Dict, id: Key)
    requires WellFormed(d)
    ensures var i := Find(Values(d), id);
            && (i < |d.order| <==> id in d.rows)
            && (i < |d.order| ==> d.order[i] == id)
  {
    hide Find;
    var i := Find(Values(d), id);
    assert forall j :: 0 <= j < |d.order| ==> d.order[j] in d.order && Values(d)[j].id == d.order[j];
    if id in d.rows {
      assert id in d.order;
      var j :| 0 <= j < |d.order| && d.order[j] == id;
    }
  }

  lemma UpdateAgrees(rows: seq<Row>, d: Dict, id: Key, note: Option<string>, sortIndex: Option<int>, now: int)
    requires Related(rows, d)
    ensures var (rows', r) := RUpdate(rows, id, note, sortIndex, now);
            var (d', r') := MUpdate(d, id, note, sortIndex, now);
            r == r' && Related(rows', d')
  {
    hide Find;
    FindInDict(d, id);
    var i := Find(rows, id);
    if i < |rows| {
      var row := Patch(d.rows[id], note, sortIndex, now);
      var d' := d.(rows := d.rows[id := row]);
      forall j | 0 <= j < |d.order|
        ensures Values(d')[j] == rows[i := row][j]
      {
      }
    }
  }

  lemma CreateAgrees(rows: seq<Row>, d: Dict, payload: Row)
    requires Related(rows, d) && payload.id !in d.rows
    ensures var (rows', r) := RCreate(rows, payload);
            var (d', r') := MCreate(d, payload);
            r == r' && Related(rows', d')
  {
  }

  lemma RowsOfAppend(ks: seq<Key>, k: Key, rows: map<Key, Row>)
    requires k in rows && forall x :: x in ks ==> x in rows
    ensures RowsOf(ks + [k], rows) == RowsOf(ks, rows) + [rows[k]]
  {
  }

  lemma DroppingAppend(rows: seq<Row>, r: Row, id: Key)
    ensures Dropping(rows + [r], id) == if r.id == id then Dropping(rows, id) else Dropping(rows, id) + [r]
  {
    assert Front(rows + [r]) == rows;
  }

  lemma {:induction false} DroppingValues(ks: seq<Key>, rows: map<Key, Row>, id: Key)
    requires forall k :: k in ks ==> k in rows && rows[k].id == k
    ensures Dropping(RowsOf(ks, rows), id) == RowsOf(Without(ks, id), rows - {id})
  {
    if ks == [] {
      assert RowsOf(ks, rows) == [];
    } else {
      hide RowsOf, Dropping, Without;
      assert Front(ks) + [Last(ks)] == ks;
      DroppingValues(Front(ks), rows, id);
      DroppingOneMore(Front(ks), Last(ks), rows, id);
    }
  }

  lemma DroppingOneMore(ks: seq<Key>, k: Key, rows: map<Key, Row>, id: Key)
    requires k in rows && rows[k].id == k && forall x :: x in ks ==> x in rows
    requires Dropping(RowsOf(ks, rows), id) == RowsOf(Without(ks, id), rows - {id})
    ensures forall x :: x in ks + [k] ==> x in rows
    ensures Dropping(RowsOf(ks + [k], rows), id) == RowsOf(Without(ks + [k], id), rows - {id})
  {
    hide RowsOf, Dropping, Without;
    RowsOfAppend(ks, k, rows);
    DroppingAppend(RowsOf(ks, rows), rows[k], id);
    WithoutAppend(ks, k, id);
    if k == id {
      assert Without(ks, id) + [] == Without(ks, id);
    } else {
      RowsOfAppend(Without(ks, id), k, rows - {id});
    }
  }

  lemma {:induction false} DroppingLength(rows: seq<Row>, id: Key)
    ensures |Dropping(rows, id)| == |rows| <==> forall i :: 0 <= i < |rows| ==> rows[i].id != id
  {
    if rows != [] {
      DroppingLength(Front(rows), id);
    }
  }

  lemma IdInDict(rows: seq<Row>, d: Dict, id: Key)
    requires Related(rows, d)
    ensures id in d.rows <==> exists i :: 0 <= i < |rows| && rows[i].id == id
  {
    if id in d.rows {
      var i :| 0 <= i < |d.order| && d.order[i] == id;
      assert rows[i].id == id;
    } else {
      assert forall i :: 0 <= i < |d.order| ==> d.order[i] in d.order;
    }
  }

  lemma DeletedRelated(rows: seq<Row>, d: Dict, id: Key)
    requires Related(rows, d)
    ensures Related(Dropping(rows, id), Dict(Without(d.order, id), d.rows - {id}))
  {
    DroppingValues(d.order, d.rows, id);
    WithoutDistinct(d.order, id);
    hide Dropping, Without;
  }

  lemma DeleteAgrees(rows: seq<Row>, d: Dict, id: Key)
    requires Related(rows, d)
    ensures var (rows', r) := RDelete(rows, id);
            var (d', r') := MDelete(d, id);
            r == r' && Related(rows', d')
  {
    DeletedRelated(rows, d, id);
    DroppingLength(rows, id);
    IdInDict(rows, d, id);
    hide Dropping, Without, Related;
  }

  // ------------------------------------------------------------------
  // Reordering
  // ------------------------------------------------------------------

  lemma MReindexedStep(d: Dict, ids: seq<Key>, n: nat, now: int)
    requires 0 < n <= |ids| && AllInDict(d, ids)
    ensures ids[n - 1] in MReindexed(d, ids, n - 1, now).0.rows
    ensures var (d', out) := MReindexed(d, ids, n - 1, now);
            var row := Patch(d'.rows[ids[n - 1]], None, Some(n - 1), now);
            MReindexed(d, ids, n, now) == (d'.(rows := d'.rows[ids[n - 1] := row]), out + [row])
  {
  }

  lemma MReindexedNone(d: Dict, ids: seq<Key>, now: int)
    requires AllInDict(d, ids)
    ensures MReindexed(d, ids, 0, now) == (d, [])
  {
  }

  lemma {:induction false} ReindexAgrees(rows: seq<Row>, d: Dict, ids: seq<Key>, n: nat, now: int)
    requires n <= |ids| && Related(rows, d) && AllInDict(d, ids)
    ensures Related(Reindexed(rows, ids, n, now), MReindexed(d, ids, n, now).0)
  {
    hide MReindexed, Related, RUpdate;
    MReindexedNone(d, ids, now);
    if n > 0 {
      ReindexAgrees(rows, d, ids, n - 1, now);
      UpdateAgrees(Reindexed(rows, ids, n - 1, now), MReindexed(d, ids, n - 1, now).0, ids[n - 1], None, Some(n - 1), now);
      MReindexedStep(d, ids, n, now);
    }
  }

  // The updated rows: one per id, in the requested order, holding what the dictionary ends up with.
  ghost predicate InRequestedOrder(out: seq<Row>, ids: seq<Key>, n: nat)
    requires n <= |ids|
  {
    |out| == n && forall i :: 0 <= i < n ==> out[i].id == ids[i] && out[i].sortIndex == i
  }

  lemma {:induction false} ReindexedRows(d: Dict, ids: seq<Key>, n: nat, now: int)
    requires n <= |ids| && WellFormed(d) && AllInDict(d, ids) && NoRepeats(ids)
    ensures var (d', out) := MReindexed(d, ids, n, now);
            && InRequestedOrder(out, ids, n)
            && (forall i :: 0 <= i < n ==> out[i] == d'.rows[ids[i]])
            && (forall k :: k in d'.rows ==> d'.rows[k].id == k)
  {
    hide MReindexed;
    MReindexedNone(d, ids, now);
    if n > 0 {
      ReindexedRows(d, ids, n - 1, now);
      MReindexedStep(d, ids, n, now);
      assert forall i :: 0 <= i < n - 1 ==> ids[i] != ids[n - 1];
    }
  }

  ghost predicate NoDoubles(rows: seq<Row>) {
    forall i, j :: 0 <= i < j < |rows| ==> rows[i] != rows[j]
  }

  lemma {:induction false} CountsOnce(rows: seq<Row>, r: Row)
    requires NoDoubles(rows)
    ensures multiset(rows)[r] == if r in rows then 1 else 0
  {
    if rows != [] {
      CountsOnce(Front(rows), r);
      FrontMultiset(rows);
      assert Last(rows) !in Front(rows);
      assert multiset(rows) == multiset(Front(rows)) + multiset{Last(rows)};
    }
  }

  lemma SameRows(a: seq<Row>, b: seq<Row>)
    requires NoDoubles(a) && NoDoubles(b) && forall r :: r in a <==> r in b
    ensures multiset(a) == multiset(b)
  {
    forall r
      ensures multiset(a)[r] == multiset(b)[r]
    {
      CountsOnce(a, r);
      CountsOnce(b, r);
    }
  }

  lemma RequestedIsPermutation(d: Dict, out: seq<Row>, ids: seq<Key>)
    requires WellFormed(d) && InRequestedOrder(out, ids, |ids|) && NoRepeats(ids)
    requires AllInDict(d, ids) && forall k :: k in d.order ==> k in ids
    requires forall i :: 0 <= i < |ids| ==> out[i] == d.rows[ids[i]]
    ensures multiset(Values(d)) == multiset(out)
  {
    var rows := Values(d);
    assert forall i :: 0 <= i < |rows| ==> d.order[i] in d.order && rows[i].id == d.order[i];
    forall r | r in rows
      ensures r in out
    {
      var i :| 0 <= i < |rows| && rows[i] == r;
      var j :| 0 <= j < |ids| && ids[j] == d.order[i];
      assert out[j] == r;
    }
    forall r | r in out
      ensures r in rows
    {
      var j :| 0 <= j < |out| && out[j] == r;
      assert ids[j] in d.order;
      var i :| 0 <= i < |d.order| && d.order[i] == ids[j];
      assert rows[i] == r;
    }
    SameRows(rows, out);
  }

  // After the public checks, both layouts answer a reorder with the rows in the requested order.
  lemma ReorderAgrees(rows: seq<Row>, d: Dict, ids: seq<Key>, now: int)
    requires Related(rows, d) && NoRepeats(ids) && SameIds(ids, Sorted(rows))
    ensures AllInDict(d, ids)
    ensures var (rows', r) := RReorder(rows, ids, now);
            var (d', r') := MReorder(d, ids, now);
            && r == r' && Related(rows', d')
            && r.Rows? && r.rows == Sorted(rows')
            && InRequestedOrder(r.rows, ids, |ids|)
  {
    hide Sorted, Find, Reindexed, MReindexed, SameIds, RowsOf;
    KnownIds(rows, d, ids);
    var (d', out) := MReindexed(d, ids, |ids|, now);
    ReindexAgrees(rows, d, ids, |ids|, now);
    ReindexedRows(d, ids, |ids|, now);
    hide NoRepeats, AllInDict, WellFormed;
    RequestedIsPermutation(d', out, ids);
    SortsTo(Values(d'), out);
    SortsTo(out, out);
  }

  lemma KnownIds(rows: seq<Row>, d: Dict, ids: seq<Key>)
    requires Related(rows, d) && SameIds(ids, Sorted(rows))
    ensures AllInDict(d, ids) && AllKnown(rows, ids, |ids|)
    ensures forall k :: k in d.order ==> k in ids
  {
    hide Sorted, Find;
    SameIdsUnsorted(ids, rows);
    ListedIdsInDict(d, ids);
    forall k | k in d.order
      ensures k in ids
    {
      var j :| 0 <= j < |d.order| && d.order[j] == k;
      assert rows[j].id == k;
    }
  }

  // A successful reorder makes the listing exactly the requested order, indexed from 0.
  lemma ReorderLists(rows: seq<Row>, d: Dict, op: Op)
    requires Related(rows, d) && op.Reorder? && RExec(rows, op).1.Rows?
    ensures var after := RExec(rows, op).0;
            && RExec(rows, op).1 == Rows(Sorted(after))
            && RExec(after, List) == (after, Rows(Sorted(after)))
            && InRequestedOrder(Sorted(after), op.ids, |op.ids|)
  {
    hide Sorted, Find, Reindexed, SameIds, RReorder;
    ReorderAgrees(rows, d, op.ids, op.now);
  }

  // ------------------------------------------------------------------
  // Histories
  // ------------------------------------------------------------------

  lemma StepAgrees(rows: seq<Row>, d: Dict, op: Op)
    requires Related(rows, d) && (op.Create? ==> op.id !in d.rows)
    ensures RExec(rows, op).1 == MExec(d, op).1
    ensures Related(RExec(rows, op).0, MExec(d, op).0)
    ensures forall k :: k in MExec(d, op).0.rows ==> k in d.rows || (op.Create? && op.id == k)
  {
    hide Sorted, SameIds, Related, NextIndex, RUpdate, RDelete, RCreate, RReorder, MReindexed, Values;
    RelatedRows(rows, d);
    if Checks(op, Sorted(rows)).None? {
      match op {
        case List =>
        case Create(_, _, _, _, _) => CreateAgrees(rows, d, Payload(op, Sorted(rows)));
        case Update(id, note, sortIndex, now) => UpdateAgrees(rows, d, id, note, sortIndex, now);
        case Delete(id) => DeleteAgrees(rows, d, id);
        case Reorder(ids, now) => ReorderAgrees(rows, d, ids, now);
      }
    }
  }

  lemma RelatedRows(rows: seq<Row>, d: Dict)
    requires Related(rows, d)
    ensures WellFormed(d) && rows == Values(d)
  {
  }

  function RRun(ops: seq<Op>): (seq<Row>, seq<Response>) {
    if ops == [] then ([], [])
    else
      var (rows, out) := RRun(Front(ops));
      var (rows', r) := RExec(rows, Last(ops));
      (rows', out + [r])
  }

  lemma {:induction false} ExecKeepsWellFormed(d: Dict, op: Op)
    requires WellFormed(d)
    ensures WellFormed(MExec(d, op).0)
  {
    hide Sorted, SameIds, Values, NextIndex;
    match op {
      case Delete(id) => WithoutDistinct(d.order, id);
      case Reorder(ids, now) =>
        if Checks(op, Sorted(Values(d))).None? {
          ListedIdsInDict(d, ids);
          ReindexedRows(d, ids, |ids|, now);
          hide MReindexed;
        }
      case _ =>
    }
  }

  function MRun(ops: seq<Op>): (r: (Dict, seq<Response>))
    ensures WellFormed(r.0)
  {
    if ops == [] then (Dict([], map[]), [])
    else
      var (d, out) := MRun(Front(ops));
      ExecKeepsWellFormed(d, Last(ops));
      var (d', r) := MExec(d, Last(ops));
      (d', out + [r])
  }

  // Every created item gets an id never created before, as fresh uuids do.
  ghost predicate FreshIds(ops: seq<Op>) {
    forall i, j :: 0 <= i < j < |ops| && ops[i].Create? && ops[j].Create? ==> ops[i].id != ops[j].id
  }

  ghost predicate CreatedIn(ops: seq<Op>, k: Key) {
    exists i :: 0 <= i < |ops| && ops[i].Create? && ops[i].id == k
  }

  // On every history the two layouts give the same responses, errors included, hold the same
  // rows, and stay within 50 rows of distinct symbols.
  lemma {:induction false} HistoriesAgree(ops: seq<Op>)
    requires FreshIds(ops)
    ensures RRun(ops).1 == MRun(ops).1
    ensures Related(RRun(ops).0, MRun(ops).0)
    ensures WithinLimits(RRun(ops).0)
    ensures forall k :: k in MRun(ops).0.rows ==> CreatedIn(ops, k)
  {
    if ops != [] {
      var front, op := Front(ops), Last(ops);
      HistoriesAgree(front);
      hide Related, WithinLimits, RExec, MExec;
      forall k | CreatedIn(front, k)
        ensures CreatedIn(ops, k) && (op.Create? ==> op.id != k)
      {
        var i :| 0 <= i < |front| && front[i].Create? && front[i].id == k;
        assert ops[i] == front[i];
      }
      StepAgrees(RRun(front).0, MRun(front).0, op);
      StepKeepsLimits(RRun(front).0, op);
      assert op.Create? ==> CreatedIn(ops, op.id) by {
        assert ops[|ops| - 1] == op;
      }
    }
  }
}
