/** The two watchlist backends as the stores update them in place. */
module WatchlistStores {
  import opened Keys
  import opened Prelude
  import opened Watchlist

  // The first match depends on the ids alone.
  lemma FindSame(a: seq<Row>, b: seq<Row>, id: Key)
    requires |a| == |b| && forall j :: 0 <= j < |a| ==> a[j].id == b[j].id
    ensures Find(a, id) == Find(b, id)
  {
    hide Find;
    var i, j := Find(a, id), Find(b, id);
  }

  lemma SymbolInDict(d: Dict, symbol: string)
    requires WellFormed(d)
    ensures HasSymbol(Values(d), symbol) <==> exists k :: k in d.rows && d.rows[k].symbol == symbol
  {
    if k :| k in d.rows && d.rows[k].symbol == symbol {
      assert k in d.order;
      var i :| 0 <= i < |d.order| && d.order[i] == k;
      assert Values(d)[i].symbol == symbol;
    }
  }

  class RedisWatchlist {
    var rows: seq<Row>

    constructor ()
      ensures rows == []
    {
      rows := [];
    }

    method Create(payload: Row) returns (r: Response)
      modifies this
      ensures (rows, r) == RCreate(old(rows), payload)
    {
      if HasSymbol(rows, payload.symbol) {
        return Failed(Duplicate);
      }
      if |rows| >= MAX_ITEMS {
        return Failed(LimitReached);
      }
      rows := rows + [payload];
      r := One(payload);
    }

    method Update(id: Key, note: Option<string>, sortIndex: Option<int>, now: int) returns (r: Response)
      modifies this
      ensures (rows, r) == RUpdate(old(rows), id, note, sortIndex, now)
    {
      for i := 0 to |rows|
        invariant rows == old(rows)
        invariant forall j :: 0 <= j < i ==> rows[j].id != id
      {
        if rows[i].id == id {
          assert Find(rows, id) == i;
          var row := Patch(rows[i], note, sortIndex, now);
          rows := rows[i := row];
          return One(row);
        }
      }
      r := Failed(NotFound);
    }

    method Delete(id: Key) returns (r: Response)
      modifies this
      ensures (rows, r) == RDelete(old(rows), id)
    {
      var kept: seq<Row> := [];
      for i := 0 to |rows|
        invariant rows == old(rows)
        invariant kept == Dropping(rows[..i], id)
      {
        assert Front(rows[..i + 1]) == rows[..i];
        if rows[i].id != id {
          kept := kept + [rows[i]];
        }
      }
      assert rows[..|rows|] == rows;
      if |kept| == |rows| {
        return Failed(NotFound);
      }
      rows := kept;
      r := Removed;
    }

    // The patches go to a copy; only a complete reorder is saved.
    method Reorder(ids: seq<Key>, now: int) returns (r: Response)
      modifies this
      ensures (rows, r) == RReorder(old(rows), ids, now)
    {
      hide Find;
      var copy := rows;
      for n := 0 to |ids|
        invariant rows == old(rows)
        invariant copy == Reindexed(rows, ids, n, now)
        invariant AllKnown(rows, ids, n)
        invariant |copy| == |rows| && forall j :: 0 <= j < |rows| ==> copy[j].id == rows[j].id
      {
        var i := Find(copy, ids[n]);
        FindSame(copy, rows, ids[n]);
        if i == |copy| {
          return Failed(NotFound);
        }
        copy := copy[i := Patch(copy[i], None, Some(n), now)];
      }
      rows := copy;
      r := Rows(Sorted(copy));
    }

    method Apply(op: Op) returns (r: Response)
      modifies this
      ensures (rows, r) == RExec(old(rows), op)
    {
      var listed := Sorted(rows);
      var refused := Checks(op, listed);
      if refused.Some? {
        return Failed(refused.value);
      }
      match op {
        case List => r := Rows(listed);
        case Create(_, _, _, _, _) => r := Create(Payload(op, listed));
        case Update(id, note, sortIndex, now) => r := Update(id, note, sortIndex, now);
        case Delete(id) => r := Delete(id);
        case Reorder(ids, now) => r := Reorder(ids, now);
      }
    }
  }

  class MemoryWatchlist {
    var order: seq<Key>
    var rows: map<Key, Row>

    ghost function Contents(): Dict
      reads this
    {
      Dict(order, rows)
    }

    constructor ()
      ensures Contents() == Dict([], map[])
    {
      order, rows := [], map[];
    }

    method Create(payload: Row) returns (r: Response)
      requires WellFormed(Contents())
      modifies this
      ensures (Contents(), r) == MCreate(old(Contents()), payload)
    {
      SymbolInDict(Contents(), payload.symbol);
      if exists k :: k in rows && rows[k].symbol == payload.symbol {
        return Failed(Duplicate);
      }
      if |order| >= MAX_ITEMS {
        return Failed(LimitReached);
      }
      if payload.id !in rows {
        order := order + [payload.id];
      }
      rows := rows[payload.id := payload];
      r := One(payload);
    }

    method Update(id: Key, note: Option<string>, sortIndex: Option<int>, now: int) returns (r: Response)
      modifies this`rows
      ensures (Contents(), r) == MUpdate(old(Contents()), id, note, sortIndex, now)
    {
      if id !in rows {
        return Failed(NotFound);
      }
      var row := Patch(rows[id], note, sortIndex, now);
      rows := rows[id := row];
      r := One(row);
    }

    method Delete(id: Key) returns (r: Response)
      modifies this
      ensures (Contents(), r) == MDelete(old(Contents()), id)
    {
      if id !in rows {
        return Failed(NotFound);
      }
      order, rows := Without(order, id), rows - {id};
      r := Removed;
    }

    method Reorder(ids: seq<Key>, now: int) returns (r: Response)
      requires AllInDict(Contents(), ids)
      modifies this`rows
      ensures (Contents(), r) == MReorder(old(Contents()), ids, now)
    {
      var out: seq<Row> := [];
      for n := 0 to |ids|
        invariant (Contents(), out) == MReindexed(old(Contents()), ids, n, now)
      {
        var one := Update(ids[n], None, Some(n), now);
        out := out + [one.row];
      }
      r := Rows(Sorted(out));
    }

    method Apply(op: Op) returns (r: Response)
      requires WellFormed(Contents())
      modifies this
      ensures (Contents(), r) == MExec(old(Contents()), op)
    {
      var listed := Sorted(Values(Dict(order, rows)));
      var refused := Checks(op, listed);
      if refused.Some? {
        return Failed(refused.value);
      }
      match op {
        case List => r := Rows(listed);
        case Create(_, _, _, _, _) => r := Create(Payload(op, listed));
        case Update(id, note, sortIndex, now) => r := Update(id, note, sortIndex, now);
        case Delete(id) => r := Delete(id);
        case Reorder(ids, now) =>
          ListedIdsInDict(Contents(), ids);
          r := Reorder(ids, now);
      }
    }
  }
}
