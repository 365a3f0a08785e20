/** packages/server/src/engine-core.ts in its own form: the row store and the write buffer as objects. */
module EngineCore {
  import opened Rows
  import opened JsMaps
  import opened WriteSets

  /** Storage behind a write buffer. `prefilter` is the store's own, looser test of a `list` filter. */
  class RowStore {
    var rows: Store
    const prefilter: (Where, Data) -> bool

    /** A filtered `list` may return more rows than match, never fewer. */
    ghost predicate Valid() {
      forall w, d :: Matches(w, d) ==> prefilter(w, d)
    }

    constructor (prefilter: (Where, Data) -> bool)
      requires forall w, d :: Matches(w, d) ==> prefilter(w, d)
      ensures Valid() && rows == map[]
    {
      this.rows := map[];
      this.prefilter := prefilter;
    }

    method Get(k: Key) returns (row: Option<Data>)
      ensures row == Find(Live(rows), k)
    {
      if k in rows && !rows[k].deleted {
        row := Some(rows[k].data);
      } else {
        row := None;
      }
    }

    method List(tbl: string, where: Where) returns (out: map<string, Data>)
      requires Valid()
      ensures forall id :: id in out ==> id in TableRows(Live(rows), tbl) && out[id] == TableRows(Live(rows), tbl)[id]
      ensures forall id :: id in TableRows(Live(rows), tbl) && Matches(where, TableRows(Live(rows), tbl)[id]) ==> id in out
    {
      out := map[];
      var rest := rows.Keys;
      while rest != {}
        invariant rest <= rows.Keys
        invariant forall id :: id in out ==> Key(tbl, id) in Live(rows) && out[id] == Live(rows)[Key(tbl, id)]
        invariant forall id :: Key(tbl, id) in Live(rows) && Matches(where, Live(rows)[Key(tbl, id)]) ==>
                    id in out || Key(tbl, id) in rest
      {
        var k :| k in rest;
        rest := rest - {k};
        if k.tbl == tbl && !rows[k].deleted && prefilter(where, rows[k].data) {
          out := out[k.id := rows[k].data];
        }
      }
    }

    method Put(k: Key, data: Data, version: nat)
      modifies this
      ensures rows == old(rows)[k := Stored(data, version, false)]
    {
      rows := rows[k := Stored(data, version, false)];
    }

    /** Tombstones a live row; the result counts the rows affected. */
    method Del(k: Key, version: nat) returns (affected: nat)
      modifies this
      ensures affected == if k in Live(old(rows)) then 1 else 0
      ensures rows == if k in Live(old(rows)) then old(rows)[k := Stored(old(rows)[k].data, version, true)] else old(rows)
    {
      if k !in rows || rows[k].deleted {
        return 0;
      }
      rows := rows[k := rows[k].(deleted := true, version := version)];
      affected := 1;
    }
  }

  datatype FlushResult = FlushResult(written: nat, changes: seq<Change>)

  class WriteSet {
    const rows: RowStore
    const options: Options
    var puts: JsMap<Key, Data>
    var dels: set<Key>
    var before: JsMap<Key, Option<Data>>

    ghost function Buf(): Buffer
      reads this
    {
      Buffer(puts, dels, before)
    }

    ghost predicate Valid()
      reads this, rows
    {
      rows.Valid() && BufferOk(options, Live(rows.rows), Buf())
    }

    constructor (rows: RowStore, options: Options)
      requires rows.Valid()
      ensures this.rows == rows && this.options == options
      ensures Valid() && Buf() == EMPTY_BUFFER
    {
      this.rows := rows;
      this.options := options;
      this.puts := Empty();
      this.dels := {};
      this.before := Empty();
    }

    method RememberBefore(k: Key)
      requires Valid()
      modifies this
      ensures Buf() == Remember(options, Live(rows.rows), old(Buf()), k)
    {
      if options.trackChanges && k !in before.vals {
        var row := rows.Get(k);
        before := Insert(before, k, row);
      }
    }

    method Get(k: Key) returns (r: Reply)
      requires Valid()
      modifies this
      ensures Valid() && (r, Buf()) == Perform(options, Live(rows.rows), Call.Get(k), old(Buf()))
    {
      PerformRefinesDirect(options, Live(rows.rows), Call.Get(k), Buf());
      if !ValidTarget(k) { return Threw(InvalidArgs); }
      if k in dels { return Row(None); }
      if k in puts.vals { return Row(Some(puts.vals[k])); }
      var stored := rows.Get(k);
      if options.trackChanges && k !in before.vals {
        before := Insert(before, k, stored);
      }
      return Row(stored);
    }

    method Put(k: Key, data: Data) returns (r: Reply)
      requires Valid()
      modifies this
      ensures Valid() && (r, Buf()) == Perform(options, Live(rows.rows), Call.Put(k, data), old(Buf()))
    {
      PerformRefinesDirect(options, Live(rows.rows), Call.Put(k, data), Buf());
      if !ValidTarget(k) { return Threw(InvalidArgs); }
      var stored := data;
      if !options.validateAtFlush {
        match ValidateRow(options.schema, k.tbl, data)
        case Raised(e) => return Threw(e);
        case Ok(parsed) => stored := parsed;
      }
      if options.schema.bytes(stored) > MAX_ROW_BYTES { return Threw(RowTooLarge); }
      RememberBefore(k);
      dels := dels - {k};
      puts := Insert(puts, k, stored);
      return Reply.Done;
    }

    method Del(k: Key) returns (r: Reply)
      requires Valid()
      modifies this
      ensures Valid() && (r, Buf()) == Perform(options, Live(rows.rows), Call.Del(k), old(Buf()))
    {
      PerformRefinesDirect(options, Live(rows.rows), Call.Del(k), Buf());
      if !ValidTarget(k) { return Threw(InvalidArgs); }
      RememberBefore(k);
      puts := Delete(puts, k);
      dels := dels + {k};
      return Reply.Done;
    }

    /** Stored rows that match, without the deleted ones, overlaid by the buffered rows that match. */
    method List(tbl: string, where: Where) returns (r: Reply)
      requires Valid()
      ensures r == Perform(options, Live(rows.rows), Call.List(tbl, where), Buf()).0
    {
      if !ValidTableName(tbl) || !ValidFilter(where) { return Threw(InvalidArgs); }
      var listed := rows.List(tbl, where);
      FilterLoose(listed, TableRows(Live(rows.rows), tbl), where);
      var merged := KeepMatching(listed, where);
      merged := HideDeleted(merged, dels, tbl);
      assert forall k :: k in puts.order <==> k in Elems(puts.order);
      OverlayAlongIsMerged(puts.order, puts.vals, tbl, where, merged);
      merged := OverlayPuts(merged, puts.order, puts.vals, tbl, where);
      return Reply.Table(merged);
    }

    static method KeepMatching(listed: map<string, Data>, where: Where) returns (merged: map<string, Data>)
      ensures merged == Filtered(listed, where)
    {
      merged := map[];
      var todo := listed.Keys;
      while todo != {}
        invariant todo <= listed.Keys && merged == Filtered(listed - todo, where)
      {
        var id :| id in todo;
        KeepOne(listed, todo, id, where);
        todo := todo - {id};
        if Matches(where, listed[id]) { merged := merged[id := listed[id]]; }
      }
      assert listed - todo == listed;
    }

    static method HideDeleted(from: map<string, Data>, dels: set<Key>, tbl: string) returns (merged: map<string, Data>)
      ensures merged == from - Ids(dels, tbl)
    {
      merged := from;
      var todo := dels;
      while todo != {}
        invariant todo <= dels
        invariant merged == from - Ids(dels - todo, tbl)
      {
        var k :| k in todo;
        todo := todo - {k};
        if k.tbl == tbl { merged := merged - {k.id}; }
        assert forall id :: id in Ids(dels - todo, tbl) <==> id in Ids(dels - todo - {k}, tbl) || Key(tbl, id) == k;
      }
      assert dels - todo == dels;
    }

    static method OverlayPuts(from: map<string, Data>, order: seq<Key>, vals: Table, tbl: string, where: Where)
      returns (merged: map<string, Data>)
      requires forall k :: k in order ==> k in vals
      ensures merged == OverlayAlong(order, vals, tbl, where, from)
    {
      merged := from;
      for i := 0 to |order|
        invariant merged == OverlayAlong(order[..i], vals, tbl, where, from)
      {
        var k := order[i];
        ghost var prefix := order[..i + 1];
        assert prefix[..|prefix| - 1] == order[..i];
        if k.tbl == tbl {
          if Matches(where, vals[k]) {
            merged := merged[k.id := vals[k]];
          } else {
            merged := merged - {k.id};
          }
        }
      }
      assert order[..|order|] == order;
    }

    method Tx(call: Call) returns (r: Reply)
      requires Valid()
      modifies this
      ensures Valid() && (r, Buf()) == Perform(options, Live(rows.rows), call, old(Buf()))
    {
      match call
      case Get(k) => r := Get(k);
      case List(tbl, where) => r := List(tbl, where);
      case Put(k, data) => r := Put(k, data);
      case Del(k) => r := Del(k);
    }

    /** Runs a mutator on this buffer: reads, end and rows in view are those of a direct run. */
    method Apply(p: Mutator, limit: nat) returns (end: End, history: History)
      requires Valid() && Buf() == EMPTY_BUFFER
      modifies this
      ensures Valid() && Execute(options, p, Live(rows.rows), EMPTY_BUFFER, [], limit) == Execution(end, history, Buf())
      ensures RunDirect(options, p, Live(rows.rows), [], limit) == DirectRun(end, history, View(Live(rows.rows), Buf()))
    {
      ghost var base := Live(rows.rows);
      BufferedRefinesDirect(options, p, base, EMPTY_BUFFER, [], limit);
      assert View(base, EMPTY_BUFFER) == base;
      end, history := Run(p, limit);
    }

    method Run(p: Mutator, limit: nat) returns (end: End, history: History)
      requires Valid()
      modifies this
      ensures Valid() && Execute(options, p, Live(rows.rows), old(Buf()), [], limit) == Execution(end, history, Buf())
    {
      ghost var base := Live(rows.rows);
      history := [];
      var left := limit;
      while true
        invariant Valid() && Live(rows.rows) == base
        invariant Execute(options, p, base, Buf(), history, left) == Execute(options, p, base, old(Buf()), [], limit)
        decreases left
      {
        match p(history)
        case Stop(e) =>
          end := e;
          return;
        case Ask(call) =>
          if left == 0 {
            end := Crashed;
            return;
          }
          var reply := Tx(call);
          history := history + [Exchange(call, reply)];
          left := left - 1;
      }
    }

    /**
     * Writes the buffer to the store at one version. An error can only come from deferred validation,
     * and leaves the store to the caller's transaction.
     */
    method Flush(version: nat) returns (r: Result<FlushResult>)
      requires Valid()
      modifies rows
      ensures rows.Valid()
      ensures match NetRows(options, puts.order, puts.vals)
              case Unfit(e) => r == Raised(e)
              case Net(net) =>
                var w := Written(old(rows.rows), net, dels);
                && rows.rows == Flushed(old(rows.rows), net, dels, version)
                && r == Ok(FlushResult(|w|, Changes(before.order, before.vals, net, w)))
    {
      assert forall k :: k in puts.order <==> k in Elems(puts.order);
      assert forall k :: k in before.order <==> k in Elems(before.order);
      ghost var was := rows.rows;
      var written := FlushPuts(version);
      if written.Unfit? { return Raised(written.error); }
      var net := written.rows;
      var after := FlushDels(net, was, version);
      var changes := ListChanges(before.order, before.vals, net, after);
      return Ok(FlushResult(|after|, changes));
    }

    method FlushPuts(version: nat) returns (r: Net)
      requires forall k :: k in puts.order ==> k in puts.vals
      modifies rows
      ensures r == NetRows(options, puts.order, puts.vals)
      ensures r.Net? ==> rows.rows == Flushed(old(rows.rows), r.rows, {}, version)
    {
      ghost var was := rows.rows;
      var net: Table := map[];
      for i := 0 to |puts.order|
        invariant NetRows(options, puts.order[..i], puts.vals) == Net(net)
        invariant rows.rows == Flushed(was, net, {}, version)
      {
        var k := puts.order[i];
        ghost var prefix := puts.order[..i + 1];
        assert prefix[..|prefix| - 1] == puts.order[..i];
        match Reparse(options, k, puts.vals[k])
        case Raised(e) =>
          NetRowsError(options, puts.order, puts.vals, i + 1);
          return Unfit(e);
        case Ok(stored) =>
          FlushOnePut(was, net, version, k, stored);
          rows.Put(k, stored, version);
          net := net[k := stored];
      }
      assert puts.order[..|puts.order|] == puts.order;
      return Net(net);
    }

    static method ListChanges(order: seq<Key>, before: map<Key, Option<Data>>, net: Table, after: set<Key>)
      returns (changes: seq<Change>)
      requires forall k :: k in order ==> k in before
      ensures changes == Changes(order, before, net, after)
    {
      changes := [];
      for i := 0 to |order|
        invariant changes == Changes(order[..i], before, net, after)
      {
        var k := order[i];
        ghost var prefix := order[..i + 1];
        assert prefix[..|prefix| - 1] == order[..i];
        if k in after {
          changes := changes + [Change(k, before[k], Find(net, k))];
        }
      }
      assert order[..|order|] == order;
    }

    method FlushDels(net: Table, ghost was: Store, version: nat) returns (after: set<Key>)
      requires rows.rows == Flushed(was, net, {}, version)
      requires net.Keys !! dels
      modifies rows
      ensures rows.rows == Flushed(was, net, dels, version)
      ensures after == Written(was, net, dels)
    {
      after := net.Keys;
      var todo := dels;
      while todo != {}
        invariant todo <= dels
        invariant rows.rows == Flushed(was, net, dels - todo, version)
        invariant after == Written(was, net, dels - todo)
      {
        var k :| k in todo;
        ghost var done := dels - todo;
        FlushOneDel(was, net, done, version, k);
        var affected := rows.Del(k, version);
        if affected > 0 { after := after + {k}; }
        todo := todo - {k};
        assert dels - todo == done + {k};
      }
      assert dels - todo == dels;
    }
  }
}
