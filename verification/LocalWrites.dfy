/**
 * The client's own write buffer (packages/client/src/local-writes.ts) and what a flush of it does to the
 * collections; the server's buffer is what it must agree with.
 */
module LocalWrites {
  import opened Rows
  import opened JsMaps
  import opened WriteSets
  import EngineCore
  import opened SyncClients

  /** `Missing` aborts the speculative run: the call names a table no collection is attached for. */
  datatype Answer = Said(reply: Reply) | Missing(tbl: string)

  function TableOf(call: Call): string {
    if call.List? then call.tbl else call.key.tbl
  }

  function LocalGet(tables: Tables, b: Buffer, k: Key): Option<Data>
    requires k.tbl in tables
  {
    if k in b.dels then None
    else if k in b.puts.vals then Some(b.puts.vals[k])
    else Lookup(tables[k.tbl], k.id)
  }

  function LocalList(tables: Tables, b: Buffer, tbl: string, where: Where): map<string, Data>
    requires tbl in tables
  {
    Merged(Filtered(tables[tbl], where) - Ids(b.dels, tbl), TableRows(b.puts.vals, tbl), where)
  }

  /** One call on the client; neither names, ids nor row sizes are checked here. */
  function LocalPerform(schema: Schema, tables: Tables, call: Call, b: Buffer): (Answer, Buffer) {
    match call
    case Get(k) => (if k.tbl in tables then Said(Reply.Row(LocalGet(tables, b, k))) else Missing(k.tbl), b)
    case List(tbl, where) =>
      if tbl !in tables then (Missing(tbl), b)
      else if !ValidFilter(where) then (Said(Threw(InvalidArgs)), b)
      else (Said(Reply.Table(LocalList(tables, b, tbl, where))), b)
    case Put(k, data) =>
      (match ValidateRow(schema, k.tbl, data)
       case Raised(e) => (Said(Threw(e)), b)
       case Ok(stored) =>
         if k.tbl !in tables then (Missing(k.tbl), b)
         else (Said(Done), b.(dels := b.dels - {k}, puts := Insert(b.puts, k, stored))))
    case Del(k) =>
      if k.tbl !in tables then (Missing(k.tbl), b)
      else (Said(Done), b.(puts := Delete(b.puts, k), dels := b.dels + {k}))
  }

  datatype LocalEnd = Ended(end: End) | Aborted(tbl: string)

  datatype LocalExecution = LocalExecution(end: LocalEnd, history: History, buffer: Buffer)

  function LocalExecute(schema: Schema, p: Mutator, tables: Tables, b: Buffer, h: History, limit: nat): LocalExecution
    decreases limit
  {
    match p(h)
    case Stop(end) => LocalExecution(Ended(end), h, b)
    case Ask(call) =>
      if limit == 0 then LocalExecution(Ended(Crashed), h, b)
      else
        var (answer, b') := LocalPerform(schema, tables, call, b);
        if answer.Missing? then LocalExecution(Aborted(answer.tbl), h, b')
        else LocalExecute(schema, p, tables, b', h + [Exchange(call, answer.reply)], limit - 1)
  }

  // ----- the client's buffer against the server's -----

  predicate SameWrites(b: Buffer, b': Buffer) {
    b.puts == b'.puts && b.dels == b'.dels
  }

  /** What the server refuses and the client does not: names, ids and sizes. */
  predicate ServerOnly(o: Options, call: Call) {
    match call
    case Get(k) => !ValidTarget(k)
    case List(tbl, where) => !ValidTableName(tbl) && ValidFilter(where)
    case Put(k, data) =>
      var parsed := ValidateRow(o.schema, k.tbl, data);
      parsed.Ok? && (!ValidTarget(k) || o.schema.bytes(parsed.value) > MAX_ROW_BYTES)
    case Del(k) => !ValidTarget(k)
  }

  /** On an attached table a call is answered alike exactly when no server-only check refuses it. */
  lemma AnswersAgreeIff(o: Options, tables: Tables, call: Call, b: Buffer, b': Buffer)
    requires !o.validateAtFlush && TableOf(call) in tables && SameWrites(b, b')
    ensures LocalPerform(o.schema, tables, call, b).0 == Said(Perform(o, Join(tables), call, b').0) <==> !ServerOnly(o, call)
    ensures !ServerOnly(o, call) ==>
              SameWrites(LocalPerform(o.schema, tables, call, b).1, Perform(o, Join(tables), call, b').1)
    ensures ServerOnly(o, call) ==> Perform(o, Join(tables), call, b').0.Threw?
  {
    match call
    case Get(k) => JoinAt(tables, k);
    case List(tbl, where) => TableOfJoin(tables, tbl);
    case Put(k, data) =>
    case Del(k) =>
  }

  lemma TableOfJoin(tables: Tables, tbl: string)
    requires tbl in tables
    ensures TableRows(Join(tables), tbl) == tables[tbl]
  {
    forall id
      ensures Lookup(TableRows(Join(tables), tbl), id) == Lookup(tables[tbl], id)
    {
      JoinAt(tables, Key(tbl, id));
    }
    SameRows(TableRows(Join(tables), tbl), tables[tbl]);
  }

  ghost predicate Plain(o: Options, tables: Tables, h: History) {
    forall x :: x in h ==> TableOf(x.call) in tables && !ServerOnly(o, x.call)
  }

  /** Read back, what the client has put is the schema's parse of it, as at the server. */
  lemma LocalPutReadsBackTheParse(schema: Schema, tables: Tables, k: Key, data: Data, b: Buffer)
    requires LocalPerform(schema, tables, Call.Put(k, data), b).0 == Said(Done)
    ensures k.tbl in schema.tables && schema.tables[k.tbl](data).Some?
    ensures LocalPerform(schema, tables, Call.Get(k), LocalPerform(schema, tables, Call.Put(k, data), b).1).0
         == Said(Reply.Row(schema.tables[k.tbl](data)))
  {
  }

  /**
   * From the same rows, a program the server runs without tripping over a server-only check, on tables
   * attached at the client, reads the same at the client, ends the same and buffers the same writes.
   */
  lemma {:induction false} OptimisticRunAgrees(
      o: Options, p: Mutator, tables: Tables, b: Buffer, b': Buffer, h: History, limit: nat)
    requires !o.validateAtFlush && SameWrites(b, b')
    requires Plain(o, tables, Execute(o, p, Join(tables), b', h, limit).history)
    ensures var server := Execute(o, p, Join(tables), b', h, limit);
            var local := LocalExecute(o.schema, p, tables, b, h, limit);
            local.end == Ended(server.end) && local.history == server.history && SameWrites(local.buffer, server.buffer)
    decreases limit
  {
    hide Perform, LocalPerform, ServerOnly;
    match p(h)
    case Stop(end) =>
    case Ask(call) =>
      if limit > 0 {
        var (reply, next') := Perform(o, Join(tables), call, b');
        var more := h + [Exchange(call, reply)];
        HistoryGrows(o, p, Join(tables), next', more, limit - 1);
        assert more[|h|] in Execute(o, p, Join(tables), b', h, limit).history;
        AnswersAgreeIff(o, tables, call, b, b');
        OptimisticRunAgrees(o, p, tables, LocalPerform(o.schema, tables, call, b).1, next', more, limit - 1);
      }
  }

  // ----- flushing into the collections -----

  /** A collection files an inserted row under the key the row itself names. */
  type KeyOf = (string, Data) -> string

  function FlushPut(tables: Tables, keyOf: KeyOf, k: Key, data: Data): Tables {
    if k.tbl !in tables then tables
    else if k.id in tables[k.tbl] then tables[k.tbl := tables[k.tbl][k.id := data]]
    else tables[k.tbl := tables[k.tbl][keyOf(k.tbl, data) := data]]
  }

  function FlushPuts(tables: Tables, keyOf: KeyOf, order: seq<Key>, vals: Rows.Table): Tables
    requires forall k :: k in order ==> k in vals
  {
    if order == [] then tables
    else
      assert order == order[..|order| - 1] + [order[|order| - 1]];
      FlushPut(FlushPuts(tables, keyOf, order[..|order| - 1], vals), keyOf, order[|order| - 1], vals[order[|order| - 1]])
  }

  function FlushDels(tables: Tables, dels: set<Key>): Tables {
    map t | t in tables :: tables[t] - Ids(dels, t)
  }

  predicate FilesUnder(keyOf: KeyOf, k: Key, data: Data) {
    keyOf(k.tbl, data) == k.id
  }

  lemma FlushPutAt(tables: Tables, keyOf: KeyOf, k: Key, data: Data, x: Key)
    requires k.tbl in tables
    ensures var at := if k in Join(tables) then k else Key(k.tbl, keyOf(k.tbl, data));
            Find(Join(FlushPut(tables, keyOf, k, data)), x) == if x == at then Some(data) else Find(Join(tables), x)
  {
    JoinAt(tables, k);
    JoinAt(tables, x);
    JoinAt(FlushPut(tables, keyOf, k, data), x);
  }

  /** The rows of `order` in place, everything else as it was. */
  ghost predicate Placed(tables: Tables, keyOf: KeyOf, order: seq<Key>, vals: Rows.Table, x: Key)
    requires forall k :: k in order ==> k in vals
  {
    Find(Join(FlushPuts(tables, keyOf, order, vals)), x) == if x in order then Some(vals[x]) else Find(Join(tables), x)
  }

  lemma {:induction false} PutsLand(tables: Tables, keyOf: KeyOf, order: seq<Key>, vals: Rows.Table, x: Key)
    requires (forall k :: k in order ==> k in vals && k.tbl in tables) && Distinct(order)
    requires forall k :: k in order ==> k in Join(tables) || FilesUnder(keyOf, k, vals[k])
    ensures FlushPuts(tables, keyOf, order, vals).Keys == tables.Keys
    ensures Placed(tables, keyOf, order, vals, x)
  {
    if order != [] {
      var init, last := order[..|order| - 1], order[|order| - 1];
      assert order == init + [last] && last !in init;
      PutsLand(tables, keyOf, init, vals, x);
      PutsLand(tables, keyOf, init, vals, last);
      FlushPutAt(FlushPuts(tables, keyOf, init, vals), keyOf, last, vals[last], x);
    }
  }

  lemma {:induction false} FlushPutsKeys(tables: Tables, keyOf: KeyOf, order: seq<Key>, vals: Rows.Table)
    requires forall k :: k in order ==> k in vals
    ensures FlushPuts(tables, keyOf, order, vals).Keys == tables.Keys
  {
    if order != [] {
      assert order == order[..|order| - 1] + [order[|order| - 1]];
      FlushPutsKeys(tables, keyOf, order[..|order| - 1], vals);
    }
  }

  ghost predicate Misfiled(tables: Tables, keyOf: KeyOf, vals: Rows.Table, k: Key)
    requires k in vals
  {
    k !in Join(tables) && !FilesUnder(keyOf, k, vals[k])
  }

  /** No put of another row brings back a row that does not name its own id. */
  lemma LostStaysLost(tables: Tables, keyOf: KeyOf, k: Key, data: Data, lost: Key, row: Data)
    requires k.tbl in tables && k != lost
    requires !FilesUnder(keyOf, lost, row) && Find(Join(tables), lost) != Some(row)
    ensures Find(Join(FlushPut(tables, keyOf, k, data)), lost) != Some(row)
  {
    FlushPutAt(tables, keyOf, k, data, lost);
  }

  /** A new row that does not name its own id is lost under it. */
  lemma {:induction false} MisfiledIsLost(tables: Tables, keyOf: KeyOf, order: seq<Key>, vals: Rows.Table) returns (lost: Key)
    requires (forall k :: k in order ==> k in vals && k.tbl in tables) && Distinct(order)
    requires exists k :: k in order && Misfiled(tables, keyOf, vals, k)
    ensures lost in order && Misfiled(tables, keyOf, vals, lost)
    ensures Find(Join(FlushPuts(tables, keyOf, order, vals)), lost) != Some(vals[lost])
  {
    hide FlushPut, Join;
    var init, last := order[..|order| - 1], order[|order| - 1];
    assert order == init + [last] && last !in init;
    FlushPutsKeys(tables, keyOf, init, vals);
    var before := FlushPuts(tables, keyOf, init, vals);
    if exists k :: k in init && Misfiled(tables, keyOf, vals, k) {
      lost := MisfiledIsLost(tables, keyOf, init, vals);
      LostStaysLost(before, keyOf, last, vals[last], lost, vals[lost]);
    } else {
      lost := last;
      PutsLand(tables, keyOf, init, vals, last);
      FlushPutAt(before, keyOf, last, vals[last], last);
    }
  }

  lemma FlushDelsAt(tables: Tables, dels: set<Key>, x: Key)
    ensures Find(Join(FlushDels(tables, dels)), x) == if x in dels then None else Find(Join(tables), x)
  {
    JoinAt(tables, x);
    JoinAt(FlushDels(tables, dels), x);
    assert x.id in Ids(dels, x.tbl) <==> Key(x.tbl, x.id) in dels;
  }

  function FlushLocal(tables: Tables, keyOf: KeyOf, b: Buffer): Tables
    requires forall k :: k in b.puts.order ==> k in b.puts.vals
  {
    FlushDels(FlushPuts(tables, keyOf, b.puts.order, b.puts.vals), b.dels)
  }

  /** The collections show what the mutation saw exactly when every new row is filed under its own id. */
  lemma FlushShowsViewIff(tables: Tables, keyOf: KeyOf, b: Buffer)
    requires JsMaps.Valid(b.puts) && b.puts.vals.Keys !! b.dels
    requires forall k :: k in b.puts.order ==> k in b.puts.vals && k.tbl in tables
    ensures Join(FlushLocal(tables, keyOf, b)) == View(Join(tables), b) <==>
            forall k :: k in b.puts.vals && k !in Join(tables) ==> FilesUnder(keyOf, k, b.puts.vals[k])
  {
    var order, vals := b.puts.order, b.puts.vals;
    assert forall k :: k in order <==> k in Elems(order);
    var flushed := FlushPuts(tables, keyOf, order, vals);
    var result, view := Join(FlushLocal(tables, keyOf, b)), View(Join(tables), b);
    if exists k :: k in order && Misfiled(tables, keyOf, vals, k) {
      var lost := MisfiledIsLost(tables, keyOf, order, vals);
      FlushDelsAt(flushed, b.dels, lost);
      assert Find(view, lost) == Some(vals[lost]) && Find(result, lost) != Some(vals[lost]);
    } else {
      forall x
        ensures Find(result, x) == Find(view, x)
      {
        PutsLand(tables, keyOf, order, vals, x);
        FlushDelsAt(flushed, b.dels, x);
      }
      TablesEqual(result, view);
      assert forall k :: k in vals && k !in Join(tables) ==> !Misfiled(tables, keyOf, vals, k);
    }
  }

  /**
   * The whole of it: from the server's rows, a run without server-only refusals leaves the collections,
   * once flushed, with exactly the rows the server's flush of its own run leaves live.
   */
  lemma OverlayIsTheServersRows(
      o: Options, p: Mutator, tables: Tables, keyOf: KeyOf, rows: Store, limit: nat, version: nat)
    requires !o.validateAtFlush && Live(rows) == Join(tables)
    requires Plain(o, tables, Execute(o, p, Live(rows), EMPTY_BUFFER, [], limit).history)
    requires var b := Execute(o, p, Live(rows), EMPTY_BUFFER, [], limit).buffer;
             forall k :: k in b.puts.vals ==> k.tbl in tables && FilesUnder(keyOf, k, b.puts.vals[k])
    ensures var server := Execute(o, p, Live(rows), EMPTY_BUFFER, [], limit).buffer;
            var local := LocalExecute(o.schema, p, tables, EMPTY_BUFFER, [], limit).buffer;
            && (forall k :: k in local.puts.order ==> k in local.puts.vals)
            && Join(FlushLocal(tables, keyOf, local)) == Live(Flushed(rows, server.puts.vals, server.dels, version))
  {
    OptimisticRunAgrees(o, p, tables, EMPTY_BUFFER, EMPTY_BUFFER, [], limit);
    BufferedRefinesDirect(o, p, Live(rows), EMPTY_BUFFER, [], limit);
    var server := Execute(o, p, Live(rows), EMPTY_BUFFER, [], limit).buffer;
    var local := LocalExecute(o.schema, p, tables, EMPTY_BUFFER, [], limit).buffer;
    assert forall k :: k in local.puts.order <==> k in Elems(local.puts.order);
    FlushShowsViewIff(tables, keyOf, local);
    FlushedIsOverlay(rows, server.puts.vals, server.dels, version);
  }

  // ----- the objects -----

  /** The attached collections, each the synced rows of a table under whatever is pending. */
  class Appliers {
    const keyOf: KeyOf
    var tables: Tables

    constructor (keyOf: KeyOf, tables: Tables)
      ensures this.keyOf == keyOf && this.tables == tables
    {
      this.keyOf, this.tables := keyOf, tables;
    }

    /** Net writes as collection operations; a table detached meanwhile is left out. */
    method FlushLocalWrites(writes: LocalWriteSet)
      requires forall k :: k in writes.puts.order ==> k in writes.puts.vals
      modifies this
      ensures tables == FlushLocal(old(tables), keyOf, old(writes.Buf()))
    {
      for i := 0 to |writes.puts.order|
        invariant unchanged(writes)
        invariant tables == FlushPuts(old(tables), keyOf, writes.puts.order[..i], writes.puts.vals)
      {
        var k := writes.puts.order[i];
        assert writes.puts.order[..i + 1][..i] == writes.puts.order[..i];
        var data := writes.puts.vals[k];
        if k.tbl in tables {
          if k.id in tables[k.tbl] {
            tables := tables[k.tbl := tables[k.tbl][k.id := data]];
          } else {
            tables := tables[k.tbl := tables[k.tbl][keyOf(k.tbl, data) := data]];
          }
        }
      }
      assert writes.puts.order[..|writes.puts.order|] == writes.puts.order;
      ghost var put := tables;
      var todo := writes.dels;
      NothingDeleted(put);
      assert writes.dels - todo == {};
      while todo != {}
        invariant unchanged(writes) && todo <= writes.dels
        invariant tables == FlushDels(put, writes.dels - todo)
      {
        var k :| k in todo;
        ghost var done := writes.dels - todo;
        OneDeleted(put, done, k);
        todo := todo - {k};
        assert writes.dels - todo == done + {k};
        if k.tbl in tables && k.id in tables[k.tbl] {
          tables := tables[k.tbl := tables[k.tbl] - {k.id}];
        }
      }
      assert writes.dels - todo == writes.dels;
    }
  }

  lemma NothingDeleted(tables: Tables)
    ensures FlushDels(tables, {}) == tables
  {
    forall t | t in tables
      ensures FlushDels(tables, {})[t] == tables[t]
    {
      assert Ids({}, t) == {};
    }
  }

  lemma OneDeleted(tables: Tables, done: set<Key>, k: Key)
    ensures var was := FlushDels(tables, done);
            FlushDels(tables, done + {k}) ==
            if k.tbl in was && k.id in was[k.tbl] then was[k.tbl := was[k.tbl] - {k.id}] else was
  {
    var was := FlushDels(tables, done);
    var next := if k.tbl in was && k.id in was[k.tbl] then was[k.tbl := was[k.tbl] - {k.id}] else was;
    forall t | t in tables
      ensures FlushDels(tables, done + {k})[t] == next[t]
    {
      assert Ids(done + {k}, t) == Ids(done, t) + if k.tbl == t then {k.id} else {};
    }
  }

  class LocalWriteSet {
    const schema: Schema
    const appliers: Appliers
    var puts: JsMap<Key, Data>
    var dels: set<Key>

    ghost function Buf(): Buffer
      reads this
    {
      Buffer(puts, dels, Empty())
    }

    constructor (schema: Schema, appliers: Appliers)
      ensures this.schema == schema && this.appliers == appliers && Buf() == EMPTY_BUFFER
    {
      this.schema, this.appliers := schema, appliers;
      puts, dels := Empty(), {};
    }

    method Get(k: Key) returns (a: Answer)
      ensures a == LocalPerform(schema, appliers.tables, Call.Get(k), Buf()).0
    {
      if k.tbl !in appliers.tables { return Missing(k.tbl); }
      if k in dels { return Said(Reply.Row(None)); }
      if k in puts.vals { return Said(Reply.Row(Some(puts.vals[k]))); }
      var rows := appliers.tables[k.tbl];
      return Said(Reply.Row(if k.id in rows then Some(rows[k.id]) else None));
    }

    method List(tbl: string, where: Where) returns (a: Answer)
      requires JsMaps.Valid(puts)
      ensures a == LocalPerform(schema, appliers.tables, Call.List(tbl, where), Buf()).0
    {
      if tbl !in appliers.tables { return Missing(tbl); }
      if !ValidFilter(where) { return Said(Threw(InvalidArgs)); }
      var merged := EngineCore.WriteSet.KeepMatching(appliers.tables[tbl], where);
      merged := EngineCore.WriteSet.HideDeleted(merged, dels, tbl);
      assert forall k :: k in puts.order <==> k in Elems(puts.order);
      OverlayAlongIsMerged(puts.order, puts.vals, tbl, where, merged);
      merged := EngineCore.WriteSet.OverlayPuts(merged, puts.order, puts.vals, tbl, where);
      return Said(Reply.Table(merged));
    }

    /** The row is validated before the table is looked for, as a refusal there is permanent. */
    method Put(k: Key, data: Data) returns (a: Answer)
      modifies this
      ensures (a, Buf()) == LocalPerform(schema, appliers.tables, Call.Put(k, data), old(Buf()))
    {
      match ValidateRow(schema, k.tbl, data)
      case Raised(e) => return Said(Threw(e));
      case Ok(stored) =>
        if k.tbl !in appliers.tables { return Missing(k.tbl); }
        dels := dels - {k};
        puts := Insert(puts, k, stored);
        return Said(Done);
    }

    method Del(k: Key) returns (a: Answer)
      modifies this
      ensures (a, Buf()) == LocalPerform(schema, appliers.tables, Call.Del(k), old(Buf()))
    {
      if k.tbl !in appliers.tables { return Missing(k.tbl); }
      puts := Delete(puts, k);
      dels := dels + {k};
      return Said(Done);
    }

    method Tx(call: Call) returns (a: Answer)
      requires JsMaps.Valid(puts)
      modifies this
      ensures JsMaps.Valid(puts) && (a, Buf()) == LocalPerform(schema, appliers.tables, call, old(Buf()))
    {
      match call
      case Get(k) => a := Get(k);
      case List(tbl, where) => a := List(tbl, where);
      case Put(k, data) => a := Put(k, data);
      case Del(k) => a := Del(k);
    }

    /** The speculative run of a mutator. */
    method Run(p: Mutator, limit: nat) returns (end: LocalEnd, history: History)
      requires JsMaps.Valid(puts)
      modifies this
      ensures JsMaps.Valid(puts)
      ensures LocalExecute(schema, p, appliers.tables, old(Buf()), [], limit) == LocalExecution(end, history, Buf())
    {
      hide LocalPerform;
      history := [];
      var left := limit;
      while true
        invariant JsMaps.Valid(puts)
        invariant LocalExecute(schema, p, appliers.tables, Buf(), history, left)
               == LocalExecute(schema, p, appliers.tables, old(Buf()), [], limit)
        decreases left
      {
        match p(history)
        case Stop(e) =>
          end := Ended(e);
          return;
        case Ask(call) =>
          if left == 0 {
            end := Ended(Crashed);
            return;
          }
          var answer := Tx(call);
          if answer.Missing? {
            end := Aborted(answer.tbl);
            return;
          }
          history := history + [Exchange(call, answer.reply)];
          left := left - 1;
      }
    }
  }
}
