/**
 * What a reload shows before it reaches the server (packages/client/src/client.ts): the queued mutations run
 * again, in order, over the restored rows, each laid over what the ones before it left.
 */
module StartupReplay {
  import opened Rows
  import opened JsMaps
  import opened WriteSets
  import opened SyncClients
  import opened LocalWrites

  lemma {:induction false} LocalPutsValid(schema: Schema, p: Mutator, tables: Tables, b: Buffer, h: History, limit: nat)
    requires JsMaps.Valid(b.puts)
    ensures JsMaps.Valid(LocalExecute(schema, p, tables, b, h, limit).buffer.puts)
    decreases limit
  {
    match p(h)
    case Stop(_) =>
    case Ask(call) =>
      var (answer, b') := LocalPerform(schema, tables, call, b);
      if limit > 0 && !answer.Missing? {
        LocalPutsValid(schema, p, tables, b', h + [Exchange(call, answer.reply)], limit - 1);
      }
  }

  /** One entry: its writes, if its local run returns; a run that throws or meets no collection shows nothing. */
  function Laid(schema: Schema, keyOf: KeyOf, tables: Tables, p: Mutator, limit: nat): Tables {
    var e := LocalExecute(schema, p, tables, EMPTY_BUFFER, [], limit);
    LocalPutsValid(schema, p, tables, EMPTY_BUFFER, [], limit);
    assert forall k :: k in e.buffer.puts.order ==> k in Elems(e.buffer.puts.order);
    if e.end == Ended(Returned) then FlushLocal(tables, keyOf, e.buffer) else tables
  }

  function LaidAll(schema: Schema, keyOf: KeyOf, tables: Tables, ps: seq<Mutator>, limit: nat): Tables {
    if ps == [] then tables
    else Laid(schema, keyOf, LaidAll(schema, keyOf, tables, ps[..|ps| - 1], limit), ps[|ps| - 1], limit)
  }

  /** The server's run of the same mutation, committed or rejected. */
  function Ran(o: Options, rows: Store, p: Mutator, version: nat, limit: nat): Store {
    var e := Execute(o, p, Live(rows), EMPTY_BUFFER, [], limit);
    if e.end == Returned then Flushed(rows, e.buffer.puts.vals, e.buffer.dels, version) else rows
  }

  function RanAll(o: Options, rows: Store, ps: seq<Mutator>, version: nat, limit: nat): Store {
    if ps == [] then rows
    else Ran(o, RanAll(o, rows, ps[..|ps| - 1], version, limit), ps[|ps| - 1], version + |ps| - 1, limit)
  }

  /** On these rows the run trips no server-only check, stays within the collections, and names its new rows by id. */
  ghost predicate Predictable(o: Options, keyOf: KeyOf, known: set<string>, rows: Table, p: Mutator, limit: nat) {
    var e := Execute(o, p, rows, EMPTY_BUFFER, [], limit);
    && (forall x :: x in e.history ==> TableOf(x.call) in known && !ServerOnly(o, x.call))
    && (forall k :: k in e.buffer.puts.vals ==> k.tbl in known && FilesUnder(keyOf, k, e.buffer.puts.vals[k]))
  }

  ghost predicate PredictableAll(o: Options, keyOf: KeyOf, known: set<string>, rows: Store, ps: seq<Mutator>, version: nat, limit: nat) {
    forall i :: 0 <= i < |ps| ==> PredictableAt(o, keyOf, known, rows, ps, i, version, limit)
  }

  ghost predicate PredictableAt(
      o: Options, keyOf: KeyOf, known: set<string>, rows: Store, ps: seq<Mutator>, i: nat, version: nat, limit: nat)
    requires i < |ps|
  {
    Predictable(o, keyOf, known, Live(RanAll(o, rows, ps[..i], version, limit)), ps[i], limit)
  }

  lemma LaidIsRan(o: Options, keyOf: KeyOf, tables: Tables, rows: Store, p: Mutator, version: nat, limit: nat)
    requires !o.validateAtFlush && Live(rows) == Join(tables)
    requires Predictable(o, keyOf, tables.Keys, Live(rows), p, limit)
    ensures Join(Laid(o.schema, keyOf, tables, p, limit)) == Live(Ran(o, rows, p, version, limit))
    ensures Laid(o.schema, keyOf, tables, p, limit).Keys == tables.Keys
  {
    hide Execute, LocalExecute, FlushLocal, Flushed, ServerOnly, FilesUnder;
    OptimisticRunAgrees(o, p, tables, EMPTY_BUFFER, EMPTY_BUFFER, [], limit);
    OverlayIsTheServersRows(o, p, tables, keyOf, rows, limit, version);
    LaidKeepsTables(o.schema, keyOf, tables, p, limit);
  }

  lemma LaidKeepsTables(schema: Schema, keyOf: KeyOf, tables: Tables, p: Mutator, limit: nat)
    ensures Laid(schema, keyOf, tables, p, limit).Keys == tables.Keys
  {
    var e := LocalExecute(schema, p, tables, EMPTY_BUFFER, [], limit);
    LocalPutsValid(schema, p, tables, EMPTY_BUFFER, [], limit);
    assert forall k :: k in e.buffer.puts.order ==> k in Elems(e.buffer.puts.order);
    PutsKeepTables(tables, keyOf, e.buffer.puts.order, e.buffer.puts.vals);
  }

  lemma {:induction false} PutsKeepTables(tables: Tables, keyOf: KeyOf, order: seq<Key>, vals: Table)
    requires forall k :: k in order ==> k in vals
    ensures FlushPuts(tables, keyOf, order, vals).Keys == tables.Keys
  {
    if order != [] {
      assert order == order[..|order| - 1] + [order[|order| - 1]];
      PutsKeepTables(tables, keyOf, order[..|order| - 1], vals);
    }
  }

  /**
   * From restored rows that are the server's, the collections show exactly the rows the server will have
   * once it has executed the queue on them, rejections included.
   */
  lemma {:induction false} ReplayShowsPending(
      o: Options, keyOf: KeyOf, tables: Tables, rows: Store, ps: seq<Mutator>, version: nat, limit: nat)
    requires !o.validateAtFlush && Live(rows) == Join(tables)
    requires PredictableAll(o, keyOf, tables.Keys, rows, ps, version, limit)
    ensures var shown := LaidAll(o.schema, keyOf, tables, ps, limit);
            Join(shown) == Live(RanAll(o, rows, ps, version, limit)) && shown.Keys == tables.Keys
  {
    hide Laid, Ran, Predictable, Join, Live;
    if ps != [] {
      var (init, last) := (ps[..|ps| - 1], ps[|ps| - 1]);
      forall i | 0 <= i < |init|
        ensures PredictableAt(o, keyOf, tables.Keys, rows, init, i, version, limit)
      {
        assert PredictableAt(o, keyOf, tables.Keys, rows, ps, i, version, limit);
        assert init[..i] == ps[..i];
      }
      ReplayShowsPending(o, keyOf, tables, rows, init, version, limit);
      assert PredictableAt(o, keyOf, tables.Keys, rows, ps, |init|, version, limit);
      LaidIsRan(o, keyOf, LaidAll(o.schema, keyOf, tables, init, limit), RanAll(o, rows, init, version, limit), last, version + |init|, limit);
    }
  }

  /** The loop of a hydration, over the entries it restored. */
  method ReplayEntries(appliers: Appliers, schema: Schema, ps: seq<Mutator>, limit: nat)
    modifies appliers
    ensures appliers.tables == LaidAll(schema, appliers.keyOf, old(appliers.tables), ps, limit)
  {
    hide Laid;
    for i := 0 to |ps|
      invariant appliers.tables == LaidAll(schema, appliers.keyOf, old(appliers.tables), ps[..i], limit)
    {
      assert ps[..i + 1][..i] == ps[..i];
      ReplayEntry(appliers, schema, ps[i], limit);
    }
    assert ps[..|ps|] == ps;
  }

  method ReplayEntry(appliers: Appliers, schema: Schema, p: Mutator, limit: nat)
    modifies appliers
    ensures appliers.tables == Laid(schema, appliers.keyOf, old(appliers.tables), p, limit)
  {
    hide LocalExecute, FlushLocal;
    var writes := new LocalWriteSet(schema, appliers);
    var end, history := writes.Run(p, limit);
    assert forall k :: k in writes.puts.order ==> k in Elems(writes.puts.order);
    if end == Ended(Returned) { appliers.FlushLocalWrites(writes); }
  }
}
