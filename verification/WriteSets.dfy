/**
 * The per-mutation write buffer of packages/server/src/engine-core.ts: reads see the buffer over
 * the stored rows, writes reach storage only at flush. The simple thing it must agree with is a
 * mutator that reads and writes the live rows directly.
 */
module WriteSets {
  import opened Rows
  import opened JsMaps

  const MAX_ROW_BYTES := 700_000
  const MAX_ID_LENGTH := 256
  const MAX_TABLE_NAME := 64

  datatype AppError = InvalidArgs | RowTooLarge | UnknownMutator | AppDefined(code: string)

  datatype Result<+T> = Ok(value: T) | Raised(error: AppError)

  type Where = map<string, Json>

  /** Table validators are arbitrary: parsing may fail, and may change the row (defaults applied). */
  datatype Schema = Schema(tables: map<string, Data -> Option<Data>>, bytes: Data -> nat)

  // ----- checks on arguments -----

  predicate NameStart(c: char) {
    'A' <= c <= 'Z' || 'a' <= c <= 'z' || c == '_'
  }

  predicate NameChar(c: char) {
    NameStart(c) || '0' <= c <= '9'
  }

  predicate ValidTableName(tbl: string) {
    && 0 < |tbl| <= MAX_TABLE_NAME
    && NameStart(tbl[0])
    && forall i :: 0 <= i < |tbl| ==> NameChar(tbl[i])
  }

  const NUL: char := '\0'

  predicate ValidTarget(k: Key) {
    ValidTableName(k.tbl) && 0 < |k.id| <= MAX_ID_LENGTH && NUL !in k.id
  }

  /** The buffers' string key. */
  function RowKey(k: Key): string {
    k.tbl + [NUL] + k.id
  }

  /** Two keys share a buffer slot only if a table name holds a NUL, which no checked target's does. */
  lemma RowKeyInjective(a: Key, b: Key)
    requires NUL !in a.tbl && NUL !in b.tbl
    requires RowKey(a) == RowKey(b)
    ensures a == b
  {
    var s := RowKey(a);
    assert s[|a.tbl|] == NUL && s[|b.tbl|] == NUL;
    assert forall i :: 0 <= i < |a.tbl| ==> s[i] == a.tbl[i] && s[i] != NUL;
    assert forall i :: 0 <= i < |b.tbl| ==> s[i] == b.tbl[i] && s[i] != NUL;
    assert a.tbl == s[..|a.tbl|] && a.id == s[|a.tbl| + 1..];
    assert b.tbl == s[..|b.tbl|] && b.id == s[|b.tbl| + 1..];
  }

  predicate IsScalar(j: Json) {
    !j.Arr? && !j.Obj?
  }

  predicate ValidFilter(where: Where) {
    forall f | f in where :: IsScalar(where[f])
  }

  predicate Matches(where: Where, data: Data) {
    forall f | f in where :: f in data.fields && data.fields[f] == where[f]
  }

  function ValidateRow(schema: Schema, tbl: string, data: Data): Result<Data> {
    if tbl !in schema.tables then Raised(InvalidArgs)
    else match schema.tables[tbl](data)
      case None => Raised(InvalidArgs)
      case Some(parsed) => Ok(parsed)
  }

  function CheckSize(schema: Schema, data: Data): Result<Data> {
    if schema.bytes(data) > MAX_ROW_BYTES then Raised(RowTooLarge) else Ok(data)
  }

  /** `validateAtFlush` defers row validation to the flush; `trackChanges` keeps before-images. */
  datatype Options = Options(schema: Schema, validateAtFlush: bool, trackChanges: bool)

  /** What `put` stores, or why it throws. */
  function Accept(o: Options, k: Key, data: Data): Result<Data> {
    if !ValidTarget(k) then Raised(InvalidArgs)
    else if o.validateAtFlush then CheckSize(o.schema, data)
    else match ValidateRow(o.schema, k.tbl, data)
      case Raised(e) => Raised(e)
      case Ok(parsed) => CheckSize(o.schema, parsed)
  }

  // ----- a mutator, as the sequence of calls it makes -----

  datatype Call = Get(key: Key) | List(tbl: string, where: Where) | Put(key: Key, data: Data) | Del(key: Key)

  /** `Threw` is an AppError the mutator may catch or let through. */
  datatype Reply = Row(row: Option<Data>) | Table(rows: map<string, Data>) | Done | Threw(error: AppError)

  datatype Exchange = Exchange(call: Call, reply: Reply)

  type History = seq<Exchange>

  /** `Crashed` is any other throw: a transient failure. */
  datatype End = Returned | Failed(error: AppError) | Crashed

  datatype Action = Ask(call: Call) | Stop(end: End)

  /** Any deterministic program over the tx: each call may depend on everything read so far. */
  type Mutator = History -> Action

  function Ids(keys: set<Key>, tbl: string): (ids: set<string>)
    ensures forall id :: id in ids <==> Key(tbl, id) in keys
  {
    var ids := set k | k in keys && k.tbl == tbl :: k.id;
    assert forall id :: Key(tbl, id) in keys ==> Key(tbl, id).id in ids;
    ids
  }

  function TableRows(t: Rows.Table, tbl: string): map<string, Data> {
    map id | id in Ids(t.Keys, tbl) :: t[Key(tbl, id)]
  }

  function Filtered(rows: map<string, Data>, where: Where): map<string, Data> {
    map id | id in rows && Matches(where, rows[id]) :: rows[id]
  }

  /** The reference: every call runs on the live rows at once. */
  function Direct(o: Options, call: Call, t: Rows.Table): (Reply, Rows.Table) {
    match call
    case Get(k) =>
      if !ValidTarget(k) then (Threw(InvalidArgs), t) else (Row(Find(t, k)), t)
    case List(tbl, where) =>
      if !ValidTableName(tbl) || !ValidFilter(where) then (Threw(InvalidArgs), t)
      else (Table(Filtered(TableRows(t, tbl), where)), t)
    case Put(k, data) =>
      (match Accept(o, k, data)
       case Raised(e) => (Threw(e), t)
       case Ok(stored) => (Done, t[k := stored]))
    case Del(k) =>
      if !ValidTarget(k) then (Threw(InvalidArgs), t) else (Done, t - {k})
  }

  datatype DirectRun = DirectRun(end: End, history: History, table: Rows.Table)

  function RunDirect(o: Options, p: Mutator, t: Rows.Table, h: History, limit: nat): DirectRun
    decreases limit
  {
    match p(h)
    case Stop(end) => DirectRun(end, h, t)
    case Ask(call) =>
      if limit == 0 then DirectRun(Crashed, h, t)
      else
        var (reply, t') := Direct(o, call, t);
        RunDirect(o, p, t', h + [Exchange(call, reply)], limit - 1)
  }

  // ----- the buffer -----

  datatype Buffer = Buffer(puts: JsMap<Key, Data>, dels: set<Key>, before: JsMap<Key, Option<Data>>)

  const EMPTY_BUFFER := Buffer(Empty(), {}, Empty())

  /** The rows as a mutation with this buffer sees them. */
  function View(base: Rows.Table, b: Buffer): Rows.Table {
    (base - b.dels) + b.puts.vals
  }

  ghost predicate BufferOk(o: Options, base: Rows.Table, b: Buffer) {
    && JsMaps.Valid(b.puts) && JsMaps.Valid(b.before)
    && b.puts.vals.Keys !! b.dels
    && (forall k :: k in b.before.vals ==> b.before.vals[k] == Find(base, k))
    && (o.trackChanges ==> b.puts.vals.Keys + b.dels <= b.before.vals.Keys)
  }

  function Remember(o: Options, base: Rows.Table, b: Buffer, k: Key): Buffer {
    if o.trackChanges && k !in b.before.vals then b.(before := Insert(b.before, k, Find(base, k))) else b
  }

  function BufferedGet(o: Options, base: Rows.Table, b: Buffer, k: Key): (Option<Data>, Buffer) {
    if k in b.dels then (None, b)
    else if k in b.puts.vals then (Some(b.puts.vals[k]), b)
    else (Find(base, k), Remember(o, base, b, k))
  }

  /** `list` filters stored rows and buffered rows separately. */
  function BufferedList(base: Rows.Table, b: Buffer, tbl: string, where: Where): map<string, Data> {
    var stored := Filtered(TableRows(base, tbl), where);
    var written := TableRows(b.puts.vals, tbl);
    Merged(stored - Ids(b.dels, tbl), written, where)
  }

  function BufferedPut(o: Options, base: Rows.Table, b: Buffer, k: Key, stored: Data): Buffer {
    var b' := Remember(o, base, b, k);
    b'.(dels := b'.dels - {k}, puts := Insert(b'.puts, k, stored))
  }

  function BufferedDel(o: Options, base: Rows.Table, b: Buffer, k: Key): Buffer {
    var b' := Remember(o, base, b, k);
    b'.(puts := Delete(b'.puts, k), dels := b'.dels + {k})
  }

  function Perform(o: Options, base: Rows.Table, call: Call, b: Buffer): (Reply, Buffer) {
    match call
    case Get(k) =>
      if !ValidTarget(k) then (Threw(InvalidArgs), b)
      else var (row, b') := BufferedGet(o, base, b, k); (Row(row), b')
    case List(tbl, where) =>
      if !ValidTableName(tbl) || !ValidFilter(where) then (Threw(InvalidArgs), b)
      else (Table(BufferedList(base, b, tbl, where)), b)
    case Put(k, data) =>
      (match Accept(o, k, data)
       case Raised(e) => (Threw(e), b)
       case Ok(stored) => (Done, BufferedPut(o, base, b, k, stored)))
    case Del(k) =>
      if !ValidTarget(k) then (Threw(InvalidArgs), b) else (Done, BufferedDel(o, base, b, k))
  }

  datatype Execution = Execution(end: End, history: History, buffer: Buffer)

  function Execute(o: Options, p: Mutator, base: Rows.Table, b: Buffer, h: History, limit: nat): Execution
    decreases limit
  {
    match p(h)
    case Stop(end) => Execution(end, h, b)
    case Ask(call) =>
      if limit == 0 then Execution(Crashed, h, b)
      else
        var (reply, b') := Perform(o, base, call, b);
        Execute(o, p, base, b', h + [Exchange(call, reply)], limit - 1)
  }

  lemma TableOfView(base: Rows.Table, b: Buffer, tbl: string)
    ensures TableRows(View(base, b), tbl) == (TableRows(base, tbl) - Ids(b.dels, tbl)) + TableRows(b.puts.vals, tbl)
  {
    var l, r := TableRows(View(base, b), tbl), (TableRows(base, tbl) - Ids(b.dels, tbl)) + TableRows(b.puts.vals, tbl);
    forall id
      ensures id in l <==> id in r
      ensures id in l && id in r ==> l[id] == r[id]
    {
      var k := Key(tbl, id);
      assert id in l <==> k in View(base, b);
    }
  }

  lemma FilterOverlay(s: map<string, Data>, deleted: set<string>, w: map<string, Data>, where: Where)
    ensures Filtered((s - deleted) + w, where) == (Filtered(s, where) - deleted - w.Keys) + Filtered(w, where)
  {
    var l, r := Filtered((s - deleted) + w, where), (Filtered(s, where) - deleted - w.Keys) + Filtered(w, where);
    forall id
      ensures id in l <==> id in r
      ensures id in l && id in r ==> l[id] == r[id]
    {
    }
  }

  /** Filtering stored and buffered rows separately is filtering the rows the mutation sees. */
  lemma ListAgrees(base: Rows.Table, b: Buffer, tbl: string, where: Where)
    ensures BufferedList(base, b, tbl, where) == Filtered(TableRows(View(base, b), tbl), where)
  {
    TableOfView(base, b, tbl);
    FilterOverlay(TableRows(base, tbl), Ids(b.dels, tbl), TableRows(b.puts.vals, tbl), where);
  }

  lemma RememberKeeps(o: Options, base: Rows.Table, b: Buffer, k: Key)
    requires BufferOk(o, base, b)
    ensures var b' := Remember(o, base, b, k);
            && BufferOk(o, base, b') && b'.puts == b.puts && b'.dels == b.dels
            && (o.trackChanges ==> k in b'.before.vals)
  {
  }

  lemma GetRefines(o: Options, base: Rows.Table, b: Buffer, k: Key)
    requires BufferOk(o, base, b)
    ensures var (row, b') := BufferedGet(o, base, b, k);
            row == Find(View(base, b), k) && View(base, b') == View(base, b) && BufferOk(o, base, b')
  {
    RememberKeeps(o, base, b, k);
  }

  lemma PutRefines(o: Options, base: Rows.Table, b: Buffer, k: Key, stored: Data)
    requires BufferOk(o, base, b)
    ensures View(base, BufferedPut(o, base, b, k, stored)) == View(base, b)[k := stored]
    ensures BufferOk(o, base, BufferedPut(o, base, b, k, stored))
  {
    RememberKeeps(o, base, b, k);
    var l, r := View(base, BufferedPut(o, base, b, k, stored)), View(base, b)[k := stored];
    assert forall x :: Find(l, x) == Find(r, x);
    TablesEqual(l, r);
  }

  lemma DelRefines(o: Options, base: Rows.Table, b: Buffer, k: Key)
    requires BufferOk(o, base, b)
    ensures View(base, BufferedDel(o, base, b, k)) == View(base, b) - {k}
    ensures BufferOk(o, base, BufferedDel(o, base, b, k))
  {
    RememberKeeps(o, base, b, k);
    var l, r := View(base, BufferedDel(o, base, b, k)), View(base, b) - {k};
    assert forall x :: Find(l, x) == Find(r, x);
    TablesEqual(l, r);
  }

  /** One call through the buffer answers as the direct call does, and leaves the same rows in view. */
  lemma PerformRefinesDirect(o: Options, base: Rows.Table, call: Call, b: Buffer)
    requires BufferOk(o, base, b)
    ensures Perform(o, base, call, b).0 == Direct(o, call, View(base, b)).0
    ensures View(base, Perform(o, base, call, b).1) == Direct(o, call, View(base, b)).1
    ensures BufferOk(o, base, Perform(o, base, call, b).1)
  {
    match call
    case Get(k) => GetRefines(o, base, b, k);
    case List(tbl, where) => ListAgrees(base, b, tbl, where);
    case Put(k, data) =>
      if Accept(o, k, data).Ok? { PutRefines(o, base, b, k, Accept(o, k, data).value); }
    case Del(k) => DelRefines(o, base, b, k);
  }

  /** Whole mutators: same reads, same end, and the rows in view are those a direct run leaves. */
  lemma {:induction false} BufferedRefinesDirect(
      o: Options, p: Mutator, base: Rows.Table, b: Buffer, h: History, limit: nat)
    requires BufferOk(o, base, b)
    ensures var e := Execute(o, p, base, b, h, limit);
            var d := RunDirect(o, p, View(base, b), h, limit);
            && e.end == d.end && e.history == d.history
            && View(base, e.buffer) == d.table
            && BufferOk(o, base, e.buffer)
    decreases limit
  {
    match p(h)
    case Stop(end) =>
    case Ask(call) =>
      if limit > 0 {
        PerformRefinesDirect(o, base, call, b);
        var (reply, b') := Perform(o, base, call, b);
        BufferedRefinesDirect(o, p, base, b', h + [Exchange(call, reply)], limit - 1);
      }
  }

  /** The call budget only decides where a run that does not end is cut off. */
  lemma {:induction false} LargerBudgetSameRun(
      o: Options, p: Mutator, base: Rows.Table, b: Buffer, h: History, limit: nat, more: nat)
    requires limit <= more
    requires Execute(o, p, base, b, h, limit).end != Crashed
    ensures Execute(o, p, base, b, h, more) == Execute(o, p, base, b, h, limit)
    decreases limit
  {
    match p(h)
    case Stop(end) =>
    case Ask(call) =>
      if limit > 0 {
        var (reply, b') := Perform(o, base, call, b);
        LargerBudgetSameRun(o, p, base, b', h + [Exchange(call, reply)], limit - 1, more - 1);
      }
  }

  // ----- the pieces `list` merges -----

  lemma FilterLoose(listed: map<string, Data>, rows: map<string, Data>, where: Where)
    requires forall id :: id in listed ==> id in rows && listed[id] == rows[id]
    requires forall id :: id in rows && Matches(where, rows[id]) ==> id in listed
    ensures Filtered(listed, where) == Filtered(rows, where)
  {
    assert forall id :: id in Filtered(rows, where) <==> id in Filtered(listed, where);
  }

  function Merged(from: map<string, Data>, written: map<string, Data>, where: Where): map<string, Data> {
    (from - written.Keys) + Filtered(written, where)
  }

  /** The rows of `order`, one after the other: a row that stopped matching hides the stored one. */
  function OverlayAlong(order: seq<Key>, vals: Rows.Table, tbl: string, where: Where, from: map<string, Data>): map<string, Data>
    requires forall k :: k in order ==> k in vals
  {
    if order == [] then from
    else
      var init, k := order[..|order| - 1], order[|order| - 1];
      assert order == init + [k];
      var merged := OverlayAlong(init, vals, tbl, where, from);
      if k.tbl != tbl then merged
      else if Matches(where, vals[k]) then merged[k.id := vals[k]] else merged - {k.id}
  }

  lemma {:induction false} OverlayAlongPointwise(
      order: seq<Key>, vals: Rows.Table, tbl: string, where: Where, from: map<string, Data>, id: string)
    requires forall k :: k in order ==> k in vals
    ensures var m := OverlayAlong(order, vals, tbl, where, from);
            if Key(tbl, id) in order then
              (id in m <==> Matches(where, vals[Key(tbl, id)])) && (id in m ==> m[id] == vals[Key(tbl, id)])
            else
              (id in m <==> id in from) && (id in m ==> m[id] == from[id])
  {
    if order != [] {
      assert order == order[..|order| - 1] + [order[|order| - 1]];
      OverlayAlongPointwise(order[..|order| - 1], vals, tbl, where, from, id);
    }
  }

  lemma MergedPointwise(t: Rows.Table, tbl: string, where: Where, from: map<string, Data>, id: string)
    ensures var m := Merged(from, TableRows(t, tbl), where);
            if Key(tbl, id) in t then
              (id in m <==> Matches(where, t[Key(tbl, id)])) && (id in m ==> m[id] == t[Key(tbl, id)])
            else
              (id in m <==> id in from) && (id in m ==> m[id] == from[id])
  {
    assert id in TableRows(t, tbl) <==> Key(tbl, id) in t;
  }

  function Lookup(m: map<string, Data>, id: string): Option<Data> {
    if id in m then Some(m[id]) else None
  }

  lemma SameRows(l: map<string, Data>, r: map<string, Data>)
    requires forall id :: Lookup(l, id) == Lookup(r, id)
    ensures l == r
  {
    forall id
      ensures id in l <==> id in r
      ensures id in l ==> l[id] == r[id]
    {
      assert Lookup(l, id) == Lookup(r, id);
    }
  }

  lemma KeepOne(listed: map<string, Data>, todo: set<string>, id: string, where: Where)
    requires id in todo && id in listed
    ensures var kept := Filtered(listed - todo, where);
            Filtered(listed - (todo - {id}), where) == if Matches(where, listed[id]) then kept[id := listed[id]] else kept
  {
    var kept := Filtered(listed - todo, where);
    SameRows(Filtered(listed - (todo - {id}), where), if Matches(where, listed[id]) then kept[id := listed[id]] else kept);
  }

  lemma OverlayAt(order: seq<Key>, vals: Rows.Table, tbl: string, where: Where, from: map<string, Data>, id: string)
    requires forall k :: k in order <==> k in vals
    ensures Lookup(OverlayAlong(order, vals, tbl, where, from), id) == Lookup(Merged(from, TableRows(vals, tbl), where), id)
  {
    OverlayAlongPointwise(order, vals, tbl, where, from, id);
    MergedPointwise(vals, tbl, where, from, id);
  }

  lemma OverlayAlongIsMerged(order: seq<Key>, vals: Rows.Table, tbl: string, where: Where, from: map<string, Data>)
    requires forall k :: k in order <==> k in vals
    ensures OverlayAlong(order, vals, tbl, where, from) == Merged(from, TableRows(vals, tbl), where)
  {
    var l, r := OverlayAlong(order, vals, tbl, where, from), Merged(from, TableRows(vals, tbl), where);
    forall id
      ensures Lookup(l, id) == Lookup(r, id)
    {
      OverlayAt(order, vals, tbl, where, from, id);
    }
    SameRows(l, r);
  }

  // ----- flush -----

  /** What the flush stores for one buffered row. */
  function Reparse(o: Options, k: Key, data: Data): Result<Data> {
    if !o.validateAtFlush then Ok(data)
    else match ValidateRow(o.schema, k.tbl, data)
      case Raised(e) => Raised(e)
      case Ok(parsed) => CheckSize(o.schema, parsed)
  }

  datatype Net = Net(rows: Rows.Table) | Unfit(error: AppError)

  /** The rows the flush writes, or the first error met in buffer order. */
  function NetRows(o: Options, order: seq<Key>, vals: Rows.Table): (r: Net)
    requires forall k :: k in order ==> k in vals
    ensures r.Net? ==> r.rows.Keys == Elems(order)
    ensures !o.validateAtFlush ==> r.Net?
  {
    if order == [] then Net(map[])
    else
      var init, k := order[..|order| - 1], order[|order| - 1];
      assert order == init + [k];
      match NetRows(o, init, vals)
      case Unfit(e) => Unfit(e)
      case Net(net) =>
        match Reparse(o, k, vals[k])
        case Raised(e) => Unfit(e)
        case Ok(stored) => Net(net[k := stored])
  }

  lemma {:induction false} NetRowsUnchanged(o: Options, order: seq<Key>, vals: Rows.Table)
    requires forall k :: k in order ==> k in vals
    requires !o.validateAtFlush
    ensures NetRows(o, order, vals).rows == map k | k in order :: vals[k]
  {
    if order != [] {
      assert order == order[..|order| - 1] + [order[|order| - 1]];
      NetRowsUnchanged(o, order[..|order| - 1], vals);
    }
  }

  /** An error in a prefix of the buffer is the error of the whole flush. */
  lemma {:induction false} NetRowsError(o: Options, order: seq<Key>, vals: Rows.Table, n: nat)
    requires forall k :: k in order ==> k in vals
    requires n <= |order| && NetRows(o, order[..n], vals).Unfit?
    ensures NetRows(o, order, vals) == NetRows(o, order[..n], vals)
    decreases |order|
  {
    if n == |order| {
      assert order[..n] == order;
    } else {
      var init := order[..|order| - 1];
      assert init[..n] == order[..n];
      assert order == init + [order[|order| - 1]];
      NetRowsError(o, init, vals, n);
    }
  }

  /** Storage after a flush stamped with `version`; deleting an absent row leaves no tombstone. */
  function Flushed(rows: Store, puts: Rows.Table, dels: set<Key>, version: nat): Store {
    map k | k in rows.Keys + puts.Keys ::
      if k in puts then Stored(puts[k], version, false)
      else if k in dels && !rows[k].deleted then Stored(rows[k].data, version, true)
      else rows[k]
  }

  function Written(rows: Store, puts: Rows.Table, dels: set<Key>): set<Key> {
    puts.Keys + dels * Live(rows).Keys
  }

  lemma FlushedIsOverlay(rows: Store, puts: Rows.Table, dels: set<Key>, version: nat)
    requires puts.Keys !! dels
    ensures Live(Flushed(rows, puts, dels, version)) == (Live(rows) - dels) + puts
  {
    TablesEqual(Live(Flushed(rows, puts, dels, version)), (Live(rows) - dels) + puts);
  }

  lemma NothingWritten(rows: Store, puts: Rows.Table, dels: set<Key>, version: nat)
    requires Written(rows, puts, dels) == {}
    ensures Flushed(rows, puts, dels, version) == rows
  {
    assert puts.Keys <= Written(rows, puts, dels);
    assert forall k :: k in rows && k in dels && !rows[k].deleted ==> k in Written(rows, puts, dels);
  }

  lemma FlushOnePut(rows: Store, puts: Rows.Table, version: nat, k: Key, data: Data)
    ensures Flushed(rows, puts, {}, version)[k := Stored(data, version, false)] == Flushed(rows, puts[k := data], {}, version)
  {
  }

  lemma FlushOneDel(rows: Store, puts: Rows.Table, done: set<Key>, version: nat, k: Key)
    requires k !in puts && k !in done
    ensures var f := Flushed(rows, puts, done, version);
            && (k in Live(f) <==> k in Live(rows))
            && Flushed(rows, puts, done + {k}, version) ==
               (if k in Live(rows) then f[k := Stored(f[k].data, version, true)] else f)
            && Written(rows, puts, done + {k}) == Written(rows, puts, done) + if k in Live(rows) then {k} else {}
  {
  }

  // ----- the change list -----

  datatype Change = Change(key: Key, before: Option<Data>, after: Option<Data>)

  /** One entry per written row among those with a before-image, in the order these were taken. */
  function Changes(order: seq<Key>, before: map<Key, Option<Data>>, net: Rows.Table, written: set<Key>): (cs: seq<Change>)
    requires forall k :: k in order ==> k in before
    ensures forall c :: c in cs <==>
              c.key in order && c.key in written && c == Change(c.key, before[c.key], Find(net, c.key))
  {
    if order == [] then []
    else
      var init, k := order[..|order| - 1], order[|order| - 1];
      assert order == init + [k];
      Changes(init, before, net, written) + if k in written then [Change(k, before[k], Find(net, k))] else []
  }

  function ReplayChanges(t: Rows.Table, cs: seq<Change>): Rows.Table {
    if cs == [] then t
    else
      var c := cs[|cs| - 1];
      var t' := ReplayChanges(t, cs[..|cs| - 1]);
      match c.after
      case None => t' - {c.key}
      case Some(d) => t'[c.key := d]
  }

  lemma {:induction false} ChangesCount(
      order: seq<Key>, before: map<Key, Option<Data>>, net: Rows.Table, written: set<Key>)
    requires forall k :: k in order ==> k in before
    ensures |Changes(order, before, net, written)| == Kept(order, written)
  {
    if order != [] {
      assert order == order[..|order| - 1] + [order[|order| - 1]];
      ChangesCount(order[..|order| - 1], before, net, written);
    }
  }

  lemma ChangesSnoc(init: seq<Key>, last: Key, before: map<Key, Option<Data>>, net: Rows.Table, written: set<Key>)
    requires forall x :: x in init + [last] ==> x in before
    ensures last in before && forall x :: x in init ==> x in before
    ensures Changes(init + [last], before, net, written) ==
            Changes(init, before, net, written) + if last in written then [Change(last, before[last], Find(net, last))] else []
  {
    var order := init + [last];
    assert order[..|order| - 1] == init && order[|order| - 1] == last && last in order;
    assert forall x :: x in init ==> x in order;
  }

  lemma ReplayAppendAt(t: Rows.Table, cs: seq<Change>, c: Change, k: Key)
    ensures Find(ReplayChanges(t, cs + [c]), k) == if k == c.key then c.after else Find(ReplayChanges(t, cs), k)
  {
    hide ReplayChanges;
    ReplayAppend(t, cs, c);
  }

  lemma ReplayNone(before: map<Key, Option<Data>>, net: Rows.Table, written: set<Key>, t: Rows.Table)
    ensures ReplayChanges(t, Changes([], before, net, written)) == t
  {
  }

  lemma {:induction false} ReplayPointwise(
      order: seq<Key>, before: map<Key, Option<Data>>, net: Rows.Table, written: set<Key>, t: Rows.Table, k: Key)
    requires forall x :: x in order ==> x in before
    ensures Find(ReplayChanges(t, Changes(order, before, net, written)), k) ==
            if k in order && k in written then Find(net, k) else Find(t, k)
  {
    hide Changes, ReplayChanges, Find;
    if order == [] {
      ReplayNone(before, net, written, t);
    } else {
      var init, last := order[..|order| - 1], order[|order| - 1];
      assert order == init + [last];
      ReplayPointwise(init, before, net, written, t, k);
      ChangesSnoc(init, last, before, net, written);
      var cs := Changes(init, before, net, written);
      if last in written {
        ReplayAppendAt(t, cs, Change(last, before[last], Find(net, last)), k);
      } else {
        assert cs + [] == cs;
      }
    }
  }

  lemma ReplayAppend(t: Rows.Table, cs: seq<Change>, c: Change)
    ensures ReplayChanges(t, cs + [c]) ==
            match c.after
            case None => ReplayChanges(t, cs) - {c.key}
            case Some(d) => ReplayChanges(t, cs)[c.key := d]
  {
    assert (cs + [c])[..|cs|] == cs;
  }

  /**
   * With tracking on, the list has one entry per written row, holding the stored row before the
   * mutation and the row left by it, never absent on both sides; replaying it on the old rows gives
   * the new rows.
   */
  lemma ChangesExact(o: Options, rows: Store, b: Buffer, net: Rows.Table, version: nat)
    requires o.trackChanges && BufferOk(o, Live(rows), b)
    requires net.Keys == b.puts.vals.Keys
    ensures var w, after := Written(rows, net, b.dels), Live(Flushed(rows, net, b.dels, version));
            var cs := Changes(b.before.order, b.before.vals, net, w);
            && |cs| == |w|
            && (forall c :: c in cs <==> c.key in w && c == Change(c.key, Find(Live(rows), c.key), Find(after, c.key)))
            && (forall c :: c in cs ==> !(c.before.None? && c.after.None?))
            && ReplayChanges(Live(rows), cs) == after
  {
    var w, after := Written(rows, net, b.dels), Live(Flushed(rows, net, b.dels, version));
    assert |Changes(b.before.order, b.before.vals, net, w)| == |w| by {
      ChangesCount(b.before.order, b.before.vals, net, w);
      KeptCount(b.before.order, w);
      assert w * Elems(b.before.order) == w by { assert w <= b.before.vals.Keys; }
    }
    WrittenIsTheDifference(rows, net, b.dels, version);
    ChangesPointwise(b.before.order, b.before.vals, net, w, Live(rows), after);
    ChangesReplay(o, rows, b, net, version);
  }

  lemma ChangesPointwise(
      order: seq<Key>, before: map<Key, Option<Data>>, net: Rows.Table, written: set<Key>, was: Rows.Table, after: Rows.Table)
    requires forall k :: k in order ==> k in before && before[k] == Find(was, k)
    requires forall k :: k in written ==> k in order && Find(after, k) == Find(net, k)
    requires forall k :: k in written ==> Find(net, k).Some? || Find(was, k).Some?
    ensures var cs := Changes(order, before, net, written);
            && (forall c :: c in cs <==> c.key in written && c == Change(c.key, Find(was, c.key), Find(after, c.key)))
            && (forall c :: c in cs ==> !(c.before.None? && c.after.None?))
  {
  }

  lemma ChangesReplay(o: Options, rows: Store, b: Buffer, net: Rows.Table, version: nat)
    requires o.trackChanges && BufferOk(o, Live(rows), b)
    requires net.Keys == b.puts.vals.Keys
    ensures var w := Written(rows, net, b.dels);
            ReplayChanges(Live(rows), Changes(b.before.order, b.before.vals, net, w)) ==
            Live(Flushed(rows, net, b.dels, version))
  {
    var was, w, after := Live(rows), Written(rows, net, b.dels), Live(Flushed(rows, net, b.dels, version));
    var cs := Changes(b.before.order, b.before.vals, net, w);
    WrittenIsTheDifference(rows, net, b.dels, version);
    forall k
      ensures Find(ReplayChanges(was, cs), k) == Find(after, k)
    {
      ReplayPointwise(b.before.order, b.before.vals, net, w, was, k);
      assert k in w ==> k in b.before.order;
    }
    TablesEqual(ReplayChanges(was, cs), after);
  }

  lemma WrittenIsTheDifference(rows: Store, net: Rows.Table, dels: set<Key>, version: nat)
    requires net.Keys !! dels
    ensures var w, after := Written(rows, net, dels), Live(Flushed(rows, net, dels, version));
            && (forall k :: k in w ==> Find(after, k) == Find(net, k))
            && (forall k :: k !in w ==> Find(after, k) == Find(Live(rows), k))
            && (forall k :: k in w ==> Find(net, k).Some? || Find(Live(rows), k).Some?)
  {
    FlushedIsOverlay(rows, net, dels, version);
  }

  /** The rows a run named successfully in `get`, `put` or `del`, in call order. */
  function Touched(h: History): seq<Key> {
    if h == [] then []
    else
      var last := h[|h| - 1];
      Touched(h[..|h| - 1]) +
      if last.call.List? || last.reply.Threw? then [] else [last.call.key]
  }

  lemma TouchedAppend(h: History, x: Exchange)
    ensures Touched(h + [x]) == Touched(h) + if x.call.List? || x.reply.Threw? then [] else [x.call.key]
  {
    assert (h + [x])[..|h|] == h;
  }

  lemma FirstsAppend(s: seq<Key>, k: Key)
    ensures Firsts(s + [k]) == if k in s then Firsts(s) else Firsts(s) + [k]
  {
    assert (s + [k])[..|s|] == s;
  }

  ghost predicate InTouchOrder(o: Options, b: Buffer, h: History) {
    o.trackChanges ==> b.before.order == Firsts(Touched(h))
  }

  /** A successful point call takes a before-image unless the row has one. */
  lemma PerformRemembers(o: Options, base: Rows.Table, call: Call, b: Buffer)
    requires BufferOk(o, base, b) && o.trackChanges
    ensures var (reply, b') := Perform(o, base, call, b);
            b'.before.order == if call.List? || reply.Threw? || call.key in b.before.order then b.before.order else b.before.order + [call.key]
  {
    assert !call.List? ==> (call.key in b.before.vals <==> call.key in b.before.order);
  }

  lemma PerformTouches(o: Options, base: Rows.Table, call: Call, b: Buffer, h: History)
    requires BufferOk(o, base, b) && InTouchOrder(o, b, h)
    ensures var (reply, b') := Perform(o, base, call, b);
            InTouchOrder(o, b', h + [Exchange(call, reply)]) && BufferOk(o, base, b')
  {
    var (reply, b') := Perform(o, base, call, b);
    PerformRefinesDirect(o, base, call, b);
    TouchedAppend(h, Exchange(call, reply));
    if o.trackChanges {
      PerformRemembers(o, base, call, b);
      if call.List? || reply.Threw? {
        assert Touched(h) + [] == Touched(h);
      } else {
        FirstsAppend(Touched(h), call.key);
        assert call.key in b.before.order <==> call.key in Touched(h);
      }
    }
  }

  /** Before-images are kept in the order rows are first named, whichever call names them. */
  lemma {:induction false} ChangesInTouchOrder(
      o: Options, p: Mutator, base: Rows.Table, b: Buffer, h: History, limit: nat)
    requires BufferOk(o, base, b) && InTouchOrder(o, b, h)
    ensures var e := Execute(o, p, base, b, h, limit); InTouchOrder(o, e.buffer, e.history)
    decreases limit
  {
    hide Perform, BufferOk, InTouchOrder;
    match p(h)
    case Stop(end) =>
    case Ask(call) =>
      if limit > 0 {
        PerformTouches(o, base, call, b, h);
        var (reply, b') := Perform(o, base, call, b);
        ChangesInTouchOrder(o, p, base, b', h + [Exchange(call, reply)], limit - 1);
      }
  }

  // ----- what a put stores -----

  /** A put is taken exactly if its target is valid, its row parses and the parse is not too large. */
  lemma PutDoneIff(o: Options, base: Rows.Table, k: Key, data: Data, b: Buffer)
    requires !o.validateAtFlush
    ensures var parses := k.tbl in o.schema.tables && o.schema.tables[k.tbl](data).Some?;
            var reply := Perform(o, base, Call.Put(k, data), b).0;
            && (reply == Done <==> ValidTarget(k) && parses && o.schema.bytes(o.schema.tables[k.tbl](data).value) <= 700_000)
            && (reply == Threw(RowTooLarge) <==> ValidTarget(k) && parses && o.schema.bytes(o.schema.tables[k.tbl](data).value) > 700_000)
            && (reply == Threw(InvalidArgs) <==> !ValidTarget(k) || !parses)
  {
  }

  /** What is read back after a put is the schema's parse of the row, not the row handed in. */
  lemma PutReadsBackTheParse(o: Options, base: Rows.Table, k: Key, data: Data, b: Buffer)
    requires !o.validateAtFlush && Perform(o, base, Call.Put(k, data), b).0 == Done
    ensures k.tbl in o.schema.tables && o.schema.tables[k.tbl](data).Some?
    ensures Perform(o, base, Call.Get(k), Perform(o, base, Call.Put(k, data), b).1).0 == Row(o.schema.tables[k.tbl](data))
    ensures Direct(o, Call.Get(k), Direct(o, Call.Put(k, data), base).1).0 == Row(o.schema.tables[k.tbl](data))
  {
  }

  predicate Names(call: Call, k: Key) {
    (call.Put? || call.Del?) && call.key == k
  }

  lemma {:induction false} UnnamedStays(o: Options, p: Mutator, base: Rows.Table, b: Buffer, h: History, limit: nat, k: Key)
    requires k in b.puts.vals
    requires var e := Execute(o, p, base, b, h, limit); forall i :: |h| <= i < |e.history| ==> !Names(e.history[i].call, k)
    ensures h <= Execute(o, p, base, b, h, limit).history
    ensures var e := Execute(o, p, base, b, h, limit); k in e.buffer.puts.vals && e.buffer.puts.vals[k] == b.puts.vals[k]
    decreases limit
  {
    match p(h)
    case Stop(_) =>
    case Ask(call) =>
      if limit > 0 {
        var (reply, b') := Perform(o, base, call, b);
        var more := h + [Exchange(call, reply)];
        HistoryGrows(o, p, base, b', more, limit - 1);
        assert more <= Execute(o, p, base, b, h, limit).history;
        assert Execute(o, p, base, b, h, limit).history[|h|].call == call;
        UnnamedStays(o, p, base, b', more, limit - 1, k);
      }
  }

  lemma {:induction false} HistoryGrows(o: Options, p: Mutator, base: Rows.Table, b: Buffer, h: History, limit: nat)
    ensures h <= Execute(o, p, base, b, h, limit).history
    decreases limit
  {
    match p(h)
    case Stop(_) =>
    case Ask(call) =>
      if limit > 0 {
        var (reply, b') := Perform(o, base, call, b);
        HistoryGrows(o, p, base, b', h + [Exchange(call, reply)], limit - 1);
      }
  }

  /** The live row after the flush is the parse of the last put of it, whatever else the mutator goes on to do. */
  lemma LastPutIsStored(
      o: Options, p: Mutator, rows: Store, b: Buffer, h: History, limit: nat, k: Key, data: Data, version: nat)
    requires !o.validateAtFlush && BufferOk(o, Live(rows), b) && Perform(o, Live(rows), Call.Put(k, data), b).0 == Done
    requires var e := Execute(o, p, Live(rows), Perform(o, Live(rows), Call.Put(k, data), b).1, h, limit);
             forall i :: |h| <= i < |e.history| ==> !Names(e.history[i].call, k)
    ensures var e := Execute(o, p, Live(rows), Perform(o, Live(rows), Call.Put(k, data), b).1, h, limit);
            k.tbl in o.schema.tables
            && Find(Live(Flushed(rows, e.buffer.puts.vals, e.buffer.dels, version)), k) == o.schema.tables[k.tbl](data)
  {
    var b' := Perform(o, Live(rows), Call.Put(k, data), b).1;
    PerformRefinesDirect(o, Live(rows), Call.Put(k, data), b);
    UnnamedStays(o, p, Live(rows), b', h, limit, k);
    BufferedRefinesDirect(o, p, Live(rows), b', h, limit);
    PutReadsBackTheParse(o, Live(rows), k, data, b);
    var e := Execute(o, p, Live(rows), b', h, limit);
    FlushedIsOverlay(rows, e.buffer.puts.vals, e.buffer.dels, version);
  }

  /** With validation deferred, each row the flush writes is the schema's parse of the buffered one, and fits. */
  lemma {:induction false} NetRowsAreParses(o: Options, order: seq<Key>, vals: Rows.Table)
    requires (forall k :: k in order ==> k in vals) && o.validateAtFlush && NetRows(o, order, vals).Net?
    ensures forall k :: k in order ==>
              && k.tbl in o.schema.tables && o.schema.tables[k.tbl](vals[k]) == Some(NetRows(o, order, vals).rows[k])
              && o.schema.bytes(NetRows(o, order, vals).rows[k]) <= 700_000
  {
    if order != [] {
      assert order == order[..|order| - 1] + [order[|order| - 1]];
      NetRowsAreParses(o, order[..|order| - 1], vals);
    }
  }

  /** A list that is answered holds exactly the rows in view whose every named field has the value asked for. */
  lemma ListHoldsIff(o: Options, base: Rows.Table, b: Buffer, tbl: string, where: Where, id: string)
    requires Perform(o, base, Call.List(tbl, where), b).0.Table?
    ensures var (rows, seen) := (Perform(o, base, Call.List(tbl, where), b).0.rows, Find(View(base, b), Key(tbl, id)));
            && (id in rows <==> seen.Some? && forall f :: f in where ==> f in seen.value.fields && seen.value.fields[f] == where[f])
            && (id in rows ==> Some(rows[id]) == seen)
  {
    ListAgrees(base, b, tbl, where);
  }
}
