/** The sync client of packages/client/src/client.ts, method by method, against the functions of `Client`. */
module SyncClients {
  import opened Rows
  import opened WriteSets
  import opened Server
  import opened Client

  /** The rows of every registered table, as that table's collection holds them. */
  type Tables = map<string, map<string, Data>>

  function Join(tables: Tables): Table {
    map k | k in (set t, id | t in tables && id in tables[t] :: Key(t, id)) :: tables[k.tbl][k.id]
  }

  lemma JoinAt(tables: Tables, k: Key)
    ensures Find(Join(tables), k) ==
            if k.tbl in tables && k.id in tables[k.tbl] then Some(tables[k.tbl][k.id]) else None
  {
    if k.tbl in tables && k.id in tables[k.tbl] {
      assert Key(k.tbl, k.id) == k;
    }
  }

  // ----- grouping a patch by table -----

  /** A patch without the operations on tables nobody registered; those are dropped with a warning. */
  function Registered(ops: seq<PatchOp>, known: set<string>): seq<PatchOp> {
    if ops == [] then []
    else
      var last := ops[|ops| - 1];
      Registered(ops[..|ops| - 1], known) + if last.Clear? || last.key.tbl in known then [last] else []
  }

  function OpsFor(ops: seq<PatchOp>, tbl: string): seq<PatchOp> {
    if ops == [] then []
    else
      var last := ops[|ops| - 1];
      OpsFor(ops[..|ops| - 1], tbl) + if !last.Clear? && last.key.tbl == tbl then [last] else []
  }

  function WriteRow(rows: map<string, Data>, op: PatchOp): map<string, Data> {
    match op
    case Clear => rows
    case Put(k, v) => rows[k.id := v]
    case Del(k) => rows - {k.id}
  }

  function WriteRows(rows: map<string, Data>, ops: seq<PatchOp>): map<string, Data> {
    if ops == [] then rows else WriteRow(WriteRows(rows, ops[..|ops| - 1]), ops[|ops| - 1])
  }

  lemma {:induction false} WithoutClearsAppend(ops: seq<PatchOp>, op: PatchOp)
    ensures WithoutClears(ops + [op]) == WithoutClears(ops) + if op.Clear? then [] else [op]
  {
    if ops == [] {
      assert [op][1..] == [];
    } else {
      assert (ops + [op])[1..] == ops[1..] + [op];
      WithoutClearsAppend(ops[1..], op);
    }
  }

  lemma ApplyOpsAppend(t: Table, ops: seq<PatchOp>, op: PatchOp)
    ensures ApplyOps(t, ops + [op]) == ApplyOp(ApplyOps(t, ops), op)
  {
    ApplyOpsConcat(t, ops, [op]);
    assert ApplyOps(ApplyOps(t, ops), [op]) == ApplyOp(ApplyOps(t, ops), op) by { assert [op][1..] == []; }
  }

  /** Only the operations on a row's own table, in their order, decide what becomes of it. */
  lemma {:induction false} GroupingAgrees(t: Table, rows: map<string, Data>, ops: seq<PatchOp>, known: set<string>, k: Key)
    requires k.tbl in known && Find(t, k) == Lookup(rows, k.id)
    ensures Find(ApplyOps(t, WithoutClears(Registered(ops, known))), k) == Lookup(WriteRows(rows, OpsFor(ops, k.tbl)), k.id)
  {
    if ops != [] {
      var init, last := ops[..|ops| - 1], ops[|ops| - 1];
      GroupingAgrees(t, rows, init, known, k);
      GroupingStep(t, rows, init, last, known, k);
      assert ops == init + [last];
    }
  }

  lemma RegisteredAppend(ops: seq<PatchOp>, op: PatchOp, known: set<string>)
    ensures Registered(ops + [op], known) == Registered(ops, known) + if op.Clear? || op.key.tbl in known then [op] else []
    ensures WithoutClears(Registered(ops + [op], known)) ==
            WithoutClears(Registered(ops, known)) + if !op.Clear? && op.key.tbl in known then [op] else []
  {
    assert (ops + [op])[..|ops|] == ops;
    WithoutClearsAppend(Registered(ops, known), op);
    assert WithoutClears(Registered(ops, known)) + [] == WithoutClears(Registered(ops, known));
    assert Registered(ops, known) + [] == Registered(ops, known);
  }

  lemma OwnOpsAppend(rows: map<string, Data>, ops: seq<PatchOp>, op: PatchOp, tbl: string)
    ensures WriteRows(rows, OpsFor(ops + [op], tbl)) ==
            if !op.Clear? && op.key.tbl == tbl then WriteRow(WriteRows(rows, OpsFor(ops, tbl)), op)
            else WriteRows(rows, OpsFor(ops, tbl))
  {
    assert (ops + [op])[..|ops|] == ops;
    var own := OpsFor(ops, tbl);
    assert (own + [op])[..|own|] == own;
    assert own + [] == own;
  }

  lemma GroupingStep(t: Table, rows: map<string, Data>, init: seq<PatchOp>, last: PatchOp, known: set<string>, k: Key)
    requires k.tbl in known
    requires Find(ApplyOps(t, WithoutClears(Registered(init, known))), k) == Lookup(WriteRows(rows, OpsFor(init, k.tbl)), k.id)
    ensures Find(ApplyOps(t, WithoutClears(Registered(init + [last], known))), k) ==
            Lookup(WriteRows(rows, OpsFor(init + [last], k.tbl)), k.id)
  {
    var kept := WithoutClears(Registered(init, known));
    RegisteredAppend(init, last, known);
    OwnOpsAppend(rows, init, last, k.tbl);
    if !last.Clear? && last.key.tbl in known {
      ApplyOpsAppend(t, kept, last);
      assert last.key.tbl == k.tbl && last.key.id == k.id ==> last.key == k;
    } else {
      assert kept + [] == kept;
    }
  }

  /** Rows of unregistered tables never appear, so dropping their operations loses nothing held. */
  lemma {:induction false} OthersStayOut(t: Table, ops: seq<PatchOp>, known: set<string>, k: Key)
    requires k.tbl !in known && k !in t
    ensures k !in ApplyOps(t, WithoutClears(Registered(ops, known)))
  {
    if ops != [] {
      var init, last := ops[..|ops| - 1], ops[|ops| - 1];
      assert ops == init + [last];
      OthersStayOut(t, init, known, k);
      RegisteredAppend(init, last, known);
      ApplyOpsAppend(t, WithoutClears(Registered(init, known)), last);
      assert WithoutClears(Registered(init, known)) + [] == WithoutClears(Registered(init, known));
    }
  }

  lemma ClearsAppend(ops: seq<PatchOp>, op: PatchOp)
    ensures HasClear(ops + [op]) <==> HasClear(ops) || op.Clear?
  {
    var more := ops + [op];
    assert more[|ops|] == op;
    assert forall i :: 0 <= i < |ops| ==> more[i] == ops[i];
  }

  lemma {:induction false} RegisteredKeepsClears(ops: seq<PatchOp>, known: set<string>)
    ensures HasClear(Registered(ops, known)) <==> HasClear(ops)
  {
    if ops != [] {
      var init, last := ops[..|ops| - 1], ops[|ops| - 1];
      assert ops == init + [last];
      RegisteredKeepsClears(init, known);
      RegisteredAppend(init, last, known);
      ClearsAppend(init, last);
      ClearsAppend(Registered(init, known), last);
      assert Registered(init, known) + [] == Registered(init, known);
    }
  }

  /** Dropping the operations on unregistered tables changes no row of a registered one, and leaves none of another. */
  lemma RegisteredMissNothing(t: Table, ops: seq<PatchOp>, known: set<string>, k: Key)
    ensures k.tbl in known ==> Find(Absorb(t, Registered(ops, known)), k) == Find(Absorb(t, ops), k)
    ensures k.tbl !in known && k !in t ==> k !in Absorb(t, Registered(ops, known))
  {
    RegisteredKeepsClears(ops, known);
    var from: Table := if HasClear(ops) then map[] else t;
    if k.tbl in known { KnownRowsAlike(from, ops, known, k); } else if k !in t { OthersStayOut(from, ops, known, k); }
  }

  lemma {:induction false} KnownRowsAlike(t: Table, ops: seq<PatchOp>, known: set<string>, k: Key)
    requires k.tbl in known
    ensures Find(ApplyOps(t, WithoutClears(Registered(ops, known))), k) == Find(ApplyOps(t, WithoutClears(ops)), k)
  {
    hide ApplyOps, WithoutClears, Registered;
    if ops != [] {
      var init, last := ops[..|ops| - 1], ops[|ops| - 1];
      assert ops == init + [last];
      KnownRowsAlike(t, init, known, k);
      RegisteredAppend(init, last, known);
      WithoutClearsAppend(init, last);
      var (kept, all) := (WithoutClears(Registered(init, known)), WithoutClears(init));
      ApplyOpsAppend(t, kept, last);
      ApplyOpsAppend(t, all, last);
      assert kept + [] == kept && all + [] == all;
    } else {
      RegisteredNone(known);
    }
  }

  lemma RegisteredNone(known: set<string>)
    ensures Registered([], known) == []
  {
  }

  ghost predicate TablesWritten(tables: Tables, tables': Tables, ops: seq<PatchOp>, done: set<string>) {
    && tables'.Keys == tables.Keys
    && forall t :: t in tables ==>
         tables'[t] == if t in done then WriteRows(if HasClear(ops) then map[] else tables[t], OpsFor(ops, t)) else tables[t]
  }

  function RowsFor(tables: Tables, ops: seq<PatchOp>, t: string): map<string, Data>
    requires t in tables
  {
    WriteRows(if exists i :: 0 <= i < |ops| && ops[i].Clear? then map[] else tables[t], OpsFor(ops, t))
  }

  lemma OneTableWritten(tables: Tables, now: Tables, ops: seq<PatchOp>, done: set<string>, t: string)
    requires TablesWritten(tables, now, ops, done) && t in tables
    ensures TablesWritten(tables, now[t := RowsFor(tables, ops, t)], ops, done + {t})
  {
  }

  lemma NoTableWritten(tables: Tables, ops: seq<PatchOp>)
    ensures TablesWritten(tables, tables, ops, {})
  {
  }

  lemma UntouchedTable(tables: Tables, now: Tables, ops: seq<PatchOp>, done: set<string>)
    requires TablesWritten(tables, now, ops, done)
    ensures now.Keys == tables.Keys
    ensures forall t :: t in tables && t !in done ==> now[t] == tables[t]
  {
  }

  lemma SameWritten(tables: Tables, now: Tables, ops: seq<PatchOp>, done: set<string>, done': set<string>)
    requires TablesWritten(tables, now, ops, done)
    requires forall t :: t in tables && t in done ==> t in done'
    requires forall t :: t in tables && t in done' && t !in done ==> !HasClear(ops) && OpsFor(ops, t) == []
    ensures TablesWritten(tables, now, ops, done')
  {
  }

  /** Writing each table its own operations is absorbing the patch as a whole. */
  lemma JoinIsAbsorb(tables: Tables, tables': Tables, ops: seq<PatchOp>)
    requires TablesWritten(tables, tables', ops, tables.Keys)
    ensures Join(tables') == Absorb(Join(tables), Registered(ops, tables.Keys))
  {
    var known := tables.Keys;
    RegisteredKeepsClears(ops, known);
    var from: Table := if HasClear(ops) then map[] else Join(tables);
    forall k
      ensures Find(Join(tables'), k) == Find(Absorb(Join(tables), Registered(ops, known)), k)
    {
      JoinAt(tables, k);
      JoinAt(tables', k);
      if k.tbl in known {
        GroupingAgrees(from, if HasClear(ops) then map[] else tables[k.tbl], ops, known, k);
      } else {
        OthersStayOut(from, ops, known, k);
      }
    }
    TablesEqual(Join(tables'), Absorb(Join(tables), Registered(ops, known)));
  }

  /** The client's frame handling sees only the operations on tables it has registered. */
  function Seen(s: Client.State, f: Frame, known: set<string>): Client.State {
    if f.PokeEnd? && s.poke.Some? then s.(poke := Some(s.poke.value.(ops := Registered(s.poke.value.ops, known)))) else s
  }

  class SyncClient {
    const clientId: ClientId
    const schemaVersion: nat
    var socket: bool
    var cursor: Option<Cursor>
    var confirmedLmid: nat
    var outbox: seq<Entry>
    /** Promises settled so far. */
    var settled: seq<Settlement>
    var poke: Option<PokeBuffer>
    var needsRebase: bool
    var syncedThisConnection: bool
    var awaitingCatchUp: bool
    var tables: Tables
    /** Everything handed to the current and earlier sockets. */
    var sent: seq<Message>

    ghost function State(): Client.State
      reads this
    {
      Rest().(rows := Join(tables))
    }

    /** All but the rows. */
    ghost function Rest(): Client.State
      reads this`cursor, this`confirmedLmid, this`outbox, this`settled, this`poke,
            this`needsRebase, this`syncedThisConnection, this`awaitingCatchUp
    {
      Client.State.State(clientId, cursor, map[], confirmedLmid, outbox, settled, poke,
                         needsRebase, syncedThisConnection, awaitingCatchUp)
    }

    constructor (clientId: ClientId, schemaVersion: nat, registered: set<string>)
      ensures State() == Start(clientId) && tables.Keys == registered && sent == [] && !socket
      ensures this.schemaVersion == schemaVersion
    {
      this.clientId, this.schemaVersion := clientId, schemaVersion;
      socket, sent := false, [];
      cursor, confirmedLmid, outbox, settled := None, 0, [], [];
      poke, needsRebase, syncedThisConnection, awaitingCatchUp := None, false, false, false;
      tables := map t | t in registered :: map[];
      new;
      assert Join(tables) == map[];
    }

    // ----- outbox -----

    method NextMutationId() returns (id: nat)
      ensures id == Client.NextMutationId(confirmedLmid, outbox)
    {
      var max := confirmedLmid;
      for i := 0 to |outbox|
        invariant max == MaxId(confirmedLmid, outbox[..i])
      {
        assert outbox[..i + 1][..i] == outbox[..i];
        var e := outbox[i];
        if e.id.Some? && e.id.value > max { max := e.id.value; }
      }
      assert outbox[..|outbox|] == outbox;
      id := max + 1;
    }

    method AssignPendingIds()
      modifies this`outbox
      ensures outbox == AssignFrom(confirmedLmid, old(outbox), 0)
    {
      for i := 0 to |outbox|
        invariant |outbox| == |old(outbox)|
        invariant AssignFrom(confirmedLmid, outbox, i) == AssignFrom(confirmedLmid, old(outbox), 0)
      {
        if outbox[i].id.None? {
          var id := NextMutationId();
          outbox := outbox[i := Entry(Some(id), outbox[i].intent)];
        }
      }
    }

    method RebaseOutboxIds()
      modifies this`outbox
      ensures outbox == Rebase(confirmedLmid, old(outbox))
    {
      var next := confirmedLmid;
      for i := 0 to |outbox|
        invariant |outbox| == |old(outbox)| && next == confirmedLmid + i
        invariant forall j :: 0 <= j < |outbox| ==>
                    outbox[j] == if j < i then Rebase(confirmedLmid, old(outbox))[j] else old(outbox)[j]
      {
        next := next + 1;
        outbox := outbox[i := Entry(Some(next), outbox[i].intent)];
      }
    }

    static method ErrorsById(results: seq<MutationResult>) returns (errors: map<nat, AppError>)
      ensures forall id :: ErrorOf(results, id) == if id in errors then Some(errors[id]) else None
    {
      errors := map[];
      for i := 0 to |results|
        invariant forall id :: ErrorOf(results[..i], id) == if id in errors then Some(errors[id]) else None
      {
        assert results[..i + 1][..i] == results[..i];
        if results[i].error.Some? { errors := errors[results[i].id := results[i].error.value]; }
      }
      assert results[..|results|] == results;
    }

    /** Settles every confirmed entry, taking it out of the queue as it goes. */
    method SettleOutbox(results: seq<MutationResult>)
      modifies this`outbox, this`settled
      ensures outbox == Unsettled(confirmedLmid, old(outbox))
      ensures settled == old(settled) + Settlements(confirmedLmid, old(outbox), results)
    {
      var errors := ErrorsById(results);
      var copy, kept := outbox, 0;
      for i := 0 to |copy|
        invariant Swept(confirmedLmid, copy, i, results, old(settled), kept, outbox, settled)
      {
        var e := copy[i];
        SweepOne(confirmedLmid, copy, i, results, old(settled), kept, outbox, settled);
        if Confirmed(confirmedLmid, e) {
          var error := if e.id.value in errors then Some(errors[e.id.value]) else None;
          SettleEntry(kept, Settlement(e.id.value, e.intent, error));
        } else {
          kept := kept + 1;
        }
      }
      assert copy[..|copy|] == copy;
    }

    /** `at` is where the entry stands in the queue. */
    method SettleEntry(at: nat, s: Settlement)
      requires at < |outbox|
      modifies this`outbox, this`settled
      ensures outbox == old(outbox)[..at] + old(outbox)[at + 1..] && settled == old(settled) + [s]
    {
      settled := settled + [s];
      outbox := outbox[..at] + outbox[at + 1..];
    }

    method Enqueue(intent: Intent)
      modifies this`outbox
      ensures State() == Client.Enqueue(old(State()), intent)
    {
      outbox := outbox + [Entry(None, intent)];
      if syncedThisConnection {
        var id := NextMutationId();
        outbox := outbox[|outbox| - 1 := Entry(Some(id), intent)];
      }
    }

    method FlushPush()
      modifies this`sent
      ensures sent == old(sent) +
        var batch := PushBatch(confirmedLmid, outbox);
        if socket && syncedThisConnection && batch != [] then [PushMsg(batch)] else []
    {
      if !socket || !syncedThisConnection { return; }
      var batch := [];
      for i := 0 to |outbox|
        invariant batch == PushBatch(confirmedLmid, outbox[..i])
      {
        assert outbox[..i + 1][..i] == outbox[..i];
        var e := outbox[i];
        if e.id.Some? && e.id.value > confirmedLmid {
          batch := InsertById(batch, Mutation(e.id.value, e.intent));
        }
      }
      assert outbox[..|outbox|] == outbox;
      if |batch| > 0 { sent := sent + [PushMsg(batch)]; }
    }

    // ----- connection -----

    method OpenSocket()
      modifies this`socket, this`syncedThisConnection
      ensures socket && State() == Dial(old(State()))
    {
      socket, syncedThisConnection := true, false;
    }

    method SendHello()
      requires socket
      modifies this`awaitingCatchUp, this`sent
      ensures State() == old(State()).(awaitingCatchUp := true) && sent == old(sent) + [HelloMsg(cursor)]
    {
      awaitingCatchUp := true;
      sent := sent + [HelloMsg(cursor)];
    }

    method RequestResync()
      requires socket
      modifies this`awaitingCatchUp, this`sent
      ensures State() == old(State()).(awaitingCatchUp := true)
      ensures sent == old(sent) + if old(awaitingCatchUp) then [] else [HelloMsg(cursor)]
    {
      if awaitingCatchUp { return; }
      SendHello();
    }

    method OnDisconnect()
      modifies this`socket, this`poke, this`awaitingCatchUp
      ensures !socket && State() == Disconnect(old(State()))
    {
      socket, poke, awaitingCatchUp := false, None, false;
    }

    /**
     * Restores what was persisted, in front of whatever was queued meanwhile; another schema's state is
     * dropped, and the store told to discard it.
     */
    method Hydrate(stored: Option<Persisted>) returns (restored: bool, discards: bool)
      modifies this`cursor, this`confirmedLmid, this`outbox, this`tables
      ensures tables.Keys == old(tables.Keys)
      ensures restored <==>
                && stored.Some? && stored.value.cursor.Some?
                && (stored.value.schemaVersion.None? || stored.value.schemaVersion == Some(schemaVersion))
      ensures discards <==> stored.Some? && stored.value.schemaVersion.Some? && stored.value.schemaVersion != Some(schemaVersion)
      ensures restored ==> forall k: Key :: k.tbl in tables && k in stored.value.rows ==> Find(Join(tables), k) == Some(stored.value.rows[k])
      ensures !Usable(stored, schemaVersion) ==> State() == old(State())
      ensures Usable(stored, schemaVersion) ==>
                var was := old(State());
                State() == was.(
                  cursor := stored.value.cursor, confirmed := stored.value.confirmed,
                  outbox := stored.value.outbox + was.outbox,
                  rows := if stored.value.cursor.None? then was.rows else was.rows + Known(stored.value.rows, tables.Keys))
    {
      if stored.None? { return false, false; }
      var state := stored.value;
      if state.schemaVersion.Some? && state.schemaVersion.value != schemaVersion { return false, true; }
      cursor, confirmedLmid := state.cursor, state.confirmed;
      outbox := state.outbox + outbox;
      if state.cursor.None? { return false, false; }
      RestoreTables(state.rows);
      return true, false;
    }

    method RestoreTables(rows: Table)
      modifies this`tables
      ensures tables.Keys == old(tables.Keys) && Join(tables) == Join(old(tables)) + Known(rows, tables.Keys)
    {
      ghost var was := tables;
      var todo := tables.Keys;
      while todo != {}
        invariant todo <= was.Keys && tables.Keys == was.Keys
        invariant forall t :: t in was ==> tables[t] == if t in todo then was[t] else was[t] + TableRows(rows, t)
      {
        var t :| t in todo;
        todo := todo - {t};
        tables := tables[t := tables[t] + TableRows(rows, t)];
      }
      RestoredRows(was, tables, rows);
    }

    // ----- inbound -----

    static method GroupByTable(patch: seq<PatchOp>) returns (byTable: map<string, seq<PatchOp>>)
      ensures forall t :: OpsFor(patch, t) == if t in byTable then byTable[t] else []
    {
      byTable := map[];
      for i := 0 to |patch|
        invariant forall t :: OpsFor(patch[..i], t) == if t in byTable then byTable[t] else []
      {
        assert patch[..i + 1][..i] == patch[..i];
        var op := patch[i];
        if !op.Clear? {
          var ops := if op.key.tbl in byTable then byTable[op.key.tbl] else [];
          byTable := byTable[op.key.tbl := ops + [op]];
        }
      }
      assert patch[..|patch|] == patch;
    }

    static method WriteTable(from: map<string, Data>, ops: seq<PatchOp>) returns (rows: map<string, Data>)
      ensures rows == WriteRows(from, ops)
    {
      rows := from;
      for i := 0 to |ops|
        invariant rows == WriteRows(from, ops[..i])
      {
        assert ops[..i + 1][..i] == ops[..i];
        rows := WriteRow(rows, ops[i]);
      }
      assert ops[..|ops|] == ops;
    }

    /** Table by table; a patch with a `clear` truncates every registered table first. */
    method WriteTables(patch: seq<PatchOp>, hasClear: bool)
      requires hasClear <==> HasClear(patch)
      modifies this`tables
      ensures tables.Keys == old(tables.Keys)
      ensures Join(tables) == Absorb(Join(old(tables)), Registered(patch, old(tables.Keys)))
    {
      hide TablesWritten, WriteRows, OpsFor, Join, Absorb;
      ghost var was := tables;
      var byTable := GroupByTable(patch);
      NoTableWritten(was, patch);
      ghost var done: set<string> := {};
      if hasClear {
        var todo := tables.Keys;
        while todo != {}
          invariant TablesWritten(was, tables, patch, done) && done + todo == was.Keys == tables.Keys
        {
          var t :| t in todo;
          todo := todo - {t};
          var rows := WriteTable(map[], if t in byTable then byTable[t] else []);
          OneTableWritten(was, tables, patch, done, t);
          tables := tables[t := rows];
          done := done + {t};
        }
      } else {
        var todo := byTable.Keys;
        while todo != {}
          invariant TablesWritten(was, tables, patch, done) && done !! todo && done + todo == byTable.Keys
          invariant tables.Keys == was.Keys
        {
          UntouchedTable(was, tables, patch, done);
          var t :| t in todo;
          todo := todo - {t};
          if t in tables {
            var rows := WriteTable(tables[t], byTable[t]);
            OneTableWritten(was, tables, patch, done, t);
            tables := tables[t := rows];
          } else {
            SameWritten(was, tables, patch, done, done + {t});
          }
          done := done + {t};
        }
        SameWritten(was, tables, patch, done, was.Keys);
      }
      JoinIsAbsorb(was, tables, patch);
    }

    method ApplyPoke(p: PokeBuffer, end: Cursor)
      modifies this`cursor, this`confirmedLmid, this`outbox, this`settled, this`needsRebase,
               this`syncedThisConnection, this`awaitingCatchUp, this`tables
      ensures tables.Keys == old(tables.Keys)
      ensures State() == Client.ApplyPoke(old(State()), p.(ops := Registered(p.ops, old(tables.Keys))), end)
    {
      var hasClear := exists i :: 0 <= i < |p.ops| && p.ops[i].Clear?;
      ghost var was := State();
      WriteTables(p.ops, hasClear);
      Catchup(p, end);
      RowsApart(was, p, Registered(p.ops, old(tables.Keys)), end, Rest(), Join(tables));
    }

    /** Cursor, confirmations and queue. */
    method Catchup(p: PokeBuffer, end: Cursor)
      modifies this`cursor, this`confirmedLmid, this`outbox, this`settled, this`needsRebase,
               this`syncedThisConnection, this`awaitingCatchUp
      ensures Rest() == Client.ApplyPoke(old(Rest()), p.(ops := []), end)
    {
      hide Settlements, Unsettled, AssignFrom, Rebase;
      var backendChanged := cursor.Some? && cursor.value.backend != end.backend;
      cursor := Some(end);
      awaitingCatchUp := false;
      AdoptConfirmed(p, backendChanged);
      SettleOutbox(p.results);
      NumberOutbox();
    }

    method AdoptConfirmed(p: PokeBuffer, backendChanged: bool)
      modifies this`confirmedLmid, this`outbox
      ensures confirmedLmid == ConfirmedAfter(old(Rest()), p, backendChanged)
      ensures outbox == if backendChanged then Rebase(confirmedLmid, old(outbox)) else old(outbox)
    {
      if backendChanged {
        confirmedLmid := if clientId in p.lmids then p.lmids[clientId] else 0;
        RebaseOutboxIds();
      } else if clientId in p.lmids && p.lmids[clientId] > confirmedLmid {
        confirmedLmid := p.lmids[clientId];
      }
    }

    /** Renumbers when a push was refused, and numbers what waited for the first poke of the connection. */
    method NumberOutbox()
      modifies this`outbox, this`needsRebase, this`syncedThisConnection
      ensures !needsRebase && syncedThisConnection
      ensures var rebased := if old(needsRebase) then Rebase(confirmedLmid, old(outbox)) else old(outbox);
              outbox == if old(syncedThisConnection) then rebased else AssignFrom(confirmedLmid, rebased, 0)
    {
      if needsRebase {
        needsRebase := false;
        RebaseOutboxIds();
      }
      if !syncedThisConnection {
        syncedThisConnection := true;
        AssignPendingIds();
      }
    }

    /** Whatever the frame, the client ends where `Client.OnFrame` says, and sends what it says. */
    method OnMessage(f: Frame)
      requires socket
      modifies this
      ensures socket && tables.Keys == old(tables.Keys)
      ensures var (state, replies) := OnFrame(Seen(old(State()), f, old(tables.Keys)), f);
              State() == state && sent == old(sent) + replies
    {
      match f
      case PokeStart(id, base) =>
        poke := Some(PokeBuffer(id, base, base != cursor, [], map[], []));
      case PokePart(id, ops, lmids, results) =>
        if poke.None? || poke.value.pokeId != id {
          poke := None;
          RequestResync();
        } else {
          var p := poke.value;
          poke := Some(p.(ops := p.ops + ops, lmids := p.lmids + lmids, results := p.results + results));
        }
      case PokeEnd(id, end) => OnPokeEnd(id, end);
      case ErrorFrame(code) =>
        if code == PushInvalid {
          needsRebase := true;
          RequestResync();
        }
    }

    method OnPokeEnd(id: nat, end: Cursor)
      requires socket
      modifies this
      ensures socket && tables.Keys == old(tables.Keys)
      ensures var (state, replies) := OnFrame(Seen(old(State()), PokeEnd(id, end), old(tables.Keys)), PokeEnd(id, end));
              State() == state && sent == old(sent) + replies
    {
      hide Client.ApplyPoke, Registered, Join, HasClear;
      ghost var was := State();
      var buffered := poke;
      poke := None;
      assert State() == was.(poke := None);
      if buffered.None? || buffered.value.pokeId != id {
        RequestResync();
        return;
      }
      var p := buffered.value;
      PokeEndCases(was, p, end, tables.Keys);
      var isReset := exists i :: 0 <= i < |p.ops| && p.ops[i].Clear?;
      IsReset(p.ops);
      if p.baseMismatch && !isReset {
        RequestResync();
        return;
      }
      ApplyPoke(p, end);
    }
  }

  lemma IsReset(ops: seq<PatchOp>)
    ensures HasClear(ops) <==> exists i :: 0 <= i < |ops| && ops[i].Clear?
  {
  }

  lemma PokeEndCases(s: Client.State, p: PokeBuffer, end: Cursor, known: set<string>)
    requires s.poke == Some(p)
    ensures var f := PokeEnd(p.pokeId, end);
            OnFrame(Seen(s, f, known), f) ==
            if p.baseMismatch && !HasClear(p.ops) then Client.RequestResync(s.(poke := None))
            else (Client.ApplyPoke(s.(poke := None), p.(ops := Registered(p.ops, known)), end), [])
  {
    RegisteredKeepsClears(p.ops, known);
    var f := PokeEnd(p.pokeId, end);
    var ops := Registered(p.ops, known);
    assert HasClear(ops) <==> exists i :: 0 <= i < |ops| && ops[i].Clear?;
    assert Seen(s, f, known).(poke := None) == s.(poke := None);
  }

  lemma RowsApart(s: Client.State, p: PokeBuffer, ops: seq<PatchOp>, end: Cursor, rest: Client.State, rows: Table)
    requires rest == Client.ApplyPoke(s.(rows := map[]), p.(ops := []), end)
    requires rows == Absorb(s.rows, ops)
    ensures rest.(rows := rows) == Client.ApplyPoke(s, p.(ops := ops), end)
  {
  }

  /** The confirm sweep after `i` of the entries it started with. */
  ghost predicate Swept(
      confirmed: nat, copy: seq<Entry>, i: nat, results: seq<MutationResult>, was: seq<Settlement>,
      kept: nat, outbox: seq<Entry>, settled: seq<Settlement>)
  {
    && i <= |copy|
    && kept == |Unsettled(confirmed, copy[..i])|
    && outbox == Unsettled(confirmed, copy[..i]) + copy[i..]
    && settled == was + Settlements(confirmed, copy[..i], results)
  }

  lemma SweepOne(
      confirmed: nat, copy: seq<Entry>, i: nat, results: seq<MutationResult>, was: seq<Settlement>,
      kept: nat, outbox: seq<Entry>, settled: seq<Settlement>)
    requires i < |copy| && Swept(confirmed, copy, i, results, was, kept, outbox, settled)
    ensures kept < |outbox| && outbox[kept] == copy[i]
    ensures var e := copy[i];
            if Confirmed(confirmed, e) then
              Swept(confirmed, copy, i + 1, results, was, kept, outbox[..kept] + outbox[kept + 1..],
                    settled + [Settlement(e.id.value, e.intent, ErrorOf(results, e.id.value))])
            else Swept(confirmed, copy, i + 1, results, was, kept + 1, outbox, settled)
  {
    assert copy[..i + 1][..i] == copy[..i];
    var u := Unsettled(confirmed, copy[..i]);
    assert outbox[..kept] == u && outbox[kept + 1..] == copy[i + 1..];
    assert u + [] == u && (u + [copy[i]]) + copy[i + 1..] == outbox;
    assert settled + [] == settled;
  }

  predicate Usable(stored: Option<Persisted>, schemaVersion: nat) {
    stored.Some? && (stored.value.schemaVersion.None? || stored.value.schemaVersion.value == schemaVersion)
  }

  function Known(rows: Table, known: set<string>): Table {
    map k | k in rows && k.tbl in known :: rows[k]
  }

  lemma RestoredRows(was: Tables, tables: Tables, rows: Table)
    requires tables.Keys == was.Keys && forall t :: t in was ==> tables[t] == was[t] + TableRows(rows, t)
    ensures Join(tables) == Join(was) + Known(rows, was.Keys)
  {
    forall k
      ensures Find(Join(tables), k) == Find(Join(was) + Known(rows, was.Keys), k)
    {
      JoinAt(was, k);
      JoinAt(tables, k);
      assert k.tbl in was ==> (k.id in TableRows(rows, k.tbl) <==> k in rows);
    }
    TablesEqual(Join(tables), Join(was) + Known(rows, was.Keys));
  }
}
