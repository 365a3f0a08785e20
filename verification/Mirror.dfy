/**
 * The durable mirror (packages/client/src/idb-store.ts, with packages/client/src/store.ts as its reference
 * form): rows and cursor shared by every tab of a workspace, an outbox for each.
 */
module Mirror {
  import opened Rows
  import opened Server
  import Client
  import opened SyncClients

  /** One poke's durable effects; `ops` holds its puts and dels, `clear` whether it had a clear. */
  datatype Update = Update(
    ops: seq<PatchOp>, clear: bool, cursor: Cursor, schemaVersion: nat, confirmed: nat, outbox: seq<Client.Entry>)

  datatype Meta = Meta(schemaVersion: nat, cursor: Cursor)

  datatype Record = Record(entries: seq<Client.Entry>, confirmed: nat, updatedAt: nat)

  datatype Disk = Disk(meta: Option<Meta>, rows: Table, outboxes: map<ClientId, Record>)

  const EMPTY_DISK := Disk(None, map[], map[])

  /** The guard: a poke that does not advance the stored cursor is covered by what is stored. */
  predicate Subsumed(meta: Option<Cursor>, u: Update) {
    !u.clear && meta.Some? && meta.value.backend == u.cursor.backend && meta.value.version >= u.cursor.version
  }

  function StoredCursor(d: Disk): Option<Cursor> {
    if d.meta.None? then None else Some(d.meta.value.cursor)
  }

  function Written(rows: Table, u: Update): Table {
    ApplyOps(if u.clear then map[] else rows, u.ops)
  }

  function Apply(d: Disk, c: ClientId, u: Update, now: nat): Disk {
    var d' := d.(outboxes := d.outboxes[c := Record(u.outbox, u.confirmed, now)]);
    if Subsumed(StoredCursor(d), u) then d'
    else d'.(meta := Some(Meta(u.schemaVersion, u.cursor)), rows := Written(d.rows, u))
  }

  function Saved(d: Disk, c: ClientId, outbox: seq<Client.Entry>, confirmed: nat, now: nat): Disk {
    d.(outboxes := d.outboxes[c := Record(outbox, confirmed, now)])
  }

  /** What a client is handed back; nothing if neither rows nor an outbox of its own were stored. */
  function Loaded(d: Disk, c: ClientId): Option<Client.Persisted> {
    if d.meta.None? && c !in d.outboxes then None
    else
      Some(Client.Persisted(
        StoredCursor(d), if d.meta.None? then None else Some(d.meta.value.schemaVersion),
        if c in d.outboxes then d.outboxes[c].confirmed else 0,
        if d.meta.None? then map[] else d.rows,
        if c in d.outboxes then d.outboxes[c].entries else []))
  }

  /** Other clients' outboxes are dropped once nobody has written them for long enough. */
  function Collected(d: Disk, c: ClientId, staleBefore: int): Disk {
    d.(outboxes := map k | k in d.outboxes && (k == c || d.outboxes[k].updatedAt >= staleBefore) :: d.outboxes[k])
  }

  // ----- the reference form -----

  function MemoryApply(s: Option<Client.Persisted>, u: Update): Option<Client.Persisted> {
    var was := if s.None? then Client.Persisted(None, None, 0, map[], []) else s.value;
    if Subsumed(was.cursor, u) then Some(was.(confirmed := u.confirmed, outbox := u.outbox))
    else Some(Client.Persisted(Some(u.cursor), Some(u.schemaVersion), u.confirmed, Written(was.rows, u), u.outbox))
  }

  function MemorySave(s: Option<Client.Persisted>, outbox: seq<Client.Entry>, confirmed: nat): Option<Client.Persisted> {
    var was := if s.None? then Client.Persisted(None, None, 0, map[], []) else s.value;
    Some(was.(confirmed := confirmed, outbox := outbox))
  }

  ghost predicate Tidy(d: Disk) {
    d.meta.None? ==> d.rows == map[]
  }

  /** To the client whose store it is, the shared database behaves as the in-memory store of its own does. */
  lemma DatabaseIsMemory(d: Disk, c: ClientId, u: Update, outbox: seq<Client.Entry>, confirmed: nat, now: nat, staleBefore: int)
    requires Tidy(d)
    ensures Tidy(Apply(d, c, u, now)) && Loaded(Apply(d, c, u, now), c) == MemoryApply(Loaded(d, c), u)
    ensures Loaded(Saved(d, c, outbox, confirmed, now), c) == MemorySave(Loaded(d, c), outbox, confirmed)
    ensures Loaded(Collected(d, c, staleBefore), c) == Loaded(d, c)
  {
  }

  /**
   * A poke is stored exactly if it clears or moves the stored cursor on, in its history or to another; then the
   * cursor and its operations are. The outbox and the confirmed id are stored either way.
   */
  lemma StoredIff(d: Disk, c: ClientId, u: Update, now: nat)
    ensures var d' := Apply(d, c, u, now); var advances := d.meta.Some? && d.meta.value.cursor.backend == u.cursor.backend
                                                           ==> d.meta.value.cursor.version < u.cursor.version;
            && (u.clear || advances ==>
                  && d'.meta.Some? && d'.meta.value.cursor == u.cursor && d'.meta.value.schemaVersion == u.schemaVersion
                  && d'.rows == ApplyOps(if u.clear then map[] else d.rows, u.ops))
            && (!u.clear && !advances ==> d'.meta == d.meta && d'.rows == d.rows)
            && Loaded(d', c).Some? && Loaded(d', c).value.outbox == u.outbox && Loaded(d', c).value.confirmed == u.confirmed
            && d'.outboxes[c].updatedAt == now
  {
  }

  /** What one client stores never shows in another's outbox. */
  lemma OutboxesApart(d: Disk, c: ClientId, other: ClientId, u: Update, now: nat)
    requires c != other && other in d.outboxes
    ensures var (l, l') := (Loaded(d, other), Loaded(Apply(d, c, u, now), other));
            l.Some? && l'.Some? && l'.value.outbox == l.value.outbox && l'.value.confirmed == l.value.confirmed
  {
  }

  // ----- the mirror -----

  /** The persisted rows are the server's rows at the persisted cursor. */
  ghost predicate MirrorOk(d: Disk, t: Timeline) {
    d.meta.Some? ==> d.meta.value.cursor in t && d.rows == t[d.meta.value.cursor]
  }

  ghost predicate Persists(u: Update, p: Poke) {
    u.ops == WithoutClears(p.ops) && u.clear == HasClear(p.ops) && u.cursor == p.end
  }

  /** The update takes the rows at its base, or at any version from there to its end, to the rows at its end. */
  ghost predicate Faithful(u: Update, base: Option<Cursor>, t: Timeline) {
    && u.cursor in t
    && if u.clear then ApplyOps(map[], u.ops) == t[u.cursor]
       else
         && base.Some? && base.value.backend == u.cursor.backend && base.value.version <= u.cursor.version
         && (forall v: nat :: base.value.version <= v <= u.cursor.version ==> FaithfulFrom(u, t, v))
  }

  ghost predicate FaithfulFrom(u: Update, t: Timeline, v: nat) {
    var c := Cursor(u.cursor.backend, v);
    c in t && u.cursor in t && ApplyOps(t[c], u.ops) == t[u.cursor]
  }

  /** What is persisted of an exact poke. */
  lemma PokeIsFaithful(p: Poke, u: Update, t: Timeline)
    requires Exact(p, t) && Persists(u, p)
    ensures Faithful(u, p.base, t)
  {
    if u.clear {
      assert Absorb(map[], p.ops) == t[p.end];
    } else {
      forall v: nat | p.base.value.version <= v <= u.cursor.version
        ensures FaithfulFrom(u, t, v)
      {
        assert ExactFrom(p, t, v);
      }
    }
  }

  lemma FaithfulIsStable(u: Update, base: Option<Cursor>, t: Timeline, t': Timeline)
    requires Faithful(u, base, t) && Extends(t, t')
    ensures Faithful(u, base, t')
  {
    if !u.clear {
      forall v: nat | base.value.version <= v <= u.cursor.version
        ensures FaithfulFrom(u, t', v)
      {
        assert FaithfulFrom(u, t, v);
      }
    }
  }

  /** The update clears, or starts at or below a stored version of its own history. */
  predicate InOrder(d: Disk, u: Update, base: Option<Cursor>) {
    u.clear || (base.Some? && d.meta.Some? && d.meta.value.cursor.backend == u.cursor.backend
                && base.value.version <= d.meta.value.cursor.version)
  }

  /** A faithful update whose base is not ahead of what is stored leaves the mirror right, overlapping or not. */
  lemma OverlapIsExact(d: Disk, t: Timeline, c: ClientId, u: Update, base: Option<Cursor>, now: nat)
    requires MirrorOk(d, t) && Faithful(u, base, t) && InOrder(d, u, base)
    ensures MirrorOk(Apply(d, c, u, now), t)
  {
    if !Subsumed(StoredCursor(d), u) && !u.clear {
      assert FaithfulFrom(u, t, d.meta.value.cursor.version);
    }
  }

  /**
   * A delta from version `b`, applied to rows at `v`, is right exactly if no row that last changed after
   * `v` and up to `b` differs; with `b` at or below `v` there is none.
   */
  lemma DeltaOverStaleIff(rows: Store, past: Table, b: nat, v: nat, ops: seq<PatchOp>)
    requires IsDelta(ops, rows, b) && Tied(rows, past, v)
    ensures Absorb(past, ops) == Live(rows) <==>
            forall k :: k in rows && v < rows[k].version <= b ==> Find(past, k) == Find(Live(rows), k)
  {
    AbsorbIsApply(past, ops);
    ApplyOpsPointwise(past, ops);
    var after := ApplyOps(past, ops);
    forall k
      ensures Find(after, k) == if k in rows && rows[k].version > b then Find(Live(rows), k) else Find(past, k)
      ensures (k in rows && v < rows[k].version) || Find(past, k) == Find(Live(rows), k)
    {
      assert Agrees(rows, past, v, k);
      if Touches(ops, k) {
        var i :| 0 <= i < |ops| && !ops[i].Clear? && ops[i].key == k;
        assert ops[i] == OpFor(k, rows[k]);
      }
    }
    if forall k :: k in rows && v < rows[k].version <= b ==> Find(past, k) == Find(Live(rows), k) {
      TablesEqual(after, Live(rows));
    }
  }

  // ----- tabs writing one database -----

  /** Each tab's cursor is the one it loaded or last stored. */
  datatype World = World(disk: Disk, cursors: map<ClientId, Option<Cursor>>)

  datatype Event =
    | Loads(c: ClientId, staleBefore: int)
    | Applies(c: ClientId, u: Update, now: nat)
    | Saves(c: ClientId, outbox: seq<Client.Entry>, confirmed: nat, now: nat)

  function After(w: World, e: Event): World {
    match e
    case Loads(c, staleBefore) =>
      World(Collected(w.disk, c, staleBefore), w.cursors[c := StoredCursor(w.disk)])
    case Applies(c, u, now) => World(Apply(w.disk, c, u, now), w.cursors[c := Some(u.cursor)])
    case Saves(c, outbox, confirmed, now) => w.(disk := Saved(w.disk, c, outbox, confirmed, now))
  }

  /** A tab persists faithful updates of one history, each from its own cursor or clearing. */
  ghost predicate Allowed(w: World, e: Event, t: Timeline, backend: string) {
    e.Applies? ==>
      e.c in w.cursors && e.u.cursor.backend == backend && Faithful(e.u, w.cursors[e.c], t)
  }

  /** No clear takes the stored version back. */
  ghost predicate Forward(w: World, e: Event) {
    e.Applies? && e.u.clear && w.disk.meta.Some? ==> w.disk.meta.value.cursor.version <= e.u.cursor.version
  }

  ghost predicate Inv(w: World, t: Timeline, backend: string) {
    && MirrorOk(w.disk, t)
    && (w.disk.meta.Some? ==> w.disk.meta.value.cursor.backend == backend)
    && forall c :: c in w.cursors && w.cursors[c].Some? ==>
         && w.disk.meta.Some?
         && w.cursors[c].value.version <= w.disk.meta.value.cursor.version
  }

  lemma EventKeeps(w: World, e: Event, t: Timeline, backend: string)
    requires Inv(w, t, backend) && Allowed(w, e, t, backend) && Forward(w, e)
    ensures Inv(After(w, e), t, backend)
  {
    if e.Applies? {
      OverlapIsExact(w.disk, t, e.c, e.u, w.cursors[e.c], e.now);
    }
  }

  function Final(w: World, es: seq<Event>): World {
    if es == [] then w else After(Final(w, es[..|es| - 1]), es[|es| - 1])
  }

  ghost predicate Orderly(w: World, es: seq<Event>, t: Timeline, backend: string) {
    forall i :: 0 <= i < |es| ==> OrderlyAt(w, es, i, t, backend)
  }

  ghost predicate OrderlyAt(w: World, es: seq<Event>, i: nat, t: Timeline, backend: string)
    requires i < |es|
  {
    Allowed(Final(w, es[..i]), es[i], t, backend) && Forward(Final(w, es[..i]), es[i])
  }

  /**
   * However tabs interleave, what any of them would load at any time is the server's rows at the cursor
   * it loads with, as long as no late clear takes the stored version back.
   */
  lemma {:induction false} MirrorHolds(es: seq<Event>, t: Timeline, backend: string, c: ClientId)
    requires Orderly(World(EMPTY_DISK, map[]), es, t, backend)
    ensures var w := Final(World(EMPTY_DISK, map[]), es);
            && Inv(w, t, backend)
            && (Loaded(w.disk, c).Some? && Loaded(w.disk, c).value.cursor.Some? ==>
                  Loaded(w.disk, c).value.cursor.value in t
                  && Loaded(w.disk, c).value.rows == t[Loaded(w.disk, c).value.cursor.value])
  {
    var start := World(EMPTY_DISK, map[]);
    if es != [] {
      var init := es[..|es| - 1];
      forall i | 0 <= i < |init|
        ensures OrderlyAt(start, init, i, t, backend)
      {
        assert OrderlyAt(start, es, i, t, backend);
        assert init[..i] == es[..i];
      }
      MirrorHolds(init, t, backend, c);
      assert OrderlyAt(start, es, |init|, t, backend);
      EventKeeps(Final(start, init), es[|init|], t, backend);
    }
  }

  /**
   * The guard compares cursors only, so a clear stored late takes the mirror back, and the next delta of
   * a tab that was ahead is stored over rows it does not start from.
   */
  lemma LateClearBreaksMirror(x: Key, y: Key, data: Data, backend: string, a: ClientId, b: ClientId)
    requires x != y && a != b
    ensures var (c1, c2, c3) := (Cursor(backend, 1), Cursor(backend, 2), Cursor(backend, 3));
            var t: Timeline := map[c1 := map[], c2 := map[x := data], c3 := map[x := data, y := data]];
            var w := World(Disk(Some(Meta(1, c2)), t[c2], map[]), map[a := None, b := Some(c2)]);
            var late := Applies(a, Update([], true, c1, 1, 0, []), 0);
            var next := Applies(b, Update([PatchOp.Put(y, data)], false, c3, 1, 0, []), 0);
            && Inv(w, t, backend)
            && Allowed(w, late, t, backend) && Allowed(After(w, late), next, t, backend)
            && !MirrorOk(After(After(w, late), next).disk, t)
  {
    var (c1, c2, c3) := (Cursor(backend, 1), Cursor(backend, 2), Cursor(backend, 3));
    var t: Timeline := map[c1 := map[], c2 := map[x := data], c3 := map[x := data, y := data]];
    var w := World(Disk(Some(Meta(1, c2)), t[c2], map[]), map[a := None, b := Some(c2)]);
    var put := [PatchOp.Put(y, data)];
    assert put[1..] == [];
    forall base: Table
      ensures ApplyOps(base, put) == base[y := data]
    {
      assert ApplyOps(ApplyOp(base, put[0]), []) == base[y := data];
    }
    var late := Applies(a, Update([], true, c1, 1, 0, []), 0);
    var next := Applies(b, Update(put, false, c3, 1, 0, []), 0);
    forall v: nat | 2 <= v <= 3
      ensures FaithfulFrom(next.u, t, v)
    {
    }
    var w' := After(w, late);
    assert w'.disk.rows == map[] && w'.disk.meta == Some(Meta(1, c1));
    assert Written(w'.disk.rows, next.u) == map[y := data];
    assert x !in After(w', next).disk.rows;
  }

  // ----- the objects -----

  class MemorySyncStore {
    var schemaVersion: Option<nat>
    var cursor: Option<Cursor>
    var confirmedLmid: nat
    var rows: Tables
    var outbox: seq<Client.Entry>
    var hasState: bool

    ghost predicate Valid()
      reads this
    {
      !hasState ==> schemaVersion == None && cursor == None && confirmedLmid == 0 && Join(rows) == map[] && outbox == []
    }

    ghost function State(): Option<Client.Persisted>
      reads this
    {
      if hasState then Some(Client.Persisted(cursor, schemaVersion, confirmedLmid, Join(rows), outbox)) else None
    }

    constructor ()
      ensures Valid() && State() == None
    {
      schemaVersion, cursor, confirmedLmid, rows, outbox, hasState := None, None, 0, map[], [], false;
    }

    method SaveOutbox(outbox: seq<Client.Entry>, confirmedLmid: nat)
      requires Valid()
      modifies this
      ensures Valid() && State() == MemorySave(old(State()), outbox, confirmedLmid)
      ensures rows == old(rows) && cursor == old(cursor) && schemaVersion == old(schemaVersion)
    {
      this.outbox, this.confirmedLmid, hasState := outbox, confirmedLmid, true;
    }

    method WriteOps(ops: seq<PatchOp>)
      requires !HasClear(ops)
      modifies this`rows
      ensures Join(rows) == ApplyOps(old(Join(rows)), ops)
    {
      for i := 0 to |ops|
        invariant Join(rows) == ApplyOps(old(Join(rows)), ops[..i])
      {
        assert ops[..i + 1] == ops[..i] + [ops[i]];
        ApplyOpsAppend(old(Join(rows)), ops[..i], ops[i]);
        ghost var was := rows;
        match ops[i]
        case Clear => assert false;
        case Put(k, value) =>
          var byId := if k.tbl in rows then rows[k.tbl] else map[];
          rows := rows[k.tbl := byId[k.id := value]];
          JoinPut(was, k, value);
        case Del(k) =>
          if k.tbl in rows { rows := rows[k.tbl := rows[k.tbl] - {k.id}]; }
          JoinDel(was, k);
      }
      assert ops[..|ops|] == ops;
    }

    method ApplyPoke(u: Update)
      requires Valid() && !HasClear(u.ops)
      modifies this
      ensures Valid() && State() == MemoryApply(old(State()), u)
    {
      if !u.clear && cursor != None && cursor.value.backend == u.cursor.backend && cursor.value.version >= u.cursor.version {
        SaveOutbox(u.outbox, u.confirmed);
        return;
      }
      if u.clear { rows := map[]; }
      WriteOps(u.ops);
      cursor, schemaVersion, confirmedLmid := Some(u.cursor), Some(u.schemaVersion), u.confirmed;
      outbox, hasState := u.outbox, true;
    }

    method Reset()
      modifies this
      ensures Valid() && State() == None
    {
      schemaVersion, cursor, confirmedLmid, rows, outbox, hasState := None, None, 0, map[], [], false;
    }
  }

  lemma JoinPut(tables: Tables, k: Key, value: Data)
    ensures var byId := if k.tbl in tables then tables[k.tbl] else map[];
            Join(tables[k.tbl := byId[k.id := value]]) == Join(tables)[k := value]
  {
    var byId := if k.tbl in tables then tables[k.tbl] else map[];
    var tables' := tables[k.tbl := byId[k.id := value]];
    forall x
      ensures Find(Join(tables'), x) == Find(Join(tables)[k := value], x)
    {
      JoinAt(tables, x);
      JoinAt(tables', x);
    }
    TablesEqual(Join(tables'), Join(tables)[k := value]);
  }

  lemma JoinDel(tables: Tables, k: Key)
    ensures Join(if k.tbl in tables then tables[k.tbl := tables[k.tbl] - {k.id}] else tables) == Join(tables) - {k}
  {
    var tables' := if k.tbl in tables then tables[k.tbl := tables[k.tbl] - {k.id}] else tables;
    forall x
      ensures Find(Join(tables'), x) == Find(Join(tables) - {k}, x)
    {
      JoinAt(tables, x);
      JoinAt(tables', x);
    }
    TablesEqual(Join(tables'), Join(tables) - {k});
  }

  /** The three object stores, shared by every tab. */
  class Database {
    var rows: Table
    var meta: Option<Meta>
    var outbox: map<ClientId, Record>

    ghost function State(): Disk
      reads this
    {
      Disk(meta, rows, outbox)
    }

    constructor ()
      ensures State() == EMPTY_DISK
    {
      rows, meta, outbox := map[], None, map[];
    }
  }

  const WRITE_BATCH := 1_000

  class IndexedDBSyncStore {
    const db: Database
    const clientId: ClientId
    const outboxMaxAge: nat

    constructor (db: Database, clientId: ClientId, outboxMaxAge: nat)
      ensures this.db == db && this.clientId == clientId && this.outboxMaxAge == outboxMaxAge
    {
      this.db, this.clientId, this.outboxMaxAge := db, clientId, outboxMaxAge;
    }

    /** Hands back what is stored, and drops other clients' outboxes that went stale. */
    method Load(now: nat) returns (state: Option<Client.Persisted>)
      modifies db
      ensures state == Loaded(old(db.State()), clientId)
      ensures db.State() == Collected(old(db.State()), clientId, now - outboxMaxAge)
      ensures db.rows == old(db.rows) && db.meta == old(db.meta)
      ensures forall k :: k in db.outbox <==>
                k in old(db.outbox) && (k == clientId || old(db.outbox)[k].updatedAt >= now - outboxMaxAge)
      ensures forall k :: k in db.outbox ==> db.outbox[k] == old(db.outbox)[k]
    {
      var meta := db.meta;
      var staleBefore := now - outboxMaxAge;
      var keys := db.outbox.Keys;
      ghost var was := db.State();
      while keys != {}
        invariant keys <= was.outboxes.Keys && db.meta == was.meta && db.rows == was.rows
        invariant forall k :: k in db.outbox <==>
                    k in was.outboxes && (k in keys || k == clientId || was.outboxes[k].updatedAt >= staleBefore)
        invariant forall k :: k in db.outbox ==> db.outbox[k] == was.outboxes[k]
      {
        var key :| key in keys;
        keys := keys - {key};
        if key != clientId && db.outbox[key].updatedAt < staleBefore {
          db.outbox := db.outbox - {key};
        }
      }
      assert db.outbox == Collected(was, clientId, staleBefore).outboxes;
      if meta.None? && clientId !in db.outbox { return None; }
      var (entries, confirmed) :=
        if clientId in db.outbox then (db.outbox[clientId].entries, db.outbox[clientId].confirmed) else ([], 0);
      return Some(Client.Persisted(
        if meta.None? then None else Some(meta.value.cursor), if meta.None? then None else Some(meta.value.schemaVersion),
        confirmed, if meta.None? then map[] else db.rows, entries));
    }

    /** In batches, within one transaction. */
    method WriteRows(ops: seq<PatchOp>)
      requires !HasClear(ops)
      modifies db`rows
      ensures db.rows == ApplyOps(old(db.rows), ops)
    {
      var i := 0;
      while i < |ops|
        invariant 0 <= i <= |ops| && db.rows == ApplyOps(old(db.rows), ops[..i])
      {
        var end := if i + WRITE_BATCH < |ops| then i + WRITE_BATCH else |ops|;
        ghost var from := i;
        while i < end
          invariant from <= i <= end <= |ops| && db.rows == ApplyOps(old(db.rows), ops[..i])
          decreases end - i
        {
          assert ops[..i + 1] == ops[..i] + [ops[i]];
          ApplyOpsAppend(old(db.rows), ops[..i], ops[i]);
          match ops[i] {
            case Clear => assert false;
            case Put(k, value) => db.rows := db.rows[k := value];
            case Del(k) => db.rows := db.rows - {k};
          }
          i := i + 1;
        }
      }
      assert ops[..|ops|] == ops;
    }

    method ApplyPoke(u: Update, now: nat)
      requires !HasClear(u.ops)
      modifies db
      ensures db.State() == Apply(old(db.State()), clientId, u, now)
    {
      var stored := db.meta;
      var subsumed := !u.clear && stored.Some?
        && stored.value.cursor.backend == u.cursor.backend && stored.value.cursor.version >= u.cursor.version;
      if !subsumed {
        if u.clear { db.rows := map[]; }
        WriteRows(u.ops);
        db.meta := Some(Meta(u.schemaVersion, u.cursor));
      }
      db.outbox := db.outbox[clientId := Record(u.outbox, u.confirmed, now)];
    }

    method SaveOutbox(outbox: seq<Client.Entry>, confirmedLmid: nat, now: nat)
      modifies db`outbox
      ensures db.State() == Saved(old(db.State()), clientId, outbox, confirmedLmid, now)
    {
      db.outbox := db.outbox[clientId := Record(outbox, confirmedLmid, now)];
    }

    method Reset()
      modifies db
      ensures db.State() == EMPTY_DISK
    {
      db.rows, db.meta, db.outbox := map[], None, map[];
    }
  }
}
