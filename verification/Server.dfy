/**
 * The state the workspace object keeps in SQLite and memory (packages/server/src/do.ts), what each
 * handler does to it, and why every poke it builds takes one snapshot of its history to another.
 */
module Server {
  import opened Rows
  import opened WriteSets

  type ClientId = string

  /** A position in a workspace's history; a reset starts a new history under a fresh backend id. */
  datatype Cursor = Cursor(backend: string, version: nat)

  datatype Intent = Intent(name: string, args: Json, seed: string)

  datatype Mutation = Mutation(id: nat, intent: Intent)

  datatype MutationResult = MutationResult(id: nat, error: Option<AppError>)

  datatype LogEntry = LogEntry(version: Option<nat>, client: ClientId, id: nat, intent: Intent, error: Option<AppError>)

  datatype Snapshot = Snapshot(at: Cursor, patch: seq<PatchOp>)

  datatype State = State(
    backend: string, version: nat, minCursor: nat, rows: Store,
    clients: map<ClientId, nat>, log: seq<LogEntry>, snapshot: Option<Snapshot>)
  {
    function Here(): Cursor { Cursor(backend, version) }
  }

  datatype Poke = Poke(
    base: Option<Cursor>, ops: seq<PatchOp>,
    lmids: map<ClientId, nat>, results: seq<MutationResult>, end: Cursor)

  // ----- patches -----

  function OpFor(k: Key, r: Stored): PatchOp {
    if r.deleted then PatchOp.Del(k) else PatchOp.Put(k, r.data)
  }

  /** Every row stamped after `v`, tombstones as deletes, in version order. */
  ghost predicate IsDelta(ops: seq<PatchOp>, rows: Store, v: nat) {
    && OneOpPerKey(ops)
    && (forall i :: 0 <= i < |ops| ==>
          ops[i].key in rows && rows[ops[i].key].version > v && ops[i] == OpFor(ops[i].key, rows[ops[i].key]))
    && (forall k :: k in rows && rows[k].version > v ==> Touches(ops, k))
    && (forall i, j :: 0 <= i < j < |ops| ==> rows[ops[i].key].version <= rows[ops[j].key].version)
  }

  /** `clear`, then every live row. */
  ghost predicate IsBootstrap(ops: seq<PatchOp>, live: Table) {
    && |ops| > 0 && ops[0].Clear?
    && OneOpPerKey(ops[1..])
    && (forall i :: 1 <= i < |ops| ==> ops[i].Put? && ops[i].key in live && ops[i].value == live[ops[i].key])
    && (forall k :: k in live ==> Touches(ops[1..], k))
  }

  /** The rows at version `v` of this history, as far as the current rows can still tell. */
  ghost predicate Tied(rows: Store, past: Table, v: nat) {
    forall k :: Agrees(rows, past, v, k)
  }

  predicate Agrees(rows: Store, past: Table, v: nat, k: Key) {
    if k in rows then rows[k].version <= v ==> Find(past, k) == Find(Live(rows), k)
    else k !in past
  }

  /**
   * A delta carries current rows, so the one built for version `b` takes the rows of every later
   * version to the current ones as well.
   */
  lemma DeltaSound(rows: Store, past: Table, b: nat, v: nat, ops: seq<PatchOp>)
    requires IsDelta(ops, rows, b) && b <= v && Tied(rows, past, v)
    ensures Absorb(past, ops) == Live(rows)
  {
    AbsorbIsApply(past, ops);
    ApplyOpsPointwise(past, ops);
    var after := ApplyOps(past, ops);
    forall k
      ensures Find(after, k) == Find(Live(rows), k)
    {
      assert Agrees(rows, past, v, k);
      if Touches(ops, k) {
        var i :| 0 <= i < |ops| && !ops[i].Clear? && ops[i].key == k;
        assert ops[i] == OpFor(k, rows[k]);
      } else if k in rows {
        assert rows[k].version <= b;
      }
    }
    TablesEqual(after, Live(rows));
  }

  /** A bootstrap reaches the live rows from any base. */
  lemma BootstrapSound(live: Table, base: Table, ops: seq<PatchOp>)
    requires IsBootstrap(ops, live)
    ensures HasClear(ops) && Absorb(base, ops) == live
  {
    AbsorbIsApply(base, ops);
    var puts := ops[1..];
    ApplyOpsPointwise(map[], puts);
    var after := ApplyOps(map[], puts);
    forall k
      ensures Find(after, k) == Find(live, k)
    {
      if Touches(puts, k) {
        var i :| 0 <= i < |puts| && !puts[i].Clear? && puts[i].key == k;
        assert puts[i] == ops[i + 1];
      }
    }
    TablesEqual(after, live);
  }

  // ----- the history the current rows come from -----

  type Timeline = map<Cursor, Table>

  ghost predicate Extends(t: Timeline, t': Timeline) {
    forall c :: c in t ==> c in t' && t'[c] == t[c]
  }

  /** Every state reached enters the history under its cursor. */
  function Record(t: Timeline, s: State): Timeline {
    t[s.Here() := Live(s.rows)]
  }

  ghost predicate RowsOk(s: State, t: Timeline) {
    && s.minCursor <= s.version
    && (forall k :: k in s.rows ==> s.rows[k].version <= s.version)
    && (forall c :: c in t && c.backend == s.backend ==> c.version <= s.version)
    && (forall v: nat :: s.minCursor <= v <= s.version ==> AtVersion(s, t, v))
  }

  ghost predicate AtVersion(s: State, t: Timeline, v: nat) {
    Cursor(s.backend, v) in t && Tied(s.rows, t[Cursor(s.backend, v)], v)
  }

  /** A cached bootstrap that would still be served is what a rebuild would give. */
  ghost predicate CacheOk(s: State) {
    s.snapshot.Some? && s.snapshot.value.at == s.Here() ==> IsBootstrap(s.snapshot.value.patch, Live(s.rows))
  }

  ghost predicate HistoryOk(s: State, t: Timeline) {
    RowsOk(s, t) && CacheOk(s)
  }

  lemma NowIsLive(s: State, t: Timeline)
    requires RowsOk(s, t)
    ensures s.Here() in t && t[s.Here()] == Live(s.rows)
  {
    assert AtVersion(s, t, s.version);
    var now := t[s.Here()];
    forall k
      ensures Find(now, k) == Find(Live(s.rows), k)
    {
      assert Agrees(s.rows, now, s.version, k);
    }
    TablesEqual(now, Live(s.rows));
  }

  /** Recording a state that is already there changes nothing. */
  lemma RecordAgain(s: State, t: Timeline)
    requires RowsOk(s, t)
    ensures Record(t, s) == t
  {
    NowIsLive(s, t);
  }

  /**
   * A poke is exact for a history when it takes the rows at its base, or at any version from there
   * to its end, to the rows at its end; with a `clear` it does so from anything at all.
   */
  ghost predicate Exact(p: Poke, t: Timeline) {
    && p.end in t
    && if HasClear(p.ops) then forall base: Table :: Absorb(base, p.ops) == t[p.end]
       else
         && p.base.Some? && p.base.value.backend == p.end.backend && p.base.value.version <= p.end.version
         && (forall v: nat :: p.base.value.version <= v <= p.end.version ==> ExactFrom(p, t, v))
  }

  ghost predicate ExactFrom(p: Poke, t: Timeline, v: nat) {
    var c := Cursor(p.end.backend, v);
    c in t && p.end in t && Absorb(t[c], p.ops) == t[p.end]
  }

  /** Growing the history keeps every poke already sent exact. */
  lemma ExactIsStable(p: Poke, t: Timeline, t': Timeline)
    requires Exact(p, t) && Extends(t, t')
    ensures Exact(p, t')
  {
    if !HasClear(p.ops) {
      forall v: nat | p.base.value.version <= v <= p.end.version
        ensures ExactFrom(p, t', v)
      {
        assert ExactFrom(p, t, v);
      }
    }
  }

  lemma DeltaPokeExact(s: State, t: Timeline, p: Poke)
    requires HistoryOk(s, t)
    requires p.base.Some? && p.base.value.backend == s.backend
    requires s.minCursor <= p.base.value.version <= s.version
    requires IsDelta(p.ops, s.rows, p.base.value.version) && p.end == s.Here()
    ensures Exact(p, t)
  {
    NowIsLive(s, t);
    forall v: nat | p.base.value.version <= v <= s.version
      ensures ExactFrom(p, t, v)
    {
      assert AtVersion(s, t, v);
      DeltaSound(s.rows, t[Cursor(s.backend, v)], p.base.value.version, v, p.ops);
    }
  }

  lemma BootstrapPokeExact(s: State, t: Timeline, p: Poke)
    requires HistoryOk(s, t) && IsBootstrap(p.ops, Live(s.rows)) && p.end == s.Here()
    ensures Exact(p, t)
  {
    NowIsLive(s, t);
    forall base: Table
      ensures Absorb(base, p.ops) == t[p.end]
    {
      BootstrapSound(Live(s.rows), base, p.ops);
    }
    BootstrapSound(Live(s.rows), map[], p.ops);
  }

  // ----- hello -----

  function LastMutationId(s: State, c: ClientId): nat {
    if c in s.clients then s.clients[c] else 0
  }

  function TouchClient(s: State, c: ClientId): State {
    s.(clients := s.clients[c := LastMutationId(s, c)])
  }

  predicate Accepts(s: State, cursor: Option<Cursor>) {
    && cursor.Some?
    && cursor.value.backend == s.backend
    && s.minCursor <= cursor.value.version <= s.version
  }

  /** The bootstrap patch served, and the cache it leaves behind. */
  ghost predicate Bootstraps(s: State, s': State, patch: seq<PatchOp>) {
    if s.snapshot.Some? && s.snapshot.value.at == s.Here() then
      s' == s && patch == s.snapshot.value.patch
    else
      s' == s.(snapshot := Some(Snapshot(s.Here(), patch))) && IsBootstrap(patch, Live(s.rows))
  }

  ghost predicate Hello(s: State, c: ClientId, cursor: Option<Cursor>, s': State, p: Poke) {
    var touched := TouchClient(s, c);
    && p.lmids == map[c := LastMutationId(s, c)] && p.results == []
    && p.end == s.Here()
    && if Accepts(s, cursor) then
         s' == touched && p.base == cursor && IsDelta(p.ops, s.rows, cursor.value.version)
       else
         p.base == None && Bootstraps(touched, s', p.ops)
  }

  /** A cached bootstrap equals what a rebuild would serve, so hello answers alike either way. */
  lemma BootstrapsIsBootstrap(s: State, s': State, patch: seq<PatchOp>)
    requires CacheOk(s) && Bootstraps(s, s', patch)
    ensures IsBootstrap(patch, Live(s.rows)) && CacheOk(s')
    ensures s' == s.(snapshot := s'.snapshot)
  {
  }

  /** Whatever cursor a client presents, hello's answer is exact and the history is kept. */
  lemma HelloExact(s: State, t: Timeline, c: ClientId, cursor: Option<Cursor>, s': State, p: Poke)
    requires HistoryOk(s, t) && Hello(s, c, cursor, s', p)
    ensures HistoryOk(s', t) && Exact(p, t)
    ensures HasClear(p.ops) <==> !Accepts(s, cursor)
  {
    RowsOkOnlyRows(s, t, s');
    if Accepts(s, cursor) {
      DeltaPokeExact(s, t, p);
    } else {
      BootstrapsIsBootstrap(TouchClient(s, c), s', p.ops);
      BootstrapPokeExact(s, t, p);
    }
  }

  /**
   * Whose cursor is of this history, not ahead of it and not behind the oldest one kept gets what came since,
   * anyone else everything. Either way the client is now known, and is told the last id recorded for it.
   */
  lemma HelloAnswers(s: State, c: ClientId, cursor: Option<Cursor>, s': State, p: Poke)
    requires Hello(s, c, cursor, s', p)
    ensures p.end == Cursor(s.backend, s.version) && p.results == []
    ensures p.base == if cursor.Some? && cursor.value.backend == s.backend && s.minCursor <= cursor.value.version <= s.version
                      then cursor else None
    ensures s'.clients == s.clients[c := if c in s.clients then s.clients[c] else 0] && p.lmids == map[c := s'.clients[c]]
    ensures s'.rows == s.rows && s'.log == s.log && s'.Here() == s.Here() && s'.minCursor == s.minCursor
  {
  }

  lemma RowsOkOnlyRows(s: State, t: Timeline, s': State)
    requires RowsOk(s, t)
    requires s'.rows == s.rows && s'.backend == s.backend && s'.version == s.version && s'.minCursor == s.minCursor
    ensures RowsOk(s', t)
  {
    forall v: nat | s'.minCursor <= v <= s'.version
      ensures AtVersion(s', t, v)
    {
      assert AtVersion(s, t, v);
    }
  }

  // ----- push -----

  /** What running one mutation came to; the server learns it from the mutator and the write buffer. */
  datatype Outcome = Wrote(puts: Table, dels: set<Key>) | Rejected(error: AppError) | Transient

  function Wrote?(s: State, o: Outcome): bool {
    o.Wrote? && Written(s.rows, o.puts, o.dels) != {}
  }

  /** One transaction: rows at the next version if any changed, the LMID, the log entry. */
  function Commit(s: State, c: ClientId, m: Mutation, o: Outcome): State
    requires !o.Transient?
  {
    var wrote := Wrote?(s, o);
    var v := s.version + 1;
    s.(rows := if wrote then Flushed(s.rows, o.puts, o.dels, v) else s.rows,
       version := if wrote then v else s.version,
       snapshot := if wrote then None else s.snapshot,
       // The LMID is written by an UPDATE: a client without a row gets none.
       clients := if c in s.clients then s.clients[c := m.id] else s.clients,
       log := s.log + [LogEntry(if wrote then Some(v) else None, c, m.id, m.intent,
                                if o.Rejected? then Some(o.error) else None)])
  }

  datatype Stop = Running | Gap(expected: nat) | Aborted

  datatype Batch = Batch(s: State, lmid: nat, results: seq<MutationResult>, stop: Stop)

  /** One mutation of a push: duplicates are skipped, a gap or a transient failure ends the batch. */
  function Advance(b: Batch, c: ClientId, m: Mutation, o: Outcome): Batch {
    if b.stop != Running || m.id < b.lmid + 1 then b
    else if m.id > b.lmid + 1 then b.(stop := Gap(b.lmid + 1))
    else if o.Transient? then b.(stop := Aborted)
    else Batch(Commit(b.s, c, m, o), m.id,
               b.results + [MutationResult(m.id, if o.Rejected? then Some(o.error) else None)], Running)
  }

  function RunBatch(b: Batch, c: ClientId, ms: seq<Mutation>, os: seq<Outcome>): Batch
    requires |ms| == |os|
  {
    if ms == [] then b
    else Advance(RunBatch(b, c, ms[..|ms| - 1], os[..|os| - 1]), c, ms[|ms| - 1], os[|os| - 1])
  }

  lemma RunOne(b: Batch, c: ClientId, m: Mutation, o: Outcome)
    ensures RunBatch(b, c, [m], [o]) == Advance(b, c, m, o)
  {
    assert [m][..0] == [] && [o][..0] == [];
    assert RunBatch(b, c, [m][..0], [o][..0]) == b;
  }

  function StartBatch(s: State, c: ClientId): Batch {
    Batch(s, LastMutationId(s, c), [], Running)
  }

  datatype Outgoing = Problem(code: ErrorCode) | Send(poke: Poke, everyone: bool)

  datatype ErrorCode = PushInvalid | Internal

  /** What a push on a ready socket leaves and answers; `out` goes out in order. */
  ghost predicate Push(s: State, c: ClientId, ms: seq<Mutation>, os: seq<Outcome>, s': State, out: seq<Outgoing>)
    requires |ms| == |os|
  {
    var b := RunBatch(StartBatch(s, c), c, ms, os);
    && s' == b.s
    && if b.stop.Aborted? then out == [Problem(Internal)]
       else
         && out != [] && out[|out| - 1].Send?
         && out[..|out| - 1] == (if b.stop.Gap? then [Problem(PushInvalid)] else [])
         && PushPoke(s, c, b, out[|out| - 1].poke, out[|out| - 1].everyone)
  }

  ghost predicate PushPoke(s: State, c: ClientId, b: Batch, p: Poke, everyone: bool) {
    && p.end == b.s.Here() && p.lmids == map[c := b.lmid]
    && if b.lmid == LastMutationId(s, c) then
         p.base == Some(b.s.Here()) && p.ops == [] && p.results == [] && !everyone
       else
         && p.base == Some(s.Here()) && p.results == b.results
         && IsDelta(p.ops, b.s.rows, s.version)
         && everyone == (p.ops != [])
  }

  /** Stamping a mutation's rows with the next version extends the history by exactly one snapshot. */
  lemma CommitKeeps(s: State, t: Timeline, c: ClientId, m: Mutation, o: Outcome)
    requires HistoryOk(s, t) && !o.Transient?
    requires o.Wrote? ==> o.puts.Keys !! o.dels
    ensures var s' := Commit(s, c, m, o); Extends(t, Record(t, s')) && HistoryOk(s', Record(t, s'))
  {
    hide RowsOk, Flushed, Written, Live;
    var s' := Commit(s, c, m, o);
    if !Wrote?(s, o) {
      RowsOkOnlyRows(s, t, s');
      RecordAgain(s', t);
    } else {
      KeptCursors(s, t);
      WriteKeeps(s, t, o.puts, o.dels, s.minCursor);
      RowsOkOnlyRows(s.(rows := s'.rows, version := s'.version), Record(t, s'), s');
    }
  }

  lemma KeptCursors(s: State, t: Timeline)
    requires RowsOk(s, t)
    ensures s.minCursor <= s.version
  {
  }

  /** Shared by mutations and migrations, which differ only in which cursors stay valid. */
  lemma WriteKeeps(s: State, t: Timeline, puts: Table, dels: set<Key>, min: nat)
    requires RowsOk(s, t) && puts.Keys !! dels && s.minCursor <= min <= s.version + 1
    ensures var s' := s.(rows := Flushed(s.rows, puts, dels, s.version + 1), version := s.version + 1, minCursor := min);
            Extends(t, Record(t, s')) && RowsOk(s', Record(t, s'))
  {
    var rows' := Flushed(s.rows, puts, dels, s.version + 1);
    var s' := s.(rows := rows', version := s.version + 1, minCursor := min);
    var t' := Record(t, s');
    forall v: nat | s'.minCursor <= v <= s'.version
      ensures AtVersion(s', t', v)
    {
      if v <= s.version {
        assert AtVersion(s, t, v);
        var past := t[Cursor(s.backend, v)];
        forall k
          ensures Agrees(rows', past, v, k)
        {
          assert Agrees(s.rows, past, v, k);
        }
      }
    }
  }

  ghost predicate Disjoint(os: seq<Outcome>) {
    forall i :: 0 <= i < |os| && os[i].Wrote? ==> os[i].puts.Keys !! os[i].dels
  }

  function RecordBatch(t: Timeline, b: Batch, c: ClientId, ms: seq<Mutation>, os: seq<Outcome>): Timeline
    requires |ms| == |os|
  {
    if ms == [] then t
    else Record(RecordBatch(t, b, c, ms[..|ms| - 1], os[..|os| - 1]), RunBatch(b, c, ms, os).s)
  }

  lemma {:induction false} RunBatchKeeps(b: Batch, t: Timeline, c: ClientId, ms: seq<Mutation>, os: seq<Outcome>)
    requires |ms| == |os| && Disjoint(os) && HistoryOk(b.s, t)
    ensures var b', t' := RunBatch(b, c, ms, os), RecordBatch(t, b, c, ms, os);
            && Extends(t, t') && HistoryOk(b'.s, t')
            && b'.s.backend == b.s.backend && b'.s.minCursor == b.s.minCursor && b.s.version <= b'.s.version
            && (forall x :: x in t' && x !in t ==> x.backend == b.s.backend)
    decreases |ms|
  {
    if ms != [] {
      var n := |ms| - 1;
      RunBatchKeeps(b, t, c, ms[..n], os[..n]);
      var b', t' := RunBatch(b, c, ms[..n], os[..n]), RecordBatch(t, b, c, ms[..n], os[..n]);
      AdvanceKeeps(b', t', c, ms[n], os[n]);
    }
  }

  lemma AdvanceKeeps(b: Batch, t: Timeline, c: ClientId, m: Mutation, o: Outcome)
    requires HistoryOk(b.s, t) && (o.Wrote? ==> o.puts.Keys !! o.dels)
    ensures var s' := Advance(b, c, m, o).s;
            && Extends(t, Record(t, s')) && HistoryOk(s', Record(t, s'))
            && s'.backend == b.s.backend && s'.minCursor == b.s.minCursor && b.s.version <= s'.version
  {
    if Advance(b, c, m, o).s == b.s {
      RecordAgain(b.s, t);
    } else {
      CommitKeeps(b.s, t, c, m, o);
    }
  }

  /** A push, cut short or not, extends the history and answers with exact pokes only. */
  lemma PushExact(s: State, t: Timeline, c: ClientId, ms: seq<Mutation>, os: seq<Outcome>, s': State, out: seq<Outgoing>)
    requires |ms| == |os| && Disjoint(os)
    requires HistoryOk(s, t) && Push(s, c, ms, os, s', out)
    ensures var t' := RecordBatch(t, StartBatch(s, c), c, ms, os);
            && Extends(t, t') && HistoryOk(s', t')
            && out != [] && (forall i :: 0 <= i < |out| - 1 ==> out[i].Problem?)
            && (out[|out| - 1].Send? ==> Exact(out[|out| - 1].poke, t'))
  {
    RunBatchKeeps(StartBatch(s, c), t, c, ms, os);
    var b, t' := RunBatch(StartBatch(s, c), c, ms, os), RecordBatch(t, StartBatch(s, c), c, ms, os);
    var last := out[|out| - 1];
    if !b.stop.Aborted? {
      assert forall i :: 0 <= i < |out| - 1 ==> out[i] == out[..|out| - 1][i];
      PushPokeExact(s, c, b, t', last.poke, last.everyone);
    }
  }

  lemma PushPokeExact(s: State, c: ClientId, b: Batch, t: Timeline, p: Poke, everyone: bool)
    requires HistoryOk(b.s, t) && PushPoke(s, c, b, p, everyone)
    requires b.s.backend == s.backend && b.s.minCursor <= s.version <= b.s.version
    ensures Exact(p, t)
  {
    if b.lmid == LastMutationId(s, c) {
      EmptyPokeExact(b.s, t, p);
    } else {
      DeltaPokeExact(b.s, t, p);
    }
  }

  /**
   * The version moves exactly when a row changes, so a push that changes none has an empty patch and
   * the cursors of the clients it is not sent to stay current.
   */
  lemma EmptyPatchIffSameVersion(s: State, t: Timeline, c: ClientId, ms: seq<Mutation>, os: seq<Outcome>, ops: seq<PatchOp>)
    requires |ms| == |os| && Disjoint(os) && HistoryOk(s, t)
    requires IsDelta(ops, RunBatch(StartBatch(s, c), c, ms, os).s.rows, s.version)
    ensures ops == [] <==> RunBatch(StartBatch(s, c), c, ms, os).s.version == s.version
  {
    var s' := RunBatch(StartBatch(s, c), c, ms, os).s;
    RunBatchKeeps(StartBatch(s, c), t, c, ms, os);
    NewestRowInBatch(StartBatch(s, c), c, ms, os);
    if s'.version > s.version {
      var k :| k in s'.rows && s'.rows[k].version == s'.version;
      assert Touches(ops, k);
    }
  }

  /** The last id a batch took is what the client's row records, if it has one. */
  lemma {:induction false} BatchRecords(b: Batch, c: ClientId, ms: seq<Mutation>, os: seq<Outcome>)
    requires |ms| == |os| && c in b.s.clients && b.lmid == LastMutationId(b.s, c)
    ensures var b' := RunBatch(b, c, ms, os); c in b'.s.clients && b'.lmid == LastMutationId(b'.s, c)
    decreases |ms|
  {
    if ms != [] {
      BatchRecords(b, c, ms[..|ms| - 1], os[..|os| - 1]);
    }
  }

  /** Mutation `i` of a push is the next one due when its turn comes. */
  ghost predicate Due(b: Batch, c: ClientId, ms: seq<Mutation>, os: seq<Outcome>, i: nat)
    requires i < |ms| == |os|
  {
    var before := RunBatch(b, c, ms[..i], os[..i]);
    before.stop == Running && ms[i].id == before.lmid + 1
  }

  ghost predicate DueSucceeds(b: Batch, c: ClientId, ms: seq<Mutation>, os: seq<Outcome>, i: nat)
    requires i < |ms| == |os|
  {
    Due(b, c, ms, os, i) ==> !os[i].Transient?
  }

  /** A gap-free batch that starts at or below the next id due runs to its end unless one of those due fails. */
  lemma {:induction false} GapFreeRuns(b: Batch, c: ClientId, ms: seq<Mutation>, os: seq<Outcome>)
    requires |ms| == |os| && ms != [] && b.stop == Running && ms[0].id <= b.lmid + 1
    requires forall i :: 0 <= i < |ms| ==> ms[i].id == ms[0].id + i
    requires forall i :: 0 <= i < |ms| ==> DueSucceeds(b, c, ms, os, i)
    ensures var b' := RunBatch(b, c, ms, os); var last := ms[|ms| - 1].id;
            b'.stop == Running && b'.lmid == if last > b.lmid then last else b.lmid
    decreases |ms|
  {
    var (init, os') := (ms[..|ms| - 1], os[..|os| - 1]);
    assert DueSucceeds(b, c, ms, os, |ms| - 1);
    if init == [] {
      assert RunBatch(b, c, init, os') == b;
    } else {
      forall i | 0 <= i < |init|
        ensures DueSucceeds(b, c, init, os', i)
      {
        assert DueSucceeds(b, c, ms, os, i);
        assert init[..i] == ms[..i] && os'[..i] == os[..i];
      }
      GapFreeRuns(b, c, init, os');
    }
  }

  /** A batch that took no id did nothing else either. */
  lemma {:induction false} IdleBatch(b: Batch, c: ClientId, ms: seq<Mutation>, os: seq<Outcome>)
    requires |ms| == |os|
    ensures var b' := RunBatch(b, c, ms, os);
            b'.lmid >= b.lmid && (b'.lmid == b.lmid ==> b'.s == b.s && b'.results == b.results)
    decreases |ms|
  {
    if ms != [] {
      IdleBatch(b, c, ms[..|ms| - 1], os[..|os| - 1]);
    }
  }

  /**
   * Who hears of a push that is not aborted: everyone exactly if the version moved. Whoever does is told
   * where the rows now are and, the sender being known, the last id recorded for it.
   */
  lemma PushReachesAllIff(s: State, t: Timeline, c: ClientId, ms: seq<Mutation>, os: seq<Outcome>, s': State, out: seq<Outgoing>)
    requires |ms| == |os| && Disjoint(os) && HistoryOk(s, t)
    requires Push(s, c, ms, os, s', out) && out != [] && out[|out| - 1].Send?
    ensures var last := out[|out| - 1];
            && (last.everyone <==> s'.version != s.version)
            && last.poke.end == s'.Here() && last.poke.base == Some(s.Here())
            && last.poke.lmids.Keys == {c}
            && (c in s.clients ==> last.poke.lmids[c] == LastMutationId(s', c))
  {
    var b := RunBatch(StartBatch(s, c), c, ms, os);
    var last := out[|out| - 1];
    assert !b.stop.Aborted? && PushPoke(s, c, b, last.poke, last.everyone);
    if c in s.clients { BatchRecords(StartBatch(s, c), c, ms, os); }
    IdleBatch(StartBatch(s, c), c, ms, os);
    if b.lmid != LastMutationId(s, c) {
      EmptyPatchIffSameVersion(s, t, c, ms, os, last.poke.ops);
    }
    RunBatchKeeps(StartBatch(s, c), t, c, ms, os);
  }

  /** Mutation `i` is reached while the batch runs, and is past the next id due. */
  ghost predicate Gaps(b: Batch, c: ClientId, ms: seq<Mutation>, os: seq<Outcome>, i: nat)
    requires i < |ms| == |os|
  {
    var before := RunBatch(b, c, ms[..i], os[..i]);
    before.stop == Running && ms[i].id > before.lmid + 1
  }

  ghost predicate FailsAt(b: Batch, c: ClientId, ms: seq<Mutation>, os: seq<Outcome>, i: nat)
    requires i < |ms| == |os|
  {
    Due(b, c, ms, os, i) && os[i].Transient?
  }

  /** What stops a batch: a due mutation that fails for the time being, or an id past the next one due. */
  lemma {:induction false} StopsIff(b: Batch, c: ClientId, ms: seq<Mutation>, os: seq<Outcome>)
    requires |ms| == |os| && b.stop == Running
    ensures RunBatch(b, c, ms, os).stop.Aborted? <==> exists i :: 0 <= i < |ms| && FailsAt(b, c, ms, os, i)
    ensures RunBatch(b, c, ms, os).stop.Gap? <==> exists i :: 0 <= i < |ms| && Gaps(b, c, ms, os, i)
    decreases |ms|
  {
    hide Commit;
    if ms != [] {
      var n := |ms| - 1;
      var (init, os') := (ms[..n], os[..n]);
      StopsIff(b, c, init, os');
      forall i: nat | i < n
        ensures FailsAt(b, c, ms, os, i) == FailsAt(b, c, init, os', i) && Gaps(b, c, ms, os, i) == Gaps(b, c, init, os', i)
      {
        assert init[..i] == ms[..i] && os'[..i] == os[..i];
      }
      assert RunBatch(b, c, ms, os) == Advance(RunBatch(b, c, init, os'), c, ms[n], os[n]);
      StopsOnce(b, c, ms, os);
    }
  }

  /** How the last mutation of a batch leaves it. */
  lemma StopsOnce(b: Batch, c: ClientId, ms: seq<Mutation>, os: seq<Outcome>)
    requires |ms| == |os| > 0
    ensures var n := |ms| - 1; var before := RunBatch(b, c, ms[..n], os[..n]).stop;
            && (RunBatch(b, c, ms, os).stop.Aborted? <==> before.Aborted? || FailsAt(b, c, ms, os, n))
            && (RunBatch(b, c, ms, os).stop.Gap? <==> before.Gap? || Gaps(b, c, ms, os, n))
  {
    hide Commit;
  }

  /**
   * A push is answered by an error alone exactly if a due mutation failed for the time being; otherwise by a poke,
   * after an error exactly if an id was skipped.
   */
  lemma PushAnswersIff(s: State, c: ClientId, ms: seq<Mutation>, os: seq<Outcome>, s': State, out: seq<Outgoing>)
    requires |ms| == |os| && Push(s, c, ms, os, s', out)
    ensures out == [Problem(Internal)] <==> exists i :: 0 <= i < |ms| && FailsAt(StartBatch(s, c), c, ms, os, i)
    ensures out != [Problem(Internal)] ==>
              var gap := exists i :: 0 <= i < |ms| && Gaps(StartBatch(s, c), c, ms, os, i);
              |out| == (if gap then 2 else 1) && out[|out| - 1].Send? && (gap ==> out[0] == Problem(PushInvalid))
  {
    StopsIff(StartBatch(s, c), c, ms, os);
    hide RunBatch, PushPoke, Gaps, FailsAt;
    assert out != [] ==> out == out[..|out| - 1] + [out[|out| - 1]];
  }

  lemma {:induction false} NewestRowInBatch(b: Batch, c: ClientId, ms: seq<Mutation>, os: seq<Outcome>)
    requires |ms| == |os| && Disjoint(os)
    ensures var s' := RunBatch(b, c, ms, os).s;
            s'.version == b.s.version || exists k :: k in s'.rows && s'.rows[k].version == s'.version
    decreases |ms|
  {
    if ms != [] {
      var n := |ms| - 1;
      NewestRowInBatch(b, c, ms[..n], os[..n]);
      var b' := RunBatch(b, c, ms[..n], os[..n]);
      if Advance(b', c, ms[n], os[n]).s != b'.s && Wrote?(b'.s, os[n]) {
        var k :| k in Written(b'.s.rows, os[n].puts, os[n].dels);
        var s' := RunBatch(b, c, ms, os).s;
        assert k in s'.rows && s'.rows[k].version == s'.version;
      }
    }
  }

  lemma EmptyPokeExact(s: State, t: Timeline, p: Poke)
    requires HistoryOk(s, t) && p.base == Some(s.Here()) && p.end == s.Here() && p.ops == []
    ensures Exact(p, t)
  {
    NowIsLive(s, t);
    forall v: nat | s.version <= v <= s.version
      ensures ExactFrom(p, t, v)
    {
      assert v == s.version;
    }
  }

  // ----- maintenance -----

  predicate Expired(r: Stored, cutoff: int) {
    r.deleted && r.version <= cutoff
  }

  ghost predicate YoungestExpired(rows: Store, cutoff: int, youngest: nat) {
    && (exists k :: k in rows && Expired(rows[k], cutoff) && rows[k].version == youngest)
    && (forall k :: k in rows && Expired(rows[k], cutoff) ==> rows[k].version <= youngest)
  }

  /** Drops tombstones behind the horizon; the oldest cursor accepted moves to the youngest one dropped. */
  ghost predicate Compact(s: State, retention: nat, s': State) {
    var cutoff := s.version - retention;
    if cutoff <= 0 || forall k :: k in s.rows ==> !Expired(s.rows[k], cutoff) then s' == s
    else exists youngest: nat ::
      && YoungestExpired(s.rows, cutoff, youngest)
      && s' == s.(rows := map k | k in s.rows && !Expired(s.rows[k], cutoff) :: s.rows[k],
                  minCursor := if s.minCursor > youngest then s.minCursor else youngest)
  }

  /** Dropping tombstones is invisible: live rows stay, and every cursor still accepted is still tied. */
  lemma CompactKeeps(s: State, t: Timeline, retention: nat, s': State)
    requires HistoryOk(s, t) && Compact(s, retention, s')
    ensures HistoryOk(s', t) && Live(s'.rows) == Live(s.rows)
  {
    if s' != s {
      forall v: nat | s'.minCursor <= v <= s'.version
        ensures AtVersion(s', t, v)
      {
        assert AtVersion(s, t, v);
        var past := t[Cursor(s.backend, v)];
        forall k
          ensures Agrees(s'.rows, past, v, k)
        {
          assert Agrees(s.rows, past, v, k);
        }
      }
      assert Live(s'.rows) == Live(s.rows);
    }
  }

  /** Exactly the tombstones at or before the horizon go, and no row changes; without a horizon nothing does. */
  lemma CompactDropsExactly(s: State, retention: nat, s': State, k: Key)
    requires Compact(s, retention, s') && k in s.rows
    ensures retention < s.version ==> (k !in s'.rows <==> s.rows[k].deleted && s.rows[k].version <= s.version - retention)
    ensures k in s'.rows ==> s'.rows[k] == s.rows[k]
    ensures retention >= s.version ==> s' == s
  {
  }

  /** A cursor within the horizon is accepted after a compaction if it was before. */
  lemma CompactSparesRecent(s: State, retention: nat, s': State, cursor: Option<Cursor>)
    requires Compact(s, retention, s') && Accepts(s, cursor) && cursor.value.version >= s.version - retention
    ensures Accepts(s', cursor)
  {
  }

  /** A compaction refuses exactly the cursors that lack a tombstone it dropped. */
  lemma CompactRefusesIff(s: State, retention: nat, s': State, cursor: Option<Cursor>)
    requires Compact(s, retention, s')
    ensures Accepts(s', cursor) <==>
              Accepts(s, cursor) && forall k :: k in s.rows && k !in s'.rows ==> s.rows[k].version <= cursor.value.version
  {
  }

  /** Full replacement at one new version that no earlier cursor survives. */
  function Import(s: State, rows: Table): State {
    var v := s.version + 1;
    s.(rows := map k | k in rows :: Stored(rows[k], v, false), version := v, minCursor := v, snapshot := None)
  }

  lemma ImportKeeps(s: State, t: Timeline, rows: Table)
    requires HistoryOk(s, t)
    ensures var s' := Import(s, rows);
            Extends(t, Record(t, s')) && HistoryOk(s', Record(t, s')) && Live(s'.rows) == rows
  {
    var s' := Import(s, rows);
    var t' := Record(t, s');
    assert Live(s'.rows) == rows;
    forall v: nat | s'.minCursor <= v <= s'.version
      ensures AtVersion(s', t', v)
    {
    }
  }

  /** A migration that wrote rows lands them at one new version and invalidates every earlier cursor. */
  function Migrate(s: State, puts: Table, dels: set<Key>): State {
    var wrote := Written(s.rows, puts, dels) != {};
    var v := s.version + 1;
    s.(rows := if wrote then Flushed(s.rows, puts, dels, v) else s.rows,
       version := if wrote then v else s.version,
       minCursor := if wrote then v else s.minCursor,
       log := s.log + [LogEntry(if wrote then Some(v) else None, "$system", 0, Intent("$schema.migrate", Null, ""), None)])
  }

  lemma MigratedRows(s: State, puts: Table, dels: set<Key>)
    requires puts.Keys !! dels
    ensures Live(Migrate(s, puts, dels).rows) == (Live(s.rows) - dels) + puts
  {
    FlushedIsOverlay(s.rows, puts, dels, s.version + 1);
  }

  /** It runs while a fresh instance wakes, when no bootstrap is cached. */
  lemma MigrateKeeps(s: State, t: Timeline, puts: Table, dels: set<Key>)
    requires HistoryOk(s, t) && puts.Keys !! dels && s.snapshot == None
    ensures var s' := Migrate(s, puts, dels); Extends(t, Record(t, s')) && HistoryOk(s', Record(t, s'))
  {
    hide RowsOk, Flushed, Written, Live;
    var s' := Migrate(s, puts, dels);
    if Written(s.rows, puts, dels) == {} {
      RowsOkOnlyRows(s, t, s');
      RecordAgain(s', t);
    } else {
      KeptCursors(s, t);
      WriteKeeps(s, t, puts, dels, s.version + 1);
      RowsOkOnlyRows(s.(rows := s'.rows, version := s'.version, minCursor := s'.minCursor), Record(t, s'), s');
    }
  }

  /** A wiped workspace under a backend id minted for it. */
  function Fresh(backend: string): State {
    State(backend, 0, 0, map[], map[], [], None)
  }

  lemma FreshKeeps(t: Timeline, backend: string)
    requires forall c :: c in t ==> c.backend != backend
    ensures var t' := Record(t, Fresh(backend));
            Extends(t, t') && HistoryOk(Fresh(backend), t') && Exact(ResetPoke(backend), t')
  {
    var s := Fresh(backend);
    var t' := Record(t, s);
    assert Live(s.rows) == map[];
    assert AtVersion(s, t', 0);
    BootstrapPokeExact(s, t', ResetPoke(backend));
  }

  function ResetPoke(backend: string): Poke {
    Poke(None, [Clear], map[], [], Cursor(backend, 0))
  }

  // ----- exactly once, seen from one push -----

  /**
   * A committed mutation is recorded as its client's last one exactly when the client has a row,
   * which hello creates and a reset of the workspace removes under sockets that stay ready.
   */
  lemma RecordedIff(s: State, c: ClientId, m: Mutation, o: Outcome)
    requires !o.Transient? && m.id == LastMutationId(s, c) + 1
    ensures LastMutationId(Commit(s, c, m, o), c) == m.id <==> c in s.clients
  {
  }

  /** Pushing a committed mutation again runs it again exactly when its client has no row. */
  lemma ReplayRunsAgainIff(s: State, c: ClientId, m: Mutation, o: Outcome, o': Outcome)
    requires !o.Transient? && !o'.Transient? && m.id == LastMutationId(s, c) + 1
    ensures var once := RunBatch(StartBatch(s, c), c, [m], [o]).s;
            var twice := RunBatch(StartBatch(once, c), c, [m], [o']).s;
            twice == once <==> c in s.clients
  {
    var once := RunBatch(StartBatch(s, c), c, [m], [o]).s;
    RunOne(StartBatch(s, c), c, m, o);
    RunOne(StartBatch(once, c), c, m, o');
    RecordedIff(s, c, m, o);
    assert c !in s.clients ==> |Commit(once, c, m, o').log| == |once.log| + 1;
  }

  /** A ready socket outlives a reset, so the mutation its client pushes next is run once per delivery. */
  lemma ResetForgetsClients(backend: string, c: ClientId, m: Mutation, o: Outcome)
    requires !o.Transient? && m.id == 1
    ensures var once := RunBatch(StartBatch(Fresh(backend), c), c, [m], [o]).s;
            var twice := RunBatch(StartBatch(once, c), c, [m], [o]).s;
            |once.log| == 1 && |twice.log| == 2 && twice.log[0].intent == twice.log[1].intent
  {
    var once := RunBatch(StartBatch(Fresh(backend), c), c, [m], [o]).s;
    RunOne(StartBatch(Fresh(backend), c), c, m, o);
    RunOne(StartBatch(once, c), c, m, o);
  }
}
