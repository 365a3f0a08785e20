/** The workspace object of packages/server/src/do.ts, method by method, against the relations of `Server`. */
module Workspace {
  import opened Rows
  import opened JsMaps
  import opened WriteSets
  import opened EngineCore
  import opened Server
  import opened Migrations

  datatype Context = Context(client: ClientId, seed: string, authoritative: bool)

  datatype MutatorDef = MutatorDef(parse: Json -> Option<Json>, apply: (Json, Context) -> Mutator)

  /** `RolledBack` is the transient failure: nothing of the mutation happened. */
  datatype Attempt = Committed(error: Option<AppError>, event: Option<seq<Change>>) | RolledBack

  datatype Effect = Effect(error: Option<AppError>, written: nat, changes: seq<Change>) | Crash

  function OutcomeOf(e: Execution): Outcome {
    match e.end
    case Returned => Wrote(e.buffer.puts.vals, e.buffer.dels)
    case Failed(error) => Rejected(error)
    case Crashed => Transient
  }

  /** What running a mutator and flushing at the next version does to the stored rows. */
  ghost predicate Took(s: Server.State, o: Outcome, r: Effect, rows: Store) {
    if o.Transient? then r == Crash && rows == s.rows
    else
      && (o.Wrote? ==> o.puts.Keys !! o.dels)
      && r.Effect? && r.error == (if o.Rejected? then Some(o.error) else None)
      && (r.written > 0 <==> Server.Wrote?(s, o))
      && rows == if Server.Wrote?(s, o) then Flushed(s.rows, o.puts, o.dels, s.version + 1) else s.rows
  }

  lemma TookFlush(s: Server.State, o: Outcome, f: FlushResult, rows: Store)
    requires o.Wrote? && o.puts.Keys !! o.dels
    requires rows == Flushed(s.rows, o.puts, o.dels, s.version + 1)
    requires f.written > 0 <==> Written(s.rows, o.puts, o.dels) != {}
    ensures Took(s, o, Effect(None, f.written, f.changes), rows)
  {
    if Written(s.rows, o.puts, o.dels) == {} { NothingWritten(s.rows, o.puts, o.dels, s.version + 1); }
  }

  /** The changes handed to the post-commit hook lead from the old rows to the new. */
  ghost predicate Reported(rows: Store, changes: seq<Change>, rows': Store) {
    ReplayChanges(Live(rows), changes) == Live(rows')
  }

  class WorkspaceDO {
    const registry: map<string, MutatorDef>
    const options: Options
    /** The runtime's budget of tx calls for one mutation. */
    const limit: nat
    const store: RowStore
    var backendId: string
    var currentVersion: nat
    var minCursorVersion: nat
    var clients: map<ClientId, nat>
    var log: seq<LogEntry>
    var snapshot: Option<Snapshot>
    var schemaVersion: int

    ghost function State(): Server.State
      reads this, store
    {
      Server.State(backendId, currentVersion, minCursorVersion, store.rows, clients, log, snapshot)
    }

    ghost predicate Valid()
      reads this, store
    {
      store.Valid() && !options.validateAtFlush
    }

    constructor (
        registry: map<string, MutatorDef>, schema: Schema, trackChanges: bool, limit: nat, backendId: string, schemaVersion: int)
      ensures Valid() && fresh(store) && State() == Fresh(backendId) && this.schemaVersion == schemaVersion
    {
      this.registry := registry;
      this.options := Options(schema, false, trackChanges);
      this.limit := limit;
      this.backendId, this.schemaVersion := backendId, schemaVersion;
      currentVersion, minCursorVersion := 0, 0;
      clients, log, snapshot := map[], [], None;
      store := new RowStore((w, d) => true);
    }

    method OldestOf(keys: set<Key>) returns (k: Key)
      requires keys != {} && keys <= store.rows.Keys
      ensures k in keys && forall j :: j in keys ==> store.rows[k].version <= store.rows[j].version
    {
      k :| k in keys;
      var todo := keys - {k};
      while todo != {}
        invariant todo <= keys && k in keys
        invariant forall j :: j in keys && j !in todo ==> store.rows[k].version <= store.rows[j].version
      {
        var j :| j in todo;
        todo := todo - {j};
        if store.rows[j].version < store.rows[k].version { k := j; }
      }
    }

    method PatchSince(version: nat) returns (ops: seq<PatchOp>)
      ensures IsDelta(ops, store.rows, version)
    {
      var rows := store.rows;
      var rest := set k | k in rows && rows[k].version > version;
      ops := [];
      while rest != {}
        invariant DeltaPart(ops, rows, version, rest)
        decreases rest
      {
        var k := OldestOf(rest);
        DeltaGrows(ops, rows, version, rest, k);
        ops := ops + [OpFor(k, rows[k])];
        rest := rest - {k};
      }
    }

    /** Served from the cache while backend and version stand. */
    method BootstrapPatch() returns (patch: seq<PatchOp>)
      modifies this`snapshot
      ensures Bootstraps(old(State()), State(), patch)
    {
      var here := Cursor(backendId, currentVersion);
      if snapshot.Some? && snapshot.value.at == here {
        return snapshot.value.patch;
      }
      var live := Live(store.rows);
      patch := LivePuts(live);
      patch := [Clear] + patch;
      assert patch[1..] == patch[1..];
      snapshot := Some(Snapshot(here, patch));
    }

    static method LivePuts(live: Table) returns (ops: seq<PatchOp>)
      ensures IsBootstrap([Clear] + ops, live)
    {
      ops := [];
      var rest := live.Keys;
      while rest != {}
        invariant rest <= live.Keys
        invariant OneOpPerKey(ops)
        invariant forall i :: 0 <= i < |ops| ==> ops[i].Put? && ops[i].key in live && ops[i].value == live[ops[i].key]
        invariant forall k :: k in rest ==> !Touches(ops, k)
        invariant forall k :: k in live ==> k in rest || Touches(ops, k)
      {
        var k :| k in rest;
        TouchesAppend(ops, PatchOp.Put(k, live[k]));
        ops := ops + [PatchOp.Put(k, live[k])];
        rest := rest - {k};
      }
      assert ([Clear] + ops)[1..] == ops;
    }

    method HandleHello(client: ClientId, cursor: Option<Cursor>) returns (p: Poke)
      modifies this`clients, this`snapshot
      ensures Hello(old(State()), client, cursor, State(), p)
    {
      var lmid := if client in clients then clients[client] else 0;
      clients := clients[client := lmid];
      var valid := cursor.Some? && cursor.value.backend == backendId
        && cursor.value.version >= minCursorVersion && cursor.value.version <= currentVersion;
      var here := Cursor(backendId, currentVersion);
      if valid {
        var ops := PatchSince(cursor.value.version);
        p := Poke(cursor, ops, map[client := lmid], [], here);
      } else {
        var ops := BootstrapPatch();
        p := Poke(None, ops, map[client := lmid], [], here);
      }
    }

    /** What a mutation comes to on the given live rows. */
    function Ran(client: ClientId, m: Mutation, live: Table): Outcome {
      if m.intent.name !in registry then Rejected(UnknownMutator)
      else
        var def := registry[m.intent.name];
        match def.parse(m.intent.args)
        case None => Rejected(InvalidArgs)
        case Some(args) =>
          OutcomeOf(Execute(options, def.apply(args, Context(client, m.intent.seed, true)), live, EMPTY_BUFFER, [], limit))
    }

    /** The same, seen from the mutator: how it ends on the rows themselves decides. */
    lemma RanIsItsRun(client: ClientId, m: Mutation, live: Table)
      requires !options.validateAtFlush
      ensures m.intent.name !in registry ==> Ran(client, m, live) == Rejected(UnknownMutator)
      ensures m.intent.name in registry && registry[m.intent.name].parse(m.intent.args).None? ==>
                Ran(client, m, live) == Rejected(InvalidArgs)
      ensures m.intent.name in registry && registry[m.intent.name].parse(m.intent.args).Some? ==>
                var def := registry[m.intent.name];
                var args := def.parse(m.intent.args).value;
                var d := RunDirect(options, def.apply(args, Context(client, m.intent.seed, true)), live, [], limit);
                match d.end
                case Failed(error) => Ran(client, m, live) == Rejected(error)
                case Crashed => Ran(client, m, live) == Transient
                case Returned => Ran(client, m, live).Wrote? && (live - Ran(client, m, live).dels) + Ran(client, m, live).puts == d.table
    {
      if m.intent.name in registry && registry[m.intent.name].parse(m.intent.args).Some? {
        var def := registry[m.intent.name];
        var p := def.apply(def.parse(m.intent.args).value, Context(client, m.intent.seed, true));
        BufferedRefinesDirect(options, p, live, EMPTY_BUFFER, [], limit);
        assert View(live, EMPTY_BUFFER) == live;
      }
    }

    /**
     * One mutation in one transaction. A permanent error still commits the LMID and the log entry,
     * with the rows untouched; anything else that throws changes nothing.
     */
    method ApplyMutation(client: ClientId, m: Mutation, storageFails: bool) returns (r: Attempt)
      requires Valid()
      modifies this`currentVersion, this`clients, this`log, this`snapshot, store
      ensures Valid()
      ensures r.RolledBack? <==> storageFails || Ran(client, m, Live(old(store.rows))).Transient?
      ensures r.RolledBack? ==> State() == old(State())
      ensures var o := Ran(client, m, Live(old(store.rows)));
              r.Committed? ==>
                && !o.Transient? && (o.Wrote? ==> o.puts.Keys !! o.dels)
                && State() == Commit(old(State()), client, m, o)
                && r.error == (if o.Rejected? then Some(o.error) else None)
                && (r.event.Some? <==> currentVersion > old(currentVersion))
      ensures r.Committed? && r.event.Some? && options.trackChanges ==> Reported(old(store.rows), r.event.value, store.rows)
    {
      ghost var o := Ran(client, m, Live(store.rows));
      var saved := store.rows;
      var run := RunMutator(client, m);
      if run.Crash? { return RolledBack; }
      if storageFails {
        // The transaction rolls back.
        store.rows := saved;
        return RolledBack;
      }
      var event := CommitEffect(client, m, run, old(State()), o);
      return Committed(run.error, event);
    }

    /** The rest of the transaction: version, LMID and log, once the rows are in place. */
    method CommitEffect(client: ClientId, m: Mutation, run: Effect, ghost s: Server.State, ghost o: Outcome) returns (event: Option<seq<Change>>)
      requires run.Effect? && Took(s, o, run, store.rows)
      requires State() == s.(rows := store.rows)
      modifies this`currentVersion, this`clients, this`log, this`snapshot
      ensures !o.Transient? && State() == Commit(s, client, m, o)
      ensures run.error == if o.Rejected? then Some(o.error) else None
      ensures event.Some? <==> currentVersion > s.version
      ensures event.Some? ==> event.value == run.changes
    {
      var version := None;
      event := None;
      if run.written > 0 {
        version := Some(currentVersion + 1);
        currentVersion := currentVersion + 1;
        snapshot := None;
        event := Some(run.changes);
      }
      if client in clients { clients := clients[client := m.id]; }
      log := log + [LogEntry(version, client, m.id, m.intent, run.error)];
    }

    /** The mutator and its flush, stamped with the version the transaction would commit. */
    method RunMutator(client: ClientId, m: Mutation) returns (r: Effect)
      requires Valid()
      modifies store
      ensures Valid()
      ensures Took(old(State()), Ran(client, m, Live(old(store.rows))), r, store.rows)
      ensures r.Effect? && r.error == None && options.trackChanges ==> Reported(old(store.rows), r.changes, store.rows)
    {
      if m.intent.name !in registry { return Effect(Some(UnknownMutator), 0, []); }
      var def := registry[m.intent.name];
      var args := def.parse(m.intent.args);
      if args.None? { return Effect(Some(InvalidArgs), 0, []); }
      r := RunProgram(def.apply(args.value, Context(client, m.intent.seed, true)));
    }

    method RunProgram(p: Mutator) returns (r: Effect)
      requires Valid()
      modifies store
      ensures Valid()
      ensures Took(old(State()), OutcomeOf(Execute(options, p, Live(old(store.rows)), EMPTY_BUFFER, [], limit)), r, store.rows)
      ensures r.Effect? && r.error == None && options.trackChanges ==> Reported(old(store.rows), r.changes, store.rows)
    {
      var writes := new WriteSet(store, options);
      var end, history := writes.Apply(p, limit);
      match end
      case Crashed => return Crash;
      case Failed(e) => return Effect(Some(e), 0, []);
      case Returned =>
        r := FlushAll(writes);
    }

    /** A buffer that validated at put time flushes without error. */
    method FlushAll(writes: WriteSet) returns (r: Effect)
      requires writes.Valid() && writes.rows == store && writes.options == options && !options.validateAtFlush
      modifies store
      ensures store.Valid()
      ensures var b := old(writes.Buf()); Took(old(State()), Wrote(b.puts.vals, b.dels), r, store.rows)
      ensures r.Effect? && options.trackChanges ==> Reported(old(store.rows), r.changes, store.rows)
    {
      ghost var s, b := State(), writes.Buf();
      if options.trackChanges {
        ChangesReplay(options, s.rows, b, b.puts.vals, currentVersion + 1);
      }
      var flushed := Flush(writes, currentVersion + 1);
      TookFlush(s, Wrote(b.puts.vals, b.dels), flushed, store.rows);
      r := Effect(None, flushed.written, flushed.changes);
    }

    method Flush(writes: WriteSet, version: nat) returns (r: FlushResult)
      requires writes.Valid() && writes.rows == store && writes.options == options && !options.validateAtFlush
      modifies store
      ensures store.Valid() && writes.Buf() == old(writes.Buf())
      ensures var b := old(writes.Buf());
              var w := Written(old(store.rows), b.puts.vals, b.dels);
              && store.rows == Flushed(old(store.rows), b.puts.vals, b.dels, version)
              && (forall k :: k in b.before.order ==> k in b.before.vals)
              && (r.written > 0 <==> w != {})
              && r.changes == Changes(b.before.order, b.before.vals, b.puts.vals, w)
    {
      BufferWritesUnchanged(options, writes.Buf(), Live(store.rows));
      ghost var net := NetRows(options, writes.puts.order, writes.puts.vals);
      assert net == Net(writes.puts.vals);
      EmptyIffNone(Written(store.rows, writes.puts.vals, writes.dels));
      var flushed := writes.Flush(version);
      r := flushed.value;
    }

    /** What a due mutation comes to: storage failing is like a mutator that crashes. */
    function Fate(client: ClientId, m: Mutation, live: Table, storageFails: bool): Outcome {
      if storageFails then Transient else Ran(client, m, live)
    }

    ghost predicate FaithfulAt(s: Server.State, client: ClientId, ms: seq<Mutation>, os: seq<Outcome>, storageFails: nat -> bool, i: nat)
      requires i < |ms| == |os|
    {
      Due(StartBatch(s, client), client, ms, os, i) ==>
        os[i] == Fate(client, ms[i], Live(RunBatch(StartBatch(s, client), client, ms[..i], os[..i]).s.rows), storageFails(i))
    }

    /** Every mutation that came due was run, by its own mutator, on the rows it found then. */
    ghost predicate Faithful(s: Server.State, client: ClientId, ms: seq<Mutation>, os: seq<Outcome>, storageFails: nat -> bool)
      requires |ms| == |os|
    {
      forall i :: 0 <= i < |os| ==> FaithfulAt(s, client, ms, os, storageFails, i)
    }

    /** `storageFails` says at which mutations of the push storage does: that is not the handler's to choose. */
    method HandlePush(client: ClientId, ready: bool, ms: seq<Mutation>, storageFails: nat -> bool)
      returns (out: seq<Outgoing>, ghost os: seq<Outcome>)
      requires Valid()
      modifies this`currentVersion, this`clients, this`log, this`snapshot, store
      ensures Valid() && |os| == |ms| && Disjoint(os)
      ensures !ready ==> State() == old(State()) && out == [Problem(PushInvalid)]
      ensures ready ==> Push(old(State()), client, ms, os, State(), out) && Faithful(old(State()), client, ms, os, storageFails)
    {
      hide Faithful, RunBatch, PushPoke, Live, Ran, Commit, Reported;
      os := [];
      if !ready {
        os := seq(|ms|, i => Transient);
        return [Problem(PushInvalid)], os;
      }
      ghost var s := State();
      PushStart(s, client, ms, storageFails);
      var startVersion := currentVersion;
      var startLmid := if client in clients then clients[client] else 0;
      var lmid, results, stop, i := startLmid, [], Running, 0;
      while i < |ms| && stop == Running
        invariant Valid() && i <= |ms| && |os| == i && Disjoint(os)
        invariant RunBatch(StartBatch(s, client), client, ms[..i], os) == Batch(State(), lmid, results, stop)
        invariant Faithful(s, client, ms[..i], os, storageFails)
        decreases |ms| - i
      {
        var m := ms[i];
        ghost var o: Outcome := Transient;
        var expected := lmid + 1;
        ghost var b := Batch(State(), lmid, results, stop);
        if m.id < expected {
        } else if m.id > expected {
          stop := Gap(expected);
        } else {
          o := Fate(client, m, Live(store.rows), storageFails(i));
          var r := ApplyMutation(client, m, storageFails(i));
          match r
          case RolledBack =>
            stop := Aborted;
          case Committed(error, _) =>
            results := results + [MutationResult(m.id, error)];
            lmid := m.id;
        }
        assert Batch(State(), lmid, results, stop) == Advance(b, client, m, o);
        PushStep(s, client, ms, i, os, storageFails, o);
        os := os + [o];
        i := i + 1;
      }
      ghost var rest := seq(|ms| - i, j => Transient);
      BatchStopped(StartBatch(s, client), client, ms, os, rest);
      FaithfulRest(s, client, ms, os, storageFails, rest);
      os := os + rest;
      out := Answer(s, client, startVersion, startLmid, lmid, results, stop);
    }

    /** One poke per push, after the error frame of a gap; a transient failure sends only its error. */
    method Answer(
        ghost s: Server.State, client: ClientId, startVersion: nat, startLmid: nat,
        lmid: nat, results: seq<MutationResult>, stop: Stop)
      returns (out: seq<Outgoing>)
      requires startVersion == s.version && startLmid == LastMutationId(s, client) && backendId == s.backend
      ensures var b := Batch(State(), lmid, results, stop);
              if b.stop.Aborted? then out == [Problem(Internal)]
              else
                && out != [] && out[|out| - 1].Send?
                && out[..|out| - 1] == (if b.stop.Gap? then [Problem(PushInvalid)] else [])
                && PushPoke(s, client, b, out[|out| - 1].poke, out[|out| - 1].everyone)
    {
      if stop.Aborted? { return [Problem(Internal)]; }
      out := if stop.Gap? then [Problem(PushInvalid)] else [];
      var here := Cursor(backendId, currentVersion);
      if lmid == startLmid {
        out := out + [Send(Poke(Some(here), [], map[client := lmid], [], here), false)];
      } else {
        var ops := PatchSince(startVersion);
        var base := Cursor(backendId, startVersion);
        out := out + [Send(Poke(Some(base), ops, map[client := lmid], results, here), |ops| > 0)];
      }
    }

    lemma PushStart(s: Server.State, client: ClientId, ms: seq<Mutation>, storageFails: nat -> bool)
      ensures Faithful(s, client, ms[..0], [], storageFails)
      ensures RunBatch(StartBatch(s, client), client, ms[..0], []) == StartBatch(s, client)
    {
    }

    lemma PushStep(s: Server.State, client: ClientId, ms: seq<Mutation>, i: nat, os: seq<Outcome>, storageFails: nat -> bool, o: Outcome)
      requires i < |ms| && |os| == i && Faithful(s, client, ms[..i], os, storageFails)
      requires var b := RunBatch(StartBatch(s, client), client, ms[..i], os);
               b.stop == Running && ms[i].id == b.lmid + 1 ==> o == Fate(client, ms[i], Live(b.s.rows), storageFails(i))
      ensures Faithful(s, client, ms[..i + 1], os + [o], storageFails)
      ensures RunBatch(StartBatch(s, client), client, ms[..i + 1], os + [o]) ==
              Advance(RunBatch(StartBatch(s, client), client, ms[..i], os), client, ms[i], o)
    {
      assert ms[..i + 1] == ms[..i] + [ms[i]];
      BatchMore(StartBatch(s, client), client, ms[..i], os, ms[i], o);
      FaithfulMore(s, client, ms[..i], os, storageFails, ms[i], o);
    }

    lemma FaithfulMore(s: Server.State, client: ClientId, ms: seq<Mutation>, os: seq<Outcome>, storageFails: nat -> bool, m: Mutation, o: Outcome)
      requires |ms| == |os| && Faithful(s, client, ms, os, storageFails)
      requires var b := RunBatch(StartBatch(s, client), client, ms, os);
               b.stop == Running && m.id == b.lmid + 1 ==> o == Fate(client, m, Live(b.s.rows), storageFails(|ms|))
      ensures Faithful(s, client, ms + [m], os + [o], storageFails)
    {
      hide RunBatch, Fate;
      var ms', os' := ms + [m], os + [o];
      forall i: nat | i < |os'|
        ensures FaithfulAt(s, client, ms', os', storageFails, i)
      {
        assert ms'[..i] == ms[..i] && os'[..i] == os[..i];
        if i < |os| { assert FaithfulAt(s, client, ms, os, storageFails, i); }
        else { assert ms[..|ms|] == ms && os[..|os|] == os; }
      }
    }

    lemma FaithfulRest(s: Server.State, client: ClientId, ms: seq<Mutation>, os: seq<Outcome>, storageFails: nat -> bool, rest: seq<Outcome>)
      requires |os| + |rest| == |ms| && Faithful(s, client, ms[..|os|], os, storageFails)
      requires rest != [] ==> RunBatch(StartBatch(s, client), client, ms[..|os|], os).stop != Running
      ensures Faithful(s, client, ms, os + rest, storageFails)
    {
      hide RunBatch, Fate;
      var all := os + rest;
      forall i: nat | i < |ms|
        ensures FaithfulAt(s, client, ms, all, storageFails, i)
      {
        if i < |os| {
          assert FaithfulAt(s, client, ms[..|os|], os, storageFails, i);
          assert ms[..|os|][..i] == ms[..i] && all[..i] == os[..i];
        } else {
          assert all[..i] == os + rest[..i - |os|] && ms[..i][..|os|] == ms[..|os|];
          BatchStopped(StartBatch(s, client), client, ms[..i], os, rest[..i - |os|]);
        }
      }
    }

    /** On the rows it finds, and with its storage, no mutation due in the push fails for the time being. */
    ghost predicate AllLand(s: Server.State, client: ClientId, ms: seq<Mutation>, os: seq<Outcome>, storageFails: nat -> bool)
      requires |ms| == |os|
    {
      forall i :: 0 <= i < |ms| ==> !storageFails(i) && Lands(s, client, ms, os, i)
    }

    predicate Lands(s: Server.State, client: ClientId, ms: seq<Mutation>, os: seq<Outcome>, i: nat)
      requires i < |ms| == |os|
    {
      !Ran(client, ms[i], Live(RunBatch(StartBatch(s, client), client, ms[..i], os[..i]).s.rows)).Transient?
    }

    /**
     * A gap-free push from the next id due or below, none of which crashes while storage works, is executed to
     * its last id, permanent errors included, and answered without an error frame.
     */
    lemma GapFreePushLands(
        s: Server.State, client: ClientId, ms: seq<Mutation>, os: seq<Outcome>, storageFails: nat -> bool, s': Server.State, out: seq<Outgoing>)
      requires |ms| == |os| && ms != [] && client in s.clients && ms[0].id <= LastMutationId(s, client) + 1
      requires forall i :: 0 <= i < |ms| ==> ms[i].id == ms[0].id + i
      requires Push(s, client, ms, os, s', out) && Faithful(s, client, ms, os, storageFails)
      requires AllLand(s, client, ms, os, storageFails)
      ensures var (was, last) := (LastMutationId(s, client), ms[|ms| - 1].id);
              LastMutationId(s', client) == if last > was then last else was
      ensures |out| == 1 && out[0].Send?
    {
      hide RunBatch, Ran, Live;
      forall i: nat | i < |ms|
        ensures DueSucceeds(StartBatch(s, client), client, ms, os, i)
      {
        assert FaithfulAt(s, client, ms, os, storageFails, i) && Lands(s, client, ms, os, i);
      }
      GapFreeRuns(StartBatch(s, client), client, ms, os);
      BatchRecords(StartBatch(s, client), client, ms, os);
    }

    /** Hard-deletes tombstones at or before the horizon. */
    method Compact(retention: nat)
      modifies this`minCursorVersion, store
      ensures Server.Compact(old(State()), retention, State())
    {
      var cutoff := currentVersion - retention;
      if cutoff <= 0 { return; }
      var rows := store.rows;
      var dead := set k | k in rows && Expired(rows[k], cutoff);
      if dead == {} {
        assert forall k :: k in rows && Expired(rows[k], cutoff) ==> k in dead;
        return;
      }
      var k :| k in dead;
      var maxDeleted, todo := rows[k].version, dead;
      while todo != {}
        invariant todo <= dead
        invariant exists k :: k in dead && rows[k].version == maxDeleted
        invariant forall k :: k in dead && k !in todo ==> rows[k].version <= maxDeleted
      {
        var j :| j in todo;
        todo := todo - {j};
        if rows[j].version > maxDeleted { maxDeleted := rows[j].version; }
      }
      assert YoungestExpired(rows, cutoff, maxDeleted);
      store.rows := map k | k in rows && !Expired(rows[k], cutoff) :: rows[k];
      if maxDeleted > minCursorVersion { minCursorVersion := maxDeleted; }
    }

    /** What an import stores for one row of the snapshot, or why it refuses it. */
    function ImportRow(k: Key, data: Data): Result<Data> {
      if !ValidTableName(k.tbl) || |k.id| > MAX_ID_LENGTH then Raised(InvalidArgs)
      else match ValidateRow(options.schema, k.tbl, data)
        case Raised(e) => Raised(e)
        case Ok(parsed) => CheckSize(options.schema, parsed)
    }

    method ParseImport(list: seq<(Key, Data)>) returns (r: Option<Net>)
      ensures r.Some? <==>
                && (forall i :: 0 <= i < |list| ==> ImportRow(list[i].0, list[i].1).Ok?)
                && (forall i, j :: 0 <= i < j < |list| ==> list[i].0 != list[j].0)
      ensures r.Some? ==> r.value.Net? && IsImport(r.value.rows, list)
    {
      var rows: Table := map[];
      for i := 0 to |list|
        invariant IsImport(rows, list[..i])
        invariant forall j, l :: 0 <= j < l < i ==> list[j].0 != list[l].0
      {
        var (k, data) := list[i];
        match ImportRow(k, data)
        case Raised(e) => return None;
        case Ok(parsed) =>
          if k in rows { return None; }
          ImportGrows(rows, list, i, parsed);
          rows := rows[k := parsed];
      }
      assert list[..|list|] == list;
      r := Some(Net(rows));
    }

    /** What an import stores of each listed row is the schema's parse of it, and no larger than a row may be. */
    lemma ImportStoresParses(rows: Table, list: seq<(Key, Data)>, i: nat)
      requires IsImport(rows, list) && i < |list|
      ensures list[i].0.tbl in options.schema.tables && list[i].0 in rows
      ensures options.schema.tables[list[i].0.tbl](list[i].1) == Some(rows[list[i].0])
      ensures options.schema.bytes(rows[list[i].0]) <= 700_000
    {
    }

    /** A row is refused exactly if its key is malformed, its table has no parse of it or the parse is too large. */
    lemma ImportFitsIff(k: Key, data: Data)
      ensures var parses := k.tbl in options.schema.tables && options.schema.tables[k.tbl](data).Some?;
              ImportRow(k, data).Ok? <==>
                && ValidTableName(k.tbl) && |k.id| <= 256
                && parses && options.schema.bytes(options.schema.tables[k.tbl](data).value) <= 700_000
    {
    }

    lemma ImportGrows(rows: Table, list: seq<(Key, Data)>, n: nat, parsed: Data)
      requires n < |list| && IsImport(rows, list[..n])
      requires list[n].0 !in rows && ImportRow(list[n].0, list[n].1) == Ok(parsed)
      ensures IsImport(rows[list[n].0 := parsed], list[..n + 1])
      ensures forall j :: 0 <= j < n ==> list[j].0 != list[n].0
    {
      var rows', done := rows[list[n].0 := parsed], list[..n + 1];
      assert forall j :: 0 <= j < n ==> list[..n][j] == list[j] && list[j].0 in rows;
      forall k | k in rows'
        ensures exists i :: 0 <= i < |done| && done[i].0 == k
      {
        if k == list[n].0 {
          assert done[n].0 == k;
        } else {
          var i :| 0 <= i < n && list[..n][i].0 == k;
          assert done[i].0 == k;
        }
      }
    }

    /** The rows are the listed ones, parsed. */
    ghost predicate IsImport(rows: Table, list: seq<(Key, Data)>) {
      && (forall k :: k in rows ==> exists i :: 0 <= i < |list| && list[i].0 == k)
      && (forall i :: 0 <= i < |list| ==> list[i].0 in rows && ImportRow(list[i].0, list[i].1) == Ok(rows[list[i].0]))
    }

    /**
     * All rows or none: every row is validated before the transaction, a repeated key fails inside
     * it. The poke goes to every ready socket.
     */
    method ImportRows(list: seq<(Key, Data)>) returns (p: Option<Poke>)
      modifies this`currentVersion, this`minCursorVersion, this`snapshot, store
      ensures p.None? ==> State() == old(State())
      ensures p.Some? <==>
                && (forall i :: 0 <= i < |list| ==> ImportRow(list[i].0, list[i].1).Ok?)
                && (forall i, j :: 0 <= i < j < |list| ==> list[i].0 != list[j].0)
      ensures p.Some? ==> exists rows: Table, cached: Server.State ::
                && IsImport(rows, list)
                && Bootstraps(Server.Import(old(State()), rows), cached, p.value.ops) && State() == cached
                && p.value == Poke(None, p.value.ops, map[], [], State().Here())
    {
      var parsed := ParseImport(list);
      if parsed.None? { return None; }
      var rows := parsed.value.rows;
      var version := currentVersion + 1;
      store.rows := map k | k in rows :: Stored(rows[k], version, false);
      currentVersion, minCursorVersion, snapshot := version, version, None;
      assert State() == Server.Import(old(State()), rows);
      var patch := BootstrapPatch();
      p := Some(Poke(None, patch, map[], [], Cursor(backendId, currentVersion)));
    }

    /** An older snapshot's rows, rolled out on a store of their own; a row listed twice is staged as last listed. */
    method MigrateSnapshot(list: seq<(Key, Data)>, steps: seq<SchemaMigration>) returns (migrated: Option<Table>)
      ensures var r := Rollout(RolloutOptions(options.schema), Staging(list), steps, limit);
              migrated == if r.Some? then Some(Live(r.value.rows)) else None
    {
      hide Replay, NetRows, Flushed, Live, StagedRows, Server.Migrate, Written, Changes, Execute, View;
      var staged := Stage(list);
      var writes := new WriteSet(staged, RolloutOptions(options.schema));
      var ran := ReplaySteps(steps, writes);
      if !ran { return None; }
      ghost var b := writes.Buf();
      assert forall k :: k in b.puts.order <==> k in Elems(b.puts.order);
      var flushed := writes.Flush(1);
      if flushed.Raised? { return None; }
      MigratedLive(Staging(list), NetRows(writes.options, b.puts.order, b.puts.vals).rows, b.dels);
      return Some(Live(staged.rows));
    }

    static method Stage(list: seq<(Key, Data)>) returns (staged: RowStore)
      ensures fresh(staged) && staged.Valid() && staged.rows == StagedRows(list)
    {
      staged := new RowStore((w, d) => true);
      for i := 0 to |list|
        invariant staged.rows == StagedRows(list[..i]) && staged.Valid()
      {
        assert list[..i + 1] == list[..i] + [list[i]];
        staged.Put(list[i].0, list[i].1, 0);
      }
      assert list[..|list|] == list;
    }

    static method Enumerate(t: Table) returns (list: seq<(Key, Data)>)
      ensures (forall i, j :: 0 <= i < j < |list| ==> list[i].0 != list[j].0) && Lists(list, t)
    {
      list := [];
      var todo := t.Keys;
      while todo != {}
        invariant todo <= t.Keys && (forall i :: 0 <= i < |list| ==> list[i].0 in t && list[i].0 !in todo && list[i].1 == t[list[i].0])
        invariant forall i, j :: 0 <= i < j < |list| ==> list[i].0 != list[j].0
        invariant forall k :: k in t && k !in todo ==> exists i :: 0 <= i < |list| && list[i].0 == k
      {
        var k :| k in todo;
        todo := todo - {k};
        ghost var was := list;
        list := list + [(k, t[k])];
        assert list[|was|].0 == k && forall i :: 0 <= i < |was| ==> list[i] == was[i];
      }
    }

    /** The rows a snapshot comes to, if it can be imported: those of an older one are migrated first. */
    ghost predicate Imports(version: int, migrations: seq<SchemaMigration>, from: int, list: seq<(Key, Data)>, rows: Table)
    {
      if from == version then
        && IsImport(rows, list)
        && forall i, j :: 0 <= i < j < |list| ==> list[i].0 != list[j].0
      else
        && MigrationPath(version, migrations, from).Some?
        && var r := Rollout(RolloutOptions(options.schema), Staging(list), MigrationPath(version, migrations, from).value, limit);
           r.Some? && IsParsed(rows, Live(r.value.rows))
    }

    ghost predicate IsParsed(rows: Table, t: Table) {
      && (forall k :: k in rows <==> k in t)
      && forall k :: k in t ==> ImportRow(k, t[k]) == Ok(rows[k])
    }

    /** Importing succeeds exactly when the snapshot comes to rows that all fit, and then replaces everything by them. */
    method ImportSnapshot(version: int, migrations: seq<SchemaMigration>, from: int, list: seq<(Key, Data)>) returns (p: Option<Poke>)
      modifies this`currentVersion, this`minCursorVersion, this`snapshot, store
      ensures p.None? ==> State() == old(State())
      ensures p.Some? <==> exists rows: Table :: Imports(version, migrations, from, list, rows)
      ensures p.Some? ==> exists rows: Table, cached: Server.State ::
                && Imports(version, migrations, from, list, rows)
                && Bootstraps(Server.Import(old(State()), rows), cached, p.value.ops) && State() == cached
                && p.value == Poke(None, p.value.ops, map[], [], State().Here())
    {
      hide Rollout, Bootstraps, Server.Import, IsImport, IsParsed, Lists, ImportRow;
      if from > version { return None; }
      var incoming := list;
      ghost var staged: Table := map[];
      if from < version {
        var steps := MigrationPath(version, migrations, from);
        if steps.None? { return None; }
        var migrated := MigrateSnapshot(list, steps.value);
        if migrated.None? { return None; }
        incoming := Enumerate(migrated.value);
        ParsedAlike(incoming, migrated.value);
        staged := migrated.value;
      }
      UnparsedFails(incoming);
      p := ImportRows(incoming);
      forall rows: Table
        ensures Imports(version, migrations, from, list, rows) ==> IsImport(rows, incoming)
        ensures p.Some? && IsImport(rows, incoming) ==> Imports(version, migrations, from, list, rows)
      {
        if from < version { assert IsImport(rows, incoming) <==> IsParsed(rows, staged); }
      }
      if p.Some? {
        ghost var rows: Table :| IsImport(rows, incoming);
        assert Imports(version, migrations, from, list, rows);
      }
    }

    /** Parsing a listed table is parsing the table. */
    lemma ParsedAlike(list: seq<(Key, Data)>, t: Table)
      requires Lists(list, t)
      ensures forall rows: Table :: IsImport(rows, list) <==> IsParsed(rows, t)
    {
      forall rows: Table
        ensures IsImport(rows, list) <==> IsParsed(rows, t)
      {
        if IsImport(rows, list) {
          forall k | k in t
            ensures k in rows && ImportRow(k, t[k]) == Ok(rows[k])
          {
            var i :| 0 <= i < |list| && list[i].0 == k;
          }
        }
      }
    }

    lemma UnparsedFails(list: seq<(Key, Data)>)
      ensures (exists rows: Table :: IsImport(rows, list)) ==> forall i :: 0 <= i < |list| ==> ImportRow(list[i].0, list[i].1).Ok?
    {
    }

    /**
     * The rollout of an app schema, in one transaction: the steps share a write buffer, the net rows are
     * validated, and the stored schema version moves on. A throw anywhere changes nothing.
     */
    method MigrateAppSchema(steps: seq<SchemaMigration>, to: int) returns (done: bool)
      requires Valid()
      modifies this`currentVersion, this`minCursorVersion, this`log, this`schemaVersion, store
      ensures Valid()
      ensures var r := Rollout(RolloutOptions(options.schema), old(State()), steps, limit);
              && (done <==> r.Some?)
              && State() == (if done then r.value else old(State()))
              && schemaVersion == if done then to else old(schemaVersion)
    {
      hide Replay, NetRows, Flushed, Written, Live;
      var writes := new WriteSet(store, RolloutOptions(options.schema));
      var ran := ReplaySteps(steps, writes);
      if !ran { return false; }
      ghost var s, b := State(), writes.Buf();
      var candidate := currentVersion + 1;
      var written := FlushNet(writes, candidate);
      if written.None? { return false; }
      ghost var net := NetRows(writes.options, b.puts.order, b.puts.vals).rows;
      assert s == old(State()) && s.rows == old(store.rows);
      var version := None;
      if written.value > 0 {
        version := Some(candidate);
        currentVersion, minCursorVersion := candidate, candidate;
      } else {
        NothingWritten(s.rows, net, b.dels, candidate);
      }
      schemaVersion := to;
      log := log + [LogEntry(version, "$system", 0, Intent("$schema.migrate", Null, ""), None)];
      assert Migrate(s, net, b.dels) == State();
      done := true;
    }

    /** The flush of a rollout; an error undoes what it had written. */
    method FlushNet(writes: WriteSet, version: nat) returns (written: Option<nat>)
      requires writes.Valid() && writes.rows == store
      modifies store
      ensures store.Valid()
      ensures var b := old(writes.Buf());
              && (forall k :: k in b.puts.order ==> k in b.puts.vals)
              && match NetRows(writes.options, b.puts.order, b.puts.vals)
                 case Unfit(_) => written.None? && store.rows == old(store.rows)
                 case Net(net) =>
                   && written.Some? && store.rows == Flushed(old(store.rows), net, b.dels, version)
                   && (written.value > 0 <==> Written(old(store.rows), net, b.dels) != {})
    {
      var saved := store.rows;
      assert forall k :: k in writes.puts.order <==> k in Elems(writes.puts.order);
      var flushed := writes.Flush(version);
      if flushed.Raised? {
        store.rows := saved;
        return None;
      }
      EmptyIffNone(Written(saved, NetRows(writes.options, writes.puts.order, writes.puts.vals).rows, writes.dels));
      return Some(flushed.value.written);
    }

    method ReplaySteps(steps: seq<SchemaMigration>, writes: WriteSet) returns (ran: bool)
      requires writes.Valid() && writes.Buf() == EMPTY_BUFFER
      modifies writes
      ensures writes.Valid()
      ensures Replay(writes.options, steps, Live(writes.rows.rows), EMPTY_BUFFER, limit) == if ran then Replayed(writes.Buf()) else Thrown
    {
      ghost var base := Live(writes.rows.rows);
      assert steps[0..] == steps;
      for i := 0 to |steps|
        invariant writes.Valid() && unchanged(writes.rows)
        invariant Replay(writes.options, steps, base, EMPTY_BUFFER, limit) == Replay(writes.options, steps[i..], base, writes.Buf(), limit)
      {
        ReplayStep(writes.options, steps, i, base, writes.Buf(), limit);
        match steps[i].migrate
        case None =>
        case Some(run) =>
          var end, history := writes.Run(run, limit);
          if end != Returned { return false; }
      }
      ran := true;
    }

    method Reset(backendId: string) returns (p: Poke)
      modifies this, store
      ensures State() == Fresh(backendId) && p == ResetPoke(backendId)
    {
      store.rows := map[];
      this.backendId := backendId;
      currentVersion, minCursorVersion := 0, 0;
      clients, log, snapshot := map[], [], None;
      p := Poke(None, [Clear], map[], [], Cursor(backendId, 0));
    }
  }

  /** The list's rows, a later one in place of an earlier under the same key. */
  function StagedRows(list: seq<(Key, Data)>): Store {
    if list == [] then map[]
    else StagedRows(list[..|list| - 1])[list[|list| - 1].0 := Stored(list[|list| - 1].1, 0, false)]
  }

  /** Every listed key is staged, with the row last listed under it. */
  lemma {:induction false} LastListedIsStaged(list: seq<(Key, Data)>, i: nat)
    requires i < |list| && forall j :: i < j < |list| ==> list[j].0 != list[i].0
    ensures Find(Live(StagedRows(list)), list[i].0) == Some(list[i].1)
  {
    if i < |list| - 1 {
      LastListedIsStaged(list[..|list| - 1], i);
    }
  }

  lemma {:induction false} OnlyListedAreStaged(list: seq<(Key, Data)>, k: Key)
    ensures k in StagedRows(list) ==> exists i :: 0 <= i < |list| && list[i].0 == k
  {
    if list != [] && k != list[|list| - 1].0 { OnlyListedAreStaged(list[..|list| - 1], k); }
  }

  function Staging(list: seq<(Key, Data)>): Server.State {
    Server.State("", 0, 0, StagedRows(list), map[], [], None)
  }

  ghost predicate Lists(list: seq<(Key, Data)>, t: Table) {
    && (forall i :: 0 <= i < |list| ==> list[i].0 in t && list[i].1 == t[list[i].0])
    && forall k :: k in t ==> exists i :: 0 <= i < |list| && list[i].0 == k
  }

  lemma MigratedLive(s: Server.State, net: Table, dels: set<Key>)
    requires net.Keys !! dels
    ensures Live(Server.Migrate(s, net, dels).rows) == Live(Flushed(s.rows, net, dels, s.version + 1))
  {
    if Written(s.rows, net, dels) == {} { NothingWritten(s.rows, net, dels, s.version + 1); }
  }

  lemma EmptyIffNone(s: set<Key>)
    ensures |s| > 0 <==> s != {}
  {
  }

  /** A delta under construction: the rows in `rest` are still to come, none older than those done. */
  ghost predicate DeltaPart(ops: seq<PatchOp>, rows: Store, v: nat, rest: set<Key>) {
    && OneOpPerKey(ops)
    && (forall k :: k in rest ==> k in rows && rows[k].version > v && !Touches(ops, k))
    && (forall k :: k in rows && rows[k].version > v ==> k in rest || Touches(ops, k))
    && (forall i :: 0 <= i < |ops| ==>
          ops[i].key in rows && rows[ops[i].key].version > v && ops[i] == OpFor(ops[i].key, rows[ops[i].key]))
    && (forall i, j :: 0 <= i < j < |ops| ==> rows[ops[i].key].version <= rows[ops[j].key].version)
    && (forall i, k :: 0 <= i < |ops| && k in rest ==> rows[ops[i].key].version <= rows[k].version)
  }

  lemma DeltaGrows(ops: seq<PatchOp>, rows: Store, v: nat, rest: set<Key>, k: Key)
    requires DeltaPart(ops, rows, v, rest) && k in rest
    requires forall j :: j in rest ==> rows[k].version <= rows[j].version
    ensures DeltaPart(ops + [OpFor(k, rows[k])], rows, v, rest - {k})
  {
    TouchesAppend(ops, OpFor(k, rows[k]));
  }

  lemma TouchesAppend(ops: seq<PatchOp>, op: PatchOp)
    requires !op.Clear?
    ensures forall k :: Touches(ops + [op], k) <==> Touches(ops, k) || k == op.key
    ensures OneOpPerKey(ops) && !Touches(ops, op.key) ==> OneOpPerKey(ops + [op])
  {
    var more := ops + [op];
    assert more[|ops|] == op;
    forall k | Touches(ops, k)
      ensures Touches(more, k)
    {
      var i :| 0 <= i < |ops| && !ops[i].Clear? && ops[i].key == k;
      assert more[i] == ops[i];
    }
  }

  /** Without deferred validation the flush stores the buffered rows as they are. */
  lemma BufferWritesUnchanged(o: Options, b: Buffer, base: Table)
    requires BufferOk(o, base, b) && !o.validateAtFlush
    ensures (forall k :: k in b.puts.order ==> k in b.puts.vals) && NetRows(o, b.puts.order, b.puts.vals) == Net(b.puts.vals)
  {
    assert forall k :: k in b.puts.order <==> k in Elems(b.puts.order);
    NetRowsUnchanged(o, b.puts.order, b.puts.vals);
    var same := map k | k in b.puts.order :: b.puts.vals[k];
    assert same == b.puts.vals;
  }

  lemma BatchMore(b: Batch, c: ClientId, ms: seq<Mutation>, os: seq<Outcome>, m: Mutation, o: Outcome)
    requires |ms| == |os|
    ensures RunBatch(b, c, ms + [m], os + [o]) == Advance(RunBatch(b, c, ms, os), c, m, o)
  {
    assert (ms + [m])[..|ms|] == ms && (os + [o])[..|os|] == os;
  }

  lemma {:induction false} BatchStopped(b: Batch, c: ClientId, ms: seq<Mutation>, os: seq<Outcome>, rest: seq<Outcome>)
    requires |os| + |rest| == |ms|
    requires rest != [] ==> RunBatch(b, c, ms[..|os|], os).stop != Running
    ensures RunBatch(b, c, ms, os + rest) == RunBatch(b, c, ms[..|os|], os)
    decreases |rest|
  {
    if rest == [] {
      assert os + rest == os && ms[..|os|] == ms;
    } else {
      var n := |ms| - 1;
      assert (os + rest)[..n] == os + rest[..|rest| - 1];
      assert ms[..n][..|os|] == ms[..|os|];
      BatchStopped(b, c, ms[..n], os, rest[..|rest| - 1]);
    }
  }
}
