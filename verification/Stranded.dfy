/**
 * A client that believes more of its mutations confirmed than the server has recorded: what a reset under a
 * ready socket makes of it. Its pushes start past the next id due, so none is executed ever again, and hello
 * confirms less than it believes, so it never learns.
 */
module Stranded {
  import opened Rows
  import opened WriteSets
  import opened Server
  import Client
  import opened Protocol
  import opened Streams
  import opened Ledgers
  import Convergence
  import Mirror

  /** Past the next id due. */
  ghost predicate Ahead(ms: seq<Mutation>, lmid: nat) {
    forall i :: 0 <= i < |ms| ==> ms[i].id > lmid + 1
  }

  ghost predicate LineOk(k: Sock, c: ClientId, lmid: nat) {
    k.client == c ==> forall m :: m in k.up && m.PushMsg? ==> Ahead(m.mutations, lmid)
  }

  ghost predicate ComingOk(p: Peer, socks: map<SockId, Sock>, backend: string) {
    p.sock.Some? && p.sock.value in socks ==>
      forall q :: q in Completes(PartialOf(p.state.poke), socks[p.sock.value].down) ==> q.end.backend == backend
  }

  ghost predicate Believes(st: Client.State, lmid: nat, backend: string) {
    st.confirmed > lmid && st.cursor.Some? && st.cursor.value.backend == backend
  }

  ghost predicate IsStranded(s: System, c: ClientId) {
    && c in s.peers
    && Believes(s.peers[c].state, LastMutationId(s.server, c), s.server.backend)
    && (s.peers[c].sock.None? ==> s.peers[c].state.poke.None?)
    && ComingOk(s.peers[c], s.socks, s.server.backend)
    && forall i :: i in s.socks ==> LineOk(s.socks[i], c, LastMutationId(s.server, c))
  }

  /** Nothing of the client's was executed or recorded. */
  ghost predicate Untouched(s: System, s': System, c: ClientId) {
    && LogOf(s'.server.log, c) == LogOf(s.server.log, c)
    && LastMutationId(s'.server, c) == LastMutationId(s.server, c)
    && s'.server.backend == s.server.backend
  }

  // ----- the server -----

  /** A batch that starts past the next id due does nothing at all. */
  lemma {:induction false} GapRuns(s: Server.State, c: ClientId, ms: seq<Mutation>, os: seq<Outcome>)
    requires |ms| == |os| && Ahead(ms, LastMutationId(s, c))
    ensures var b := RunBatch(StartBatch(s, c), c, ms, os);
            b.s == s && (if ms == [] then b == StartBatch(s, c) else b == StartBatch(s, c).(stop := Gap(b.lmid + 1)))
    decreases |ms|
  {
    if ms != [] {
      GapRuns(s, c, ms[..|ms| - 1], os[..|os| - 1]);
    }
  }

  /** A batch of one client leaves every other's ledger alone. */
  lemma {:induction false} OthersBatch(b: Batch, d: ClientId, ms: seq<Mutation>, os: seq<Outcome>, c: ClientId)
    requires |ms| == |os| && c != d
    ensures var b' := RunBatch(b, d, ms, os);
            && LogOf(b'.s.log, c) == LogOf(b.s.log, c) && LastMutationId(b'.s, c) == LastMutationId(b.s, c)
            && b'.s.backend == b.s.backend
    decreases |ms|
  {
    if ms != [] {
      var before := RunBatch(b, d, ms[..|ms| - 1], os[..|os| - 1]);
      OthersBatch(b, d, ms[..|ms| - 1], os[..|os| - 1], c);
      var b' := RunBatch(b, d, ms, os);
      if b'.s != before.s {
        var e := b'.s.log[|b'.s.log| - 1];
        assert b'.s.log == before.s.log + [e];
        LogOfAppend(before.s.log, e, c);
      }
    }
  }

  lemma PushUntouched(s: Server.State, d: ClientId, ms: seq<Mutation>, os: seq<Outcome>, s': Server.State, out: seq<Outgoing>, c: ClientId)
    requires |ms| == |os| && Push(s, d, ms, os, s', out)
    requires d == c ==> Ahead(ms, LastMutationId(s, c))
    ensures LogOf(s'.log, c) == LogOf(s.log, c) && LastMutationId(s', c) == LastMutationId(s, c) && s'.backend == s.backend
    ensures PokeOf(out).Some? ==> PokeOf(out).value.end.backend == s.backend
    ensures d == c && ms != [] ==> Problem(PushInvalid) in out
  {
    hide LogOf;
    if d == c { GapRuns(s, c, ms, os); } else { OthersBatch(StartBatch(s, d), d, ms, os, c); }
    var b := RunBatch(StartBatch(s, d), d, ms, os);
    if b.stop.Gap? {
      assert Problem(PushInvalid) in out[..|out| - 1];
    }
  }

  /** A step that leaves the client's ledger and the clients' states alone, and sends one poke of this history at most. */
  lemma ServerStays(s: System, s': System, c: ClientId, more: Option<Poke>)
    requires IsStranded(s, c) && Convergence.OwnSockets(s) && s'.peers == s.peers && Untouched(s, s', c)
    requires Adds(s.socks, s'.socks, more) && (more.Some? ==> more.value.end.backend == s.server.backend)
    requires forall i :: i in s'.socks ==> i in s.socks && Shorter(s.socks[i], s'.socks[i])
    ensures IsStranded(s', c)
  {
    forall i | i in s'.socks
      ensures LineOk(s'.socks[i], c, LastMutationId(s'.server, c))
    {
      assert LineOk(s.socks[i], c, LastMutationId(s.server, c));
    }
    var p := s.peers[c];
    if p.sock.Some? {
      var (i, b) := (p.sock.value, PartialOf(p.state.poke));
      assert AddsAt(s.socks[i], s'.socks[i], more);
      forall q | q in Completes(b, s'.socks[i].down)
        ensures q.end.backend == s'.server.backend
      {
        assert q in Completes(b, s.socks[i].down) || more == Some(q);
      }
    }
  }

  /** Nothing new on its way up. */
  ghost predicate Shorter(k: Sock, k': Sock) {
    k'.client == k.client && forall m :: m in k'.up ==> m in k.up
  }

  lemma DeliveryShorter(k: Sock, k': Sock, fs: seq<Client.Frame>)
    requires Delivery(k, k', fs)
    ensures k'.up == k.up && k'.client == k.client
  {
  }

  lemma BroadcastShorter(socks: map<SockId, Sock>, socks': map<SockId, Sock>, only: Option<SockId>, fs: seq<Client.Frame>)
    requires Broadcast(socks, socks', only, fs)
    ensures socks'.Keys == socks.Keys && forall i :: i in socks ==> socks'[i].up == socks[i].up && socks'[i].client == socks[i].client
  {
    forall i | i in socks
      ensures socks'[i].up == socks[i].up && socks'[i].client == socks[i].client
    {
      if Listening(socks[i]) && (only.None? || only == Some(i)) { DeliveryShorter(socks[i], socks'[i], fs); }
    }
  }

  lemma HelloStays(
      s: System, s': System, c: ClientId, sock: SockId, cursor: Option<Cursor>, poke: Poke, pokeId: nat, parts: seq<seq<PatchOp>>)
    requires IsStranded(s, c) && Convergence.OwnSockets(s) && StepServeHello(s, s', sock, cursor, poke, pokeId, parts)
    ensures IsStranded(s', c) && Untouched(s, s', c)
  {
    hide IsStranded, Completes, Bootstraps, IsDelta;
    ServeHelloAdds(s, s', sock, cursor, poke, pokeId, parts);
    var sent :| Delivery(Popped(s, sock), sent, Client.PokeFrames(pokeId, poke, parts))
             && s'.socks[sock] == sent.(ready := true, defunct := false);
    DeliveryShorter(Popped(s, sock), sent, Client.PokeFrames(pokeId, poke, parts));
    assert Untouched(s, s', c) by { HelloLogsNothing(s.server, s.socks[sock].client, cursor, s'.server, poke); }
    ServerStays(s, s', c, Some(poke));
  }

  lemma HelloLogsNothing(s: Server.State, d: ClientId, cursor: Option<Cursor>, s': Server.State, p: Poke)
    requires Hello(s, d, cursor, s', p)
    ensures s'.log == s.log && s'.backend == s.backend && p.end.backend == s.backend
    ensures forall c :: LastMutationId(s', c) == LastMutationId(s, c)
  {
  }

  lemma PushStays(
      s: System, s': System, c: ClientId, sock: SockId, ms: seq<Mutation>, os: seq<Outcome>, out: seq<Outgoing>,
      pokeId: nat, parts: seq<seq<PatchOp>>)
    requires IsStranded(s, c) && Convergence.OwnSockets(s) && StepServePush(s, s', sock, ms, os, out, pokeId, parts)
    ensures IsStranded(s', c) && Untouched(s, s', c)
    ensures s.socks[sock].client == c && ms != [] ==> Problem(PushInvalid) in out
  {
    hide Completes, Push, LogOf, RecordBatch, Client.PokeFrames, Believes;
    var (k, d) := (s.socks[sock], s.socks[sock].client);
    assert k.up[0] in k.up && LineOk(k, c, LastMutationId(s.server, c));
    ServePushAdds(s, s', sock, ms, os, out, pokeId, parts);
    if k.ready { PushUntouched(s.server, d, ms, os, s'.server, out, c); }
    AnswerShorter(s, s', sock, out, pokeId, parts);
    hide IsStranded;
    ServerStays(s, s', c, PokeOf(out));
  }

  lemma AnswerShorter(s: System, s': System, sock: SockId, out: seq<Outgoing>, pokeId: nat, parts: seq<seq<PatchOp>>)
    requires Receives(s, sock)
    requires exists told :: Delivery(Popped(s, sock), told, Errors(out)) && Answered(s.socks[sock := told], s'.socks, sock, out, pokeId, parts)
    ensures forall i :: i in s'.socks ==> i in s.socks && Shorter(s.socks[i], s'.socks[i])
  {
    hide Client.PokeFrames, Errors, Delivery, Broadcast;
    var told :| Delivery(Popped(s, sock), told, Errors(out)) && Answered(s.socks[sock := told], s'.socks, sock, out, pokeId, parts);
    DeliveryShorter(Popped(s, sock), told, Errors(out));
    var mid := s.socks[sock := told];
    if PokeOf(out).Some? {
      var last := out[|out| - 1];
      BroadcastShorter(mid, s'.socks, if last.everyone then None else Some(sock), Client.PokeFrames(pokeId, last.poke, parts));
    }
  }

  lemma ImportStays(s: System, s': System, c: ClientId, rows: Table, patch: seq<PatchOp>, pokeId: nat, parts: seq<seq<PatchOp>>)
    requires IsStranded(s, c) && Convergence.OwnSockets(s) && StepImport(s, s', rows, patch, pokeId, parts)
    ensures IsStranded(s', c) && Untouched(s, s', c)
  {
    hide IsStranded, Completes;
    var p := Poke(None, patch, map[], [], s'.server.Here());
    BroadcastAdds(s.socks, s'.socks, None, pokeId, p, parts);
    BroadcastShorter(s.socks, s'.socks, None, Client.PokeFrames(pokeId, p, parts));
    ServerStays(s, s', c, Some(p));
  }

  /** Steps that send nothing, whatever they do to rows, versions, disks and the marks of sockets. */
  lemma SilentStays(s: System, s': System, c: ClientId)
    requires IsStranded(s, c) && Convergence.OwnSockets(s) && s'.peers == s.peers && Untouched(s, s', c)
    requires s'.socks.Keys == s.socks.Keys
    requires forall i :: i in s.socks ==> s'.socks[i] == s.socks[i].(accepted := s'.socks[i].accepted, defunct := s'.socks[i].defunct)
    ensures IsStranded(s', c)
  {
    hide IsStranded, Untouched;
    assert Adds(s.socks, s'.socks, None);
    ServerStays(s, s', c, None);
  }

  lemma MigrationStays(s: System, s': System, c: ClientId, puts: Table, dels: set<Key>)
    requires IsStranded(s, c) && Convergence.OwnSockets(s) && StepMigration(s, s', puts, dels) && c != "$system"
    ensures IsStranded(s', c) && Untouched(s, s', c)
  {
    hide IsStranded;
    var e := s'.server.log[|s'.server.log| - 1];
    assert s'.server.log == s.server.log + [e];
    LogOfAppend(s.server.log, e, c);
    SilentStays(s, s', c);
  }

  // ----- the clients and the sockets -----

  ghost predicate Above(ms: seq<Mutation>, floor: nat) {
    forall i :: 0 <= i < |ms| ==> ms[i].id > floor
  }

  lemma {:induction false} BatchAbove(confirmed: nat, outbox: seq<Client.Entry>)
    ensures Above(Client.PushBatch(confirmed, outbox), confirmed)
  {
    if outbox != [] {
      var (init, last) := (outbox[..|outbox| - 1], outbox[|outbox| - 1]);
      BatchAbove(confirmed, init);
      if last.id.Some? && last.id.value > confirmed {
        InsertAbove(Client.PushBatch(confirmed, init), Mutation(last.id.value, last.intent), confirmed);
      }
    }
  }

  lemma {:induction false} InsertAbove(ms: seq<Mutation>, m: Mutation, floor: nat)
    requires m.id > floor && Above(ms, floor)
    ensures Above(Client.InsertById(ms, m), floor)
  {
    if ms != [] {
      var (init, last) := (ms[..|ms| - 1], ms[|ms| - 1]);
      InsertAbove(init, m, floor);
      var rest := Client.InsertById(init, m);
      assert Above(rest + [last], floor) && Above(ms + [m], floor);
    }
  }

  lemma FrameBelieves(st: Client.State, f: Client.Frame, lmid: nat, backend: string)
    requires Believes(st, lmid, backend)
    ensures forall m :: m in Client.OnFrame(st, f).1 ==> m.HelloMsg?
    ensures (Client.Applies(st, f) ==> f.end.backend == backend) ==> Believes(Client.OnFrame(st, f).0, lmid, backend)
  {
  }

  lemma FrameStays(st: Client.State, fs: seq<Client.Frame>, lmid: nat, backend: string)
    requires fs != [] && Believes(st, lmid, backend)
    requires forall q :: q in Completes(PartialOf(st.poke), fs) ==> q.end.backend == backend
    ensures var (st', ms) := Client.OnFrame(st, fs[0]);
            && Believes(st', lmid, backend) && (forall m :: m in ms ==> m.HelloMsg?)
            && forall q :: q in Completes(PartialOf(st'.poke), fs[1..]) ==> q.end.backend == backend
  {
    hide Client.OnFrame;
    OnFrameFollows(st, fs[0]);
    FrameBelieves(st, fs[0], lmid, backend);
    var b := PartialOf(st.poke);
    assert Completes(b, fs) == Completed(b, fs[0]) + Completes(After(b, fs[0]), fs[1..]);
    if Client.Applies(st, fs[0]) {
      assert Poke(b.value.base, b.value.ops, b.value.lmids, b.value.results, fs[0].end) in Completes(b, fs);
    }
  }

  /** One client moves, over sockets of its own. */
  ghost predicate Moves(s: System, s': System, d: ClientId) {
    && s'.server == s.server && d in s.peers && d in s'.peers && s'.peers == s.peers[d := s'.peers[d]]
    && (forall i :: i in s.socks ==> i in s'.socks && (s'.socks[i] == s.socks[i] || s.socks[i].client == d))
    && (forall i :: i in s'.socks && (i !in s.socks || s'.socks[i] != s.socks[i]) ==> s'.socks[i].client == d)
  }

  lemma OthersMove(s: System, s': System, d: ClientId, c: ClientId)
    requires IsStranded(s, c) && Convergence.OwnSockets(s) && Moves(s, s', d) && d != c
    ensures IsStranded(s', c) && Untouched(s, s', c)
  {
    hide Completes, Believes;
    forall i | i in s'.socks
      ensures LineOk(s'.socks[i], c, LastMutationId(s'.server, c))
    {
      if i in s.socks { assert LineOk(s.socks[i], c, LastMutationId(s.server, c)); }
    }
  }

  lemma ItselfMoves(s: System, s': System, c: ClientId)
    requires IsStranded(s, c) && Moves(s, s', c)
    requires Believes(s'.peers[c].state, LastMutationId(s.server, c), s.server.backend)
    requires s'.peers[c].sock.None? ==> s'.peers[c].state.poke.None?
    requires ComingOk(s'.peers[c], s'.socks, s.server.backend)
    requires forall i :: i in s'.socks && (i !in s.socks || s'.socks[i] != s.socks[i]) ==> LineOk(s'.socks[i], c, LastMutationId(s.server, c))
    ensures IsStranded(s', c) && Untouched(s, s', c)
  {
    hide Completes, Believes, ComingOk;
    forall i | i in s'.socks
      ensures LineOk(s'.socks[i], c, LastMutationId(s'.server, c))
    {
      if i in s.socks { assert LineOk(s.socks[i], c, LastMutationId(s.server, c)); }
    }
  }

  lemma DeliverStays(s: System, s': System, c: ClientId)
    requires IsStranded(s, c) && Convergence.OwnSockets(s) && StepDeliver(s, s', c)
    ensures IsStranded(s', c) && Untouched(s, s', c)
  {
    hide Client.OnFrame, Noted, Believes, Completes;
    var i := s.peers[c].sock.value;
    FrameStays(s.peers[c].state, s.socks[i].down, LastMutationId(s.server, c), s.server.backend);
    assert LineOk(s.socks[i], c, LastMutationId(s.server, c));
    ItselfMoves(s, s', c);
  }

  lemma FlushStays(s: System, s': System, c: ClientId)
    requires IsStranded(s, c) && Convergence.OwnSockets(s) && StepFlush(s, s', c)
    ensures IsStranded(s', c) && Untouched(s, s', c)
  {
    hide Client.PushBatch, Completes;
    var (i, st) := (s.peers[c].sock.value, s.peers[c].state);
    BatchAbove(st.confirmed, st.outbox);
    assert LineOk(s.socks[i], c, LastMutationId(s.server, c));
    assert Ahead(Client.PushBatch(st.confirmed, st.outbox), LastMutationId(s.server, c));
    ItselfMoves(s, s', c);
  }

  lemma DialStays(s: System, s': System, c: ClientId, sock: SockId)
    requires IsStranded(s, c) && StepDial(s, s', c, sock)
    ensures IsStranded(s', c) && Untouched(s, s', c)
  {
    assert s'.peers[c].state.poke == None && s'.socks[sock].down == [];
    ItselfMoves(s, s', c);
  }

  lemma OpenStays(s: System, s': System, c: ClientId)
    requires IsStranded(s, c) && Convergence.OwnSockets(s) && StepOpen(s, s', c)
    ensures IsStranded(s', c) && Untouched(s, s', c)
  {
    hide Completes;
    assert LineOk(s.socks[s.peers[c].sock.value], c, LastMutationId(s.server, c));
    ItselfMoves(s, s', c);
  }

  lemma CutStays(s: System, s': System, c: ClientId, sock: SockId, up: nat, down: nat)
    requires IsStranded(s, c) && Convergence.OwnSockets(s) && StepCut(s, s', sock, up, down)
    ensures IsStranded(s', c) && Untouched(s, s', c)
  {
    hide IsStranded, Completes;
    forall b
      ensures Completes(b, s'.socks[sock].down) <= Completes(b, s.socks[sock].down)
    {
      CompletesPrefix(b, s.socks[sock].down, down);
    }
    assert Adds(s.socks, s'.socks, None);
    ServerStays(s, s', c, None);
  }

  // ----- runs -----

  /** Any step but a reset of the workspace and a reload of this client, which may find an older cursor. */
  predicate Ordinary(step: Step, c: ClientId) {
    !step.Reset? && !(step.Reload? && step.c == c)
  }

  lemma ServerStepStays(s: System, s': System, step: Step, c: ClientId)
    requires IsStranded(s, c) && Convergence.OwnSockets(s) && c != "$system"
    requires Next(s, s', step) && Convergence.ServerStep(step) && !step.Reset?
    ensures IsStranded(s', c) && Untouched(s, s', c)
  {
    hide IsStranded, Convergence.OwnSockets, LogOf, StepServeHello, StepServePush, StepImport, StepMigration, StepReset, Live;
    hide StepMutate, StepFlush, StepDial, StepAccept, StepOpen, StepDeliver, StepHangup, StepCut, StepKick, StepPersist, StepUnsaved, StepWipe, StepReload;
    match step
    case ServeHello(sock, cursor, poke, id, parts) => HelloStays(s, s', c, sock, cursor, poke, id, parts);
    case ServePush(sock, ms, os, out, id, parts) => PushStays(s, s', c, sock, ms, os, out, id, parts);
    case Importing(rows, patch, id, parts) => ImportStays(s, s', c, rows, patch, id, parts);
    case Migration(puts, dels) => MigrationStays(s, s', c, puts, dels);
    case _ => SilentStays(s, s', c);
  }

  lemma OwnStepStays(s: System, s': System, step: Step, c: ClientId)
    requires IsStranded(s, c) && Convergence.OwnSockets(s) && Next(s, s', step)
    requires step == Flush(c) || step == Deliver(c) || step == Open(c) || step == Hangup(c)
             || (step.Mutate? && step.c == c) || (step.Dial? && step.c == c)
    ensures IsStranded(s', c) && Untouched(s, s', c)
  {
    hide IsStranded, Client.OnFrame, Client.PushBatch, Client.NextMutationId;
    hide StepServeHello, StepServePush, StepImport, StepImportFields, StepMigration, StepReset, StepCompaction, StepWake;
    match step
    case Flush(_) => FlushStays(s, s', c);
    case Deliver(_) => DeliverStays(s, s', c);
    case Open(_) => OpenStays(s, s', c);
    case Dial(_, sock) => DialStays(s, s', c, sock);
    case _ => QuietStays(s, s', c);
  }

  lemma QuietStays(s: System, s': System, c: ClientId)
    requires IsStranded(s, c) && c in s'.peers && s'.server == s.server && s'.socks == s.socks
    requires s'.peers == s.peers[c := s'.peers[c]]
    requires var (st, st') := (s.peers[c].state, s'.peers[c].state);
             && st'.confirmed == st.confirmed && st'.cursor == st.cursor
             && ((s'.peers[c].sock == s.peers[c].sock && st'.poke == st.poke) || (s'.peers[c].sock.None? && st'.poke.None?))
    ensures IsStranded(s', c) && Untouched(s, s', c)
  {
    hide Completes;
    ItselfMoves(s, s', c);
  }

  predicate ByClient(step: Step, d: ClientId) {
    step == Flush(d) || step == Deliver(d) || step == Open(d) || step == Hangup(d)
    || (step.Mutate? && step.c == d) || (step.Dial? && step.c == d) || (step.Reload? && step.c == d)
  }

  lemma OtherClientStays(s: System, s': System, step: Step, d: ClientId, c: ClientId)
    requires IsStranded(s, c) && Convergence.OwnSockets(s) && Next(s, s', step) && ByClient(step, d) && d != c
    ensures IsStranded(s', c) && Untouched(s, s', c)
  {
    hide IsStranded, Client.OnFrame, Client.PushBatch, Client.NextMutationId, Client.Reload, Noted, Mirror.Collected;
    hide StepServeHello, StepServePush, StepImport, StepImportFields, StepMigration, StepReset, StepCompaction, StepWake;
    assert Moves(s, s', d);
    OthersMove(s, s', d, c);
  }

  lemma PassiveStays(s: System, s': System, step: Step, c: ClientId)
    requires IsStranded(s, c) && Convergence.OwnSockets(s) && Next(s, s', step)
    requires step.Accept? || step.Kick? || step.Cut? || step.Persist? || step.Unsaved? || step.Wipe?
    ensures IsStranded(s', c) && Untouched(s, s', c)
  {
    hide IsStranded, Convergence.OwnSockets, Mirror.Apply;
    hide StepServeHello, StepServePush, StepImport, StepImportFields, StepMigration, StepReset, StepCompaction, StepWake;
    if step.Cut? { CutStays(s, s', c, step.sock, step.up, step.down); }
    else { SilentStays(s, s', c); }
  }

  lemma StepStays(s: System, s': System, step: Step, c: ClientId)
    requires IsStranded(s, c) && Convergence.OwnSockets(s) && c != "$system" && Next(s, s', step) && Ordinary(step, c)
    ensures IsStranded(s', c) && Untouched(s, s', c)
  {
    hide IsStranded, Convergence.OwnSockets, Next, Untouched;
    if Convergence.ServerStep(step) {
      ServerStepStays(s, s', step, c);
    } else if step.Accept? || step.Kick? || step.Cut? || step.Persist? || step.Unsaved? || step.Wipe? {
      PassiveStays(s, s', step, c);
    } else if step.c == c {
      OwnStepStays(s, s', step, c);
    } else {
      OtherClientStays(s, s', step, step.c, c);
    }
  }

  /**
   * Whatever happens short of another reset or a reload of its own, a stranded client stays so: nothing of
   * it is ever executed again, and every push of its that carries anything is refused.
   */
  lemma {:induction false} StrandedForGood(run: seq<System>, steps: seq<Step>, n: nat, m: nat, c: ClientId)
    requires IsRun(run, steps) && n <= m < |run| && c != "$system" && IsStranded(run[n], c)
    requires forall i :: n <= i < m ==> Ordinary(steps[i], c)
    ensures IsStranded(run[m], c) && Untouched(run[n], run[m], c)
    ensures forall i :: n <= i < m && steps[i].ServePush? && SentBy(run[i], steps[i].sock, c) && steps[i].ms != [] ==>
              Problem(PushInvalid) in steps[i].out
    decreases m - n
  {
    hide IsStranded, Next, Convergence.Inv, Convergence.OwnSockets, Init;
    if n < m {
      StrandedForGood(run, steps, n, m - 1, c);
      Convergence.RunKeeps(run, steps, m - 1);
      StepStays(run[m - 1], run[m], steps[m - 1], c);
      if steps[m - 1].ServePush? { Refused(run[m - 1], run[m], steps[m - 1], c); }
    }
  }

  predicate SentBy(s: System, sock: SockId, c: ClientId) {
    sock in s.socks && s.socks[sock].client == c
  }

  lemma Refused(s: System, s': System, step: Step, c: ClientId)
    requires IsStranded(s, c) && Convergence.OwnSockets(s) && Next(s, s', step) && step.ServePush?
    ensures SentBy(s, step.sock, c) && step.ms != [] ==> Problem(PushInvalid) in step.out
  {
    hide IsStranded, Convergence.OwnSockets, StepServePush;
    PushStays(s, s', c, step.sock, step.ms, step.os, step.out, step.pokeId, step.parts);
  }
}
