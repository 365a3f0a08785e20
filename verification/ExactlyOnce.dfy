/**
 * Within one history, the mutations the server executed for a client are those the client numbered,
 * each once and in the order they were enqueued, however often pushes are replayed.
 */
module ExactlyOnce {
  import opened Rows
  import opened WriteSets
  import opened Server
  import Client
  import opened Protocol
  import opened Streams
  import opened Ledgers
  import Convergence
  import Mirror

  ghost predicate SockOk(k: Sock, s: System) {
    && k.client in s.peers && k.client in s.issued
    && (k.ready ==> k.client in s.server.clients)
    && (k.down != [] ==> k.ready)
    && Client.ErrorFrame(PushInvalid) !in k.down
    && forall m :: m in k.up && m.PushMsg? ==>
         k.ready && PushOk(m.mutations, s.issued[k.client], LastMutationId(s.server, k.client), Limit(s.peers[k.client].state))
  }

  ghost predicate LinkOk(p: Peer, c: ClientId, socks: map<SockId, Sock>, s: Server.State) {
    && (p.state.cursor.Some? ==> p.state.cursor.value.backend == s.backend)
    && (p.sock.Some? ==>
          && p.sock.value in socks
          && (p.state.poke.Some? || p.state.synced ==> socks[p.sock.value].ready)
          && forall q :: q in Completes(PartialOf(p.state.poke), socks[p.sock.value].down) ==> Confirms(q, c, s))
  }

  ghost predicate Inv(s: System) {
    && (forall x :: x in s.timeline ==> x.backend == s.server.backend)
    && (forall c :: c in s.peers ==>
          && c != "$system" && c in s.issued
          && ClientOk(s.peers[c].state, c, s.issued[c], s.server)
          && LinkOk(s.peers[c], c, s.socks, s.server))
    && (forall i :: i in s.socks ==> SockOk(s.socks[i], s))
  }

  // ----- one step of the system -----

  /** What one client has issued, numbered and had executed only grows. */
  ghost predicate Grown(s: System, s': System, c: ClientId) {
    && c in s.peers && c in s'.peers && c in s.issued && c in s'.issued
    && s.issued[c] <= s'.issued[c]
    && Grows(s.server, s'.server, c)
    && Limit(s.peers[c].state) <= Limit(s'.peers[c].state) <= |s'.issued[c]|
  }

  /** Nothing new on its way that a client has to fear: no refusal of a push, no further push. */
  ghost predicate Tame(k: Sock, k': Sock) {
    && k'.client == k.client && (k.ready ==> k'.ready)
    && (k'.down != [] ==> k'.ready)
    && Client.ErrorFrame(PushInvalid) !in k'.down
    && forall m :: m in k'.up && m.PushMsg? ==> m in k.up
  }

  lemma SockAdvances(k: Sock, k': Sock, s: System, s': System)
    requires SockOk(k, s) && Tame(k, k') && Grown(s, s', k.client)
    requires k'.ready && !k.ready ==> k.client in s'.server.clients
    ensures SockOk(k', s')
  {
  }

  lemma LimitIsIssued(st: Client.State, c: ClientId, issued: seq<Intent>, s: Server.State)
    requires ClientOk(st, c, issued, s)
    ensures Limit(st) <= |issued|
  {
  }

  /** The server moves on: what it executed grows within the ids given out, and it sends one poke at most. */
  ghost predicate ServerAdvances(s: System, s': System, more: Option<Poke>) {
    && s'.peers == s.peers && s'.issued == s.issued
    && Adds(s.socks, s'.socks, more)
    && (forall x :: x in s'.timeline ==> x.backend == s'.server.backend)
    && (forall c :: c in s.peers && c in s.issued ==> AdvancesFor(s, s', more, c))
    && (forall i :: i in s'.socks ==> i in s.socks && SockAdvancesTo(s.socks[i], s'.socks[i], s'))
  }

  ghost predicate AdvancesFor(s: System, s': System, more: Option<Poke>, c: ClientId)
    requires c in s.peers && c in s.issued
  {
    && Grows(s.server, s'.server, c) && Ledger(s'.server, c, s.issued[c])
    && LastMutationId(s'.server, c) <= Limit(s.peers[c].state)
    && (more.Some? ==> Confirms(more.value, c, s'.server))
  }

  ghost predicate SockAdvancesTo(k: Sock, k': Sock, s': System) {
    Tame(k, k') && (k'.ready && !k.ready ==> k.client in s'.server.clients)
  }

  lemma LinkAdvances(p: Peer, c: ClientId, socks: map<SockId, Sock>, socks': map<SockId, Sock>, more: Option<Poke>, s: Server.State, s': Server.State)
    requires LinkOk(p, c, socks, s) && Grows(s, s', c)
    requires Adds(socks, socks', more) && (more.Some? ==> Confirms(more.value, c, s'))
    ensures LinkOk(p, c, socks', s')
  {
    if p.sock.Some? {
      var i, b := p.sock.value, PartialOf(p.state.poke);
      assert AddsAt(socks[i], socks'[i], more);
      forall q | q in Completes(b, socks'[i].down)
        ensures Confirms(q, c, s')
      {
        assert q in Completes(b, socks[i].down) || more == Some(q);
      }
    }
  }

  lemma ServerAdvancesKeeps(s: System, s': System, more: Option<Poke>)
    requires Inv(s) && ServerAdvances(s, s', more)
    ensures Inv(s')
  {
    forall c | c in s'.peers
      ensures ClientOk(s'.peers[c].state, c, s'.issued[c], s'.server) && LinkOk(s'.peers[c], c, s'.socks, s'.server)
      ensures Grown(s, s', c)
    {
      assert AdvancesFor(s, s', more, c);
      ClientOkGrows(s.peers[c].state, c, s.issued[c], s.server, s'.server);
      LimitIsIssued(s.peers[c].state, c, s.issued[c], s.server);
      LinkAdvances(s.peers[c], c, s.socks, s'.socks, more, s.server, s'.server);
    }
    forall i | i in s'.socks
      ensures SockOk(s'.socks[i], s')
    {
      SockAdvances(s.socks[i], s'.socks[i], s, s');
    }
  }

  // ----- the server's steps -----

  predicate Calm(fs: seq<Client.Frame>) {
    Client.ErrorFrame(PushInvalid) !in fs
  }

  lemma PokeFramesCalm(pokeId: nat, p: Poke, parts: seq<seq<PatchOp>>)
    ensures Calm(Client.PokeFrames(pokeId, p, parts))
  {
    Client.PartFrameAt(pokeId, p, parts, true);
  }

  lemma {:induction false} ErrorsCalm(out: seq<Outgoing>)
    requires Problem(PushInvalid) !in out
    ensures Calm(Errors(out))
    decreases |out|
  {
    if out != [] {
      assert out[0] in out;
      ErrorsCalm(out[1..]);
    }
  }

  /** Tame so far: what `SockOk` says of the inbound queue alone. */
  ghost predicate Quiet(k: Sock) {
    Calm(k.down) && (k.down != [] ==> k.ready)
  }

  lemma DeliveryTame(k: Sock, k': Sock, fs: seq<Client.Frame>)
    requires Quiet(k) && Calm(fs) && Delivery(k, k', fs)
    ensures Calm(k'.down) && k' == k.(down := k'.down, cut := k'.cut, defunct := k'.defunct)
    ensures k.ready ==> Tame(k, k')
  {
    var n :| 0 <= n <= |fs| && DeliveryOf(k, k', fs, n);
    assert forall f :: f in fs[..n] ==> f in fs;
  }

  lemma BroadcastTame(socks: map<SockId, Sock>, socks': map<SockId, Sock>, only: Option<SockId>, fs: seq<Client.Frame>)
    requires Broadcast(socks, socks', only, fs) && Calm(fs)
    requires forall i :: i in socks ==> Quiet(socks[i])
    ensures forall i :: i in socks' ==> i in socks && Tame(socks[i], socks'[i]) && socks'[i].ready == socks[i].ready
  {
    forall i | i in socks'
      ensures i in socks && Tame(socks[i], socks'[i]) && socks'[i].ready == socks[i].ready
    {
      if Listening(socks[i]) && (only.None? || only == Some(i)) {
        DeliveryTame(socks[i], socks'[i], fs);
      }
    }
  }

  lemma AllQuiet(s: System)
    requires Inv(s)
    ensures forall i :: i in s.socks ==> Quiet(s.socks[i]) && SockAdvancesTo(s.socks[i], s.socks[i], s)
  {
    forall i | i in s.socks
      ensures Quiet(s.socks[i]) && SockAdvancesTo(s.socks[i], s.socks[i], s)
    {
      assert SockOk(s.socks[i], s);
    }
  }

  /** Steps that leave the log and the clients' rows alone, apart from entering a client that says hello. */
  lemma SameLedgers(s: System, s': System, more: Option<Poke>)
    requires Inv(s) && s'.peers == s.peers
    requires s'.server.log == s.server.log && s'.server.backend == s.server.backend
    requires forall c :: LastMutationId(s'.server, c) == LastMutationId(s.server, c)
    requires s.server.clients.Keys <= s'.server.clients.Keys
    requires more.Some? ==> more.value.results == [] && forall c :: c in more.value.lmids ==> more.value.lmids[c] == LastMutationId(s.server, c)
    ensures forall c :: c in s.peers && c in s.issued ==> AdvancesFor(s, s', more, c)
  {
    forall c | c in s.peers && c in s.issued
      ensures AdvancesFor(s, s', more, c)
    {
      assert ClientOk(s.peers[c].state, c, s.issued[c], s.server);
    }
  }

  lemma ServeHelloOk(
      s: System, s': System, sock: SockId, cursor: Option<Cursor>, poke: Poke, pokeId: nat, parts: seq<seq<PatchOp>>)
    requires Inv(s) && StepServeHello(s, s', sock, cursor, poke, pokeId, parts)
    ensures Inv(s')
  {
    AllQuiet(s);
    ServeHelloAdds(s, s', sock, cursor, poke, pokeId, parts);
    HelloLedgers(s, s', s.socks[sock].client, cursor, poke);
    HelloTame(s, s', sock, cursor, poke, pokeId, parts);
    ServerAdvancesKeeps(s, s', Some(poke));
  }

  lemma HelloLedgers(s: System, s': System, c: ClientId, cursor: Option<Cursor>, poke: Poke)
    requires Inv(s) && s'.peers == s.peers && Hello(s.server, c, cursor, s'.server, poke)
    ensures forall c :: c in s.peers && c in s.issued ==> AdvancesFor(s, s', Some(poke), c)
    ensures s'.server.backend == s.server.backend
  {
    SameLedgers(s, s', Some(poke));
  }

  lemma HelloTame(
      s: System, s': System, sock: SockId, cursor: Option<Cursor>, poke: Poke, pokeId: nat, parts: seq<seq<PatchOp>>)
    requires StepServeHello(s, s', sock, cursor, poke, pokeId, parts)
    requires forall i :: i in s.socks ==> Quiet(s.socks[i]) && SockAdvancesTo(s.socks[i], s.socks[i], s)
    ensures forall i :: i in s'.socks ==> i in s.socks && SockAdvancesTo(s.socks[i], s'.socks[i], s')
  {
    var k := s.socks[sock];
    var sent :| Delivery(Popped(s, sock), sent, Client.PokeFrames(pokeId, poke, parts))
             && s'.socks[sock] == sent.(ready := true, defunct := false);
    PokeFramesCalm(pokeId, poke, parts);
    DeliveryTame(Popped(s, sock), sent, Client.PokeFrames(pokeId, poke, parts));
    assert SockAdvancesTo(k, s'.socks[sock], s');
    forall i | i in s'.socks && i != sock
      ensures SockAdvancesTo(s.socks[i], s'.socks[i], s')
    {
      assert SockAdvancesTo(s.socks[i], s.socks[i], s);
    }
  }

  /** What a push leaves: one client's ledger longer by what was due, every other client's as it was. */
  lemma PushRuns(s: System, sock: SockId, ms: seq<Mutation>, os: seq<Outcome>)
    requires Inv(s) && Receives(s, sock) && s.socks[sock].up[0] == Client.PushMsg(ms) && |ms| == |os|
    ensures s.socks[sock].ready && s.socks[sock].client in s.peers && s.socks[sock].client in s.issued
    ensures var c := s.socks[sock].client;
            var b := RunBatch(StartBatch(s.server, c), c, ms, os);
            BatchOk(b, s.server, c, s.issued[c]) && b.lmid <= Limit(s.peers[c].state)
  {
    var k, c := s.socks[sock], s.socks[sock].client;
    assert SockOk(k, s);
    assert k.up[0] in k.up;
    assert ClientOk(s.peers[c].state, c, s.issued[c], s.server);
    SliceRuns(s.server, c, s.issued[c], ms, os, Limit(s.peers[c].state), |ms|);
    assert ms[..|ms|] == ms && os[..|ms|] == os;
  }

  lemma PushAnswer(s: Server.State, c: ClientId, ms: seq<Mutation>, os: seq<Outcome>, s': Server.State, out: seq<Outgoing>, issued: seq<Intent>)
    requires |ms| == |os| && Push(s, c, ms, os, s', out)
    requires BatchOk(RunBatch(StartBatch(s, c), c, ms, os), s, c, issued)
    ensures Problem(PushInvalid) !in out
    ensures PokeOf(out).Some? ==> Confirms(PokeOf(out).value, c, s') && PokeOf(out).value.lmids.Keys == {c}
  {
    var b := RunBatch(StartBatch(s, c), c, ms, os);
    if !b.stop.Aborted? {
      assert out == out[..|out| - 1] + [out[|out| - 1]];
    }
  }

  lemma PushAdvances(
      s: System, s': System, sock: SockId, ms: seq<Mutation>, os: seq<Outcome>, out: seq<Outgoing>)
    requires Inv(s) && Receives(s, sock) && s.socks[sock].up[0] == Client.PushMsg(ms) && |ms| == |os|
    requires Push(s.server, s.socks[sock].client, ms, os, s'.server, out)
    ensures forall c :: c in s.peers && c in s.issued ==> AdvancesFor(s, s', PokeOf(out), c)
    ensures s'.server.backend == s.server.backend && s'.server.clients.Keys == s.server.clients.Keys
    ensures Problem(PushInvalid) !in out
  {
    PushRuns(s, sock, ms, os);
    var c := s.socks[sock].client;
    var b := RunBatch(StartBatch(s.server, c), c, ms, os);
    PushAnswer(s.server, c, ms, os, s'.server, out, s.issued[c]);
    forall d | d in s.peers && d in s.issued
      ensures AdvancesFor(s, s', PokeOf(out), d)
    {
      if d != c {
        assert SameFor(s.server, b.s, d);
        SameAdvances(s, s', PokeOf(out), d);
      }
    }
  }

  /** A client the step executed nothing for and sent no confirmation to. */
  lemma SameAdvances(s: System, s': System, more: Option<Poke>, d: ClientId)
    requires Inv(s) && d in s.peers && d in s.issued && SameFor(s.server, s'.server, d)
    requires s'.server.backend == s.server.backend && s'.server.clients.Keys == s.server.clients.Keys
    requires more.Some? ==> d !in more.value.lmids
    ensures AdvancesFor(s, s', more, d)
  {
    assert ClientOk(s.peers[d].state, d, s.issued[d], s.server);
  }

  lemma PushTame(
      s: System, s': System, sock: SockId, ms: seq<Mutation>, os: seq<Outcome>, out: seq<Outgoing>,
      pokeId: nat, parts: seq<seq<PatchOp>>)
    requires StepServePush(s, s', sock, ms, os, out, pokeId, parts) && s.socks[sock].ready
    requires Problem(PushInvalid) !in out
    requires forall i :: i in s.socks ==> Quiet(s.socks[i]) && SockAdvancesTo(s.socks[i], s.socks[i], s)
    ensures forall i :: i in s'.socks ==> i in s.socks && SockAdvancesTo(s.socks[i], s'.socks[i], s')
  {
    var told :| Delivery(Popped(s, sock), told, Errors(out)) && Answered(s.socks[sock := told], s'.socks, sock, out, pokeId, parts);
    ErrorsCalm(out);
    DeliveryTame(Popped(s, sock), told, Errors(out));
    AnswerTame(s.socks, told, s'.socks, sock, out, pokeId, parts);
  }

  lemma AnswerTame(
      socks: map<SockId, Sock>, told: Sock, socks': map<SockId, Sock>, sock: SockId, out: seq<Outgoing>,
      pokeId: nat, parts: seq<seq<PatchOp>>)
    requires sock in socks && Tame(socks[sock], told) && told.ready == socks[sock].ready
    requires forall i :: i in socks ==> Quiet(socks[i])
    requires Answered(socks[sock := told], socks', sock, out, pokeId, parts)
    ensures forall i :: i in socks' ==> i in socks && Tame(socks[i], socks'[i]) && socks'[i].ready == socks[i].ready
  {
    var mid := socks[sock := told];
    assert forall i :: i in mid ==> Quiet(mid[i]) && Tame(socks[i], mid[i]);
    if PokeOf(out).Some? {
      var last := out[|out| - 1];
      PokeFramesCalm(pokeId, last.poke, parts);
      BroadcastTame(mid, socks', if last.everyone then None else Some(sock), Client.PokeFrames(pokeId, last.poke, parts));
    }
  }

  lemma ServePushOk(
      s: System, s': System, sock: SockId, ms: seq<Mutation>, os: seq<Outcome>, out: seq<Outgoing>,
      pokeId: nat, parts: seq<seq<PatchOp>>)
    requires Inv(s) && Convergence.Inv(s) && StepServePush(s, s', sock, ms, os, out, pokeId, parts)
    ensures Inv(s')
  {
    AllQuiet(s);
    PushRuns(s, sock, ms, os);
    PushAdvances(s, s', sock, ms, os, out);
    PushTame(s, s', sock, ms, os, out, pokeId, parts);
    ServePushAdds(s, s', sock, ms, os, out, pokeId, parts);
    RunBatchKeeps(StartBatch(s.server, s.socks[sock].client), s.timeline, s.socks[sock].client, ms, os);
    ServerAdvancesKeeps(s, s', PokeOf(out));
  }

  lemma ImportOk(s: System, s': System, rows: Table, patch: seq<PatchOp>, pokeId: nat, parts: seq<seq<PatchOp>>)
    requires Inv(s) && StepImport(s, s', rows, patch, pokeId, parts)
    ensures Inv(s')
  {
    var p := Poke(None, patch, map[], [], s'.server.Here());
    AllQuiet(s);
    PokeFramesCalm(pokeId, p, parts);
    BroadcastTame(s.socks, s'.socks, None, Client.PokeFrames(pokeId, p, parts));
    BroadcastAdds(s.socks, s'.socks, None, pokeId, p, parts);
    SameLedgers(s, s', Some(p));
    ServerAdvancesKeeps(s, s', Some(p));
  }

  predicate SameQueues(k: Sock, k': Sock) {
    k' == k.(accepted := k'.accepted, defunct := k'.defunct)
  }

  /** A step that sends nothing and executes nothing, though it may close or accept sockets. */
  lemma SilentOk(s: System, s': System)
    requires Inv(s) && s'.peers == s.peers && s'.issued == s.issued
    requires s'.server.log == s.server.log && s'.server.backend == s.server.backend && s'.server.clients == s.server.clients
    requires forall x :: x in s'.timeline ==> x.backend == s.server.backend
    requires s'.socks.Keys == s.socks.Keys && forall i :: i in s.socks ==> SameQueues(s.socks[i], s'.socks[i])
    ensures Inv(s')
  {
    AllQuiet(s);
    SameLedgers(s, s', None);
    assert forall i :: i in s.socks ==> SockAdvancesTo(s.socks[i], s.socks[i], s);
    assert Adds(s.socks, s'.socks, None);
    ServerAdvancesKeeps(s, s', None);
  }

  lemma MigrationOk(s: System, s': System, puts: Table, dels: set<Key>)
    requires Inv(s) && StepMigration(s, s', puts, dels)
    ensures Inv(s')
  {
    AllQuiet(s);
    var e := s'.server.log[|s.server.log|];
    assert s'.server.log == s.server.log + [e] && e.client == "$system";
    forall c | c in s.peers && c in s.issued
      ensures AdvancesFor(s, s', None, c)
    {
      LogOfAppend(s.server.log, e, c);
      SameAdvances(s, s', None, c);
    }
    MigrationTame(s, s', puts, dels);
    ServerAdvancesKeeps(s, s', None);
  }

  lemma MigrationTame(s: System, s': System, puts: Table, dels: set<Key>)
    requires Inv(s) && StepMigration(s, s', puts, dels)
    ensures Adds(s.socks, s'.socks, None)
    ensures forall i :: i in s'.socks ==> i in s.socks && SockAdvancesTo(s.socks[i], s'.socks[i], s')
    ensures forall x :: x in s'.timeline ==> x.backend == s'.server.backend
  {
    AllQuiet(s);
  }

  // ----- the clients' and the sockets' steps -----

  /** One client moves and the server does not; only that client's sockets change, and only tamely. */
  ghost predicate ClientMoves(s: System, s': System, c: ClientId) {
    && s'.server == s.server && s'.timeline == s.timeline
    && c in s.peers && c in s.issued && c in s'.peers && c in s'.issued
    && s'.peers == s.peers[c := s'.peers[c]] && s'.issued == s.issued[c := s'.issued[c]]
    && s.issued[c] <= s'.issued[c]
    && Limit(s.peers[c].state) <= Limit(s'.peers[c].state)
    && ClientOk(s'.peers[c].state, c, s'.issued[c], s.server)
    && LinkOk(s'.peers[c], c, s'.socks, s.server)
    && (forall i :: i in s.socks && s.socks[i].client != c ==> i in s'.socks && s'.socks[i] == s.socks[i])
    && (forall i :: i in s'.socks && (i !in s.socks || s'.socks[i] != s.socks[i]) ==> SockOk(s'.socks[i], s'))
  }

  lemma AllGrown(s: System, s': System, c: ClientId, d: ClientId)
    requires Inv(s) && ClientMoves(s, s', c) && d in s.peers
    ensures Grown(s, s', d)
  {
    LimitIsIssued(s.peers[d].state, d, s.issued[d], s.server);
    LimitIsIssued(s'.peers[c].state, c, s'.issued[c], s.server);
  }

  lemma ClientMovesKeeps(s: System, s': System, c: ClientId)
    requires Inv(s) && Convergence.OwnSockets(s) && ClientMoves(s, s', c)
    ensures Inv(s')
  {
    forall d | d in s'.peers && d != c
      ensures LinkOk(s'.peers[d], d, s'.socks, s'.server)
    {
      assert LinkOk(s.peers[d], d, s.socks, s.server);
    }
    forall i | i in s'.socks
      ensures SockOk(s'.socks[i], s')
    {
      if i in s.socks && s'.socks[i] == s.socks[i] {
        assert SockOk(s.socks[i], s);
        AllGrown(s, s', c, s.socks[i].client);
        SockAdvances(s.socks[i], s'.socks[i], s, s');
      }
    }
  }

  lemma MutateOk(s: System, s': System, c: ClientId, intent: Intent)
    requires Inv(s) && Convergence.OwnSockets(s) && StepMutate(s, s', c, intent)
    ensures Inv(s')
  {
    EnqueueOk(s.peers[c].state, intent, c, s.issued[c], s.server);
    Known(s, c);
    ClientMovesKeeps(s, s', c);
  }

  /** A socket's own queue may change under a client that stays put. */
  lemma SocketMoves(s: System, s': System, i: SockId)
    requires Inv(s) && i in s.socks && i in s'.socks && s' == s.(socks := s.socks[i := s'.socks[i]])
    requires AddsAt(s.socks[i], s'.socks[i], None) && SockOk(s'.socks[i], s')
    ensures Inv(s')
  {
    assert Adds(s.socks, s'.socks, None);
    forall c | c in s'.peers
      ensures LinkOk(s'.peers[c], c, s'.socks, s'.server)
    {
      LinkAdvances(s.peers[c], c, s.socks, s'.socks, None, s.server, s.server);
    }
    forall j | j in s'.socks
      ensures SockOk(s'.socks[j], s')
    {
      if j != i { assert SockOk(s.socks[j], s); }
    }
  }

  lemma FlushOk(s: System, s': System, c: ClientId)
    requires Inv(s) && Convergence.OwnSockets(s) && StepFlush(s, s', c)
    ensures Inv(s')
  {
    var i, st := s.peers[c].sock.value, s.peers[c].state;
    Known(s, c);
    PushBatchOk(st.confirmed, st.outbox, st.synced, s.issued[c], LastMutationId(s.server, c));
    assert SockOk(s.socks[i], s);
    SocketMoves(s, s', i);
  }

  lemma CutOk(s: System, s': System, sock: SockId, up: nat, down: nat)
    requires Inv(s) && StepCut(s, s', sock, up, down)
    ensures Inv(s')
  {
    var k, k' := s.socks[sock], s'.socks[sock];
    forall b
      ensures Completes(b, k'.down) <= Completes(b, k.down)
    {
      CompletesPrefix(b, k.down, down);
    }
    assert SockOk(k, s);
    assert forall f :: f in k'.down ==> f in k.down;
    assert forall m :: m in k'.up ==> m in k.up;
    SocketMoves(s, s', sock);
  }

  lemma Known(s: System, c: ClientId)
    requires Inv(s) && c in s.peers
    ensures c in s.issued && ClientOk(s.peers[c].state, c, s.issued[c], s.server)
    ensures LinkOk(s.peers[c], c, s.socks, s.server)
    ensures Limit(s.peers[c].state) <= |s.issued[c]|
  {
    LimitIsIssued(s.peers[c].state, c, s.issued[c], s.server);
  }

  /** Connecting, disconnecting and asking to resync leave the queue and the promises alone. */
  lemma QueueKept(st: Client.State, st': Client.State, c: ClientId, issued: seq<Intent>, s: Server.State)
    requires ClientOk(st, c, issued, s) && (st'.synced ==> st.synced)
    requires st'.id == st.id && st'.needsRebase == st.needsRebase
    requires st'.confirmed == st.confirmed && st'.outbox == st.outbox && st'.settled == st.settled
    ensures ClientOk(st', c, issued, s) && Limit(st') == Limit(st)
  {
  }

  lemma DialOk(s: System, s': System, c: ClientId, sock: SockId)
    requires Inv(s) && Convergence.Inv(s) && Convergence.OwnSockets(s) && StepDial(s, s', c, sock)
    ensures Inv(s')
  {
    hide ClientOk, Confirms, Completed, Convergence.StoresOk, HistoryOk, PushOk;
    assert Convergence.PeerOk(s.peers[c], s.socks, s.timeline);
    Known(s, c);
    QueueKept(s.peers[c].state, s'.peers[c].state, c, s.issued[c], s.server);
    assert SockOk(s'.socks[sock], s');
    assert PartialOf(s'.peers[c].state.poke) == None && s'.socks[sock].down == [];
    assert LinkOk(s'.peers[c], c, s'.socks, s.server);
    ClientMovesKeeps(s, s', c);
  }

  lemma OpenOk(s: System, s': System, c: ClientId)
    requires Inv(s) && Convergence.OwnSockets(s) && StepOpen(s, s', c)
    ensures Inv(s')
  {
    hide ClientOk, Confirms, Completed, Completes, PushOk;
    var i := s.peers[c].sock.value;
    Known(s, c);
    QueueKept(s.peers[c].state, s'.peers[c].state, c, s.issued[c], s.server);
    assert SockOk(s.socks[i], s);
    TakenTame(s.socks[i], Client.SayHello(s.peers[c].state).1);
    SockAdvances(s.socks[i], s'.socks[i], s, s');
    ClientMovesKeeps(s, s', c);
  }

  lemma HangupOk(s: System, s': System, c: ClientId)
    requires Inv(s) && Convergence.OwnSockets(s) && StepHangup(s, s', c)
    ensures Inv(s')
  {
    Known(s, c);
    QueueKept(s.peers[c].state, s'.peers[c].state, c, s.issued[c], s.server);
    ClientMovesKeeps(s, s', c);
  }

  lemma ReloadOk(s: System, s': System, c: ClientId, staleBefore: int)
    requires Inv(s) && Convergence.Inv(s) && Convergence.OwnSockets(s) && StepReload(s, s', c, staleBefore)
    ensures Inv(s')
  {
    assert Convergence.Known(Mirror.StoredCursor(s.disks[s.tabs[c].home]), s.timeline);
    Known(s, c);
    QueueKept(s.peers[c].state, s'.peers[c].state, c, s.issued[c], s.server);
    ClientMovesKeeps(s, s', c);
  }

  lemma DeliverOk(s: System, s': System, c: ClientId)
    requires Inv(s) && Convergence.Inv(s) && Convergence.OwnSockets(s) && StepDeliver(s, s', c)
    ensures Inv(s')
  {
    hide ClientOk, LinkOk, Confirms, Completes, Completed, Client.OnFrame, PushOk, Convergence.Inv;
    var i, st := s.peers[c].sock.value, s.peers[c].state;
    var k, k' := s.socks[i], s'.socks[i];
    Known(s, c);
    assert SockOk(k, s) && k.down[0] in k.down;
    NextPokeConfirms(s, c);
    FrameOk(st, k.down[0], c, s.issued[c], s.server);
    FrameLinks(s, s', c);
    LimitIsIssued(s'.peers[c].state, c, s.issued[c], s.server);
    OnlyHellosSent(st, k.down[0]);
    TakenTame(k, Client.OnFrame(st, k.down[0]).1);
    SockAdvances(k, k', s, s');
    ClientMovesKeeps(s, s', c);
  }

  /** A poke the next frame ends confirms what the server logged, in the client's own history. */
  lemma NextPokeConfirms(s: System, c: ClientId)
    requires Inv(s) && Convergence.Inv(s) && Connected(s, c) && s.socks[s.peers[c].sock.value].down != []
    ensures var (st, f) := (s.peers[c].state, s.socks[s.peers[c].sock.value].down[0]);
            forall q :: q in Completed(PartialOf(st.poke), f) ==>
              Confirms(q, c, s.server) && q.end.backend == s.server.backend
              && (st.cursor.Some? ==> st.cursor.value.backend == q.end.backend)
  {
    var p, fs := s.peers[c], s.socks[s.peers[c].sock.value].down;
    var b := PartialOf(p.state.poke);
    assert Convergence.PeerOk(p, s.socks, s.timeline) && LinkOk(p, c, s.socks, s.server);
    assert Completes(b, fs) == Completed(b, fs[0]) + Completes(After(b, fs[0]), fs[1..]);
    forall q | q in Completed(b, fs[0])
      ensures Confirms(q, c, s.server) && q.end.backend == s.server.backend
    {
      assert q in Completes(b, fs);
    }
  }

  lemma FrameLinks(s: System, s': System, c: ClientId)
    requires Inv(s) && Convergence.Inv(s) && StepDeliver(s, s', c)
    ensures LinkOk(s'.peers[c], c, s'.socks, s.server)
  {
    var p, i := s.peers[c], s.peers[c].sock.value;
    var fs := s.socks[i].down;
    var b := PartialOf(p.state.poke);
    assert LinkOk(p, c, s.socks, s.server) && SockOk(s.socks[i], s);
    OnFrameFollows(p.state, fs[0]);
    assert Completes(b, fs) == Completed(b, fs[0]) + Completes(After(b, fs[0]), fs[1..]);
    NextPokeConfirms(s, c);
    FrameMovesCursor(p.state, fs[0], s.server.backend);
  }

  lemma FrameMovesCursor(st: Client.State, f: Client.Frame, backend: string)
    requires st.cursor.Some? ==> st.cursor.value.backend == backend
    requires forall q :: q in Completed(PartialOf(st.poke), f) ==> q.end.backend == backend
    ensures var st' := Client.OnFrame(st, f).0; st'.cursor.Some? ==> st'.cursor.value.backend == backend
  {
    if Client.Applies(st, f) {
      var b := st.poke.value;
      assert Poke(b.base, b.ops, b.lmids, b.results, f.end) in Completed(PartialOf(st.poke), f);
    }
  }

  lemma OnlyHellosSent(st: Client.State, f: Client.Frame)
    ensures forall m :: m in Client.OnFrame(st, f).1 ==> m.HelloMsg?
  {
  }

  lemma TakenTame(k: Sock, ms: seq<Client.Message>)
    requires Quiet(k) && forall m :: m in ms ==> m.HelloMsg?
    ensures Tame(k, SendUp(k, ms))
    ensures k.down != [] ==> Tame(k, SendUp(k.(down := k.down[1..]), ms))
  {
    assert forall m :: m in k.up + ms ==> m in k.up || m in ms;
    assert k.down != [] ==> forall f :: f in k.down[1..] ==> f in k.down;
  }

  // ----- runs -----

  lemma OneBackend(s: System)
    requires Inv(s)
    ensures forall x :: x in s.timeline ==> x.backend == s.server.backend
  {
  }

  lemma ServerStepOk(s: System, s': System, step: Step)
    requires Inv(s) && Convergence.Inv(s) && Next(s, s', step) && Convergence.ServerStep(step) && !step.Reset?
    ensures Inv(s')
  {
    hide Inv, Convergence.Inv, StepServeHello, StepServePush, StepMigration, StepImport, StepReset, Migrate, LastMutationId, Live;
    hide StepMutate, StepFlush, StepDial, StepAccept, StepOpen, StepDeliver, StepHangup, StepCut, StepKick, StepPersist, StepUnsaved, StepWipe, StepReload;
    OneBackend(s);
    match step
    case ServeHello(sock, cursor, poke, id, parts) => ServeHelloOk(s, s', sock, cursor, poke, id, parts);
    case ServePush(sock, ms, os, out, id, parts) => ServePushOk(s, s', sock, ms, os, out, id, parts);
    case Compaction(_) => SilentOk(s, s');
    case Importing(rows, patch, id, parts) => ImportOk(s, s', rows, patch, id, parts);
    case ImportingFields(rows) => SilentOk(s, s');
    case Migration(puts, dels) => MigrationOk(s, s', puts, dels);
    case Wake => SilentOk(s, s');
  }

  lemma AcceptOk(s: System, s': System, sock: SockId)
    requires Inv(s) && StepAccept(s, s', sock)
    ensures Inv(s')
  {
    hide SockOk, ClientOk, LinkOk;
    SilentOk(s, s');
  }

  lemma KickOk(s: System, s': System, sock: SockId)
    requires Inv(s) && StepKick(s, s', sock)
    ensures Inv(s')
  {
    SilentOk(s, s');
  }

  lemma OtherStepOk(s: System, s': System, step: Step)
    requires Inv(s) && Convergence.Inv(s) && Convergence.OwnSockets(s) && Next(s, s', step) && !Convergence.ServerStep(step)
    ensures Inv(s')
  {
    hide Inv, Convergence.Inv, Convergence.OwnSockets;
    hide StepMutate, StepFlush, StepDial, StepAccept, StepOpen, StepDeliver, StepHangup, StepCut, StepKick, StepReload;
    hide StepServeHello, StepServePush, StepImport, StepImportFields, StepMigration, StepReset, StepCompaction, StepWake;
    OneBackend(s);
    match step
    case Mutate(c, intent) => MutateOk(s, s', c, intent);
    case Flush(c) => FlushOk(s, s', c);
    case Dial(c, sock) => DialOk(s, s', c, sock);
    case Accept(sock) => AcceptOk(s, s', sock);
    case Open(c) => OpenOk(s, s', c);
    case Deliver(c) => DeliverOk(s, s', c);
    case Hangup(c) => HangupOk(s, s', c);
    case Cut(sock, up, down) => CutOk(s, s', sock, up, down);
    case Kick(sock) => KickOk(s, s', sock);
    case Persist(_, _) => SilentOk(s, s');
    case Unsaved(_) => SilentOk(s, s');
    case Wipe(_) => SilentOk(s, s');
    case Reload(c, staleBefore) => ReloadOk(s, s', c, staleBefore);
  }

  /** Runs of durable clients in one history: no reset of the workspace, no client named as the log names the server. */
  ghost predicate OneHistory(run: seq<System>, steps: seq<Step>) {
    && IsRun(run, steps) && "$system" !in run[0].peers
    && forall i :: 0 <= i < |steps| ==> !steps[i].Reset?
  }

  lemma {:induction false} RunOk(run: seq<System>, steps: seq<Step>, n: nat)
    requires OneHistory(run, steps) && n < |run|
    ensures Inv(run[n]) && Convergence.Inv(run[n]) && Convergence.OwnSockets(run[n])
  {
    hide Convergence.Inv, Convergence.OwnSockets, Next;
    Convergence.RunKeeps(run, steps, n);
    if n > 0 {
      RunOk(run, steps, n - 1);
      if Convergence.ServerStep(steps[n - 1]) {
        ServerStepOk(run[n - 1], run[n], steps[n - 1]);
      } else {
        OtherStepOk(run[n - 1], run[n], steps[n - 1]);
      }
    }
  }

  /** What a client's calls enqueued, in call order. */
  function Enqueued(steps: seq<Step>, c: ClientId): seq<Intent> {
    if steps == [] then []
    else
      var last := steps[|steps| - 1];
      Enqueued(steps[..|steps| - 1], c) + if last.Mutate? && last.c == c then [last.intent] else []
  }

  lemma {:induction false} IssuedIsEnqueued(run: seq<System>, steps: seq<Step>, n: nat, c: ClientId)
    requires OneHistory(run, steps) && n < |run| && c in run[n].issued
    ensures run[n].issued[c] == Enqueued(steps[..n], c)
  {
    if n > 0 {
      assert steps[..n][..n - 1] == steps[..n - 1];
      OnlyMutateIssues(run[n - 1], run[n], steps[n - 1]);
      IssuedIsEnqueued(run, steps, n - 1, c);
    }
  }

  lemma OnlyMutateIssues(s: System, s': System, step: Step)
    requires Next(s, s', step)
    ensures s'.issued == if step.Mutate? then s.issued[step.c := s.issued[step.c] + [step.intent]] else s.issued
    ensures step.Mutate? ==> step.c in s.issued
  {
  }

  /**
   * The mutations the server executed for a client are its first LMID enqueued ones: each once and in
   * the order of the calls, whatever was replayed, duplicated, refused for a while or lost on the way.
   */
  lemma ExecutesEachOnceInOrder(run: seq<System>, steps: seq<Step>, n: nat, c: ClientId)
    requires OneHistory(run, steps) && n < |run| && c in run[n].peers
    ensures var done, calls := LogOf(run[n].server.log, c), Enqueued(steps[..n], c);
            && |done| == LastMutationId(run[n].server, c) <= |calls|
            && forall i :: 0 <= i < |done| ==> done[i].id == i + 1 && done[i].intent == calls[i]
  {
    RunOk(run, steps, n);
    Known(run[n], c);
    IssuedIsEnqueued(run, steps, n, c);
  }

  /**
   * In every reachable state an outbox holds what was enqueued and is not confirmed yet: first the run
   * of ids after the confirmed one, then entries still without an id. Promises settled are those of the
   * confirmed ids, in order, each only once the server reached it, with a server error only if the
   * server logged that error.
   */
  lemma OutboxIsTheUnconfirmed(run: seq<System>, steps: seq<Step>, n: nat, c: ClientId)
    requires OneHistory(run, steps) && n < |run| && c in run[n].peers
    ensures var st, done, calls := run[n].peers[c].state, LogOf(run[n].server.log, c), Enqueued(steps[..n], c);
            && Client.WellFormed(st.confirmed, st.outbox, Numbered(st.outbox))
            && IsTail(st.outbox, calls, st.confirmed)
            && st.confirmed <= LastMutationId(run[n].server, c) <= st.confirmed + Numbered(st.outbox)
            && Client.Rebase(st.confirmed, st.outbox)[..Numbered(st.outbox)] == st.outbox[..Numbered(st.outbox)]
            && |st.settled| == st.confirmed && SettledOk(st.settled, calls, done)
  {
    RunOk(run, steps, n);
    Known(run[n], c);
    IssuedIsEnqueued(run, steps, n, c);
    var st := run[n].peers[c].state;
    Client.RebaseKeepsRun(st.confirmed, st.outbox, Numbered(st.outbox));
  }

  /** Every push on its way is gap-free and starts at or below the next mutation due, so none is ever refused. */
  lemma PushesAreNeverRefused(run: seq<System>, steps: seq<Step>, n: nat, i: SockId)
    requires OneHistory(run, steps) && n < |run| && i in run[n].socks
    ensures var k := run[n].socks[i];
            && Client.ErrorFrame(PushInvalid) !in k.down
            && k.client in run[n].issued && k.client in run[n].peers
            && (forall m :: m in k.up && m.PushMsg? ==>
                  PushOk(m.mutations, run[n].issued[k.client], LastMutationId(run[n].server, k.client), Limit(run[n].peers[k.client].state)))
  {
    RunOk(run, steps, n);
    assert SockOk(run[n].socks[i], run[n]);
  }

  lemma ServedPushIsAccepted(run: seq<System>, steps: seq<Step>, n: nat)
    requires OneHistory(run, steps) && n < |steps| && steps[n].ServePush?
    ensures Problem(PushInvalid) !in steps[n].out
  {
    RunOk(run, steps, n);
    var s, s', step := run[n], run[n + 1], steps[n];
    assert Next(s, s', step);
    PushRuns(s, step.sock, step.ms, step.os);
    PushAdvances(s, s', step.sock, step.ms, step.os, step.out);
  }

  /** A push served without a transient failure executes everything its client had numbered. */
  lemma PushDrains(st: Client.State, c: ClientId, issued: seq<Intent>, s: Server.State, os: seq<Outcome>)
    requires ClientOk(st, c, issued, s) && c in s.clients
    requires var ms := Client.PushBatch(st.confirmed, st.outbox); ms != [] && |os| == |ms|
    requires forall i :: 0 <= i < |os| ==> !os[i].Transient?
    ensures LastMutationId(RunBatch(StartBatch(s, c), c, Client.PushBatch(st.confirmed, st.outbox), os).s, c) == Limit(st)
  {
    var ms := Client.PushBatch(st.confirmed, st.outbox);
    Client.PushIsTheRun(st.confirmed, st.outbox, Numbered(st.outbox));
    LimitIsIssued(st, c, issued, s);
    PushBatchOk(st.confirmed, st.outbox, st.synced, issued, LastMutationId(s, c));
    SliceRuns(s, c, issued, ms, os, Limit(st), |ms|);
    assert ms[..|ms|] == ms && os[..|ms|] == os;
  }

  // ----- what a settled promise tells -----

  function ResultsAtHand(st: Client.State): seq<MutationResult> {
    if st.poke.Some? then st.poke.value.results else []
  }

  /**
   * Whatever frame a client takes, each promise it settles tells what the server logged exactly if no error
   * was logged or the poke's results name it: an error goes untold exactly when the results that named it
   * were lost and a later poke confirmed the id without them.
   */
  lemma SettlesTrulyIff(run: seq<System>, steps: seq<Step>, n: nat, c: ClientId)
    requires OneHistory(run, steps) && n < |steps| && steps[n] == Deliver(c)
    ensures c in run[n].peers && c in run[n + 1].peers
    ensures var (st, st') := (run[n].peers[c].state, run[n + 1].peers[c].state);
            && |st.settled| <= |st'.settled| <= |LogOf(run[n].server.log, c)|
            && TellsIffListed(st'.settled, |st.settled|, LogOf(run[n].server.log, c), ResultsAtHand(st))
  {
    hide Inv, Convergence.Inv, Convergence.OwnSockets, ClientOk, Completed, TellsIffListed;
    RunOk(run, steps, n);
    RunOk(run, steps, n + 1);
    var s, s' := run[n], run[n + 1];
    assert Next(s, s', steps[n]);
    Known(s, c);
    Known(s', c);
    FrameTells(s, s', c);
    SettledIsLogged(s'.peers[c].state, c, s'.issued[c], s'.server);
  }

  lemma SettledIsLogged(st: Client.State, c: ClientId, issued: seq<Intent>, s: Server.State)
    requires ClientOk(st, c, issued, s)
    ensures |st.settled| <= |LogOf(s.log, c)|
  {
  }

  lemma FrameTells(s: System, s': System, c: ClientId)
    requires Inv(s) && Convergence.Inv(s) && StepDeliver(s, s', c)
    ensures var (st, st') := (s.peers[c].state, s'.peers[c].state);
            |st.settled| <= |st'.settled| && TellsIffListed(st'.settled, |st.settled|, LogOf(s.server.log, c), ResultsAtHand(st))
  {
    hide ClientOk, LinkOk, SockOk, Convergence.Inv, Client.ApplyPoke, Confirms;
    var (st, f) := (s.peers[c].state, s.socks[s.peers[c].sock.value].down[0]);
    Known(s, c);
    NextPokeConfirms(s, c);
    if Client.Applies(st, f) {
      var b := st.poke.value;
      FrameApplies(st, f);
      assert Poke(b.base, b.ops, b.lmids, b.results, f.end) in Completed(PartialOf(st.poke), f);
      WithoutPoke(st, c, s.issued[c], s.server);
      ApplyPokeTellsIff(st.(poke := None), b, f.end, c, s.issued[c], s.server);
      SettledGrows(st.(poke := None), b, f.end);
    } else {
      SettlesNothing(st, f);
    }
  }

  lemma WithoutPoke(st: Client.State, c: ClientId, issued: seq<Intent>, s: Server.State)
    requires ClientOk(st, c, issued, s)
    ensures ClientOk(st.(poke := None), c, issued, s)
  {
  }

  lemma SettledGrows(st: Client.State, b: Client.PokeBuffer, end: Cursor)
    ensures |st.settled| <= |Client.ApplyPoke(st, b, end).settled|
  {
  }

  lemma SettlesNothing(st: Client.State, f: Client.Frame)
    requires !Client.Applies(st, f)
    ensures Client.OnFrame(st, f).0.settled == st.settled
  {
  }

  /** The answer to a push tells everything to a client that had confirmed what came before it. */
  lemma AnswerTellsAll(
      st: Client.State, c: ClientId, issued: seq<Intent>, s: Server.State, ms: seq<Mutation>, os: seq<Outcome>,
      limit: nat, s': Server.State, out: seq<Outgoing>, pokeId: nat)
    requires Ledger(s, c, issued) && c in s.clients && |ms| == |os|
    requires PushOk(ms, issued, LastMutationId(s, c), limit) && LastMutationId(s, c) <= limit
    requires Push(s, c, ms, os, s', out) && PokeOf(out).Some? && PokeOf(out).value.results != []
    requires ClientOk(st, c, issued, s') && LastMutationId(s, c) <= st.confirmed
    requires st.cursor.Some? ==> st.cursor.value.backend == s'.backend
    ensures var p := PokeOf(out).value;
            var st' := Client.ApplyPoke(st, Client.Opened(pokeId, p, st.cursor, p.ops, 1), p.end);
            forall i :: |st.settled| <= i < |st'.settled| ==>
              i < |LogOf(s'.log, c)| && st'.settled[i].error == LogOf(s'.log, c)[i].error
  {
    hide ListsFrom, PushOk, Client.ApplyPoke, SettledOk;
    var p := PokeOf(out).value;
    var b := Client.Opened(pokeId, p, st.cursor, p.ops, 1);
    SliceLists(s, c, issued, ms, os, limit, |ms|);
    SliceRuns(s, c, issued, ms, os, limit, |ms|);
    assert ms[..|ms|] == ms && os[..|ms|] == os;
    PushAnswer(s, c, ms, os, s', out, issued);
    ApplyPokeTellsIff(st, b, p.end, c, issued, s');
    ApplyPokeOk(st, b, p.end, c, issued, s');
    AllListed(Client.ApplyPoke(st, b, p.end).settled, |st.settled|, LogOf(s'.log, c), p.results, LastMutationId(s, c));
  }

  lemma AllListed(settled: seq<Client.Settlement>, from: nat, done: seq<LogEntry>, results: seq<MutationResult>, listed: nat)
    requires TellsIffListed(settled, from, done, results) && ListsFrom(results, listed, done) && listed <= from
    requires |settled| <= |done|
    ensures forall i :: from <= i < |settled| ==> settled[i].error == done[i].error
  {
  }
}
