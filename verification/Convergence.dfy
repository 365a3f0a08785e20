/** Every client at cursor (b, v) holds exactly the rows the server had at version v of history b. */
module Convergence {
  import opened Rows
  import opened WriteSets
  import opened Server
  import Client
  import opened Protocol
  import opened Streams
  import Mirror

  ghost predicate HoldsItsCursor(st: Client.State, t: Timeline) {
    st.cursor.Some? ==> st.cursor.value in t && st.rows == t[st.cursor.value]
  }

  ghost predicate AllExact(pokes: seq<Poke>, t: Timeline) {
    forall p :: p in pokes ==> Exact(p, t)
  }

  ghost predicate Known(cursor: Option<Cursor>, t: Timeline) {
    cursor.Some? ==> cursor.value in t
  }

  /** A client's cursor is one of the history, its half-received poke is judged right, and every poke coming is exact. */
  ghost predicate PeerOk(p: Peer, socks: map<SockId, Sock>, t: Timeline) {
    && Known(p.state.cursor, t)
    && (p.state.poke.Some? ==> (p.state.poke.value.baseMismatch <==> p.state.poke.value.base != p.state.cursor))
    && if p.sock.None? then p.state.poke.None?
       else p.sock.value in socks && AllExact(Completes(PartialOf(p.state.poke), socks[p.sock.value].down), t)
  }

  /** The writes still to come are faithful, each from where the one before it ends, up to the client's own cursor. */
  ghost predicate Chain(reached: Option<Cursor>, pending: seq<Mirror.Update>, last: Option<Cursor>, t: Timeline)
    decreases |pending|
  {
    if pending == [] then reached == last && Known(last, t)
    else Mirror.Faithful(pending[0], reached, t) && Chain(Some(pending[0].cursor), pending[1..], last, t)
  }

  ghost predicate StoresOk(s: System) {
    && (forall c :: c in s.peers ==>
          c in s.tabs && s.tabs[c].home in s.disks
          && Chain(s.tabs[c].reached, s.tabs[c].pending, s.peers[c].state.cursor, s.timeline))
    && (forall home :: home in s.disks ==> Known(Mirror.StoredCursor(s.disks[home]), s.timeline))
  }

  /** What holds of every run, in whatever order tabs write. */
  ghost predicate Inv(s: System) {
    && HistoryOk(s.server, s.timeline)
    && (forall c :: c in s.peers ==> PeerOk(s.peers[c], s.socks, s.timeline))
    && StoresOk(s)
  }

  lemma ApplyPokeHolds(st: Client.State, b: Client.PokeBuffer, end: Cursor, t: Timeline)
    requires HoldsItsCursor(st, t)
    requires Exact(Poke(b.base, b.ops, b.lmids, b.results, end), t)
    requires HasClear(b.ops) || b.base == st.cursor
    ensures HoldsItsCursor(Client.ApplyPoke(st, b, end), t)
  {
    var p := Poke(b.base, b.ops, b.lmids, b.results, end);
    if !HasClear(b.ops) {
      assert ExactFrom(p, t, b.base.value.version);
    }
  }

  /** Taking the next frame keeps what is still to come right, whatever the frame. */
  lemma FrameKeepsPeer(st: Client.State, fs: seq<Client.Frame>, t: Timeline)
    requires fs != [] && Known(st.cursor, t)
    requires st.poke.Some? ==> (st.poke.value.baseMismatch <==> st.poke.value.base != st.cursor)
    requires AllExact(Completes(PartialOf(st.poke), fs), t)
    ensures var st' := Client.OnFrame(st, fs[0]).0;
            && Known(st'.cursor, t)
            && (st'.poke.Some? ==> (st'.poke.value.baseMismatch <==> st'.poke.value.base != st'.cursor))
            && AllExact(Completes(PartialOf(st'.poke), fs[1..]), t)
  {
    hide Exact, Client.OnFrame, HasClear;
    OnFrameFollows(st, fs[0]);
    FrameMoves(st, fs[0]);
    var b := PartialOf(st.poke);
    assert Completes(b, fs) == Completed(b, fs[0]) + Completes(After(b, fs[0]), fs[1..]);
    if Client.Applies(st, fs[0]) {
      NextApplies(st, fs, t);
      ExactIsKnown(Poke(st.poke.value.base, st.poke.value.ops, st.poke.value.lmids, st.poke.value.results, fs[0].end), t);
    }
  }

  /** What a frame makes of the cursor, and of the flag of the poke under way. */
  lemma FrameMoves(st: Client.State, f: Client.Frame)
    requires st.poke.Some? ==> (st.poke.value.baseMismatch <==> st.poke.value.base != st.cursor)
    ensures var st' := Client.OnFrame(st, f).0;
            && st'.cursor == (if Client.Applies(st, f) then Some(f.end) else st.cursor)
            && (st'.poke.Some? ==> (st'.poke.value.baseMismatch <==> st'.poke.value.base != st'.cursor))
  {
  }

  lemma ExactIsKnown(p: Poke, t: Timeline)
    requires Exact(p, t)
    ensures p.end in t
  {
  }

  /** A poke the next frame ends is exact, and starts at the client's cursor if it does not clear. */
  lemma NextApplies(st: Client.State, fs: seq<Client.Frame>, t: Timeline)
    requires fs != [] && Client.Applies(st, fs[0])
    requires st.poke.value.baseMismatch <==> st.poke.value.base != st.cursor
    requires AllExact(Completes(PartialOf(st.poke), fs), t)
    ensures var b := st.poke.value;
            && Exact(Poke(b.base, b.ops, b.lmids, b.results, fs[0].end), t)
            && (HasClear(b.ops) || b.base == st.cursor)
  {
    var b := PartialOf(st.poke);
    assert Completes(b, fs) == Completed(b, fs[0]) + Completes(After(b, fs[0]), fs[1..]);
    assert Poke(b.value.base, b.value.ops, b.value.lmids, b.value.results, fs[0].end) in Completes(b, fs);
  }

  lemma FrameHolds(st: Client.State, fs: seq<Client.Frame>, t: Timeline)
    requires fs != [] && HoldsItsCursor(st, t)
    requires st.poke.Some? ==> (st.poke.value.baseMismatch <==> st.poke.value.base != st.cursor)
    requires AllExact(Completes(PartialOf(st.poke), fs), t)
    ensures HoldsItsCursor(Client.OnFrame(st, fs[0]).0, t)
  {
    if Client.Applies(st, fs[0]) {
      NextApplies(st, fs, t);
      ApplyPokeHolds(st.(poke := None), st.poke.value, fs[0].end, t);
    }
  }

  // ----- what is still to be stored -----

  lemma {:induction false} ChainExtends(reached: Option<Cursor>, pending: seq<Mirror.Update>, last: Option<Cursor>, t: Timeline, t': Timeline)
    requires Chain(reached, pending, last, t) && Extends(t, t')
    ensures Chain(reached, pending, last, t')
    decreases |pending|
  {
    if pending != [] {
      Mirror.FaithfulIsStable(pending[0], reached, t, t');
      ChainExtends(Some(pending[0].cursor), pending[1..], last, t, t');
    }
  }

  lemma {:induction false} ChainGrows(reached: Option<Cursor>, pending: seq<Mirror.Update>, last: Option<Cursor>, u: Mirror.Update, t: Timeline)
    requires Chain(reached, pending, last, t) && Mirror.Faithful(u, last, t)
    ensures Chain(reached, pending + [u], Some(u.cursor), t)
    decreases |pending|
  {
    if pending == [] {
      assert [u][1..] == [] && pending + [u] == [u];
    } else {
      assert (pending + [u])[1..] == pending[1..] + [u];
      ChainGrows(Some(pending[0].cursor), pending[1..], last, u, t);
    }
  }

  /** Taking a frame hands the store a faithful update from the cursor the client had, or nothing. */
  lemma NotedKeeps(tab: Tab, st: Client.State, fs: seq<Client.Frame>, t: Timeline)
    requires fs != [] && Chain(tab.reached, tab.pending, st.cursor, t)
    requires st.poke.Some? ==> (st.poke.value.baseMismatch <==> st.poke.value.base != st.cursor)
    requires AllExact(Completes(PartialOf(st.poke), fs), t)
    ensures var tab' := Noted(tab, st, fs[0]);
            tab'.home == tab.home && Chain(tab'.reached, tab'.pending, Client.OnFrame(st, fs[0]).0.cursor, t)
  {
    if Client.Applies(st, fs[0]) {
      NextApplies(st, fs, t);
      var b, u := st.poke.value, UpdateOf(st, fs[0]);
      Mirror.PokeIsFaithful(Poke(b.base, b.ops, b.lmids, b.results, fs[0].end), u, t);
      assert Mirror.Faithful(u, st.cursor, t);
      ChainGrows(tab.reached, tab.pending, st.cursor, u, t);
    }
  }

  lemma StoresExtend(s: System, t': Timeline)
    requires StoresOk(s) && Extends(s.timeline, t')
    ensures StoresOk(s.(timeline := t'))
  {
    forall c | c in s.peers
      ensures Chain(s.tabs[c].reached, s.tabs[c].pending, s.peers[c].state.cursor, t')
    {
      ChainExtends(s.tabs[c].reached, s.tabs[c].pending, s.peers[c].state.cursor, s.timeline, t');
    }
  }

  // ----- steps that leave a peer alone -----

  lemma PeerOkExtends(p: Peer, socks: map<SockId, Sock>, t: Timeline, t': Timeline)
    requires PeerOk(p, socks, t) && Extends(t, t')
    ensures PeerOk(p, socks, t')
  {
    if p.sock.Some? {
      forall q | q in Completes(PartialOf(p.state.poke), socks[p.sock.value].down)
        ensures Exact(q, t')
      {
        ExactIsStable(q, t, t');
      }
    }
  }

  lemma PeerOkAdds(p: Peer, socks: map<SockId, Sock>, socks': map<SockId, Sock>, more: Option<Poke>, t: Timeline)
    requires PeerOk(p, socks, t) && Adds(socks, socks', more) && (more.Some? ==> Exact(more.value, t))
    ensures PeerOk(p, socks', t)
  {
    if p.sock.Some? {
      var i, b := p.sock.value, PartialOf(p.state.poke);
      assert AddsAt(socks[i], socks'[i], more);
      forall q | q in Completes(b, socks'[i].down)
        ensures Exact(q, t)
      {
        assert q in Completes(b, socks[i].down) || more == Some(q);
      }
    }
  }

  /** A step of the server that sends nothing or one exact poke leaves every client right. */
  lemma AllPeersOk(s: System, socks': map<SockId, Sock>, more: Option<Poke>, t': Timeline)
    requires Inv(s) && Extends(s.timeline, t') && Adds(s.socks, socks', more) && (more.Some? ==> Exact(more.value, t'))
    ensures forall c :: c in s.peers ==> PeerOk(s.peers[c], socks', t')
    ensures StoresOk(s.(timeline := t'))
  {
    StoresExtend(s, t');
    forall c | c in s.peers
      ensures PeerOk(s.peers[c], socks', t')
    {
      PeerOkExtends(s.peers[c], s.socks, s.timeline, t');
      PeerOkAdds(s.peers[c], s.socks, socks', more, t');
    }
  }

  // ----- the server's steps -----

  lemma ServeHelloKeeps(
      s: System, s': System, sock: SockId, cursor: Option<Cursor>, poke: Poke, pokeId: nat, parts: seq<seq<PatchOp>>)
    requires Inv(s) && StepServeHello(s, s', sock, cursor, poke, pokeId, parts)
    ensures Inv(s') && Extends(s.timeline, s'.timeline)
  {
    HelloExact(s.server, s.timeline, s.socks[sock].client, cursor, s'.server, poke);
    ServeHelloAdds(s, s', sock, cursor, poke, pokeId, parts);
    AllPeersOk(s, s'.socks, Some(poke), s.timeline);
  }

  lemma ServePushKeeps(
      s: System, s': System, sock: SockId, ms: seq<Mutation>, os: seq<Outcome>, out: seq<Outgoing>,
      pokeId: nat, parts: seq<seq<PatchOp>>)
    requires Inv(s) && StepServePush(s, s', sock, ms, os, out, pokeId, parts)
    ensures Inv(s') && Extends(s.timeline, s'.timeline)
  {
    if s.socks[sock].ready {
      PushExact(s.server, s.timeline, s.socks[sock].client, ms, os, s'.server, out);
    }
    ServePushAdds(s, s', sock, ms, os, out, pokeId, parts);
    AllPeersOk(s, s'.socks, PokeOf(out), s'.timeline);
  }

  lemma ImportKeepsAll(s: System, s': System, rows: Table, patch: seq<PatchOp>, pokeId: nat, parts: seq<seq<PatchOp>>)
    requires Inv(s) && StepImport(s, s', rows, patch, pokeId, parts)
    ensures Inv(s') && Extends(s.timeline, s'.timeline)
  {
    var imported := Import(s.server, rows);
    ImportKeeps(s.server, s.timeline, rows);
    BootstrapsIsBootstrap(imported, s'.server, patch);
    RowsOkOnlyRows(imported, s'.timeline, s'.server);
    var p := Poke(None, patch, map[], [], s'.server.Here());
    BootstrapPokeExact(s'.server, s'.timeline, p);
    BroadcastAdds(s.socks, s'.socks, None, pokeId, p, parts);
    AllPeersOk(s, s'.socks, Some(p), s'.timeline);
  }

  lemma ImportFieldsKeeps(s: System, s': System, rows: Table)
    requires Inv(s) && StepImportFields(s, s', rows)
    ensures Inv(s') && Extends(s.timeline, s'.timeline)
  {
    ImportKeeps(s.server, s.timeline, rows);
    AllPeersOk(s, s'.socks, None, s'.timeline);
  }

  lemma MigrationKeeps(s: System, s': System, puts: Table, dels: set<Key>)
    requires Inv(s) && StepMigration(s, s', puts, dels)
    ensures Inv(s') && Extends(s.timeline, s'.timeline)
  {
    MigrateKeeps(s.server, s.timeline, puts, dels);
    AllPeersOk(s, s'.socks, None, s'.timeline);
  }

  lemma ResetKeeps(s: System, s': System, backend: string, pokeId: nat, parts: seq<seq<PatchOp>>)
    requires Inv(s) && StepReset(s, s', backend, pokeId, parts)
    ensures Inv(s') && Extends(s.timeline, s'.timeline)
  {
    FreshKeeps(s.timeline, backend);
    BroadcastAdds(s.socks, s'.socks, None, pokeId, ResetPoke(backend), parts);
    AllPeersOk(s, s'.socks, Some(ResetPoke(backend)), s'.timeline);
  }

  lemma QuietServerKeeps(s: System, s': System, step: Step)
    requires Inv(s) && Next(s, s', step) && (step.Compaction? || step.Wake?)
    ensures Inv(s') && Extends(s.timeline, s'.timeline)
  {
    if step.Compaction? {
      CompactKeeps(s.server, s.timeline, step.retention, s'.server);
    } else {
      RowsOkOnlyRows(s.server, s.timeline, s'.server);
    }
  }

  // ----- the sockets' and the clients' own steps -----

  /** Only sockets change, and no client will see more pokes complete. */
  lemma SocketsKeep(s: System, s': System)
    requires Inv(s) && s' == s.(socks := s'.socks) && Adds(s.socks, s'.socks, None)
    ensures Inv(s') && Extends(s.timeline, s'.timeline)
  {
    hide HistoryOk, PeerOk, Chain, Completes;
    AllPeersOk(s, s'.socks, None, s.timeline);
    assert s.(timeline := s.timeline) == s;
    SameChains(s, s');
  }

  lemma CutKeeps(s: System, s': System, sock: SockId, up: nat, down: nat)
    requires Inv(s) && StepCut(s, s', sock, up, down)
    ensures Inv(s') && Extends(s.timeline, s'.timeline)
  {
    hide Inv, Completes;
    forall b
      ensures Completes(b, s'.socks[sock].down) <= Completes(b, s.socks[sock].down)
    {
      CompletesPrefix(b, s.socks[sock].down, down);
    }
    SocketsKeep(s, s');
  }

  lemma SocketStepKeeps(s: System, s': System, step: Step)
    requires Inv(s) && Next(s, s', step) && (step.Flush? || step.Accept? || step.Cut? || step.Kick?)
    ensures Inv(s') && Extends(s.timeline, s'.timeline)
  {
    hide Inv, Completes, Client.PushBatch, StepServeHello, StepServePush, StepImport, StepImportFields, StepMigration, StepReset, StepCompaction, StepWake;
    if step.Cut? {
      CutKeeps(s, s', step.sock, step.up, step.down);
    } else {
      SocketsKeep(s, s');
    }
  }

  /** One client moves; its socket's inbound queue may lose its head, nothing else does. */
  lemma OthersKeep(s: System, s': System, c: ClientId)
    requires Inv(s) && c in s.peers && c in s'.peers && s'.peers == s.peers[c := s'.peers[c]]
    requires s'.server == s.server && s'.timeline == s.timeline
    requires forall i :: i in s.socks ==> i in s'.socks && (s'.socks[i].down == s.socks[i].down || s.peers[c].sock == Some(i))
    requires forall d :: d in s.peers && d != c && s.peers[d].sock.Some? ==> s.peers[d].sock != s.peers[c].sock
    requires PeerOk(s'.peers[c], s'.socks, s.timeline) && StoresOk(s')
    ensures Inv(s')
  {
    forall d | d in s'.peers
      ensures PeerOk(s'.peers[d], s'.socks, s'.timeline)
    {
      if d != c {
        assert PeerOk(s.peers[d], s.socks, s.timeline);
      }
    }
  }

  /** A client's own step that leaves cursor and stores alone. */
  lemma ClientStepKeeps(s: System, s': System, step: Step)
    requires Inv(s) && OwnSockets(s) && Next(s, s', step)
    requires step.Mutate? || step.Open? || step.Hangup?
    ensures Inv(s') && Extends(s.timeline, s'.timeline)
  {
    hide HistoryOk, Chain, AllExact, Completes;
    hide StepServeHello, StepServePush, StepImport, StepImportFields, StepMigration, StepReset, StepCompaction, StepWake;
    assert PeerOk(s.peers[step.c], s.socks, s.timeline);
    SameChains(s, s');
    OthersKeep(s, s', step.c);
  }

  lemma DialKeeps(s: System, s': System, c: ClientId, sock: SockId)
    requires Inv(s) && OwnSockets(s) && StepDial(s, s', c, sock)
    ensures Inv(s') && Extends(s.timeline, s'.timeline)
  {
    hide HistoryOk, Chain;
    assert PeerOk(s.peers[c], s.socks, s.timeline);
    SameChains(s, s');
    OthersKeep(s, s', c);
  }

  lemma SameChains(s: System, s': System)
    requires StoresOk(s) && SameStores(s, s') && s'.timeline == s.timeline && s'.peers.Keys == s.peers.Keys
    requires forall c :: c in s.peers ==> s'.peers[c].state.cursor == s.peers[c].state.cursor
    ensures StoresOk(s')
  {
  }

  lemma ReloadKeeps(s: System, s': System, c: ClientId, staleBefore: int)
    requires Inv(s) && OwnSockets(s) && StepReload(s, s', c, staleBefore)
    ensures Inv(s') && Extends(s.timeline, s'.timeline)
  {
    hide HistoryOk, AllExact, Completes;
    assert PeerOk(s.peers[c], s.socks, s.timeline);
    OthersKeep(s, s', c);
  }

  lemma DeliverKeeps(s: System, s': System, c: ClientId)
    requires Inv(s) && OwnSockets(s) && StepDeliver(s, s', c)
    ensures Inv(s') && Extends(s.timeline, s'.timeline)
  {
    var p := s.peers[c];
    assert PeerOk(p, s.socks, s.timeline);
    FrameKeepsPeer(p.state, s.socks[p.sock.value].down, s.timeline);
    NotedKeeps(s.tabs[c], p.state, s.socks[p.sock.value].down, s.timeline);
    OthersKeep(s, s', c);
  }

  lemma NextWrite(s: System, c: ClientId)
    requires StoresOk(s) && Stores(s, c) && s.tabs[c].pending != []
    ensures var (tab, cursor) := (s.tabs[c], s.peers[c].state.cursor);
            && Mirror.Faithful(tab.pending[0], tab.reached, s.timeline)
            && Chain(Some(tab.pending[0].cursor), tab.pending[1..], cursor, s.timeline)
  {
    assert Chain(s.tabs[c].reached, s.tabs[c].pending, s.peers[c].state.cursor, s.timeline);
  }

  lemma PersistKeeps(s: System, s': System, c: ClientId, now: nat)
    requires Inv(s) && StepPersist(s, s', c, now)
    ensures Inv(s') && Extends(s.timeline, s'.timeline)
  {
    hide HistoryOk, PeerOk, Chain;
    NextWrite(s, c);
  }

  lemma UnsavedKeeps(s: System, s': System, c: ClientId)
    requires Inv(s) && StepUnsaved(s, s', c)
    ensures Inv(s') && Extends(s.timeline, s'.timeline)
  {
    hide HistoryOk, PeerOk, Chain;
    NextWrite(s, c);
  }

  lemma WipeKeeps(s: System, s': System, home: DiskId)
    requires Inv(s) && StepWipe(s, s', home)
    ensures Inv(s') && Extends(s.timeline, s'.timeline)
  {
    hide HistoryOk, PeerOk, Chain;
  }

  lemma StoreStepKeeps(s: System, s': System, step: Step)
    requires Inv(s) && Next(s, s', step) && (step.Persist? || step.Unsaved? || step.Wipe?)
    ensures Inv(s') && Extends(s.timeline, s'.timeline)
  {
    hide Inv;
    match step
    case Persist(c, now) => PersistKeeps(s, s', c, now);
    case Unsaved(c) => UnsavedKeeps(s, s', c);
    case Wipe(home) => WipeKeeps(s, s', home);
  }

  /** Every socket in use belongs to the client using it. */
  ghost predicate OwnSockets(s: System) {
    forall c :: c in s.peers && s.peers[c].sock.Some? ==>
      s.peers[c].sock.value in s.socks && s.socks[s.peers[c].sock.value].client == c
  }

  ghost predicate OwnersStay(s: System, s': System) {
    forall i :: i in s.socks ==> i in s'.socks && s'.socks[i].client == s.socks[i].client
  }

  predicate ServerStep(step: Step) {
    step.ServeHello? || step.ServePush? || step.Compaction? || step.Importing? || step.ImportingFields?
    || step.Migration? || step.Wake? || step.Reset?
  }

  lemma ServerStepKeeps(s: System, s': System, step: Step)
    requires Inv(s) && Next(s, s', step) && ServerStep(step)
    ensures Inv(s') && Extends(s.timeline, s'.timeline)
  {
    hide Inv, StepServeHello, StepServePush, StepImport, StepImportFields, StepMigration, StepReset, StepCompaction, StepWake;
    hide StepMutate, StepFlush, StepDial, StepAccept, StepOpen, StepDeliver, StepHangup, StepCut, StepKick, StepPersist, StepUnsaved, StepWipe, StepReload;
    match step
    case ServeHello(sock, cursor, poke, id, parts) => ServeHelloKeeps(s, s', sock, cursor, poke, id, parts);
    case ServePush(sock, ms, os, out, id, parts) => ServePushKeeps(s, s', sock, ms, os, out, id, parts);
    case Compaction(_) => QuietServerKeeps(s, s', step);
    case Importing(rows, patch, id, parts) => ImportKeepsAll(s, s', rows, patch, id, parts);
    case ImportingFields(rows) => ImportFieldsKeeps(s, s', rows);
    case Migration(puts, dels) => MigrationKeeps(s, s', puts, dels);
    case Wake => QuietServerKeeps(s, s', step);
    case Reset(backend, id, parts) => ResetKeeps(s, s', backend, id, parts);
  }

  lemma OtherStepKeeps(s: System, s': System, step: Step)
    requires Inv(s) && OwnSockets(s) && Next(s, s', step) && !ServerStep(step)
    ensures Inv(s') && Extends(s.timeline, s'.timeline)
  {
    hide Inv, OwnSockets;
    if step.Deliver? {
      DeliverKeeps(s, s', step.c);
    } else if step.Flush? || step.Accept? || step.Cut? || step.Kick? {
      SocketStepKeeps(s, s', step);
    } else if step.Persist? || step.Unsaved? || step.Wipe? {
      StoreStepKeeps(s, s', step);
    } else if step.Reload? {
      ReloadKeeps(s, s', step.c, step.staleBefore);
    } else if step.Dial? {
      DialKeeps(s, s', step.c, step.sock);
    } else {
      ClientStepKeeps(s, s', step);
    }
  }

  lemma OwnersKept(s: System, s': System, more: Option<Poke>)
    requires OwnSockets(s) && s'.peers == s.peers && Adds(s.socks, s'.socks, more)
    ensures OwnSockets(s')
  {
    hide Completes;
    forall c | c in s'.peers && s'.peers[c].sock.Some?
      ensures s'.peers[c].sock.value in s'.socks && s'.socks[s'.peers[c].sock.value].client == c
    {
      assert AddsAt(s.socks[s.peers[c].sock.value], s'.socks[s.peers[c].sock.value], more);
    }
  }

  lemma HelloOwners(
      s: System, s': System, sock: SockId, cursor: Option<Cursor>, poke: Poke, pokeId: nat, parts: seq<seq<PatchOp>>)
    requires OwnSockets(s) && StepServeHello(s, s', sock, cursor, poke, pokeId, parts)
    ensures OwnSockets(s') && s'.peers == s.peers
  {
    ServeHelloAdds(s, s', sock, cursor, poke, pokeId, parts);
    OwnersKept(s, s', Some(poke));
  }

  lemma PushOwners(
      s: System, s': System, sock: SockId, ms: seq<Mutation>, os: seq<Outcome>, out: seq<Outgoing>,
      pokeId: nat, parts: seq<seq<PatchOp>>)
    requires OwnSockets(s) && StepServePush(s, s', sock, ms, os, out, pokeId, parts)
    ensures OwnSockets(s') && s'.peers == s.peers
  {
    ServePushAdds(s, s', sock, ms, os, out, pokeId, parts);
    OwnersKept(s, s', PokeOf(out));
  }

  lemma ImportOwners(s: System, s': System, rows: Table, patch: seq<PatchOp>, pokeId: nat, parts: seq<seq<PatchOp>>)
    requires OwnSockets(s) && StepImport(s, s', rows, patch, pokeId, parts)
    ensures OwnSockets(s') && s'.peers == s.peers
  {
    var p := Poke(None, patch, map[], [], s'.server.Here());
    BroadcastAdds(s.socks, s'.socks, None, pokeId, p, parts);
    OwnersKept(s, s', Some(p));
  }

  lemma ResetOwners(s: System, s': System, backend: string, pokeId: nat, parts: seq<seq<PatchOp>>)
    requires OwnSockets(s) && StepReset(s, s', backend, pokeId, parts)
    ensures OwnSockets(s') && s'.peers == s.peers
  {
    BroadcastAdds(s.socks, s'.socks, None, pokeId, ResetPoke(backend), parts);
    OwnersKept(s, s', Some(ResetPoke(backend)));
  }

  lemma QuietOwners(s: System, s': System)
    requires OwnSockets(s) && s'.peers == s.peers && OwnersStay(s, s')
    ensures OwnSockets(s')
  {
  }

  lemma ServerStepOwners(s: System, s': System, step: Step)
    requires OwnSockets(s) && Next(s, s', step) && ServerStep(step)
    ensures OwnSockets(s') && s'.peers == s.peers
  {
    hide OwnSockets, StepServeHello, StepServePush, StepImport, StepReset, Compact, Import, Migrate;
    hide StepMutate, StepFlush, StepDial, StepAccept, StepOpen, StepDeliver, StepHangup, StepCut, StepKick, StepPersist, StepUnsaved, StepWipe, StepReload;
    match step
    case ServeHello(sock, cursor, poke, id, parts) => HelloOwners(s, s', sock, cursor, poke, id, parts);
    case ServePush(sock, ms, os, out, id, parts) => PushOwners(s, s', sock, ms, os, out, id, parts);
    case Importing(rows, patch, id, parts) => ImportOwners(s, s', rows, patch, id, parts);
    case Reset(backend, id, parts) => ResetOwners(s, s', backend, id, parts);
    case _ => QuietOwners(s, s');
  }

  lemma OtherStepOwners(s: System, s': System, step: Step)
    requires OwnSockets(s) && Next(s, s', step) && !ServerStep(step)
    ensures OwnSockets(s')
  {
    hide Client.OnFrame, Client.Enqueue, Client.PushBatch, Client.Reload, Client.Disconnect, Client.SayHello, Client.Dial;
    hide Mirror.Apply, Mirror.Collected, Mirror.StoredCursor, Noted;
    hide StepServeHello, StepServePush, StepImport, StepImportFields, StepMigration, StepReset, StepCompaction, StepWake;
    assert OwnersStay(s, s');
  }

  /** One step keeps every client right and never rewrites what the history records. */
  lemma StepKeeps(s: System, s': System, step: Step)
    requires Inv(s) && OwnSockets(s) && Next(s, s', step)
    ensures Inv(s') && OwnSockets(s') && Extends(s.timeline, s'.timeline)
  {
    if ServerStep(step) {
      ServerStepKeeps(s, s', step);
      ServerStepOwners(s, s', step);
    } else {
      OtherStepKeeps(s, s', step);
      OtherStepOwners(s, s', step);
    }
  }

  lemma InitHolds(s: System)
    requires Init(s)
    ensures Inv(s) && OwnSockets(s)
  {
    var backend :| s.server == Fresh(backend);
    FreshKeeps(map[], backend);
    assert Record(map[], Fresh(backend)) == s.timeline;
  }

  lemma {:induction false} RunKeeps(run: seq<System>, steps: seq<Step>, n: nat)
    requires IsRun(run, steps) && n < |run|
    ensures Inv(run[n]) && OwnSockets(run[n])
  {
    if n == 0 {
      InitHolds(run[0]);
    } else {
      RunKeeps(run, steps, n - 1);
      StepKeeps(run[n - 1], run[n], steps[n - 1]);
    }
  }

  // ----- rows -----

  /** Every client's rows, and every disk's, are the server's at the cursor they come with. */
  ghost predicate Truthful(s: System) {
    && (forall c :: c in s.peers ==> HoldsItsCursor(s.peers[c].state, s.timeline))
    && (forall home :: home in s.disks ==> Mirror.MirrorOk(s.disks[home], s.timeline))
  }

  /** A write that reaches a shared disk clears it, or starts at or below what the disk holds of the same history. */
  ghost predicate InOrder(s: System, step: Step) {
    step.Persist? && Stores(s, step.c) && s.tabs[step.c].pending != [] ==>
      Mirror.InOrder(s.disks[s.tabs[step.c].home], s.tabs[step.c].pending[0], s.tabs[step.c].reached)
  }

  lemma TruthExtends(s: System, s': System)
    requires Truthful(s) && Extends(s.timeline, s'.timeline) && s'.disks == s.disks && s'.peers.Keys == s.peers.Keys
    requires forall c :: c in s.peers ==>
               s'.peers[c].state.cursor == s.peers[c].state.cursor && s'.peers[c].state.rows == s.peers[c].state.rows
    ensures Truthful(s')
  {
    forall c | c in s'.peers
      ensures HoldsItsCursor(s'.peers[c].state, s'.timeline)
    {
      assert HoldsItsCursor(s.peers[c].state, s.timeline);
    }
    forall home | home in s'.disks
      ensures Mirror.MirrorOk(s'.disks[home], s'.timeline)
    {
      assert Mirror.MirrorOk(s.disks[home], s.timeline);
    }
  }

  lemma PersistTells(s: System, s': System, c: ClientId, now: nat)
    requires Inv(s) && Truthful(s) && StepPersist(s, s', c, now) && InOrder(s, Persist(c, now))
    ensures Truthful(s')
  {
    var tab := s.tabs[c];
    assert Chain(tab.reached, tab.pending, s.peers[c].state.cursor, s.timeline);
    Mirror.OverlapIsExact(s.disks[tab.home], s.timeline, c, tab.pending[0], tab.reached, now);
  }

  lemma DeliverTells(s: System, s': System, c: ClientId)
    requires Inv(s) && Truthful(s) && StepDeliver(s, s', c)
    ensures Truthful(s')
  {
    var p := s.peers[c];
    assert PeerOk(p, s.socks, s.timeline);
    FrameHolds(p.state, s.socks[p.sock.value].down, s.timeline);
  }

  lemma ReloadTells(s: System, s': System, c: ClientId, staleBefore: int)
    requires Truthful(s) && StepReload(s, s', c, staleBefore)
    ensures Truthful(s')
  {
    assert Mirror.MirrorOk(s.disks[s.tabs[c].home], s.timeline);
  }

  /** The rows stay right as long as writes reach their disks in order. */
  lemma StepTells(s: System, s': System, step: Step)
    requires Inv(s) && Truthful(s) && Next(s, s', step) && InOrder(s, step) && Extends(s.timeline, s'.timeline)
    ensures Truthful(s')
  {
    if step.Persist? {
      PersistTells(s, s', step.c, step.now);
    } else if step.Deliver? {
      DeliverTells(s, s', step.c);
    } else if step.Reload? {
      ReloadTells(s, s', step.c, step.staleBefore);
    } else if step.Wipe? {
      assert s'.disks == s.disks[step.home := Mirror.EMPTY_DISK];
    } else {
      OtherRowsStay(s, s', step);
      TruthExtends(s, s');
    }
  }

  lemma OtherRowsStay(s: System, s': System, step: Step)
    requires Next(s, s', step) && !step.Persist? && !step.Deliver? && !step.Reload? && !step.Wipe?
    ensures s'.disks == s.disks && s'.peers.Keys == s.peers.Keys
    ensures forall c :: c in s.peers ==>
              s'.peers[c].state.cursor == s.peers[c].state.cursor && s'.peers[c].state.rows == s.peers[c].state.rows
    ensures !step.Unsaved? ==> SameStores(s, s')
  {
    if ServerStep(step) { ServerRowsStay(s, s', step); } else { ClientRowsStay(s, s', step); }
  }

  lemma ServerRowsStay(s: System, s': System, step: Step)
    requires Next(s, s', step) && ServerStep(step)
    ensures SameStores(s, s') && s'.peers == s.peers
  {
    hide Hello, Push, Broadcast, Answered, Delivery, Bootstraps, Record, RecordBatch, Migrate, Import, Compact;
    hide StepMutate, StepFlush, StepDial, StepAccept, StepOpen, StepDeliver, StepHangup, StepCut, StepKick, StepPersist, StepUnsaved, StepWipe, StepReload;
  }

  lemma ClientRowsStay(s: System, s': System, step: Step)
    requires Next(s, s', step) && !ServerStep(step) && !step.Persist? && !step.Deliver? && !step.Reload? && !step.Wipe?
    ensures s'.disks == s.disks && s'.peers.Keys == s.peers.Keys
    ensures forall c :: c in s.peers ==>
              s'.peers[c].state.cursor == s.peers[c].state.cursor && s'.peers[c].state.rows == s.peers[c].state.rows
    ensures !step.Unsaved? ==> SameStores(s, s')
  {
    hide Client.PushBatch, Client.NextMutationId, Supersede, SendUp;
    hide StepServeHello, StepServePush, StepImport, StepImportFields, StepMigration, StepReset, StepCompaction, StepWake;
  }

  ghost predicate Orderly(run: seq<System>, steps: seq<Step>)
    requires |run| == |steps| + 1
  {
    forall i :: 0 <= i < |steps| ==> InOrder(run[i], steps[i])
  }

  lemma {:induction false} RunTells(run: seq<System>, steps: seq<Step>, n: nat)
    requires IsRun(run, steps) && Orderly(run, steps) && n < |run|
    ensures Inv(run[n]) && Truthful(run[n])
  {
    hide Inv, Truthful, Next, Init;
    RunKeeps(run, steps, n);
    if n == 0 {
      InitTells(run[0]);
    } else {
      RunTells(run, steps, n - 1);
      RunKeeps(run, steps, n - 1);
      StepKeeps(run[n - 1], run[n], steps[n - 1]);
      assert InOrder(run[n - 1], steps[n - 1]);
      StepTells(run[n - 1], run[n], steps[n - 1]);
    }
  }

  lemma InitTells(s: System)
    requires Init(s)
    ensures Truthful(s)
  {
  }

  /**
   * In every reachable state, under any interleaving in which writes reach shared disks in order, a client
   * with a cursor holds the rows its server had there; at the server's own cursor, that is the live rows.
   * What any disk holds, so what any reload comes back with, are the rows of the stored cursor.
   */
  lemma Converges(run: seq<System>, steps: seq<Step>, n: nat, c: ClientId)
    requires IsRun(run, steps) && Orderly(run, steps) && n < |run| && c in run[n].peers
    ensures var s, st := run[n], run[n].peers[c].state;
            && HoldsItsCursor(st, s.timeline)
            && (st.cursor == Some(s.server.Here()) ==> st.rows == Live(s.server.rows))
            && (forall home :: home in s.disks ==> Mirror.MirrorOk(s.disks[home], s.timeline))
  {
    RunTells(run, steps, n);
    NowIsLive(run[n].server, run[n].timeline);
  }

  // ----- when writes are in order -----

  /** No write has reached further than the disk it went to. */
  ghost predicate Level(s: System) {
    forall c :: c in s.tabs ==> LevelAt(s.tabs[c], s.disks)
  }

  ghost predicate LevelAt(tab: Tab, disks: map<DiskId, Mirror.Disk>) {
    tab.reached.Some? ==>
      && tab.home in disks && disks[tab.home].meta.Some?
      && disks[tab.home].meta.value.cursor.backend == tab.reached.value.backend
      && tab.reached.value.version <= disks[tab.home].meta.value.cursor.version
  }

  /**
   * Writes succeed, no store in use is wiped, and a clear reaches a disk only once no other tab of it is
   * ahead or in another history.
   */
  ghost predicate Steady(s: System, step: Step) {
    && !step.Unsaved?
    && (step.Wipe? ==> forall d :: d in s.tabs && s.tabs[d].home == step.home ==> s.tabs[d].reached.None?)
    && (step.Persist? && Stores(s, step.c) && s.tabs[step.c].pending != [] && s.tabs[step.c].pending[0].clear ==>
          forall d :: d in s.tabs && d != step.c && s.tabs[d].home == s.tabs[step.c].home ==>
            NotPast(s.tabs[d].reached, s.tabs[step.c].pending[0].cursor))
  }

  predicate NotPast(reached: Option<Cursor>, cursor: Cursor) {
    reached.Some? ==> reached.value.backend == cursor.backend && reached.value.version <= cursor.version
  }

  lemma PersistLevels(s: System, s': System, c: ClientId, now: nat)
    requires Inv(s) && Level(s) && StepPersist(s, s', c, now) && Steady(s, Persist(c, now))
    ensures Level(s') && InOrder(s, Persist(c, now))
  {
    var (tab, u) := (s.tabs[c], s.tabs[c].pending[0]);
    assert Chain(tab.reached, tab.pending, s.peers[c].state.cursor, s.timeline);
    assert Mirror.Faithful(u, tab.reached, s.timeline);
    assert LevelAt(tab, s.disks);
    forall d | d in s'.tabs
      ensures LevelAt(s'.tabs[d], s'.disks)
    {
      assert LevelAt(s.tabs[d], s.disks);
    }
  }

  lemma StoreSteps(s: System, s': System, step: Step)
    requires Next(s, s', step)
    ensures match step
            case Persist(c, now) => StepPersist(s, s', c, now)
            case Deliver(c) => StepDeliver(s, s', c)
            case Wipe(home) => StepWipe(s, s', home)
            case Reload(c, staleBefore) => StepReload(s, s', c, staleBefore)
            case _ => true
  {
    hide StepServeHello, StepServePush, StepImport, StepImportFields, StepMigration, StepReset, StepCompaction, StepWake;
    hide StepMutate, StepFlush, StepDial, StepAccept, StepOpen, StepDeliver, StepHangup, StepCut, StepKick, StepPersist, StepUnsaved, StepWipe, StepReload;
  }

  lemma StoresLevel(s: System, s': System, step: Step)
    requires Level(s) && Steady(s, step)
    requires match step
             case Deliver(c) => StepDeliver(s, s', c)
             case Wipe(home) => StepWipe(s, s', home)
             case Reload(c, staleBefore) => StepReload(s, s', c, staleBefore)
             case _ => false
    ensures Level(s')
  {
    hide Client.OnFrame, Client.Reload;
    forall d | d in s'.tabs
      ensures LevelAt(s'.tabs[d], s'.disks)
    {
      assert d in s.tabs && LevelAt(s.tabs[d], s.disks);
    }
  }

  lemma StepLevels(s: System, s': System, step: Step)
    requires Inv(s) && Level(s) && Next(s, s', step) && Steady(s, step)
    ensures Level(s') && InOrder(s, step)
  {
    hide Inv, Next;
    if step.Persist? {
      assert StepPersist(s, s', step.c, step.now) by { StoreSteps(s, s', step); }
      PersistLevels(s, s', step.c, step.now);
    } else if step.Deliver? || step.Wipe? || step.Reload? {
      StoreSteps(s, s', step);
      StoresLevel(s, s', step);
    } else {
      OtherRowsStay(s, s', step);
      forall d | d in s'.tabs
        ensures LevelAt(s'.tabs[d], s'.disks)
      {
        assert d in s.tabs && LevelAt(s.tabs[d], s.disks);
      }
    }
  }

  /** However tabs of any disks interleave, steady runs are orderly: nothing else about their order matters. */
  lemma {:induction false} SteadyIsOrderly(run: seq<System>, steps: seq<Step>, n: nat)
    requires IsRun(run, steps) && n < |run| && forall i :: 0 <= i < |steps| ==> Steady(run[i], steps[i])
    ensures Level(run[n]) && forall i :: 0 <= i < n ==> InOrder(run[i], steps[i])
  {
    hide Inv, Level, Next, InOrder, Steady;
    if n == 0 {
      InitLevel(run[0]);
    } else {
      SteadyIsOrderly(run, steps, n - 1);
      RunKeeps(run, steps, n - 1);
      StepLevels(run[n - 1], run[n], steps[n - 1]);
    }
  }

  lemma InitLevel(s: System)
    requires Init(s)
    ensures Level(s)
  {
  }

  /** Clients with stores of their own, whose writes succeed, hold their rows in every run whatsoever. */
  lemma OwnStoresConverge(run: seq<System>, steps: seq<Step>, n: nat, c: ClientId)
    requires IsRun(run, steps) && n < |run| && c in run[n].peers
    requires forall i :: 0 <= i < |steps| ==> !steps[i].Unsaved? && !steps[i].Wipe? && Unshared(run[i])
    ensures HoldsItsCursor(run[n].peers[c].state, run[n].timeline)
  {
    SteadyIsOrderly(run, steps, |steps|);
    Converges(run, steps, n, c);
  }

  ghost predicate Unshared(s: System) {
    forall c, d :: c in s.tabs && d in s.tabs && c != d ==> s.tabs[c].home != s.tabs[d].home
  }

  /**
   * Liveness of one round trip: a client that says hello with whatever cursor it holds and receives
   * the whole answer ends at the server's cursor with the live rows.
   */
  lemma HelloCatchesUp(
      s: Server.State, t: Timeline, st: Client.State, s': Server.State, poke: Poke, pokeId: nat, parts: seq<seq<PatchOp>>)
    requires HistoryOk(s, t) && HoldsItsCursor(st, t)
    requires Hello(s, st.id, st.cursor, s', poke) && IsSplit(parts, poke.ops)
    ensures var st' := Client.Receive(st, Client.PokeFrames(pokeId, poke, parts));
            && st'.cursor == Some(s'.Here()) && st'.rows == Live(s'.rows)
            && st'.synced && !st'.awaitingCatchUp
  {
    HelloExact(s, t, st.id, st.cursor, s', poke);
    Client.PokeRoundTrip(st, pokeId, poke, parts);
    var b := Client.Opened(pokeId, poke, st.cursor, poke.ops, 1);
    ApplyPokeHolds(st.(poke := None), b, poke.end, t);
    NowIsLive(s', t);
  }
}
