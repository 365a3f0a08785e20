/**
 * The whole protocol as a step system: one workspace object, any number of clients, and a FIFO in
 * each direction of every socket that may be cut at any point.
 */
module Protocol {
  import opened Rows
  import opened WriteSets
  import opened Server
  import Client
  import Mirror

  type SockId = nat

  /** `cut` is a dead connection: nothing more arrives in either direction, whether or not anyone noticed. */
  datatype Sock = Sock(
    client: ClientId, accepted: bool, ready: bool, defunct: bool, cut: bool,
    up: seq<Client.Message>, down: seq<Client.Frame>)

  datatype Peer = Peer(state: Client.State, sock: Option<SockId>)

  type DiskId = nat

  /** A client's store: which disk it shares, where its own writes have reached, and those still to come. */
  datatype Tab = Tab(home: DiskId, reached: Option<Cursor>, pending: seq<Mirror.Update>)

  /** `timeline` and `issued` only record: the rows at each version ever reached, and what each client enqueued. */
  datatype System = System(
    server: Server.State, peers: map<ClientId, Peer>, socks: map<SockId, Sock>,
    disks: map<DiskId, Mirror.Disk>, tabs: map<ClientId, Tab>,
    timeline: Timeline, issued: map<ClientId, seq<Intent>>)

  datatype Step =
    | Mutate(c: ClientId, intent: Intent)
    | Flush(c: ClientId)
    | Dial(c: ClientId, sock: SockId)
    | Accept(sock: SockId)
    | Open(c: ClientId)
    | ServeHello(sock: SockId, cursor: Option<Cursor>, poke: Poke, pokeId: nat, parts: seq<seq<PatchOp>>)
    | ServePush(sock: SockId, ms: seq<Mutation>, os: seq<Outcome>, out: seq<Outgoing>, pokeId: nat, parts: seq<seq<PatchOp>>)
    | Deliver(c: ClientId)
    | Hangup(c: ClientId)
    | Cut(sock: SockId, up: nat, down: nat)
    | Kick(sock: SockId)
    | Compaction(retention: nat)
    | Importing(rows: Table, patch: seq<PatchOp>, pokeId: nat, parts: seq<seq<PatchOp>>)
    | ImportingFields(rows: Table)
    | Migration(puts: Table, dels: set<Key>)
    | Wake
    | Reset(backend: string, pokeId: nat, parts: seq<seq<PatchOp>>)
    | Persist(c: ClientId, now: nat)
    | Unsaved(c: ClientId)
    | Wipe(home: DiskId)
    | Reload(c: ClientId, staleBefore: int)

  // ----- channels -----

  function SendUp(k: Sock, ms: seq<Client.Message>): Sock {
    if k.cut then k else k.(up := k.up + ms)
  }

  /** Frames arrive whole and in order, or the socket dies part way. */
  ghost predicate Delivery(k: Sock, k': Sock, fs: seq<Client.Frame>) {
    exists n :: 0 <= n <= |fs| && DeliveryOf(k, k', fs, n)
  }

  ghost predicate DeliveryOf(k: Sock, k': Sock, fs: seq<Client.Frame>, n: nat)
    requires n <= |fs|
  {
    && (k.cut ==> n == 0 && k'.cut)
    && (n < |fs| ==> k'.cut)
    && (k.defunct ==> k'.defunct)
    && k' == k.(down := k.down + fs[..n], cut := k'.cut, defunct := k'.defunct)
  }

  predicate Listening(k: Sock) {
    k.ready && !k.defunct
  }

  /** A poke to every ready socket, or to one alone; sends may fail socket by socket. */
  ghost predicate Broadcast(
      socks: map<SockId, Sock>, socks': map<SockId, Sock>, only: Option<SockId>, fs: seq<Client.Frame>)
  {
    && socks'.Keys == socks.Keys
    && forall i :: i in socks ==>
         if Listening(socks[i]) && (only.None? || only == Some(i)) then Delivery(socks[i], socks'[i], fs)
         else socks'[i] == socks[i]
  }

  predicate IsSplit(parts: seq<seq<PatchOp>>, ops: seq<PatchOp>) {
    parts != [] && Client.Flatten(parts) == ops
  }

  /** An upgrade closes every earlier socket of its client. */
  function Supersede(socks: map<SockId, Sock>, sock: SockId): map<SockId, Sock>
    requires sock in socks
  {
    map i | i in socks ::
      if i == sock then socks[i].(accepted := true)
      else if socks[i].accepted && socks[i].client == socks[sock].client then socks[i].(defunct := true)
      else socks[i]
  }

  function CloseAll(socks: map<SockId, Sock>): map<SockId, Sock> {
    map i | i in socks :: socks[i].(defunct := true)
  }

  // ----- steps -----

  function SetPeer(s: System, c: ClientId, p: Peer): System {
    s.(peers := s.peers[c := p])
  }

  ghost predicate Connected(s: System, c: ClientId) {
    c in s.peers && s.peers[c].sock.Some? && s.peers[c].sock.value in s.socks
  }

  ghost predicate Receives(s: System, sock: SockId) {
    sock in s.socks && s.socks[sock].accepted && !s.socks[sock].defunct && s.socks[sock].up != []
  }

  function Popped(s: System, sock: SockId): Sock
    requires sock in s.socks && s.socks[sock].up != []
  {
    s.socks[sock].(up := s.socks[sock].up[1..])
  }

  ghost predicate StepMutate(s: System, s': System, c: ClientId, intent: Intent) {
    && c in s.peers && c in s.issued
    && s' == SetPeer(s, c, s.peers[c].(state := Client.Enqueue(s.peers[c].state, intent)))
             .(issued := s.issued[c := s.issued[c] + [intent]])
  }

  ghost predicate StepFlush(s: System, s': System, c: ClientId) {
    && Connected(s, c) && s.peers[c].state.synced
    && var (i, st) := (s.peers[c].sock.value, s.peers[c].state);
       var ms := Client.PushBatch(st.confirmed, st.outbox);
       ms != [] && s' == s.(socks := s.socks[i := SendUp(s.socks[i], [Client.PushMsg(ms)])])
  }

  ghost predicate StepDial(s: System, s': System, c: ClientId, sock: SockId) {
    && c in s.peers && s.peers[c].sock.None? && sock !in s.socks
    && s' == SetPeer(s, c, Peer(Client.Dial(s.peers[c].state), Some(sock)))
             .(socks := s.socks[sock := Sock(c, false, false, false, false, [], [])])
  }

  ghost predicate StepAccept(s: System, s': System, sock: SockId) {
    sock in s.socks && !s.socks[sock].accepted && s' == s.(socks := Supersede(s.socks, sock))
  }

  ghost predicate StepOpen(s: System, s': System, c: ClientId) {
    && Connected(s, c)
    && var i := s.peers[c].sock.value;
       var (st, ms) := Client.SayHello(s.peers[c].state);
       s' == SetPeer(s, c, Peer(st, Some(i))).(socks := s.socks[i := SendUp(s.socks[i], ms)])
  }

  /** Hello marks the socket ready even if the reply could not be sent whole. */
  ghost predicate StepServeHello(
      s: System, s': System, sock: SockId, cursor: Option<Cursor>, poke: Poke, pokeId: nat, parts: seq<seq<PatchOp>>)
  {
    && Receives(s, sock) && s.socks[sock].up[0] == Client.HelloMsg(cursor)
    && Hello(s.server, s.socks[sock].client, cursor, s'.server, poke)
    && IsSplit(parts, poke.ops)
    && sock in s'.socks
    && s' == s.(server := s'.server, socks := s.socks[sock := s'.socks[sock]])
    && exists sent :: Delivery(Popped(s, sock), sent, Client.PokeFrames(pokeId, poke, parts))
                   && s'.socks[sock] == sent.(ready := true, defunct := false)
  }

  function Errors(out: seq<Outgoing>): seq<Client.Frame> {
    if out == [] then []
    else (if out[0].Problem? then [Client.ErrorFrame(out[0].code)] else []) + Errors(out[1..])
  }

  ghost predicate StepServePush(
      s: System, s': System, sock: SockId, ms: seq<Mutation>, os: seq<Outcome>, out: seq<Outgoing>,
      pokeId: nat, parts: seq<seq<PatchOp>>)
  {
    && Receives(s, sock) && s.socks[sock].up[0] == Client.PushMsg(ms)
    && |os| == |ms| && Disjoint(os)
    && (if s.socks[sock].ready then Push(s.server, s.socks[sock].client, ms, os, s'.server, out)
        else s'.server == s.server && out == [Problem(PushInvalid)])
    && s'.peers == s.peers && s'.issued == s.issued && SameStores(s, s')
    && s'.timeline == (var c := s.socks[sock].client;
                       if s.socks[sock].ready then RecordBatch(s.timeline, StartBatch(s.server, c), c, ms, os) else s.timeline)
    && exists told :: Delivery(Popped(s, sock), told, Errors(out)) && Answered(s.socks[sock := told], s'.socks, sock, out, pokeId, parts)
  }

  /** After its error frames a push is answered with one poke at most. */
  ghost predicate Answered(
      socks: map<SockId, Sock>, socks': map<SockId, Sock>, sock: SockId, out: seq<Outgoing>, pokeId: nat, parts: seq<seq<PatchOp>>)
  {
    if out != [] && out[|out| - 1].Send? then
      var last := out[|out| - 1];
      && IsSplit(parts, last.poke.ops)
      && Broadcast(socks, socks', if last.everyone then None else Some(sock), Client.PokeFrames(pokeId, last.poke, parts))
    else socks' == socks
  }

  ghost predicate StepDeliver(s: System, s': System, c: ClientId) {
    && Connected(s, c) && s.socks[s.peers[c].sock.value].down != []
    && var i := s.peers[c].sock.value;
       var k := s.socks[i];
       var (st, ms) := Client.OnFrame(s.peers[c].state, k.down[0]);
       s' == SetPeer(s, c, Peer(st, Some(i)))
             .(socks := s.socks[i := SendUp(k.(down := k.down[1..]), ms)],
               tabs := if c in s.tabs then s.tabs[c := Noted(s.tabs[c], s.peers[c].state, k.down[0])] else s.tabs)
  }

  const SCHEMA_VERSION: nat := 1

  /** Each poke applied is handed to the store, with the queue it leaves. */
  function Noted(tab: Tab, st: Client.State, f: Client.Frame): Tab {
    if Client.Applies(st, f) then tab.(pending := tab.pending + [UpdateOf(st, f)]) else tab
  }

  function UpdateOf(st: Client.State, f: Client.Frame): Mirror.Update
    requires Client.Applies(st, f)
  {
    var (ops, st') := (st.poke.value.ops, Client.OnFrame(st, f).0);
    Mirror.Update(WithoutClears(ops), exists i :: 0 <= i < |ops| && ops[i].Clear?, f.end, SCHEMA_VERSION, st'.confirmed, st'.outbox)
  }

  ghost predicate StepHangup(s: System, s': System, c: ClientId) {
    c in s.peers && s' == SetPeer(s, c, Peer(Client.Disconnect(s.peers[c].state), None))
  }

  ghost predicate StepCut(s: System, s': System, sock: SockId, up: nat, down: nat) {
    && sock in s.socks && up <= |s.socks[sock].up| && down <= |s.socks[sock].down|
    && s' == s.(socks := s.socks[sock := s.socks[sock].(
                  up := s.socks[sock].up[..up], down := s.socks[sock].down[..down], cut := true)])
  }

  ghost predicate StepKick(s: System, s': System, sock: SockId) {
    sock in s.socks && s' == s.(socks := s.socks[sock := s.socks[sock].(defunct := true)])
  }

  ghost predicate StepCompaction(s: System, s': System, retention: nat) {
    Compact(s.server, retention, s'.server) && s' == s.(server := s'.server)
  }

  ghost predicate Records(s: System, s': System) {
    && s'.peers == s.peers && s'.issued == s.issued && SameStores(s, s')
    && s'.timeline == Record(s.timeline, s'.server)
  }

  predicate SameStores(s: System, s': System) {
    s'.disks == s.disks && s'.tabs == s.tabs
  }

  ghost predicate StepImport(s: System, s': System, rows: Table, patch: seq<PatchOp>, pokeId: nat, parts: seq<seq<PatchOp>>) {
    && Bootstraps(Import(s.server, rows), s'.server, patch)
    && IsSplit(parts, patch)
    && Broadcast(s.socks, s'.socks, None, Client.PokeFrames(pokeId, Poke(None, patch, map[], [], s'.server.Here()), parts))
    && Records(s, s')
  }

  /** An import that carries field state closes every socket instead. */
  ghost predicate StepImportFields(s: System, s': System, rows: Table) {
    && s'.server == Import(s.server, rows)
    && s'.socks == CloseAll(s.socks)
    && Records(s, s')
  }

  ghost predicate StepMigration(s: System, s': System, puts: Table, dels: set<Key>) {
    && s.server.snapshot.None? && puts.Keys !! dels
    && s'.server == Migrate(s.server, puts, dels) && s'.socks == s.socks
    && Records(s, s')
  }

  /** Eviction and hibernation drop what is only in memory. */
  ghost predicate StepWake(s: System, s': System) {
    s' == s.(server := s.server.(snapshot := None))
  }

  ghost predicate StepReset(s: System, s': System, backend: string, pokeId: nat, parts: seq<seq<PatchOp>>) {
    && (forall c :: c in s.timeline ==> c.backend != backend)
    && s'.server == Fresh(backend)
    && IsSplit(parts, ResetPoke(backend).ops)
    && Broadcast(s.socks, s'.socks, None, Client.PokeFrames(pokeId, ResetPoke(backend), parts))
    && Records(s, s')
  }

  ghost predicate Stores(s: System, c: ClientId) {
    c in s.peers && c in s.tabs && s.tabs[c].home in s.disks
  }

  /** The next of a client's writes reaches its disk, beside whatever other tabs have written there. */
  ghost predicate StepPersist(s: System, s': System, c: ClientId, now: nat) {
    && Stores(s, c) && s.tabs[c].pending != []
    && var (tab, u) := (s.tabs[c], s.tabs[c].pending[0]);
       s' == s.(disks := s.disks[tab.home := Mirror.Apply(s.disks[tab.home], c, u, now)],
                tabs := s.tabs[c := tab.(reached := Some(u.cursor), pending := tab.pending[1..])])
  }

  /** A write that fails is logged and forgotten. */
  ghost predicate StepUnsaved(s: System, s': System, c: ClientId) {
    && Stores(s, c) && s.tabs[c].pending != []
    && var tab := s.tabs[c];
       s' == s.(tabs := s.tabs[c := tab.(reached := Some(tab.pending[0].cursor), pending := tab.pending[1..])])
  }

  /** A store found to hold another schema's rows is reset, under whoever else uses it. */
  ghost predicate StepWipe(s: System, s': System, home: DiskId) {
    home in s.disks && s' == s.(disks := s.disks[home := Mirror.EMPTY_DISK])
  }

  /** A reload comes back with what its disk holds; writes of its own still under way are lost. */
  ghost predicate StepReload(s: System, s': System, c: ClientId, staleBefore: int) {
    && Stores(s, c)
    && var (home, disk) := (s.tabs[c].home, s.disks[s.tabs[c].home]);
       var cursor := Mirror.StoredCursor(disk);
       s' == SetPeer(s, c, Peer(Client.Reload(s.peers[c].state, cursor, if cursor.None? then map[] else disk.rows), None))
             .(disks := s.disks[home := Mirror.Collected(disk, c, staleBefore)], tabs := s.tabs[c := Tab(home, cursor, [])])
  }

  ghost predicate Next(s: System, s': System, step: Step) {
    match step
    case Mutate(c, intent) => StepMutate(s, s', c, intent)
    case Flush(c) => StepFlush(s, s', c)
    case Dial(c, sock) => StepDial(s, s', c, sock)
    case Accept(sock) => StepAccept(s, s', sock)
    case Open(c) => StepOpen(s, s', c)
    case ServeHello(sock, cursor, poke, id, parts) => StepServeHello(s, s', sock, cursor, poke, id, parts)
    case ServePush(sock, ms, os, out, id, parts) => StepServePush(s, s', sock, ms, os, out, id, parts)
    case Deliver(c) => StepDeliver(s, s', c)
    case Hangup(c) => StepHangup(s, s', c)
    case Cut(sock, up, down) => StepCut(s, s', sock, up, down)
    case Kick(sock) => StepKick(s, s', sock)
    case Compaction(retention) => StepCompaction(s, s', retention)
    case Importing(rows, patch, id, parts) => StepImport(s, s', rows, patch, id, parts)
    case ImportingFields(rows) => StepImportFields(s, s', rows)
    case Migration(puts, dels) => StepMigration(s, s', puts, dels)
    case Wake => StepWake(s, s')
    case Reset(backend, id, parts) => StepReset(s, s', backend, id, parts)
    case Persist(c, now) => StepPersist(s, s', c, now)
    case Unsaved(c) => StepUnsaved(s, s', c)
    case Wipe(home) => StepWipe(s, s', home)
    case Reload(c, staleBefore) => StepReload(s, s', c, staleBefore)
  }

  ghost predicate Init(s: System) {
    && (exists backend :: s.server == Fresh(backend))
    && s.timeline == map[s.server.Here() := map[]]
    && s.socks == map[]
    && (forall c :: c in s.peers ==> s.peers[c] == Peer(Client.Start(c), None))
    && (forall home :: home in s.disks ==> s.disks[home] == Mirror.EMPTY_DISK)
    && s.tabs.Keys == s.peers.Keys
    && (forall c :: c in s.tabs ==> s.tabs[c] == Tab(s.tabs[c].home, None, []) && s.tabs[c].home in s.disks)
    && s.issued == map c | c in s.peers :: []
  }

  /** A run: every state after the first follows by one step. */
  ghost predicate IsRun(run: seq<System>, steps: seq<Step>) {
    && |run| == |steps| + 1
    && Init(run[0])
    && forall i :: 0 <= i < |steps| ==> Next(run[i], run[i + 1], steps[i])
  }
}
