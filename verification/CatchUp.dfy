/**
 * That clients do catch up: as long as nothing is committed unannounced, what is on its way to a client ends
 * where the server is; and a client that waits for an answer gets one.
 */
module CatchUp {
  import opened Rows
  import opened WriteSets
  import opened Server
  import Client
  import opened Protocol
  import opened Streams
  import Convergence
  import Mirror

  ghost predicate Applies(cursor: Option<Cursor>, q: Poke) {
    HasClear(q.ops) || q.base == cursor
  }

  /** Where a client at `cursor` will be once it has seen these pokes: those it cannot apply it drops. */
  ghost function Lands(cursor: Option<Cursor>, pokes: seq<Poke>): Option<Cursor>
    decreases |pokes|
  {
    if pokes == [] then cursor else Lands(if Applies(cursor, pokes[0]) then Some(pokes[0].end) else cursor, pokes[1..])
  }

  lemma {:induction false} LandsAppend(cursor: Option<Cursor>, pokes: seq<Poke>, q: Poke)
    ensures Lands(cursor, pokes + [q]) == if Applies(Lands(cursor, pokes), q) then Some(q.end) else Lands(cursor, pokes)
    decreases |pokes|
  {
    if pokes == [] {
      assert pokes + [q] == [q] && [q][1..] == [];
    } else {
      assert (pokes + [q])[1..] == pokes[1..] + [q];
      LandsAppend(if Applies(cursor, pokes[0]) then Some(pokes[0].end) else cursor, pokes[1..], q);
    }
  }

  function Coming(st: Client.State, k: Sock): seq<Poke> {
    Completes(PartialOf(st.poke), k.down)
  }

  /** The answer to a hello sent from where the client is now. */
  ghost predicate HasAnswer(st: Client.State, pokes: seq<Poke>) {
    exists q :: q in pokes && Applies(st.cursor, q)
  }

  /** A client that waits has its hello on its way up, or an answer it can apply on its way down. */
  ghost predicate AskOk(st: Client.State, k: Sock) {
    && (st.synced ==> k.ready)
    && (forall m :: m in k.up && m.PushMsg? ==> k.ready)
    && (!k.ready ==> k.down == [])
    && (!k.cut ==>
          && (!k.ready ==> forall x :: Client.HelloMsg(x) in k.up ==> x == st.cursor)
          && (st.awaitingCatchUp ==> Client.HelloMsg(st.cursor) in k.up || HasAnswer(st, Coming(st, k))))
  }

  /** What is on its way over a socket the server speaks on ends where the server is. */
  ghost predicate LandOk(st: Client.State, k: Sock, here: Cursor) {
    Listening(k) && !k.cut ==> Lands(st.cursor, Coming(st, k)) == Some(here)
  }

  ghost predicate AskInv(s: System) {
    forall c :: c in s.peers ==>
      if s.peers[c].sock.None? then !s.peers[c].state.awaitingCatchUp
      else s.peers[c].sock.value in s.socks && AskOk(s.peers[c].state, s.socks[s.peers[c].sock.value])
  }

  ghost predicate LandInv(s: System) {
    forall c :: c in s.peers && s.peers[c].sock.Some? ==>
      s.peers[c].sock.value in s.socks && LandOk(s.peers[c].state, s.socks[s.peers[c].sock.value], s.server.Here())
  }

  /** A step that moves the version tells the clients: no push is aborted over rows it committed, no migration meets them. */
  ghost predicate Announced(s: System, s': System, step: Step) {
    (step.ServePush? && PokeOf(step.out).None?) || step.Migration? ==> s'.server.version == s.server.version
  }

  // ----- what a socket takes in -----

  lemma WholeIfUncut(k: Sock, k': Sock, fs: seq<Client.Frame>)
    requires Delivery(k, k', fs)
    ensures k' == k.(down := k'.down, cut := k'.cut, defunct := k'.defunct) && (k.defunct ==> k'.defunct) && (k.cut ==> k'.cut)
    ensures !k'.cut ==> k'.down == k.down + fs
  {
    var n :| 0 <= n <= |fs| && DeliveryOf(k, k', fs, n);
    if n == |fs| { assert fs[..n] == fs; }
  }

  lemma PokeComes(st: Client.State, k: Sock, k': Sock, pokeId: nat, q: Poke, parts: seq<seq<PatchOp>>)
    requires IsSplit(parts, q.ops) && k'.down == k.down + Client.PokeFrames(pokeId, q, parts)
    ensures Coming(st, k') == Coming(st, k) + [q]
  {
    var b := PartialOf(st.poke);
    CompletesConcat(b, k.down, Client.PokeFrames(pokeId, q, parts));
    CompletesPoke(AfterAll(b, k.down), pokeId, q, parts);
  }

  lemma ErrorsCome(st: Client.State, k: Sock, k': Sock, fs: seq<Client.Frame>)
    requires OnlyErrors(fs) && k'.down == k.down + fs
    ensures Coming(st, k') == Coming(st, k)
  {
    var b := PartialOf(st.poke);
    CompletesConcat(b, k.down, fs);
    ErrorsCompleteNothing(AfterAll(b, k.down), fs);
    assert Completes(b, k.down) + [] == Completes(b, k.down);
  }

  lemma AnswerStays(st: Client.State, pokes: seq<Poke>, q: Poke)
    ensures HasAnswer(st, pokes) || Applies(st.cursor, q) ==> HasAnswer(st, pokes + [q])
  {
    if HasAnswer(st, pokes) {
      var x :| x in pokes && Applies(st.cursor, x);
      assert x in pokes + [q];
    }
    assert q in pokes + [q];
  }

  /** A poke delivered to a ready socket, which starts where the server was, clears, or ends where it was. */
  lemma PokeKeeps(
      st: Client.State, k: Sock, k': Sock, pokeId: nat, q: Poke, parts: seq<seq<PatchOp>>, was: Cursor, here: Cursor)
    requires IsSplit(parts, q.ops) && Delivery(k, k', Client.PokeFrames(pokeId, q, parts)) && k.ready
    requires q.end == here && (q.base == Some(was) || HasClear(q.ops) || here == was)
    ensures AskOk(st, k) ==> AskOk(st, k')
    ensures LandOk(st, k, was) ==> LandOk(st, k', here)
  {
    hide Completes, Client.PokeFrames, Applies, HasAnswer;
    WholeIfUncut(k, k', Client.PokeFrames(pokeId, q, parts));
    if !k'.cut {
      PokeComes(st, k, k', pokeId, q, parts);
      LandsAppend(st.cursor, Coming(st, k), q);
      AnswerStays(st, Coming(st, k), q);
      AppliesHere(q, was);
    }
  }

  lemma AppliesHere(q: Poke, was: Cursor)
    ensures q.base == Some(was) || HasClear(q.ops) ==> Applies(Some(was), q)
  {
  }

  /** Sockets change only in their marks. */
  lemma MarksKeep(st: Client.State, k: Sock, k': Sock, here: Cursor)
    requires k' == k.(accepted := k'.accepted, defunct := k'.defunct) && (k.defunct ==> k'.defunct)
    ensures AskOk(st, k) ==> AskOk(st, k')
    ensures LandOk(st, k, here) ==> LandOk(st, k', here)
  {
  }

  // ----- the server's steps -----

  /** For every client, its socket is as good after the step as before. */
  ghost predicate Carries(s: System, s': System) {
    && s'.peers == s.peers && s.socks.Keys <= s'.socks.Keys
    && forall c, i :: c in s.peers && s.peers[c].sock == Some(i) && i in s.socks ==> CarriesAt(s, s', c, i)
  }

  ghost predicate CarriesAt(s: System, s': System, c: ClientId, i: SockId)
    requires c in s.peers && i in s.socks && i in s'.socks
  {
    var st := s.peers[c].state;
    && (AskOk(st, s.socks[i]) ==> AskOk(st, s'.socks[i]))
    && (AskOk(st, s.socks[i]) && LandOk(st, s.socks[i], s.server.Here()) ==> LandOk(st, s'.socks[i], s'.server.Here()))
  }

  lemma CarriedOn(s: System, s': System)
    requires AskInv(s) && Carries(s, s')
    ensures AskInv(s') && (LandInv(s) ==> LandInv(s'))
  {
    hide AskOk, LandOk;
    forall c | c in s'.peers && s'.peers[c].sock.Some?
      ensures s'.peers[c].sock.value in s'.socks && AskOk(s'.peers[c].state, s'.socks[s'.peers[c].sock.value])
      ensures LandInv(s) ==> LandOk(s'.peers[c].state, s'.socks[s'.peers[c].sock.value], s'.server.Here())
    {
      assert CarriesAt(s, s', c, s.peers[c].sock.value);
    }
  }

  /** The hello that is answered was sent from the cursor its client still has, if the socket was not ready before. */
  lemma HelloCarries(
      s: System, s': System, sock: SockId, cursor: Option<Cursor>, poke: Poke, pokeId: nat, parts: seq<seq<PatchOp>>, c: ClientId)
    requires HistoryOk(s.server, s.timeline) && StepServeHello(s, s', sock, cursor, poke, pokeId, parts) && c in s.peers
    ensures s'.server.Here() == s.server.Here() && CarriesAt(s, s', c, sock)
  {
    hide Completes, Client.PokeFrames, Applies, HasAnswer, Bootstraps, IsDelta;
    var (st, k, k') := (s.peers[c].state, s.socks[sock], s'.socks[sock]);
    var popped := Popped(s, sock);
    var sent :| Delivery(popped, sent, Client.PokeFrames(pokeId, poke, parts)) && k' == sent.(ready := true, defunct := false);
    WholeIfUncut(popped, sent, Client.PokeFrames(pokeId, poke, parts));
    HelloApplies(s.server, s.timeline, k.client, cursor, s'.server, poke);
    if !k'.cut && AskOk(st, k) {
      PokeComes(st, popped, sent, pokeId, poke, parts);
      LandsAppend(st.cursor, Coming(st, k), poke);
      AnswerStays(st, Coming(st, k), poke);
      if !k.ready { NothingComes(st, k); }
      assert k.up == [k.up[0]] + popped.up;
    }
  }

  lemma NothingComes(st: Client.State, k: Sock)
    requires k.down == []
    ensures Coming(st, k) == [] && Lands(st.cursor, Coming(st, k)) == st.cursor
  {
  }

  lemma HelloApplies(s: Server.State, t: Timeline, c: ClientId, cursor: Option<Cursor>, s': Server.State, p: Poke)
    requires HistoryOk(s, t) && Hello(s, c, cursor, s', p)
    ensures Applies(cursor, p) && p.end == s.Here() == s'.Here()
  {
    HelloExact(s, t, c, cursor, s', p);
  }

  lemma HelloStep(
      s: System, s': System, sock: SockId, cursor: Option<Cursor>, poke: Poke, pokeId: nat, parts: seq<seq<PatchOp>>)
    requires HistoryOk(s.server, s.timeline) && StepServeHello(s, s', sock, cursor, poke, pokeId, parts)
    ensures Carries(s, s')
  {
    hide Hello, Delivery, AskOk, LandOk, Client.PokeFrames;
    forall c, i | c in s.peers && s.peers[c].sock == Some(i) && i in s.socks
      ensures CarriesAt(s, s', c, i)
    {
      HelloCarries(s, s', sock, cursor, poke, pokeId, parts, c);
    }
  }

  /** A poke broadcast carries on whoever it reaches; the others are not spoken to, or the version stands. */
  lemma BroadcastKeeps(
      st: Client.State, socks: map<SockId, Sock>, socks': map<SockId, Sock>, only: Option<SockId>, pokeId: nat, q: Poke,
      parts: seq<seq<PatchOp>>, was: Cursor, here: Cursor, i: SockId)
    requires IsSplit(parts, q.ops) && Broadcast(socks, socks', only, Client.PokeFrames(pokeId, q, parts)) && i in socks
    requires q.end == here && (q.base == Some(was) || HasClear(q.ops) || here == was)
    requires only.None? || here == was
    ensures i in socks' && (AskOk(st, socks[i]) ==> AskOk(st, socks'[i]))
    ensures LandOk(st, socks[i], was) ==> LandOk(st, socks'[i], here)
  {
    hide AskOk, Client.PokeFrames, Delivery, HasClear;
    if Listening(socks[i]) && (only.None? || only == Some(i)) {
      PokeKeeps(st, socks[i], socks'[i], pokeId, q, parts, was, here);
    }
  }

  lemma ErrorsKeep(st: Client.State, k: Sock, k': Sock, out: seq<Outgoing>, ms: seq<Mutation>, here: Cursor)
    requires k.up != [] && k.up[0] == Client.PushMsg(ms) && Delivery(k.(up := k.up[1..]), k', Errors(out))
    ensures AskOk(st, k) && k.ready ==> AskOk(st, k')
    ensures LandOk(st, k, here) ==> LandOk(st, k', here)
    ensures k'.ready == k.ready && (k.defunct ==> k'.defunct)
  {
    hide Completes, HasAnswer;
    var popped := k.(up := k.up[1..]);
    WholeIfUncut(popped, k', Errors(out));
    ErrorsAreErrors(out);
    if !k'.cut { ErrorsCome(st, k, k', Errors(out)); }
    assert k.up == [k.up[0]] + popped.up;
  }

  lemma PushCarries(
      s: System, s': System, sock: SockId, ms: seq<Mutation>, os: seq<Outcome>, out: seq<Outgoing>,
      pokeId: nat, parts: seq<seq<PatchOp>>, c: ClientId, i: SockId)
    requires HistoryOk(s.server, s.timeline) && StepServePush(s, s', sock, ms, os, out, pokeId, parts)
    requires c in s.peers && i in s.socks
    requires PokeOf(out).None? ==> s'.server.version == s.server.version
    ensures i in s'.socks && CarriesAt(s, s', c, i)
  {
    hide AskOk, LandOk, Push, Client.PokeFrames, Delivery, RecordBatch, Errors, HasClear;
    var st, k := s.peers[c].state, s.socks[sock];
    var told :| Delivery(Popped(s, sock), told, Errors(out)) && Answered(s.socks[sock := told], s'.socks, sock, out, pokeId, parts);
    var mid := s.socks[sock := told];
    var (was, here) := (s.server.Here(), s'.server.Here());
    ErrorsKeep(st, k, told, out, ms, was);
    PushSpeaks(s, s', sock, ms, os, out);
    UpIsReady(st, k, ms);
    if PokeOf(out).Some? {
      var last := out[|out| - 1];
      BroadcastKeeps(st, mid, s'.socks, if last.everyone then None else Some(sock), pokeId, last.poke, parts, was, here, i);
    }
  }

  lemma UpIsReady(st: Client.State, k: Sock, ms: seq<Mutation>)
    requires k.up != [] && k.up[0] == Client.PushMsg(ms)
    ensures AskOk(st, k) ==> k.ready
  {
    assert k.up[0] in k.up;
  }

  /** What a push says of where the server is now. */
  lemma PushSpeaks(s: System, s': System, sock: SockId, ms: seq<Mutation>, os: seq<Outcome>, out: seq<Outgoing>)
    requires HistoryOk(s.server, s.timeline) && sock in s.socks && |ms| == |os| && Disjoint(os)
    requires if s.socks[sock].ready then Push(s.server, s.socks[sock].client, ms, os, s'.server, out)
             else s'.server == s.server && out == [Problem(PushInvalid)]
    requires PokeOf(out).None? ==> s'.server.version == s.server.version
    ensures PokeOf(out).None? ==> s'.server.Here() == s.server.Here()
    ensures PokeOf(out).Some? ==>
              var last := out[|out| - 1];
              && last.poke.end == s'.server.Here() && last.poke.base == Some(s.server.Here())
              && (!last.everyone ==> s'.server.Here() == s.server.Here())
  {
    if s.socks[sock].ready {
      var c := s.socks[sock].client;
      RunBatchKeeps(StartBatch(s.server, c), s.timeline, c, ms, os);
      if PokeOf(out).Some? { PushReachesAllIff(s.server, s.timeline, c, ms, os, s'.server, out); }
    }
  }

  lemma PushStep(
      s: System, s': System, sock: SockId, ms: seq<Mutation>, os: seq<Outcome>, out: seq<Outgoing>,
      pokeId: nat, parts: seq<seq<PatchOp>>)
    requires HistoryOk(s.server, s.timeline) && StepServePush(s, s', sock, ms, os, out, pokeId, parts)
    requires PokeOf(out).None? ==> s'.server.version == s.server.version
    ensures Carries(s, s')
  {
    hide AskOk, LandOk, Push, Client.PokeFrames, Delivery, RecordBatch, Errors;
    PushSocks(s, s', sock, ms, os, out, pokeId, parts);
    forall c, i | c in s.peers && s.peers[c].sock == Some(i) && i in s.socks
      ensures i in s'.socks && CarriesAt(s, s', c, i)
    {
      PushCarries(s, s', sock, ms, os, out, pokeId, parts, c, i);
    }
  }

  lemma PushSocks(
      s: System, s': System, sock: SockId, ms: seq<Mutation>, os: seq<Outcome>, out: seq<Outgoing>,
      pokeId: nat, parts: seq<seq<PatchOp>>)
    requires StepServePush(s, s', sock, ms, os, out, pokeId, parts)
    ensures s'.socks.Keys == s.socks.Keys
  {
  }

  /** A push that is aborted over what it committed leaves what is coming where it was. */
  lemma AskPush(
      s: System, s': System, sock: SockId, ms: seq<Mutation>, os: seq<Outcome>, out: seq<Outgoing>,
      pokeId: nat, parts: seq<seq<PatchOp>>)
    requires AskInv(s) && HistoryOk(s.server, s.timeline) && StepServePush(s, s', sock, ms, os, out, pokeId, parts)
    ensures AskInv(s')
  {
    hide AskOk, Push, Client.PokeFrames, Delivery, RecordBatch, Errors, Broadcast;
    var k := s.socks[sock];
    var told :| Delivery(Popped(s, sock), told, Errors(out)) && Answered(s.socks[sock := told], s'.socks, sock, out, pokeId, parts);
    var mid := s.socks[sock := told];
    forall c | c in s'.peers && s'.peers[c].sock.Some?
      ensures s'.peers[c].sock.value in s'.socks && AskOk(s'.peers[c].state, s'.socks[s'.peers[c].sock.value])
    {
      var (st, i) := (s.peers[c].state, s.peers[c].sock.value);
      assert AskOk(st, s.socks[i]);
      ErrorsKeep(st, k, told, out, ms, s.server.Here());
      UpIsReady(st, k, ms);
      if PokeOf(out).Some? {
        var last := out[|out| - 1];
        BroadcastAsks(st, mid, s'.socks, if last.everyone then None else Some(sock), pokeId, last.poke, parts, i);
      }
    }
  }

  lemma BroadcastAsks(
      st: Client.State, socks: map<SockId, Sock>, socks': map<SockId, Sock>, only: Option<SockId>, pokeId: nat, q: Poke,
      parts: seq<seq<PatchOp>>, i: SockId)
    requires IsSplit(parts, q.ops) && Broadcast(socks, socks', only, Client.PokeFrames(pokeId, q, parts)) && i in socks
    ensures i in socks' && (AskOk(st, socks[i]) ==> AskOk(st, socks'[i]))
  {
    hide AskOk, Client.PokeFrames, Delivery, HasClear;
    if Listening(socks[i]) && (only.None? || only == Some(i)) {
      PokeKeeps(st, socks[i], socks'[i], pokeId, q, parts, q.end, q.end);
    }
  }

  /** A clear poke to everyone. */
  lemma ClearStep(s: System, s': System, pokeId: nat, q: Poke, parts: seq<seq<PatchOp>>)
    requires s'.peers == s.peers && IsSplit(parts, q.ops) && HasClear(q.ops) && q.end == s'.server.Here()
    requires Broadcast(s.socks, s'.socks, None, Client.PokeFrames(pokeId, q, parts))
    ensures Carries(s, s')
  {
    hide AskOk, LandOk, Client.PokeFrames, Delivery, HasClear;
    forall c, i | c in s.peers && s.peers[c].sock == Some(i) && i in s.socks
      ensures i in s'.socks && CarriesAt(s, s', c, i)
    {
      BroadcastKeeps(s.peers[c].state, s.socks, s'.socks, None, pokeId, q, parts, s.server.Here(), s'.server.Here(), i);
    }
  }

  lemma ImportStep(s: System, s': System, rows: Table, patch: seq<PatchOp>, pokeId: nat, parts: seq<seq<PatchOp>>)
    requires HistoryOk(s.server, s.timeline) && StepImport(s, s', rows, patch, pokeId, parts)
    ensures Carries(s, s')
  {
    hide Carries, Client.PokeFrames, Delivery;
    var imported := Import(s.server, rows);
    BootstrapsIsBootstrap(imported, s'.server, patch);
    var q := Poke(None, patch, map[], [], s'.server.Here());
    assert patch[0].Clear?;
    ClearStep(s, s', pokeId, q, parts);
  }

  lemma ResetStep(s: System, s': System, backend: string, pokeId: nat, parts: seq<seq<PatchOp>>)
    requires StepReset(s, s', backend, pokeId, parts)
    ensures Carries(s, s')
  {
    hide Carries, Client.PokeFrames, Delivery;
    assert ResetPoke(backend).ops[0].Clear?;
    ClearStep(s, s', pokeId, ResetPoke(backend), parts);
  }

  /** Nothing is sent, and the version stands, or every socket is closed. */
  lemma MarkStep(s: System, s': System)
    requires s'.peers == s.peers && s'.socks.Keys == s.socks.Keys
    requires s'.server.Here() == s.server.Here() || forall i :: i in s'.socks ==> s'.socks[i].defunct
    requires forall i :: i in s.socks ==>
               s'.socks[i] == s.socks[i].(accepted := s'.socks[i].accepted, defunct := s'.socks[i].defunct)
               && (s.socks[i].defunct ==> s'.socks[i].defunct)
    ensures Carries(s, s')
  {
    hide AskOk, Lands, Coming;
    forall c, i | c in s.peers && s.peers[c].sock == Some(i) && i in s.socks
      ensures i in s'.socks && CarriesAt(s, s', c, i)
    {
      MarksKeep(s.peers[c].state, s.socks[i], s'.socks[i], s.server.Here());
    }
  }

  lemma ServerStepCarries(s: System, s': System, step: Step)
    requires HistoryOk(s.server, s.timeline) && Next(s, s', step) && Convergence.ServerStep(step) && Announced(s, s', step)
    ensures Carries(s, s')
  {
    hide Carries, HistoryOk, StepServeHello, StepServePush, StepImport, StepReset, StepCompaction, StepImportFields, StepMigration;
    hide StepMutate, StepFlush, StepDial, StepAccept, StepOpen, StepDeliver, StepHangup, StepCut, StepKick, StepPersist, StepUnsaved, StepWipe, StepReload;
    match step
    case ServeHello(sock, cursor, poke, id, parts) => HelloStep(s, s', sock, cursor, poke, id, parts);
    case ServePush(sock, ms, os, out, id, parts) => PushStep(s, s', sock, ms, os, out, id, parts);
    case Importing(rows, patch, id, parts) => ImportStep(s, s', rows, patch, id, parts);
    case Reset(backend, id, parts) => ResetStep(s, s', backend, id, parts);
    case Compaction(retention) => CompactionStep(s, s', retention);
    case ImportingFields(rows) => ClosingStep(s, s', rows);
    case Migration(puts, dels) => MigrationStep(s, s', puts, dels);
    case Wake => MarkStep(s, s');
  }

  lemma CompactionStep(s: System, s': System, retention: nat)
    requires StepCompaction(s, s', retention)
    ensures Carries(s, s')
  {
    hide Carries;
    MarkStep(s, s');
  }

  lemma ClosingStep(s: System, s': System, rows: Table)
    requires StepImportFields(s, s', rows)
    ensures Carries(s, s')
  {
    hide Carries, Import, Record;
    MarkStep(s, s');
  }

  lemma MigrationStep(s: System, s': System, puts: Table, dels: set<Key>)
    requires StepMigration(s, s', puts, dels) && s'.server.version == s.server.version
    ensures Carries(s, s')
  {
    hide Carries, Record;
    MarkStep(s, s');
  }

  lemma ServerStepAsks(s: System, s': System, step: Step)
    requires AskInv(s) && HistoryOk(s.server, s.timeline) && Next(s, s', step) && Convergence.ServerStep(step)
    ensures AskInv(s')
  {
    hide AskInv, HistoryOk, AskOk, StepServeHello, StepServePush, StepImport, StepReset, Migrate, LandInv, Carries;
    hide StepMutate, StepFlush, StepDial, StepAccept, StepOpen, StepDeliver, StepHangup, StepCut, StepKick, StepPersist, StepUnsaved, StepWipe, StepReload;
    if step.ServePush? {
      AskPush(s, s', step.sock, step.ms, step.os, step.out, step.pokeId, step.parts);
    } else if step.Migration? {
      SamePeersAsk(s, s');
    } else {
      ServerStepCarries(s, s', step);
      CarriedOn(s, s');
    }
  }

  lemma SamePeersAsk(s: System, s': System)
    requires AskInv(s) && s'.peers == s.peers && s'.socks == s.socks
    ensures AskInv(s')
  {
  }

  // ----- the clients' and the sockets' own steps -----

  /** One client moves, over a socket of its own. */
  ghost predicate Moves(s: System, s': System, c: ClientId) {
    && s'.server == s.server && c in s.peers && c in s'.peers && s'.peers == s.peers[c := s'.peers[c]]
    && forall i :: i in s.socks ==> i in s'.socks && (s'.socks[i] == s.socks[i] || s.socks[i].client == c)
  }

  ghost predicate GoodPeer(s: System, c: ClientId)
    requires c in s.peers
  {
    if s.peers[c].sock.None? then !s.peers[c].state.awaitingCatchUp
    else s.peers[c].sock.value in s.socks && AskOk(s.peers[c].state, s.socks[s.peers[c].sock.value])
  }

  ghost predicate GoodLand(s: System, c: ClientId)
    requires c in s.peers
  {
    s.peers[c].sock.Some? ==>
      s.peers[c].sock.value in s.socks && LandOk(s.peers[c].state, s.socks[s.peers[c].sock.value], s.server.Here())
  }

  lemma OneMoved(s: System, s': System, c: ClientId)
    requires AskInv(s) && Convergence.OwnSockets(s) && Moves(s, s', c) && GoodPeer(s', c)
    ensures AskInv(s') && (LandInv(s) && GoodLand(s', c) ==> LandInv(s'))
  {
    hide AskOk, LandOk;
    forall d | d in s'.peers
      ensures GoodPeer(s', d) && (LandInv(s) && GoodLand(s', c) ==> GoodLand(s', d))
    {
      if d != c { assert GoodPeer(s, d); }
    }
  }

  lemma FrameLands(st: Client.State, fs: seq<Client.Frame>)
    requires fs != [] && (st.poke.Some? ==> (st.poke.value.baseMismatch <==> st.poke.value.base != st.cursor))
    ensures var st' := Client.OnFrame(st, fs[0]).0;
            Lands(st'.cursor, Completes(PartialOf(st'.poke), fs[1..])) == Lands(st.cursor, Completes(PartialOf(st.poke), fs))
  {
    hide Client.OnFrame;
    OnFrameFollows(st, fs[0]);
    Convergence.FrameMoves(st, fs[0]);
    Client.ResyncsIff(st, fs[0]);
    var b := PartialOf(st.poke);
    assert Completes(b, fs) == Completed(b, fs[0]) + Completes(After(b, fs[0]), fs[1..]);
    if Completed(b, fs[0]) == [] {
      assert Completes(b, fs) == Completes(After(b, fs[0]), fs[1..]);
    } else {
      assert Completes(b, fs)[0] == Completed(b, fs[0])[0] && Completes(b, fs)[1..] == Completes(After(b, fs[0]), fs[1..]);
    }
  }

  /** Taking a frame, a client asks or is still being answered. */
  lemma FrameAsks(st: Client.State, k: Sock)
    requires AskOk(st, k) && k.down != []
    requires st.poke.Some? ==> (st.poke.value.baseMismatch <==> st.poke.value.base != st.cursor)
    ensures var (st', ms) := Client.OnFrame(st, k.down[0]); AskOk(st', SendUp(k.(down := k.down[1..]), ms))
  {
    hide Client.OnFrame;
    var (st', ms) := Client.OnFrame(st, k.down[0]);
    var f := k.down[0];
    OnFrameFollows(st, f);
    Convergence.FrameMoves(st, f);
    Client.ResyncsIff(st, f);
    var b := PartialOf(st.poke);
    var rest := Completes(After(b, f), k.down[1..]);
    assert Completes(b, k.down) == Completed(b, f) + rest;
    var k' := SendUp(k.(down := k.down[1..]), ms);
    assert forall m :: m in k.up ==> m in k'.up;
    if st'.awaitingCatchUp && ms == [] && !k.cut {
      if Client.HelloMsg(st.cursor) !in k.up {
        var q :| q in Coming(st, k) && Applies(st.cursor, q);
        assert q in rest;
        assert Applies(st'.cursor, q) && Coming(st', k') == rest;
      }
    }
    if ms != [] && !k.cut { assert ms[0] in k'.up; }
  }

  lemma DeliverMoves(s: System, s': System, c: ClientId)
    requires AskInv(s) && Convergence.Inv(s) && Convergence.OwnSockets(s) && StepDeliver(s, s', c)
    ensures AskInv(s') && (LandInv(s) ==> LandInv(s'))
  {
    hide Client.OnFrame, Noted, Completes, HistoryOk, Convergence.StoresOk;
    var (i, st) := (s.peers[c].sock.value, s.peers[c].state);
    var k := s.socks[i];
    assert AskOk(st, k) && Convergence.PeerOk(s.peers[c], s.socks, s.timeline);
    FrameLands(st, k.down);
    FrameAsks(st, k);
    OneMoved(s, s', c);
  }

  /** A step of a client that changes nothing of what it waits for. */
  lemma SameWait(st: Client.State, st': Client.State, k: Sock, here: Cursor)
    requires st'.cursor == st.cursor && st'.poke == st.poke && st'.awaitingCatchUp == st.awaitingCatchUp && st'.synced == st.synced
    ensures AskOk(st, k) ==> AskOk(st', k)
    ensures LandOk(st, k, here) ==> LandOk(st', k, here)
  {
  }

  lemma MutateMoves(s: System, s': System, c: ClientId, intent: Intent)
    requires AskInv(s) && Convergence.OwnSockets(s) && StepMutate(s, s', c, intent)
    ensures AskInv(s') && (LandInv(s) ==> LandInv(s'))
  {
    hide AskOk, LandOk, Client.NextMutationId;
    assert GoodPeer(s, c);
    if s.peers[c].sock.Some? {
      SameWait(s.peers[c].state, s'.peers[c].state, s.socks[s.peers[c].sock.value], s.server.Here());
    }
    OneMoved(s, s', c);
  }

  lemma FlushMoves(s: System, s': System, c: ClientId)
    requires AskInv(s) && Convergence.OwnSockets(s) && StepFlush(s, s', c)
    ensures AskInv(s') && (LandInv(s) ==> LandInv(s'))
  {
    hide Completes, Lands, HasAnswer, Client.PushBatch;
    assert GoodPeer(s, c);
    OneMoved(s, s', c);
  }

  lemma DialMoves(s: System, s': System, c: ClientId, sock: SockId)
    requires AskInv(s) && Convergence.OwnSockets(s) && StepDial(s, s', c, sock)
    ensures AskInv(s') && (LandInv(s) ==> LandInv(s'))
  {
    hide Lands, HasAnswer;
    assert GoodPeer(s, c);
    OneMoved(s, s', c);
  }

  lemma OpenMoves(s: System, s': System, c: ClientId)
    requires AskInv(s) && Convergence.OwnSockets(s) && StepOpen(s, s', c)
    ensures AskInv(s') && (LandInv(s) ==> LandInv(s'))
  {
    hide Completes, Lands, HasAnswer;
    assert GoodPeer(s, c);
    var (k, k') := (s.socks[s.peers[c].sock.value], s'.socks[s.peers[c].sock.value]);
    assert !k.cut ==> k'.up[|k.up|] == Client.HelloMsg(s.peers[c].state.cursor);
    OneMoved(s, s', c);
  }

  /** Off the line, a client waits for nothing. */
  lemma LeaveMoves(s: System, s': System, c: ClientId)
    requires AskInv(s) && Convergence.OwnSockets(s) && Moves(s, s', c) && s'.socks == s.socks
    requires s'.peers[c].sock.None? && !s'.peers[c].state.awaitingCatchUp
    ensures AskInv(s') && (LandInv(s) ==> LandInv(s'))
  {
    OneMoved(s, s', c);
  }

  lemma ClientMoves(s: System, s': System, step: Step)
    requires AskInv(s) && Convergence.Inv(s) && Convergence.OwnSockets(s) && Next(s, s', step)
    requires step.Mutate? || step.Flush? || step.Dial? || step.Open? || step.Deliver? || step.Hangup? || step.Reload?
    ensures AskInv(s') && (LandInv(s) ==> LandInv(s'))
  {
    hide AskInv, LandInv, Convergence.Inv, Convergence.OwnSockets, StepMutate, StepFlush, StepDial, StepOpen, StepDeliver;
    hide StepServeHello, StepServePush, StepImport, StepImportFields, StepMigration, StepReset, StepCompaction, StepWake, StepAccept, StepCut, StepKick, StepPersist, StepUnsaved, StepWipe;
    match step
    case Mutate(c, intent) => MutateMoves(s, s', c, intent);
    case Flush(c) => FlushMoves(s, s', c);
    case Dial(c, sock) => DialMoves(s, s', c, sock);
    case Open(c) => OpenMoves(s, s', c);
    case Deliver(c) => DeliverMoves(s, s', c);
    case Hangup(c) => LeaveMoves(s, s', c);
    case Reload(c, _) => LeaveMoves(s, s', c);
  }

  lemma CutCarries(s: System, s': System, sock: SockId, up: nat, down: nat)
    requires StepCut(s, s', sock, up, down)
    ensures Carries(s, s')
  {
    hide Completes, Lands, HasAnswer;
    assert forall m :: m in s'.socks[sock].up ==> m in s.socks[sock].up;
  }

  lemma SocketCarries(s: System, s': System, step: Step)
    requires Next(s, s', step)
    requires step.Accept? || step.Cut? || step.Kick? || step.Persist? || step.Unsaved? || step.Wipe?
    ensures Carries(s, s')
  {
    hide Carries, StepCut, Mirror.Apply;
    hide StepServeHello, StepServePush, StepImport, StepImportFields, StepMigration, StepReset, StepCompaction, StepWake, StepMutate, StepFlush, StepDial, StepOpen, StepDeliver, StepHangup, StepReload;
    if step.Cut? { CutCarries(s, s', step.sock, step.up, step.down); } else { MarkStep(s, s'); }
  }

  lemma StepAsks(s: System, s': System, step: Step)
    requires AskInv(s) && Convergence.Inv(s) && Convergence.OwnSockets(s) && Next(s, s', step)
    ensures AskInv(s') && (LandInv(s) && Announced(s, s', step) ==> LandInv(s'))
  {
    hide AskInv, LandInv, Convergence.Inv, Convergence.OwnSockets, Next, Announced, Carries, HistoryOk;
    InvIsHistory(s);
    if Convergence.ServerStep(step) {
      ServerStepAsks(s, s', step);
      if Announced(s, s', step) {
        ServerStepCarries(s, s', step);
        CarriedOn(s, s');
      }
    } else if step.Accept? || step.Cut? || step.Kick? || step.Persist? || step.Unsaved? || step.Wipe? {
      SocketCarries(s, s', step);
      CarriedOn(s, s');
    } else {
      ClientMoves(s, s', step);
    }
  }

  lemma InvIsHistory(s: System)
    requires Convergence.Inv(s)
    ensures HistoryOk(s.server, s.timeline)
  {
  }

  // ----- over whole runs -----

  ghost predicate AnnouncedAll(run: seq<System>, steps: seq<Step>, n: nat)
    requires n <= |steps| < |run|
  {
    forall i :: 0 <= i < n ==> Announced(run[i], run[i + 1], steps[i])
  }

  lemma {:induction false} RunAsks(run: seq<System>, steps: seq<Step>, n: nat)
    requires IsRun(run, steps) && n < |run|
    ensures AskInv(run[n]) && (AnnouncedAll(run, steps, n) ==> LandInv(run[n]))
  {
    hide AskInv, LandInv, Convergence.Inv, Convergence.OwnSockets, Next, Announced, Init;
    if n == 0 {
      InitAsks(run[0]);
    } else {
      RunAsks(run, steps, n - 1);
      Convergence.RunKeeps(run, steps, n - 1);
      StepAsks(run[n - 1], run[n], steps[n - 1]);
    }
  }

  lemma InitAsks(s: System)
    requires Init(s)
    ensures AskInv(s) && LandInv(s)
  {
  }

  /**
   * In every reachable state, a client that waits to catch up over a socket not cut has its hello, sent from
   * where it is, on the way up, or a poke that it can apply from there on the way down.
   */
  lemma WaitingIsAnswered(run: seq<System>, steps: seq<Step>, n: nat, c: ClientId)
    requires IsRun(run, steps) && n < |run| && c in run[n].peers && run[n].peers[c].state.awaitingCatchUp
    ensures run[n].peers[c].sock.Some? && run[n].peers[c].sock.value in run[n].socks
    ensures var (st, k) := (run[n].peers[c].state, run[n].socks[run[n].peers[c].sock.value]);
            k.cut || Client.HelloMsg(st.cursor) in k.up || exists q :: q in Coming(st, k) && (HasClear(q.ops) || q.base == st.cursor)
  {
    hide Completes, Convergence.Inv;
    RunAsks(run, steps, n);
    var (st, k) := (run[n].peers[c].state, run[n].socks[run[n].peers[c].sock.value]);
    assert AskOk(st, k);
    if !k.cut && HasAnswer(st, Coming(st, k)) {
      var q :| q in Coming(st, k) && Applies(st.cursor, q);
    }
  }

  /** Synced, on a socket that is neither cut nor closed, with nothing in flight either way. */
  ghost predicate Quiet(s: System, c: ClientId) {
    && Connected(s, c) && s.peers[c].state.synced
    && var k := s.socks[s.peers[c].sock.value]; !k.cut && !k.defunct && k.up == [] && k.down == []
  }

  /**
   * Where every move of the version is announced, a synced client with nothing in flight is at the server's
   * cursor with its live rows, waits for nothing, and so do any two of them hold the same rows.
   */
  lemma QuietMeansCurrent(run: seq<System>, steps: seq<Step>, n: nat, c: ClientId)
    requires IsRun(run, steps) && Convergence.Orderly(run, steps) && n < |run| && AnnouncedAll(run, steps, n)
    requires Quiet(run[n], c)
    ensures var (s, st) := (run[n], run[n].peers[c].state);
            st.cursor == Some(s.server.Here()) && st.rows == Live(s.server.rows) && !st.awaitingCatchUp
  {
    hide Convergence.Inv, Convergence.Orderly, Completes;
    RunAsks(run, steps, n);
    var (s, st) := (run[n], run[n].peers[c].state);
    var k := s.socks[s.peers[c].sock.value];
    assert AskOk(st, k) && LandOk(st, k, s.server.Here());
    NothingComes(st, k);
    Convergence.Converges(run, steps, n, c);
  }

  /** A step that moves the version unannounced leaves every quiet client but the sender behind, and quiet. */
  lemma UnannouncedLeavesBehind(s: System, s': System, step: Step, c: ClientId)
    requires Convergence.Inv(s) && Next(s, s', step) && !Announced(s, s', step)
    requires Quiet(s, c) && s.peers[c].state.cursor == Some(s.server.Here())
    requires step.ServePush? ==> s.peers[c].sock != Some(step.sock)
    ensures Quiet(s', c) && s'.peers[c].state.cursor != Some(s'.server.Here())
  {
    hide Push, Delivery, Errors, Broadcast, RecordBatch, Convergence.Inv, HistoryOk;
  }
}
