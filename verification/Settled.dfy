/**
 * That promises do settle: within one history, as long as no push is aborted over what it committed, a
 * client with nothing in flight has been told of everything the server executed for it.
 */
module Settled {
  import opened Rows
  import opened WriteSets
  import opened Server
  import Client
  import opened Protocol
  import opened Streams
  import Ledgers
  import Convergence
  import Mirror
  import ExactlyOnce
  import Stranded
  import opened CatchUp

  function Larger(confirmed: nat, q: Poke, c: ClientId): nat {
    if c in q.lmids && q.lmids[c] > confirmed then q.lmids[c] else confirmed
  }

  /** What a client will have confirmed once it has seen these pokes; one it cannot apply confirms nothing. */
  ghost function Hears(c: ClientId, confirmed: nat, cursor: Option<Cursor>, pokes: seq<Poke>): nat
    decreases |pokes|
  {
    if pokes == [] then confirmed
    else if Applies(cursor, pokes[0]) then Hears(c, Larger(confirmed, pokes[0], c), Some(pokes[0].end), pokes[1..])
    else Hears(c, confirmed, cursor, pokes[1..])
  }

  lemma {:induction false} HearsAppend(c: ClientId, confirmed: nat, cursor: Option<Cursor>, pokes: seq<Poke>, q: Poke)
    ensures Hears(c, confirmed, cursor, pokes + [q]) ==
            if Applies(Lands(cursor, pokes), q) then Larger(Hears(c, confirmed, cursor, pokes), q, c)
            else Hears(c, confirmed, cursor, pokes)
    decreases |pokes|
  {
    if pokes == [] {
      assert pokes + [q] == [q] && [q][1..] == [];
    } else {
      assert (pokes + [q])[1..] == pokes[1..] + [q];
      if Applies(cursor, pokes[0]) { HearsAppend(c, Larger(confirmed, pokes[0], c), Some(pokes[0].end), pokes[1..], q); }
      else { HearsAppend(c, confirmed, cursor, pokes[1..], q); }
    }
  }

  ghost predicate TellOk(c: ClientId, st: Client.State, k: Sock, lmid: nat) {
    Listening(k) && !k.cut ==> Hears(c, st.confirmed, st.cursor, Coming(st, k)) == lmid
  }

  ghost predicate TellInv(s: System) {
    forall c :: c in s.peers && s.peers[c].sock.Some? ==>
      s.peers[c].sock.value in s.socks
      && TellOk(c, s.peers[c].state, s.socks[s.peers[c].sock.value], LastMutationId(s.server, c))
  }

  /** The server speaks with each client over one socket at most. */
  ghost predicate OneOpen(socks: map<SockId, Sock>) {
    && (forall i :: i in socks && socks[i].ready ==> socks[i].accepted)
    && (forall i, j ::
          && i in socks && j in socks && socks[i].client == socks[j].client
          && socks[i].accepted && socks[j].accepted && !socks[i].defunct && !socks[j].defunct
          ==> i == j)
  }

  /** Besides, a push that is aborted has committed nothing. */
  ghost predicate WholeOrNothing(s: System, s': System, step: Step) {
    step.ServePush? && PokeOf(step.out).None? ==> s'.server == s.server
  }

  // ----- one open socket each -----

  /** No socket is accepted, made ready or reopened. */
  ghost predicate NoneOpens(socks: map<SockId, Sock>, socks': map<SockId, Sock>) {
    forall i :: i in socks' ==>
      i in socks && socks'[i].client == socks[i].client && socks'[i].ready == socks[i].ready
      && socks'[i].accepted == socks[i].accepted && (socks[i].defunct ==> socks'[i].defunct)
  }

  lemma DeliveryOpensNone(k: Sock, k': Sock, fs: seq<Client.Frame>)
    requires Delivery(k, k', fs)
    ensures k'.client == k.client && k'.ready == k.ready && k'.accepted == k.accepted && (k.defunct ==> k'.defunct)
  {
  }

  lemma BroadcastOpensNone(socks: map<SockId, Sock>, socks': map<SockId, Sock>, only: Option<SockId>, fs: seq<Client.Frame>)
    requires Broadcast(socks, socks', only, fs)
    ensures NoneOpens(socks, socks') && socks'.Keys == socks.Keys
  {
    forall i | i in socks'
      ensures socks'[i].client == socks[i].client && socks'[i].ready == socks[i].ready
      ensures socks'[i].accepted == socks[i].accepted && (socks[i].defunct ==> socks'[i].defunct)
    {
      if Listening(socks[i]) && (only.None? || only == Some(i)) { DeliveryOpensNone(socks[i], socks'[i], fs); }
    }
  }

  lemma StillOne(socks: map<SockId, Sock>, socks': map<SockId, Sock>)
    requires OneOpen(socks) && NoneOpens(socks, socks')
    ensures OneOpen(socks')
  {
  }

  lemma PushOpensNone(
      s: System, s': System, sock: SockId, ms: seq<Mutation>, os: seq<Outcome>, out: seq<Outgoing>,
      pokeId: nat, parts: seq<seq<PatchOp>>)
    requires StepServePush(s, s', sock, ms, os, out, pokeId, parts)
    ensures NoneOpens(s.socks, s'.socks)
  {
    hide Push, Client.PokeFrames, RecordBatch, Errors, Delivery, Broadcast;
    var told :| Delivery(Popped(s, sock), told, Errors(out)) && Answered(s.socks[sock := told], s'.socks, sock, out, pokeId, parts);
    DeliveryOpensNone(Popped(s, sock), told, Errors(out));
    var mid := s.socks[sock := told];
    if PokeOf(out).Some? {
      var last := out[|out| - 1];
      BroadcastOpensNone(mid, s'.socks, if last.everyone then None else Some(sock), Client.PokeFrames(pokeId, last.poke, parts));
    }
  }

  lemma HelloKeepsOne(
      s: System, s': System, sock: SockId, cursor: Option<Cursor>, poke: Poke, pokeId: nat, parts: seq<seq<PatchOp>>)
    requires OneOpen(s.socks) && StepServeHello(s, s', sock, cursor, poke, pokeId, parts)
    ensures OneOpen(s'.socks)
  {
    hide Hello, Client.PokeFrames, Delivery;
    var sent :| Delivery(Popped(s, sock), sent, Client.PokeFrames(pokeId, poke, parts)) && s'.socks[sock] == sent.(ready := true, defunct := false);
    DeliveryOpensNone(Popped(s, sock), sent, Client.PokeFrames(pokeId, poke, parts));
  }

  lemma ServerKeepsOne(s: System, s': System, step: Step)
    requires OneOpen(s.socks) && Next(s, s', step) && Convergence.ServerStep(step)
    ensures OneOpen(s'.socks)
  {
    hide OneOpen, StepServeHello, StepServePush, Broadcast, Hello, Push, Import, Migrate, Compact, Record;
    hide StepMutate, StepFlush, StepDial, StepAccept, StepOpen, StepDeliver, StepHangup, StepCut, StepKick, StepPersist, StepUnsaved, StepWipe, StepReload;
    match step
    case ServeHello(sock, cursor, poke, id, parts) => HelloKeepsOne(s, s', sock, cursor, poke, id, parts);
    case ServePush(sock, ms, os, out, id, parts) =>
      PushOpensNone(s, s', sock, ms, os, out, id, parts);
      StillOne(s.socks, s'.socks);
    case Importing(rows, patch, id, parts) =>
      BroadcastOpensNone(s.socks, s'.socks, None, Client.PokeFrames(id, Poke(None, patch, map[], [], s'.server.Here()), parts));
      StillOne(s.socks, s'.socks);
    case Reset(backend, id, parts) =>
      BroadcastOpensNone(s.socks, s'.socks, None, Client.PokeFrames(id, ResetPoke(backend), parts));
      StillOne(s.socks, s'.socks);
    case _ => StillOne(s.socks, s'.socks);
  }

  lemma OpeningKeepsOne(s: System, s': System, step: Step)
    requires OneOpen(s.socks) && Next(s, s', step) && (step.Dial? || step.Accept?)
    ensures OneOpen(s'.socks)
  {
    hide Client.OnFrame, Client.PushBatch, Client.NextMutationId, Client.Reload, Noted, Mirror.Apply;
    hide StepServeHello, StepServePush, StepImport, StepImportFields, StepMigration, StepReset, StepCompaction, StepWake;
    hide StepMutate, StepFlush, StepOpen, StepDeliver, StepHangup, StepCut, StepKick, StepPersist, StepUnsaved, StepWipe, StepReload;
  }

  lemma OtherKeepsOne(s: System, s': System, step: Step)
    requires OneOpen(s.socks) && Next(s, s', step) && !Convergence.ServerStep(step)
    ensures OneOpen(s'.socks)
  {
    hide Client.OnFrame, Client.PushBatch, Client.NextMutationId, Client.Reload, Noted, Mirror.Apply;
    hide StepServeHello, StepServePush, StepImport, StepImportFields, StepMigration, StepReset, StepCompaction, StepWake;
    hide StepDial, StepAccept;
    if step.Dial? || step.Accept? { OpeningKeepsOne(s, s', step); }
  }

  // ----- the server's steps -----

  /** A client's socket tells it as much after the step as before. */
  ghost predicate Tells(s: System, s': System, c: ClientId, i: SockId)
    requires c in s.peers && i in s.socks && i in s'.socks
  {
    var st := s.peers[c].state;
    TellOk(c, st, s.socks[i], LastMutationId(s.server, c)) ==> TellOk(c, st, s'.socks[i], LastMutationId(s'.server, c))
  }

  /** Another poke over a ready socket: it applies and confirms the new id, or confirms nothing new. */
  lemma PokeTells(
      c: ClientId, st: Client.State, k: Sock, k': Sock, pokeId: nat, q: Poke, parts: seq<seq<PatchOp>>, was: Cursor, lmid: nat, lmid': nat)
    requires IsSplit(parts, q.ops) && Delivery(k, k', Client.PokeFrames(pokeId, q, parts)) && k.ready
    requires LandOk(st, k, was) && TellOk(c, st, k, lmid) && lmid <= lmid'
    requires lmid' != lmid ==> q.base == Some(was) && c in q.lmids
    requires c in q.lmids ==> q.lmids[c] == lmid'
    ensures TellOk(c, st, k', lmid')
  {
    hide Completes, Client.PokeFrames, Applies;
    WholeIfUncut(k, k', Client.PokeFrames(pokeId, q, parts));
    if Listening(k') && !k'.cut {
      PokeComes(st, k, k', pokeId, q, parts);
      HearsAppend(c, st.confirmed, st.cursor, Coming(st, k), q);
      AppliesHere(q, was);
    }
  }

  lemma BroadcastTells(
      c: ClientId, st: Client.State, socks: map<SockId, Sock>, socks': map<SockId, Sock>, only: Option<SockId>, pokeId: nat, q: Poke,
      parts: seq<seq<PatchOp>>, was: Cursor, lmid: nat, lmid': nat, i: SockId)
    requires IsSplit(parts, q.ops) && Broadcast(socks, socks', only, Client.PokeFrames(pokeId, q, parts)) && i in socks
    requires LandOk(st, socks[i], was) && TellOk(c, st, socks[i], lmid) && lmid <= lmid'
    requires lmid' != lmid ==> q.base == Some(was) && c in q.lmids && (only.None? || only == Some(i) || !Listening(socks[i]))
    requires c in q.lmids ==> q.lmids[c] == lmid'
    ensures i in socks' && TellOk(c, st, socks'[i], lmid')
  {
    hide Client.PokeFrames, Delivery, LandOk, Coming, Hears;
    if Listening(socks[i]) && (only.None? || only == Some(i)) {
      PokeTells(c, st, socks[i], socks'[i], pokeId, q, parts, was, lmid, lmid');
    }
  }

  lemma ErrorsTell(c: ClientId, st: Client.State, k: Sock, k': Sock, out: seq<Outgoing>, lmid: nat)
    requires k.up != [] && Delivery(k.(up := k.up[1..]), k', Errors(out)) && TellOk(c, st, k, lmid)
    ensures TellOk(c, st, k', lmid)
  {
    hide Completes;
    WholeIfUncut(k.(up := k.up[1..]), k', Errors(out));
    ErrorsAreErrors(out);
    if !k'.cut { ErrorsCome(st, k, k', Errors(out)); }
  }

  lemma HelloTells(
      s: System, s': System, sock: SockId, cursor: Option<Cursor>, poke: Poke, pokeId: nat, parts: seq<seq<PatchOp>>, c: ClientId)
    requires HistoryOk(s.server, s.timeline) && StepServeHello(s, s', sock, cursor, poke, pokeId, parts)
    requires c in s.peers && s.socks[sock].client == c
    requires var (st, k) := (s.peers[c].state, s.socks[sock]);
             AskOk(st, k) && LandOk(st, k, s.server.Here()) && st.confirmed <= LastMutationId(s.server, c)
    ensures Tells(s, s', c, sock)
  {
    hide Completes, Client.PokeFrames, Applies, Bootstraps, IsDelta, HasAnswer;
    var (st, k, k') := (s.peers[c].state, s.socks[sock], s'.socks[sock]);
    var popped := Popped(s, sock);
    var sent :| Delivery(popped, sent, Client.PokeFrames(pokeId, poke, parts)) && k' == sent.(ready := true, defunct := false);
    WholeIfUncut(popped, sent, Client.PokeFrames(pokeId, poke, parts));
    HelloApplies(s.server, s.timeline, k.client, cursor, s'.server, poke);
    HelloLeavesIds(s.server, k.client, cursor, s'.server, poke);
    if !k'.cut {
      PokeComes(st, popped, sent, pokeId, poke, parts);
      HearsAppend(c, st.confirmed, st.cursor, Coming(st, k), poke);
      if !k.ready {
        NothingComes(st, k);
        assert k.up[0] in k.up;
      }
    }
  }

  lemma HelloLeavesIds(s: Server.State, d: ClientId, cursor: Option<Cursor>, s': Server.State, p: Poke)
    requires Hello(s, d, cursor, s', p)
    ensures forall c :: LastMutationId(s', c) == LastMutationId(s, c)
  {
  }

  /** What is known of every state of such a run besides. */
  ghost predicate Sound(s: System) {
    ExactlyOnce.Inv(s) && Convergence.Inv(s) && Convergence.OwnSockets(s) && AskInv(s) && LandInv(s) && OneOpen(s.socks)
  }

  lemma SoundFor(s: System, c: ClientId)
    requires Sound(s) && c in s.peers
    ensures HistoryOk(s.server, s.timeline) && s.peers[c].state.confirmed <= LastMutationId(s.server, c)
    ensures s.peers[c].sock.Some? ==>
              var (st, i) := (s.peers[c].state, s.peers[c].sock.value);
              i in s.socks && s.socks[i].client == c && AskOk(st, s.socks[i]) && LandOk(st, s.socks[i], s.server.Here())
  {
    hide Ledgers.Ledger, Ledgers.QueueOk, Ledgers.SettledOk, AskOk, LandOk;
    ExactlyOnce.Known(s, c);
  }

  ghost predicate AllTell(s: System, s': System) {
    && s'.peers == s.peers && s.socks.Keys <= s'.socks.Keys
    && forall c, i :: c in s.peers && s.peers[c].sock == Some(i) && i in s.socks ==> Tells(s, s', c, i)
  }

  lemma ToldOn(s: System, s': System)
    requires TellInv(s) && AllTell(s, s')
    ensures TellInv(s')
  {
    hide TellOk;
    forall c | c in s'.peers && s'.peers[c].sock.Some?
      ensures s'.peers[c].sock.value in s'.socks
      ensures TellOk(c, s'.peers[c].state, s'.socks[s'.peers[c].sock.value], LastMutationId(s'.server, c))
    {
      assert Tells(s, s', c, s.peers[c].sock.value);
    }
  }

  lemma HelloAllTell(
      s: System, s': System, sock: SockId, cursor: Option<Cursor>, poke: Poke, pokeId: nat, parts: seq<seq<PatchOp>>)
    requires Sound(s) && StepServeHello(s, s', sock, cursor, poke, pokeId, parts)
    ensures AllTell(s, s')
  {
    hide Sound, Hello, Delivery, AskOk, LandOk, TellOk, Client.PokeFrames, LastMutationId;
    forall c, i | c in s.peers && s.peers[c].sock == Some(i) && i in s.socks
      ensures i in s'.socks && Tells(s, s', c, i)
    {
      SoundFor(s, c);
      HelloLeavesIds(s.server, s.socks[sock].client, cursor, s'.server, poke);
      if i == sock { HelloTells(s, s', sock, cursor, poke, pokeId, parts, c); }
    }
  }

  /** A push that is answered: its own client's last id moves to the one confirmed, no other client's moves. */
  lemma PushIds(s: System, s': System, sock: SockId, ms: seq<Mutation>, os: seq<Outcome>, out: seq<Outgoing>, c: ClientId)
    requires Sound(s) && Receives(s, sock) && s.socks[sock].up[0] == Client.PushMsg(ms) && |ms| == |os| && Disjoint(os)
    requires Push(s.server, s.socks[sock].client, ms, os, s'.server, out) && PokeOf(out).Some?
    ensures var (d, q) := (s.socks[sock].client, PokeOf(out).value);
            && LastMutationId(s.server, c) <= LastMutationId(s'.server, c)
            && (c != d ==> LastMutationId(s'.server, c) == LastMutationId(s.server, c))
            && q.lmids.Keys == {d} && q.base == Some(s.server.Here())
            && q.lmids[d] == LastMutationId(s'.server, d)
  {
    hide LastMutationId, Ledgers.LogOf, AskInv, LandInv, OneOpen, HistoryOk;
    var d := s.socks[sock].client;
    ExactlyOnce.PushRuns(s, sock, ms, os);
    SockKnown(s, sock);
    PushReachesAllIff(s.server, s.timeline, d, ms, os, s'.server, out);
    IdleBatch(StartBatch(s.server, d), d, ms, os);
    BatchRecords(StartBatch(s.server, d), d, ms, os);
    if c != d { Stranded.OthersBatch(StartBatch(s.server, d), d, ms, os, c); }
  }

  lemma SockKnown(s: System, sock: SockId)
    requires Sound(s) && sock in s.socks
    ensures HistoryOk(s.server, s.timeline) && (s.socks[sock].ready ==> s.socks[sock].client in s.server.clients)
  {
    assert ExactlyOnce.SockOk(s.socks[sock], s);
  }

  lemma PushTells(
      s: System, s': System, sock: SockId, ms: seq<Mutation>, os: seq<Outcome>, out: seq<Outgoing>,
      pokeId: nat, parts: seq<seq<PatchOp>>, c: ClientId, i: SockId)
    requires Sound(s) && StepServePush(s, s', sock, ms, os, out, pokeId, parts)
    requires c in s.peers && s.peers[c].sock == Some(i) && i in s.socks
    requires PokeOf(out).None? ==> s'.server == s.server
    ensures i in s'.socks && Tells(s, s', c, i)
  {
    hide Sound, Push, Delivery, AskOk, LandOk, TellOk, Client.PokeFrames, LastMutationId, RecordBatch, Errors, OneOpen;
    var (st, k, d) := (s.peers[c].state, s.socks[sock], s.socks[sock].client);
    var told :| Delivery(Popped(s, sock), told, Errors(out)) && Answered(s.socks[sock := told], s'.socks, sock, out, pokeId, parts);
    var mid := s.socks[sock := told];
    var (was, lmid, lmid') := (s.server.Here(), LastMutationId(s.server, c), LastMutationId(s'.server, c));
    SoundFor(s, c);
    if TellOk(c, st, s.socks[i], lmid) {
      ErrorsKeep(st, k, told, out, ms, was);
      if i == sock { ErrorsTell(c, st, k, told, out, lmid); }
      if PokeOf(out).Some? {
        ExactlyOnce.PushRuns(s, sock, ms, os) by { assert ExactlyOnce.Inv(s) by { SoundIsOnce(s); } }
        PushIds(s, s', sock, ms, os, out, c);
        if c == d && i != sock { OneSpeaks(s, sock, i); }
        var last := out[|out| - 1];
        BroadcastTells(c, st, mid, s'.socks, if last.everyone then None else Some(sock), pokeId, last.poke, parts, was, lmid, lmid', i);
      }
    }
  }

  lemma SoundIsOnce(s: System)
    requires Sound(s)
    ensures ExactlyOnce.Inv(s)
  {
  }

  lemma OneSpeaks(s: System, sock: SockId, i: SockId)
    requires Sound(s) && Receives(s, sock) && i in s.socks && i != sock && s.socks[i].client == s.socks[sock].client
    ensures !Listening(s.socks[i])
  {
  }

  lemma PushAllTell(
      s: System, s': System, sock: SockId, ms: seq<Mutation>, os: seq<Outcome>, out: seq<Outgoing>,
      pokeId: nat, parts: seq<seq<PatchOp>>)
    requires Sound(s) && StepServePush(s, s', sock, ms, os, out, pokeId, parts)
    requires PokeOf(out).None? ==> s'.server == s.server
    ensures AllTell(s, s')
  {
    hide Sound, Push, Delivery, TellOk, Client.PokeFrames, RecordBatch, Errors, Broadcast;
    PushSocks(s, s', sock, ms, os, out, pokeId, parts);
    forall c, i | c in s.peers && s.peers[c].sock == Some(i) && i in s.socks
      ensures i in s'.socks && Tells(s, s', c, i)
    {
      PushTells(s, s', sock, ms, os, out, pokeId, parts, c, i);
    }
  }

  lemma ImportAllTell(s: System, s': System, rows: Table, patch: seq<PatchOp>, pokeId: nat, parts: seq<seq<PatchOp>>)
    requires Sound(s) && StepImport(s, s', rows, patch, pokeId, parts)
    ensures AllTell(s, s')
  {
    hide Sound, Delivery, AskOk, LandOk, TellOk, Client.PokeFrames, IsBootstrap;
    var q := Poke(None, patch, map[], [], s'.server.Here());
    forall c, i | c in s.peers && s.peers[c].sock == Some(i) && i in s.socks
      ensures i in s'.socks && Tells(s, s', c, i)
    {
      SoundFor(s, c);
      var lmid := LastMutationId(s.server, c);
      if TellOk(c, s.peers[c].state, s.socks[i], lmid) {
        BroadcastTells(c, s.peers[c].state, s.socks, s'.socks, None, pokeId, q, parts, s.server.Here(), lmid, lmid, i);
      }
    }
  }

  /** Sockets change in their marks at most, and no one's mutations are executed. */
  lemma MarksTell(s: System, s': System)
    requires s'.peers == s.peers && s'.socks.Keys == s.socks.Keys && s'.server.clients == s.server.clients
    requires forall i :: i in s.socks ==>
               s'.socks[i] == s.socks[i].(accepted := s'.socks[i].accepted, defunct := s'.socks[i].defunct)
               && (s.socks[i].defunct ==> s'.socks[i].defunct)
    ensures AllTell(s, s')
  {
    hide Hears;
  }

  lemma ServerTells(s: System, s': System, step: Step)
    requires Sound(s) && TellInv(s) && Next(s, s', step) && Convergence.ServerStep(step) && !step.Reset?
    requires WholeOrNothing(s, s', step)
    ensures TellInv(s')
  {
    hide Sound, TellInv, AllTell, StepServeHello, StepServePush, StepImport, StepReset, Live, Record, Written, Flushed;
    hide StepMutate, StepFlush, StepDial, StepAccept, StepOpen, StepDeliver, StepHangup, StepCut, StepKick, StepPersist, StepUnsaved, StepWipe, StepReload;
    match step {
      case ServeHello(sock, cursor, poke, id, parts) => HelloAllTell(s, s', sock, cursor, poke, id, parts);
      case ServePush(sock, ms, os, out, id, parts) => PushAllTell(s, s', sock, ms, os, out, id, parts);
      case Importing(rows, patch, id, parts) => ImportAllTell(s, s', rows, patch, id, parts);
      case _ => MarksTell(s, s');
    }
    ToldOn(s, s');
  }

  // ----- the clients' and the sockets' own steps -----

  ghost predicate GoodTell(s: System, c: ClientId)
    requires c in s.peers
  {
    s.peers[c].sock.Some? ==>
      s.peers[c].sock.value in s.socks
      && TellOk(c, s.peers[c].state, s.socks[s.peers[c].sock.value], LastMutationId(s.server, c))
  }

  lemma OneTold(s: System, s': System, c: ClientId)
    requires Sound(s) && TellInv(s) && Moves(s, s', c) && GoodTell(s', c)
    ensures TellInv(s')
  {
    hide TellOk, ExactlyOnce.Inv, Convergence.Inv, AskInv, LandInv, OneOpen;
    forall d | d in s'.peers
      ensures GoodTell(s', d)
    {
      if d != c { assert GoodTell(s, d); }
    }
  }

  /** Taking a frame of its own history, a client confirms what it was going to. */
  lemma FrameTells(c: ClientId, st: Client.State, fs: seq<Client.Frame>)
    requires fs != [] && st.id == c && (st.poke.Some? ==> (st.poke.value.baseMismatch <==> st.poke.value.base != st.cursor))
    requires Client.Applies(st, fs[0]) && st.cursor.Some? ==> st.cursor.value.backend == fs[0].end.backend
    ensures var st' := Client.OnFrame(st, fs[0]).0;
            Hears(c, st'.confirmed, st'.cursor, Completes(PartialOf(st'.poke), fs[1..]))
            == Hears(c, st.confirmed, st.cursor, Completes(PartialOf(st.poke), fs))
  {
    hide Client.OnFrame;
    OnFrameFollows(st, fs[0]);
    Convergence.FrameMoves(st, fs[0]);
    Client.ResyncsIff(st, fs[0]);
    FrameConfirms(c, st, fs[0]);
    var b := PartialOf(st.poke);
    assert Completes(b, fs) == Completed(b, fs[0]) + Completes(After(b, fs[0]), fs[1..]);
    if Completed(b, fs[0]) == [] {
      assert Completes(b, fs) == Completes(After(b, fs[0]), fs[1..]);
    } else {
      assert Completes(b, fs)[0] == Completed(b, fs[0])[0] && Completes(b, fs)[1..] == Completes(After(b, fs[0]), fs[1..]);
    }
  }

  lemma FrameConfirms(c: ClientId, st: Client.State, f: Client.Frame)
    requires st.id == c && (Client.Applies(st, f) && st.cursor.Some? ==> st.cursor.value.backend == f.end.backend)
    ensures Client.OnFrame(st, f).0.confirmed ==
            if Client.Applies(st, f) then
              Larger(st.confirmed, Poke(st.poke.value.base, st.poke.value.ops, st.poke.value.lmids, st.poke.value.results, f.end), c)
            else st.confirmed
  {
  }

  lemma DeliverTold(s: System, s': System, c: ClientId)
    requires Sound(s) && TellInv(s) && StepDeliver(s, s', c)
    ensures TellInv(s')
  {
    hide Client.OnFrame, Noted, Completes, HistoryOk, Convergence.StoresOk, AskInv, LandInv, OneOpen, ExactlyOnce.SockOk;
    var (i, st) := (s.peers[c].sock.value, s.peers[c].state);
    var k := s.socks[i];
    assert GoodTell(s, c) && Convergence.PeerOk(s.peers[c], s.socks, s.timeline);
    OwnHistory(s, c);
    FrameTells(c, st, k.down);
    OneTold(s, s', c);
  }

  lemma OwnHistory(s: System, c: ClientId)
    requires ExactlyOnce.Inv(s) && Convergence.Inv(s) && Connected(s, c) && s.socks[s.peers[c].sock.value].down != []
    ensures var (st, f) := (s.peers[c].state, s.socks[s.peers[c].sock.value].down[0]);
            && st.id == c
            && (Client.Applies(st, f) && st.cursor.Some? ==> st.cursor.value.backend == f.end.backend)
  {
    hide Convergence.Inv, ExactlyOnce.LinkOk, ExactlyOnce.SockOk;
    var (st, f) := (s.peers[c].state, s.socks[s.peers[c].sock.value].down[0]);
    ExactlyOnce.Known(s, c);
    ExactlyOnce.NextPokeConfirms(s, c);
    if Client.Applies(st, f) {
      var b := st.poke.value;
      assert Poke(b.base, b.ops, b.lmids, b.results, f.end) in Completed(PartialOf(st.poke), f);
    }
  }

  /** The client hears nothing, and what it has confirmed and where it is stay, or it is not spoken to. */
  lemma QuietTold(s: System, s': System, c: ClientId)
    requires Sound(s) && TellInv(s) && Moves(s, s', c)
    requires var (p, p') := (s.peers[c], s'.peers[c]);
             || p'.sock.None?
             || (p'.sock.value in s'.socks && !Listening(s'.socks[p'.sock.value]))
             || (p'.sock == p.sock && p'.sock.value in s.socks && p'.sock.value in s'.socks
                 && p'.state.confirmed == p.state.confirmed && p'.state.cursor == p.state.cursor && p'.state.poke == p.state.poke
                 && s'.socks[p'.sock.value] == s.socks[p.sock.value].(up := s'.socks[p'.sock.value].up))
    ensures TellInv(s')
  {
    hide Sound, Hears, Completes;
    assert GoodTell(s, c);
    OneTold(s, s', c);
  }

  lemma ClientTells(s: System, s': System, step: Step)
    requires Sound(s) && TellInv(s) && Next(s, s', step)
    requires step.Mutate? || step.Flush? || step.Dial? || step.Open? || step.Deliver? || step.Hangup? || step.Reload?
    ensures TellInv(s')
  {
    hide TellInv, Client.OnFrame, Client.PushBatch, Client.NextMutationId, StepDeliver, Mirror.Collected;
    hide ExactlyOnce.Inv, Convergence.Inv, AskInv, LandInv, OneOpen;
    hide StepServeHello, StepServePush, StepImport, StepImportFields, StepMigration, StepReset, StepCompaction, StepWake, StepAccept, StepCut, StepKick, StepPersist, StepUnsaved, StepWipe;
    if step.Deliver? { DeliverTold(s, s', step.c); } else { QuietTold(s, s', step.c); }
  }

  lemma CutTells(s: System, s': System, sock: SockId, up: nat, down: nat)
    requires StepCut(s, s', sock, up, down)
    ensures AllTell(s, s')
  {
    hide Hears, Completes;
  }

  lemma SocketTells(s: System, s': System, step: Step)
    requires Next(s, s', step)
    requires step.Accept? || step.Cut? || step.Kick? || step.Persist? || step.Unsaved? || step.Wipe?
    ensures AllTell(s, s')
  {
    hide AllTell, StepCut, Mirror.Apply;
    hide StepServeHello, StepServePush, StepImport, StepImportFields, StepMigration, StepReset, StepCompaction, StepWake, StepMutate, StepFlush, StepDial, StepOpen, StepDeliver, StepHangup, StepReload;
    if step.Cut? { CutTells(s, s', step.sock, step.up, step.down); } else { MarksTell(s, s'); }
  }

  lemma StepTells(s: System, s': System, step: Step)
    requires Sound(s) && TellInv(s) && Next(s, s', step) && !step.Reset? && WholeOrNothing(s, s', step)
    ensures TellInv(s')
  {
    hide Sound, TellInv, AllTell, Next, WholeOrNothing;
    if Convergence.ServerStep(step) {
      ServerTells(s, s', step);
    } else if step.Accept? || step.Cut? || step.Kick? || step.Persist? || step.Unsaved? || step.Wipe? {
      SocketTells(s, s', step);
      ToldOn(s, s');
    } else {
      ClientTells(s, s', step);
    }
  }

  lemma StepKeepsOne(s: System, s': System, step: Step)
    requires OneOpen(s.socks) && Next(s, s', step)
    ensures OneOpen(s'.socks)
  {
    hide OneOpen, Next;
    if Convergence.ServerStep(step) { ServerKeepsOne(s, s', step); } else { OtherKeepsOne(s, s', step); }
  }

  // ----- over whole runs -----

  ghost predicate WholeOrNothingAll(run: seq<System>, steps: seq<Step>, n: nat)
    requires n <= |steps| < |run|
  {
    forall i :: 0 <= i < n ==> Announced(run[i], run[i + 1], steps[i]) && WholeOrNothing(run[i], run[i + 1], steps[i])
  }

  lemma {:induction false} RunTells(run: seq<System>, steps: seq<Step>, n: nat)
    requires ExactlyOnce.OneHistory(run, steps) && n < |run| && WholeOrNothingAll(run, steps, n)
    ensures Sound(run[n]) && TellInv(run[n])
  {
    hide AskInv, LandInv, TellInv, OneOpen, ExactlyOnce.Inv, Convergence.Inv, Convergence.OwnSockets, Next, Announced, WholeOrNothing, Init;
    ExactlyOnce.RunOk(run, steps, n);
    assert AnnouncedAll(run, steps, n);
    RunAsks(run, steps, n);
    if n == 0 {
      NothingOpen(run[0]);
    } else {
      RunTells(run, steps, n - 1);
      StepKeepsOne(run[n - 1], run[n], steps[n - 1]);
      StepTells(run[n - 1], run[n], steps[n - 1]);
    }
  }

  lemma NothingOpen(s: System)
    requires Init(s)
    ensures OneOpen(s.socks) && TellInv(s)
  {
  }

  /**
   * Within one history in which no push is aborted over what it committed, a synced client with nothing in
   * flight has settled exactly the calls the server executed for it: the first LMID, in order.
   */
  lemma QuietMeansSettled(run: seq<System>, steps: seq<Step>, n: nat, c: ClientId)
    requires ExactlyOnce.OneHistory(run, steps) && n < |run| && WholeOrNothingAll(run, steps, n)
    requires Quiet(run[n], c)
    ensures var (s, st, calls) := (run[n], run[n].peers[c].state, ExactlyOnce.Enqueued(steps[..n], c));
            && st.confirmed == LastMutationId(s.server, c) == |st.settled| <= |calls|
            && forall i :: 0 <= i < |st.settled| ==> st.settled[i].id == i + 1 && st.settled[i].intent == calls[i]
  {
    hide AskInv, LandInv, OneOpen, ExactlyOnce.Inv, Convergence.Inv, Convergence.OwnSockets, Next, Announced, WholeOrNothing, Init;
    RunTells(run, steps, n);
    ExactlyOnce.OutboxIsTheUnconfirmed(run, steps, n, c);
    var (st, k) := (run[n].peers[c].state, run[n].socks[run[n].peers[c].sock.value]);
    assert GoodTell(run[n], c);
    SyncedIsReady(run[n], c);
    NothingComes(st, k);
  }

  lemma SyncedIsReady(s: System, c: ClientId)
    requires AskInv(s) && Quiet(s, c)
    ensures s.socks[s.peers[c].sock.value].ready
  {
    assert AskOk(s.peers[c].state, s.socks[s.peers[c].sock.value]);
  }
}
