/**
 * Sockets and presence in packages/server/src/do.ts: closing a socket drops its presence entry, which
 * is relayed to the other sockets, any of which may fail to take it and be closed in turn.
 */
module Presence {
  import opened Rows
  import opened Server
  import opened JsMaps

  type SockId = nat

  datatype Attachment = Attachment(clientId: ClientId, ready: bool, defunct: bool)

  datatype Entry = Entry(ws: SockId, state: Json)

  /** What a socket is sent: a peer's new state or its departure, the peers a newcomer finds, and anything else. */
  datatype Out = Peer(client: ClientId, state: Option<Json>) | Peers(states: map<ClientId, Json>) | Other(frame: nat)

  /** What the handlers meet but do not choose: stamps past due, and sockets whose sends throw. */
  datatype Faults = Faults(expired: set<SockId>, broken: set<SockId>)

  datatype Hub = Hub(sockets: map<SockId, Attachment>, presence: map<ClientId, Entry>, told: map<SockId, seq<Out>>)

  predicate Listening(a: Attachment) {
    a.ready && !a.defunct
  }

  ghost predicate Formed(h: Hub) {
    && h.told.Keys == h.sockets.Keys
    && forall c :: c in h.presence ==> h.presence[c].ws in h.sockets && h.sockets[h.presence[c].ws].clientId == c
  }

  ghost predicate OwnedBy(h: Hub, c: ClientId)
    requires c in h.presence
  {
    var w := h.presence[c].ws;
    w in h.sockets && h.sockets[w].clientId == c && Listening(h.sockets[w])
  }

  /** Every entry is owned by a ready socket the object has not closed, of the client it is about. */
  ghost predicate Owned(h: Hub) {
    Formed(h) && forall c :: c in h.presence ==> OwnedBy(h, c)
  }

  /** The same, save for the entry of a socket on its way out. */
  ghost predicate OwnedBut(h: Hub, ws: SockId) {
    Formed(h) && forall c :: c in h.presence ==> OwnedBy(h, c) || h.presence[c].ws == ws
  }

  ghost predicate OneEach(sockets: map<SockId, Attachment>) {
    forall i, j :: i in sockets && j in sockets && i != j && !sockets[i].defunct && !sockets[j].defunct ==>
      sockets[i].clientId != sockets[j].clientId
  }

  /** Sockets may be closed, and the entries that go are those of closed sockets, and of `ws`. */
  ghost predicate Closes(h: Hub, h': Hub, ws: Option<SockId>)
    requires Formed(h)
  {
    && h'.sockets.Keys == h.sockets.Keys && Formed(h')
    && (forall i :: i in h.sockets ==> Ages(h.sockets[i], h'.sockets[i]))
    && (forall c :: c in h'.presence ==> c in h.presence && h'.presence[c] == h.presence[c])
    && (forall c :: c in h.presence ==>
          (c in h'.presence <==> !h'.sockets[h.presence[c].ws].defunct && Some(h.presence[c].ws) != ws))
  }

  predicate Ages(a: Attachment, a': Attachment) {
    a' == a.(defunct := a'.defunct) && (a.defunct ==> a'.defunct)
  }

  function Count(told: seq<Out>, u: Out): nat {
    multiset(told)[u]
  }

  function OneIf(b: bool): nat {
    if b then 1 else 0
  }

  predicate Departed(h: Hub, h': Hub, u: Out) {
    u.Peer? && u.state.None? && u.client in h.presence && u.client !in h'.presence
  }

  /**
   * Every socket still open heard of each departure exactly once if it is ready, and took `extra` once
   * if it is among `takers`; `deaf` may have missed any of it.
   */
  ghost predicate Heard(h: Hub, h': Hub, extra: Option<Out>, takers: set<SockId>, deaf: Option<SockId>)
    requires Formed(h) && Formed(h')
  {
    forall i, u :: i in h.sockets && i in h'.sockets && !h'.sockets[i].defunct && Some(i) != deaf ==>
      HeardAt(h, h', extra, takers, i, u)
  }

  ghost predicate HeardAt(h: Hub, h': Hub, extra: Option<Out>, takers: set<SockId>, i: SockId, u: Out)
    requires i in h.told && i in h'.told && i in h.sockets
  {
    Count(h'.told[i], u) ==
      Count(h.told[i], u) + OneIf(h.sockets[i].ready && Departed(h, h', u)) + OneIf(extra == Some(u) && i in takers)
  }

  // ----- which sockets close -----

  /** A socket that cannot be delivered to: expired, broken, or closed before. */
  function Failing(f: Faults, closed: set<SockId>): set<SockId> {
    f.expired + f.broken + closed
  }

  predicate Owns(h: Hub, i: SockId) {
    exists c :: c in h.presence && h.presence[c].ws == i
  }

  /** The open sockets among those delivered to that fail. */
  function Hit(h: Hub, to: set<SockId>, bad: set<SockId>): set<SockId> {
    set i | i in h.sockets && i in to && i in bad && !h.sockets[i].defunct
  }

  /** A socket falls if it is hit, or if one that is hit had a presence entry, so that its departure is told around, and it fails. */
  predicate Falls(h: Hub, hit: set<SockId>, bad: set<SockId>, i: SockId) {
    i in hit || ((exists j :: j in hit && Owns(h, j)) && i in h.sockets && Listening(h.sockets[i]) && i in bad)
  }

  /** Exactly those sockets have closed. */
  ghost predicate Shuts(h: Hub, h': Hub, hit: set<SockId>, bad: set<SockId>) {
    forall i :: i in h.sockets && i in h'.sockets ==> (h'.sockets[i].defunct <==> h.sockets[i].defunct || Falls(h, hit, bad, i))
  }

  /** Of the others, exactly the failing ones that hear of the departure have. */
  ghost predicate DropShuts(h: Hub, h': Hub, ws: SockId, bad: set<SockId>) {
    forall i :: i in h.sockets && i in h'.sockets && i != ws ==>
      (h'.sockets[i].defunct <==> h.sockets[i].defunct || (Owns(h, ws) && Listening(h.sockets[i]) && i in bad))
  }

  /** As long as sockets stay open it does not matter when one looks which of them fail. */
  ghost predicate SameBad(h: Hub, bad: set<SockId>, bad': set<SockId>) {
    forall i :: i in h.sockets && !h.sockets[i].defunct ==> (i in bad <==> i in bad')
  }

  lemma StillBad(f: Faults, was: set<SockId>, closed: set<SockId>, h: Hub)
    requires Shut(was, closed, h.sockets)
    ensures SameBad(h, Failing(f, was), Failing(f, closed))
  {
  }

  lemma ShutsThen(h: Hub, h': Hub, h'': Hub, hit: set<SockId>, next: set<SockId>, more: set<SockId>, bad: set<SockId>, bad': set<SockId>)
    requires Owned(h) && Closes(h, h', None) && Closes(h', h'', None) && SameBad(h', bad, bad')
    requires Shuts(h, h', hit, bad) && Shuts(h', h'', next, bad')
    requires next <= more && forall j :: j in more ==> j in next || (j in h'.sockets && h'.sockets[j].defunct)
    ensures Shuts(h, h'', hit + more, bad)
  {
    forall i | i in h.sockets
      ensures h''.sockets[i].defunct <==> h.sockets[i].defunct || Falls(h, hit + more, bad, i)
    {
      if (exists j :: j in hit + more && Owns(h, j)) && Listening(h.sockets[i]) && i in bad {
        var j :| j in hit + more && Owns(h, j);
        FallsInTurn(h, h', h'', hit, next, more, bad, bad', i, j);
      }
      if h''.sockets[i].defunct && !h'.sockets[i].defunct && i !in next {
        var j :| j in next && Owns(h', j);
        assert Owns(h, j);
      }
    }
  }

  lemma FallsInTurn(
      h: Hub, h': Hub, h'': Hub, hit: set<SockId>, next: set<SockId>, more: set<SockId>, bad: set<SockId>, bad': set<SockId>,
      i: SockId, j: SockId)
    requires Owned(h) && Closes(h, h', None) && Closes(h', h'', None) && SameBad(h', bad, bad')
    requires Shuts(h, h', hit, bad) && Shuts(h', h'', next, bad')
    requires next <= more && forall x :: x in more ==> x in next || (x in h'.sockets && h'.sockets[x].defunct)
    requires i in h.sockets && Listening(h.sockets[i]) && i in bad && j in hit + more && Owns(h, j)
    ensures h''.sockets[i].defunct
  {
    var c :| c in h.presence && h.presence[c].ws == j;
    assert OwnedBy(h, c);
    if h'.sockets[j].defunct {
      assert Falls(h, hit, bad, j);
      assert Falls(h, hit, bad, i);
    } else {
      assert c in h'.presence && Owns(h', j);
      assert j in hit ==> Falls(h, hit, bad, j);
      assert !h'.sockets[i].defunct ==> Falls(h', next, bad', i);
    }
  }

  lemma NothingShuts(h: Hub, h': Hub, bad: set<SockId>)
    requires h'.sockets == h.sockets
    ensures Shuts(h, h', {}, bad)
  {
  }

  lemma ClosesTrans(a: Hub, b: Hub, c: Hub, ws: Option<SockId>)
    requires Formed(a) && Closes(a, b, None) && Closes(b, c, ws)
    ensures Closes(a, c, ws)
  {
  }

  lemma HeardTrans(a: Hub, b: Hub, c: Hub, extra: Option<Out>, first: set<SockId>, more: set<SockId>)
    requires Formed(a) && Closes(a, b, None) && Closes(b, c, None)
    requires Heard(a, b, extra, first, None) && Heard(b, c, extra, more, None) && first !! more
    ensures Heard(a, c, extra, first + more, None)
  {
    forall i, u | i in a.sockets && i in c.sockets && !c.sockets[i].defunct
      ensures HeardAt(a, c, extra, first + more, i, u)
    {
      assert HeardAt(a, b, extra, first, i, u);
      assert HeardAt(b, c, extra, more, i, u);
    }
  }

  lemma QuietTrans(a: Hub, b: Hub, c: Hub)
    requires Formed(a) && Closes(a, b, None) && Closes(b, c, None)
    requires Heard(a, b, None, {}, None) && Heard(b, c, None, {}, None)
    ensures Closes(a, c, None) && Heard(a, c, None, {}, None)
  {
    HeardTrans(a, b, c, None, {}, {});
    ClosesTrans(a, b, c, None);
    assert {} + {} == (var none: set<SockId> := {}; none);
  }

  lemma CountAppend(told: seq<Out>, x: Out, u: Out)
    ensures Count(told + [x], u) == Count(told, u) + OneIf(x == u)
  {
  }

  class SocketHub {
    const declaresPresence: bool
    /** A presence state as peers are shown it, unless the schema or the size limit refuses it. */
    const parse: Json -> Option<Json>
    /** The accepted sockets in the runtime's order. */
    var order: seq<SockId>
    var sockets: map<SockId, Attachment>
    var presence: map<ClientId, Entry>
    var told: map<SockId, seq<Out>>
    /** Sockets this object has closed; sending on one throws. */
    var closed: set<SockId>

    ghost function H(): Hub
      reads this
    {
      Hub(sockets, presence, told)
    }

    ghost function Open(): set<SockId>
      reads this
    {
      set i | i in sockets && !sockets[i].defunct
    }

    ghost predicate Listed()
      reads this
    {
      Distinct(order) && (forall i :: i in order <==> i in sockets) && (declaresPresence || presence == map[])
    }

    method ReadySockets() returns (ready: seq<SockId>)
      requires Listed()
      ensures Distinct(ready) && forall i :: i in ready <==> i in sockets && Listening(sockets[i])
    {
      ready := [];
      for n := 0 to |order|
        invariant Distinct(ready) && forall i :: i in ready <==> i in order[..n] && i in sockets && Listening(sockets[i])
      {
        assert order[..n + 1] == order[..n] + [order[n]];
        assert order[n] !in order[..n];
        if Listening(sockets[order[n]]) { ready := ready + [order[n]]; }
      }
      assert order[..|order|] == order;
    }

    method Send(f: Faults, ws: SockId, frame: Out) returns (ok: bool)
      requires ws in told
      modifies this`told
      ensures told == if ok then old(told)[ws := old(told)[ws] + [frame]] else old(told)
      ensures ok <==> ws !in f.broken && ws !in closed
    {
      ok := ws !in f.broken && ws !in closed;
      if ok { told := told[ws := told[ws] + [frame]]; }
    }

    method Deliver(f: Faults, ws: SockId, frame: Out)
      requires Listed() && Owned(H()) && ws in sockets
      modifies this
      ensures order == old(order) && Listed() && Owned(H()) && Shut(old(closed), closed, sockets)
      ensures Closes(old(H()), H(), None) && Heard(old(H()), H(), Some(frame), {ws}, None)
      ensures Shuts(old(H()), H(), Hit(old(H()), {ws}, Failing(f, old(closed))), Failing(f, old(closed)))
      ensures ws in closed ==> sockets[ws].defunct
      ensures ws in Failing(f, old(closed)) && !old(sockets[ws].defunct) ==> ws in closed
      ensures ws !in Failing(f, old(closed)) && !old(sockets[ws].defunct) ==>
                H() == old(H()).(told := old(told)[ws := old(told)[ws] + [frame]]) && closed == old(closed)
      decreases Open(), 0
    {
      hide Shuts, Heard, Closes;
      ghost var h, bad := H(), Failing(f, closed);
      if sockets[ws].defunct {
        Skipped(h, ws, frame, bad);
        return;
      }
      var ok := false;
      if ws !in f.expired { ok := Send(f, ws, frame); }
      if ok {
        TookOne(h, H(), ws, frame);
        NothingShuts(h, H(), bad);
        assert Hit(h, {ws}, bad) == {};
      } else {
        CloseSocket(f, ws);
        DeafToOne(h, H(), frame, ws);
        assert Hit(h, {ws}, bad) == {ws};
      }
    }

    /** Marks the socket before anything else, so frames already in flight from it are dropped. */
    method CloseSocket(f: Faults, ws: SockId)
      requires Listed() && Owned(H()) && ws in sockets
      modifies this
      ensures order == old(order) && Listed() && Owned(H()) && Shut(old(closed), closed, sockets)
      ensures sockets[ws].defunct && ws in closed
      ensures Closes(old(H()), H(), None) && Heard(old(H()), H(), None, {}, None)
      ensures Shuts(old(H()), H(), {ws}, Failing(f, old(closed)))
      decreases Open() - {ws}, 4
    {
      hide Shuts, DropShuts, Heard, Closes, OwnedBut, Owned, Failing, Shut, Distinct;
      ghost var h, bad := H(), Failing(f, closed);
      OwnedIsFormed(h);
      sockets := sockets[ws := sockets[ws].(defunct := true)];
      ghost var marked := H();
      Marked(h, ws);
      DropPresence(f, ws);
      MarkedThenDropped(h, marked, H(), ws);
      ClosesKeeps(h, H());
      MarkedShuts(h, marked, H(), ws, bad);
      ShutOne(old(closed), closed, sockets, ws);
      closed := closed + {ws};
    }

    method EntryOf(ws: SockId) returns (c: Option<ClientId>)
      ensures c.Some? ==> c.value in presence && presence[c.value].ws == ws
      ensures c.None? ==> forall d :: d in presence ==> presence[d].ws != ws
    {
      var todo := presence.Keys;
      while todo != {}
        invariant todo <= presence.Keys
        invariant forall d :: d in presence && presence[d].ws == ws ==> d in todo
      {
        var d :| d in todo;
        if presence[d].ws == ws { return Some(d); }
        todo := todo - {d};
      }
      c := None;
    }

    /** Only an entry this very socket owns goes: one that a newer socket of its client owns is kept. */
    method DropPresence(f: Faults, ws: SockId)
      requires Listed() && OwnedBut(H(), ws) && ws in sockets
      modifies this
      ensures order == old(order) && Listed() && Owned(H()) && Shut(old(closed), closed, sockets)
      ensures Closes(old(H()), H(), Some(ws)) && Heard(old(H()), H(), None, {}, Some(ws))
      ensures DropShuts(old(H()), H(), ws, Failing(f, old(closed)))
      decreases Open(), 3
    {
      hide Shuts, Heard;
      ghost var h, bad := H(), Failing(f, closed);
      if !declaresPresence {
        NothingDrops(h, ws, bad);
        return;
      }
      var c := EntryOf(ws);
      if c.None? {
        NothingDrops(h, ws, bad);
        return;
      }
      presence := presence - {c.value};
      ghost var without := H();
      RelayPresence(f, Some(ws), c.value, None);
      DroppedThenRelayed(h, without, H(), ws, c.value);
      DroppedShuts(h, without, H(), ws, c.value, bad);
    }

    method RelayPresence(f: Faults, from: Option<SockId>, c: ClientId, state: Option<Json>)
      requires Listed() && Owned(H())
      modifies this
      ensures order == old(order) && Listed() && Owned(H()) && Shut(old(closed), closed, sockets)
      ensures Closes(old(H()), H(), None)
      ensures Heard(old(H()), H(), Some(Peer(c, state)), Audience(old(sockets), from), None)
      ensures Shuts(old(H()), H(), Hit(old(H()), Audience(old(sockets), from), Failing(f, old(closed))), Failing(f, old(closed)))
      decreases Open(), 2
    {
      Broadcast(f, from, Peer(c, state));
    }

    /** One frame to every ready socket but one; those that fail are closed on the way, and no others. */
    method Broadcast(f: Faults, except: Option<SockId>, frame: Out)
      requires Listed() && Owned(H())
      modifies this
      ensures order == old(order) && Listed() && Owned(H()) && Shut(old(closed), closed, sockets)
      ensures Closes(old(H()), H(), None)
      ensures Heard(old(H()), H(), Some(frame), Audience(old(sockets), except), None)
      ensures Shuts(old(H()), H(), Hit(old(H()), Audience(old(sockets), except), Failing(f, old(closed))), Failing(f, old(closed)))
      decreases Open(), 1
    {
      hide Shuts, Heard, Hit;
      ghost var h, bad := H(), Failing(f, closed);
      var ready := ReadySockets();
      BroadcastStarts(h, ready, except, bad);
      for n := 0 to |ready|
        invariant order == old(order) && Listed() && Owned(H()) && Shut(old(closed), closed, sockets)
        invariant Closes(h, H(), None) && Heard(h, H(), Some(frame), Served(ready[..n], except), None)
        invariant Shuts(h, H(), Hit(h, Served(ready[..n], except), bad), bad)
      {
        ghost var h', bad' := H(), Failing(f, closed);
        assert ready[n] in ready;
        if Some(ready[n]) == except {
          ServedMore(ready, n, except);
        } else {
          assert Open() <= old(Open());
          StillBad(f, old(closed), closed, h');
          Deliver(f, ready[n], frame);
          RelayedOne(h, h', H(), frame, ready, n, except);
          RelayedShuts(h, h', H(), ready, n, except, bad, bad');
        }
      }
      assert ready[..|ready|] == ready;
      assert Served(ready, except) == Audience(old(sockets), except);
    }

    // ----- what the runtime calls -----

    ghost predicate Valid()
      reads this
    {
      Listed() && Owned(H()) && OneEach(sockets)
    }

    /** Every socket this object has closed is marked, so whatever still arrives on it is dropped. */
    ghost predicate Sealed()
      reads this
    {
      forall i :: i in closed && i in sockets ==> sockets[i].defunct
    }

    constructor (declaresPresence: bool, parse: Json -> Option<Json>)
      ensures Valid() && Sealed() && sockets == map[] && presence == map[]
    {
      this.declaresPresence, this.parse := declaresPresence, parse;
      order, sockets, presence, told, closed := [], map[], map[], map[], {};
    }

    /** A client's newest socket wins: every earlier one is closed before the new one is accepted. */
    method Upgrade(f: Faults, client: ClientId, ws: SockId)
      requires Valid() && ws !in sockets && ws !in closed
      modifies this
      ensures Valid() && ws in sockets && sockets[ws] == Attachment(client, false, false)
      ensures forall i :: i in sockets && i != ws && sockets[i].clientId == client ==> sockets[i].defunct
      ensures client !in presence && (old(Sealed()) ==> Sealed())
      ensures var rest := H().(sockets := sockets - {ws}, told := told - {ws});
              && Closes(old(H()), rest, None) && Heard(old(H()), rest, None, {}, None)
              && Shuts(old(H()), rest, SocketsOf(old(sockets), old(order), client), Failing(f, old(closed)))
    {
      hide Shuts, Heard, SocketsOf, Failing;
      SupersedeAll(f, client);
      ghost var h := H();
      order := order + [ws];
      sockets := sockets[ws := Attachment(client, false, false)];
      told := told[ws := []];
      Accepted(h, H(), client, ws);
    }

    method SupersedeAll(f: Faults, client: ClientId)
      requires Valid()
      modifies this
      ensures Valid() && order == old(order) && Shut(old(closed), closed, sockets)
      ensures Closes(old(H()), H(), None) && Heard(old(H()), H(), None, {}, None)
      ensures forall i :: i in sockets && sockets[i].clientId == client ==> sockets[i].defunct
      ensures Shuts(old(H()), H(), SocketsOf(old(sockets), order, client), Failing(f, old(closed)))
    {
      hide Shuts, Heard, Failing, SameBad, SocketsOf, Closes, Owned, Shut;
      ghost var h, bad := H(), Failing(f, closed);
      ClosesNothing(h);
      QuietStart(h, order, client, bad);
      ShutNone(closed, sockets);
      for n := 0 to |order|
        invariant order == old(order) && Listed() && Owned(H()) && Shut(old(closed), closed, sockets)
        invariant Formed(H()) && Closes(h, H(), None) && Heard(h, H(), None, {}, None)
        invariant Superseded(sockets, order[..n], client)
        invariant Shuts(h, H(), SocketsOf(h.sockets, order[..n], client), bad)
      {
        ghost var h', bad', was := H(), Failing(f, closed), closed;
        assert order[n] in order;
        ClosesKeeps(h, h');
        StillBad(f, old(closed), closed, h');
        SupersedeOne(f, client, order[n]);
        ClosesKeeps(h', H());
        QuietTrans(h, h', H());
        ShutTrans(h', H(), old(closed), was, closed);
        SupersededMore(h'.sockets, sockets, order, n, client);
        SupersededShuts(h, h', H(), order, n, client, bad, bad');
      }
      assert order[..|order|] == order;
      ClosesKeeps(h, H());
      OneEachAges(h, H());
    }

    method SupersedeOne(f: Faults, client: ClientId, ws: SockId)
      requires Listed() && Owned(H()) && ws in sockets
      modifies this
      ensures order == old(order) && Listed() && Owned(H()) && Formed(H()) && Shut(old(closed), closed, sockets)
      ensures Closes(old(H()), H(), None) && Heard(old(H()), H(), None, {}, None)
      ensures old(sockets[ws].clientId) == client ==> ws in sockets && sockets[ws].defunct
      ensures Shuts(old(H()), H(), if old(sockets[ws].clientId) == client then {ws} else {}, Failing(f, old(closed)))
    {
      hide Shuts, Heard, Failing, Closes, Owned, Shut;
      ghost var h := H();
      ClosesNothing(h);
      if sockets[ws].clientId == client {
        CloseSocket(f, ws);
        ClosesKeeps(h, H());
      } else {
        NothingShuts(h, h, Failing(f, closed));
        QuietStart(h, order, client, Failing(f, closed));
        ShutNone(closed, sockets);
      }
    }

    /**
     * A hello that can be answered is: the poke, then, if presence is declared, what the others show; nothing
     * else changes. The reply may fail and close the socket; the attachment written back afterwards is the
     * one read before, without the mark, and only a second failed send puts it back.
     */
    method HandleHello(f: Faults, ws: SockId, poke: nat)
      requires Valid() && ws in sockets && !sockets[ws].defunct
      modifies this
      ensures Valid() && sockets.Keys == old(sockets.Keys) && sockets[ws].ready
      ensures old(Sealed()) ==> (Sealed() <==> declaresPresence || ws !in closed)
      ensures ws !in Failing(f, old(closed)) ==>
                && sockets == old(sockets)[ws := old(sockets[ws]).(ready := true)] && closed == old(closed)
                && presence == old(presence)
                && told == old(told)[ws := old(told)[ws] + [Other(poke)]
                                    + if declaresPresence then [Peers(Shown(old(presence), old(sockets)[ws].clientId))] else []]
      ensures ws in Failing(f, old(closed)) ==> DropShuts(old(H()), H(), ws, Failing(f, old(closed)))
    {
      hide DropShuts, Shuts, Shown, Closes, OneEach, Owned;
      ghost var h, bad := H(), Failing(f, closed);
      Reply(f, ws, poke);
      ghost var h' := H();
      if declaresPresence {
        ghost var again := Failing(f, closed);
        SendPeers(f, ws);
        if ws in bad { StillDropped(h, h', H(), ws, bad, again); }
      } else {
        OwnedIsFormed(H());
        assert told[ws] + [] == told[ws];
      }
    }

    method Reply(f: Faults, ws: SockId, poke: nat)
      requires Valid() && ws in sockets && !sockets[ws].defunct
      modifies this
      ensures Valid() && sockets.Keys == old(sockets.Keys)
      ensures sockets[ws] == old(sockets[ws]).(ready := true)
      ensures old(Sealed()) ==> forall i :: i in closed && i in sockets && i != ws ==> sockets[i].defunct
      ensures ws !in Failing(f, old(closed)) ==>
                && H() == old(H()).(sockets := old(sockets)[ws := old(sockets[ws]).(ready := true)],
                                    told := old(told)[ws := old(told)[ws] + [Other(poke)]])
                && closed == old(closed)
      ensures ws in Failing(f, old(closed)) ==>
                DropShuts(old(H()), H(), ws, Failing(f, old(closed))) && !Owns(H(), ws) && ws in closed
    {
      hide Shuts, DropShuts, Heard, Closes, Owned, OneEach, Failing;
      var attachment := sockets[ws];
      ghost var h, bad := H(), Failing(f, closed);
      OwnedIsFormed(h);
      Deliver(f, ws, Other(poke));
      ghost var h' := H();
      ClosesKeeps(h, h');
      sockets := sockets[ws := attachment.(ready := true)];
      Rewritten(h, h', H(), ws);
      if ws in bad { RewrittenDrops(h, h', H(), ws, bad); }
    }

    /** What a newcomer is shown of everyone else. */
    method SendPeers(f: Faults, ws: SockId)
      requires Valid() && ws in sockets
      modifies this
      ensures Valid() && sockets.Keys == old(sockets.Keys) && sockets[ws].ready == old(sockets[ws].ready)
      ensures Shut(old(closed), closed, sockets) && (ws in closed ==> sockets[ws].defunct)
      ensures forall i :: i in sockets && old(sockets[i].defunct) ==> sockets[i].defunct
      ensures Shuts(old(H()), H(), Hit(old(H()), {ws}, Failing(f, old(closed))), Failing(f, old(closed)))
      ensures ws !in Failing(f, old(closed)) && !old(sockets[ws].defunct) ==>
                && H() == old(H()).(told := old(told)[ws := old(told)[ws] + [Peers(Shown(old(presence), old(sockets)[ws].clientId))]])
                && closed == old(closed)
    {
      hide Shuts, Heard;
      ghost var h := H();
      var peers := map c | c in presence && c != sockets[ws].clientId :: presence[c].state;
      assert peers == Shown(presence, sockets[ws].clientId);
      Deliver(f, ws, Peers(peers));
      OneEachAges(h, H());
    }

    /** Nothing changes unless the state is accepted, and then exactly the sender's own entry does. */
    method HandlePresence(f: Faults, ws: SockId, state: Option<Json>) returns (accepted: bool)
      requires Valid() && ws in sockets && !sockets[ws].defunct
      modifies this
      ensures Valid() && sockets.Keys == old(sockets.Keys) && (old(Sealed()) ==> Sealed())
      ensures accepted <==> declaresPresence && old(sockets[ws].ready) && (state.Some? ==> parse(state.value).Some?)
      ensures !accepted ==> H() == old(H())
      ensures accepted ==>
                var c := old(sockets[ws].clientId);
                var shown := if state.None? then None else parse(state.value);
                if shown.None? && c !in old(presence) then H() == old(H())
                else
                  var (h, bad) := (Announced(old(H()), ws, shown), Failing(f, old(closed)));
                  && Formed(h) && Closes(h, H(), None)
                  && Heard(h, H(), Some(Peer(c, shown)), Audience(old(sockets), Some(ws)), None)
                  && Shuts(h, H(), Hit(h, Audience(old(sockets), Some(ws)), bad), bad)
      ensures accepted && ws !in Failing(f, old(closed)) ==>
                ShownBy(presence, old(sockets[ws].clientId)) == (if state.None? then None else Some(Entry(ws, parse(state.value).value)))
    {
      hide Shuts, Heard, Hit, Failing;
      if !declaresPresence || !sockets[ws].ready { return false; }
      var c, shown := sockets[ws].clientId, None;
      if state.Some? {
        shown := parse(state.value);
        if shown.None? { return false; }
      }
      accepted := true;
      ghost var h := H();
      if shown.None? {
        if c !in presence { return; }
        presence := presence - {c};
      } else {
        presence := presence[c := Entry(ws, shown.value)];
      }
      AnnouncedOwned(h, ws, shown);
      RelayPresence(f, Some(ws), c, shown);
      OneEachAges(Announced(h, ws, shown), H());
      if ws !in Failing(f, old(closed)) { OwnEntryStays(h, H(), ws, shown, Failing(f, old(closed))); }
    }

    /** An error frame, which nobody minds losing. */
    method SendError(f: Faults, ws: SockId, code: nat)
      requires Valid() && ws in sockets
      modifies this`told
      ensures Valid() && Closes(old(H()), H(), None)
    {
      var _ := Send(f, ws, Other(code));
    }

    /** The answer to a push: an error frame before a poke to everyone or to its sender alone. */
    method HandlePush(f: Faults, ws: SockId, error: Option<nat>, poke: Option<nat>, everyone: bool)
      requires Valid() && ws in sockets && !sockets[ws].defunct
      modifies this
      ensures Valid() && Shut(old(closed), closed, sockets) && (old(Sealed()) ==> Sealed())
      ensures Closes(old(H()), H(), None) && sockets.Keys == old(sockets.Keys)
      ensures !old(sockets[ws].ready) ==> sockets == old(sockets) && presence == old(presence)
      ensures old(sockets[ws].ready) && error.None? && poke.Some? ==>
                Heard(old(H()), H(), Some(Other(poke.value)), if everyone then Audience(old(sockets), None) else {ws}, None)
      ensures var bad := Failing(f, old(closed));
              Shuts(old(H()), H(), Hit(old(H()), Recipients(old(sockets), ws, Push(error, poke, everyone)), bad), bad)
    {
      hide Shuts, Heard, Hit, Closes, Owned, OneEach, Failing;
      ghost var h, bad := H(), Failing(f, closed);
      OwnedIsFormed(h);
      ClosesNothing(h);
      NobodyHit(h, bad);
      if !sockets[ws].ready {
        SendError(f, ws, 0);
        NothingShuts(h, H(), bad);
        return;
      }
      if error.Some? { SendError(f, ws, error.value); }
      ghost var h' := H();
      NothingShuts(h, h', bad);
      if poke.Some? {
        if everyone { Broadcast(f, None, Other(poke.value)); } else { Deliver(f, ws, Other(poke.value)); }
        ClosesTrans(h, h', H(), None);
        ShutsAlike(h, h', H(), Recipients(h.sockets, ws, Push(error, poke, everyone)), bad);
      }
      ClosesKeeps(h, H());
      OneEachAges(h, H());
    }

    /** A binary frame: the extension may answer its sender and relay to everyone else. */
    method HandleBinary(f: Faults, ws: SockId, reply: Option<nat>, relay: Option<nat>)
      requires Valid() && ws in sockets && !sockets[ws].defunct
      modifies this
      ensures Valid() && Shut(old(closed), closed, sockets) && (old(Sealed()) ==> Sealed())
      ensures Closes(old(H()), H(), None) && sockets.Keys == old(sockets.Keys)
      ensures !old(sockets[ws].ready) ==> H() == old(H())
      ensures old(sockets[ws].ready) && reply.None? && relay.Some? ==>
                Heard(old(H()), H(), Some(Other(relay.value)), Audience(old(sockets), Some(ws)), None)
      ensures var bad := Failing(f, old(closed));
              Shuts(old(H()), H(), Hit(old(H()), Recipients(old(sockets), ws, Binary(reply, relay)), bad), bad)
    {
      hide Shuts, Heard, Hit, Closes, Owned, OneEach, Failing, SameBad, Audience, Recipients;
      ghost var h, bad := H(), Failing(f, closed);
      ClosesNothing(h);
      NobodyHit(h, bad);
      NothingShuts(h, h, bad);
      BinaryRecipients(h.sockets, ws, reply, relay);
      if !sockets[ws].ready { return; }
      Answer(f, ws, reply);
      if relay.Some? {
        ghost var h', bad', was := H(), Failing(f, closed), closed;
        StillBad(f, old(closed), closed, h');
        Broadcast(f, Some(ws), Other(relay.value));
        ClosesTrans(h, h', H(), None);
        RelayedAfter(h, h', H(), ws, if reply.Some? then {ws} else {}, bad, bad');
        ShutTrans(h', H(), old(closed), was, closed);
      }
      ClosesKeeps(h, H());
      OneEachAges(h, H());
    }

    method Answer(f: Faults, ws: SockId, reply: Option<nat>)
      requires Valid() && ws in sockets && !sockets[ws].defunct
      modifies this
      ensures order == old(order) && Listed() && Owned(H()) && Formed(H()) && Shut(old(closed), closed, sockets)
      ensures Closes(old(H()), H(), None) && sockets.Keys == old(sockets.Keys)
      ensures reply.None? ==> H() == old(H()) && closed == old(closed)
      ensures var bad := Failing(f, old(closed));
              Shuts(old(H()), H(), Hit(old(H()), if reply.Some? then {ws} else {}, bad), bad)
    {
      hide Shuts, Heard, Hit, Closes, Owned, OneEach, Failing;
      ghost var h, bad := H(), Failing(f, closed);
      ClosesNothing(h);
      NobodyHit(h, bad);
      NothingShuts(h, h, bad);
      if reply.Some? { Deliver(f, ws, Other(reply.value)); }
      ClosesKeeps(h, H());
    }

    /** The gate before every handler: a socket that is marked changes nothing any more. */
    method WebSocketMessage(f: Faults, ws: SockId, m: Inbound)
      requires Valid() && ws in sockets
      modifies this
      ensures Valid() && sockets.Keys == old(sockets.Keys)
      ensures old(sockets[ws].defunct) ==> H() == old(H()) && closed == old(closed) && order == old(order)
      ensures !old(sockets[ws].defunct) && ws in f.expired ==>
                Shuts(old(H()), H(), {ws}, Failing(f, old(closed))) && ws in closed
      ensures !old(sockets[ws].defunct) && ws !in f.expired ==>
                && (m.Hello? ==> sockets[ws].ready)
                && (m.SetPresence? && old(sockets[ws].ready) && declaresPresence && ws !in Failing(f, old(closed))
                    && (m.state.Some? ==> parse(m.state.value).Some?) ==>
                      ShownBy(presence, old(sockets[ws].clientId)) == if m.state.None? then None else Some(Entry(ws, parse(m.state.value).value)))
                && (m.Push? || m.Binary? ==>
                      var bad := Failing(f, old(closed));
                      Shuts(old(H()), H(), Hit(old(H()), Recipients(old(sockets), ws, m), bad), bad))
    {
      hide Shuts, Heard, Hit, DropShuts, Closes, Owned, OneEach, Shown, Failing;
      if sockets[ws].defunct { return; }
      ghost var h := H();
      OwnedIsFormed(h);
      if ws in f.expired {
        CloseSocket(f, ws);
        ClosesKeeps(h, H());
        OneEachAges(h, H());
        return;
      }
      match m
      case Hello(poke) => HandleHello(f, ws, poke);
      case SetPresence(state) => var _ := HandlePresence(f, ws, state);
      case Push(error, answer, everyone) => HandlePush(f, ws, error, answer, everyone);
      case Binary(reply, relay) => HandleBinary(f, ws, reply, relay);
    }

    /** The runtime reports a close; the socket is gone, its own entry with it, no other client's. */
    method WebSocketClose(f: Faults, ws: SockId)
      requires Valid() && ws in sockets
      modifies this
      ensures Valid() && ws !in sockets && (old(Sealed()) ==> Sealed())
      ensures KeepsOthers(old(H()), H(), ws) && sockets.Keys == old(sockets.Keys) - {ws}
      ensures DropShuts(old(H()), H(), ws, Failing(f, old(closed)))
    {
      hide Heard;
      ghost var h := H();
      DropPresence(f, ws);
      ghost var h' := H();
      Departs(h, h', ws);
      Forget(ws);
    }

    method Forget(ws: SockId)
      requires Listed()
      modifies this`order, this`sockets, this`told
      ensures Listed() && H() == old(H()).(sockets := old(sockets) - {ws}, told := old(told) - {ws})
    {
      WithoutIsDistinct(order, ws);
      order, sockets, told := Without(order, ws), sockets - {ws}, told - {ws};
    }
  }

  /** What answering a push or a binary frame sends is decided elsewhere; here it only passes through. */
  datatype Inbound =
    | Hello(poke: nat)
    | SetPresence(state: Option<Json>)
    | Push(error: Option<nat>, answer: Option<nat>, everyone: bool)
    | Binary(reply: Option<nat>, relay: Option<nat>)

  /** Whom a push or a binary frame is answered or relayed to. */
  function Recipients(sockets: map<SockId, Attachment>, ws: SockId, m: Inbound): set<SockId>
    requires ws in sockets
  {
    match m
    case Push(_, answer, everyone) =>
      if !sockets[ws].ready || answer.None? then {} else if everyone then Audience(sockets, None) else {ws}
    case Binary(reply, relay) =>
      if !sockets[ws].ready then {}
      else (if reply.Some? then {ws} else {}) + if relay.Some? then Audience(sockets, Some(ws)) else {}
    case _ => {}
  }

  /** What everyone but one client shows. */
  function Shown(presence: map<ClientId, Entry>, but: ClientId): map<ClientId, Json> {
    map c | c in presence && c != but :: presence[c].state
  }

  function ShownBy(presence: map<ClientId, Entry>, c: ClientId): Option<Entry> {
    if c in presence then Some(presence[c]) else None
  }

  function SocketsOf(sockets: map<SockId, Attachment>, order: seq<SockId>, client: ClientId): set<SockId> {
    set i | i in order && i in sockets && sockets[i].clientId == client
  }

  function Announced(h: Hub, ws: SockId, shown: Option<Json>): Hub
    requires ws in h.sockets
  {
    var c := h.sockets[ws].clientId;
    h.(presence := if shown.None? then h.presence - {c} else h.presence[c := Entry(ws, shown.value)])
  }

  lemma AnnouncedOwned(h: Hub, ws: SockId, shown: Option<Json>)
    requires Owned(h) && ws in h.sockets && Listening(h.sockets[ws])
    ensures Owned(Announced(h, ws, shown))
  {
    var h' := Announced(h, ws, shown);
    forall c | c in h'.presence
      ensures OwnedBy(h', c)
    {
      if c != h.sockets[ws].clientId { assert OwnedBy(h, c); }
    }
  }

  ghost predicate Superseded(sockets: map<SockId, Attachment>, done: seq<SockId>, client: ClientId) {
    forall i :: i in done && i in sockets && sockets[i].clientId == client ==> sockets[i].defunct
  }

  lemma SupersededMore(a: map<SockId, Attachment>, b: map<SockId, Attachment>, order: seq<SockId>, n: nat, client: ClientId)
    requires n < |order| && Superseded(a, order[..n], client)
    requires a.Keys == b.Keys && forall i :: i in a ==> Ages(a[i], b[i])
    requires order[n] in b && b[order[n]].clientId == client ==> b[order[n]].defunct
    ensures Superseded(b, order[..n + 1], client)
  {
    assert order[..n + 1] == order[..n] + [order[n]];
    forall i | i in order[..n + 1] && i in b && b[i].clientId == client
      ensures b[i].defunct
    {
      assert Ages(a[i], b[i]);
    }
  }

  lemma OneEachAges(h: Hub, h': Hub)
    requires Formed(h) && OneEach(h.sockets) && Closes(h, h', None)
    ensures OneEach(h'.sockets)
  {
  }

  lemma Accepted(h: Hub, h': Hub, client: ClientId, ws: SockId)
    requires Owned(h) && OneEach(h.sockets) && ws !in h.sockets
    requires forall i :: i in h.sockets && h.sockets[i].clientId == client ==> h.sockets[i].defunct
    requires h' == h.(sockets := h.sockets[ws := Attachment(client, false, false)], told := h.told[ws := []])
    ensures Owned(h') && OneEach(h'.sockets) && client !in h'.presence
    ensures h'.(sockets := h'.sockets - {ws}, told := h'.told - {ws}) == h
  {
    forall c | c in h'.presence
      ensures OwnedBy(h', c) && c != client
    {
      assert OwnedBy(h, c);
    }
  }

  /** Writing the old attachment back reopens the socket but no other, and leaves every entry owned. */
  lemma Rewritten(h: Hub, h': Hub, h'': Hub, ws: SockId)
    requires Owned(h) && OneEach(h.sockets) && ws in h.sockets && !h.sockets[ws].defunct
    requires Owned(h') && Closes(h, h', None)
    requires h'' == h'.(sockets := h'.sockets[ws := h.sockets[ws].(ready := true)])
    ensures Owned(h'') && OneEach(h''.sockets)
  {
    forall c | c in h''.presence
      ensures OwnedBy(h'', c)
    {
      assert OwnedBy(h', c);
    }
  }

  /** The entries left are those there were of sockets still open, other than `ws`. */
  ghost predicate KeepsOthers(h: Hub, h': Hub, ws: SockId)
    requires Formed(h)
  {
    && (forall c :: c in h'.presence ==> c in h.presence && h'.presence[c] == h.presence[c])
    && forall c :: c in h.presence ==>
         var w := h.presence[c].ws;
         c in h'.presence <==> w != ws && w in h'.sockets && !h'.sockets[w].defunct
  }

  lemma Departs(h: Hub, h': Hub, ws: SockId)
    requires Formed(h) && OneEach(h.sockets) && Owned(h') && Closes(h, h', Some(ws))
    ensures var h'' := h'.(sockets := h'.sockets - {ws}, told := h'.told - {ws});
            Owned(h'') && OneEach(h''.sockets) && KeepsOthers(h, h'', ws)
  {
    var h'' := h'.(sockets := h'.sockets - {ws}, told := h'.told - {ws});
    forall c | c in h''.presence
      ensures OwnedBy(h'', c)
    {
      assert OwnedBy(h', c);
    }
  }

  /** Sockets closed since are marked. */
  predicate Shut(was: set<SockId>, closed: set<SockId>, sockets: map<SockId, Attachment>) {
    was <= closed && forall i :: i in closed && i !in was ==> i in sockets && sockets[i].defunct
  }

  function Audience(sockets: map<SockId, Attachment>, from: Option<SockId>): set<SockId> {
    set i | i in sockets && Listening(sockets[i]) && Some(i) != from
  }

  function Served(ready: seq<SockId>, from: Option<SockId>): set<SockId> {
    set i | i in ready && Some(i) != from
  }

  lemma ServedMore(ready: seq<SockId>, n: nat, from: Option<SockId>)
    requires n < |ready| && Distinct(ready)
    ensures ready[n] !in Served(ready[..n], from)
    ensures Served(ready[..n + 1], from) ==
            if Some(ready[n]) == from then Served(ready[..n], from) else Served(ready[..n], from) + {ready[n]}
  {
    assert ready[..n + 1] == ready[..n] + [ready[n]];
  }

  lemma RelayedOne(h: Hub, h': Hub, h'': Hub, u: Out, ready: seq<SockId>, n: nat, from: Option<SockId>)
    requires Formed(h) && n < |ready| && Distinct(ready) && Some(ready[n]) != from
    requires Closes(h, h', None) && Heard(h, h', Some(u), Served(ready[..n], from), None)
    requires Closes(h', h'', None) && Heard(h', h'', Some(u), {ready[n]}, None)
    ensures Closes(h, h'', None) && Heard(h, h'', Some(u), Served(ready[..n + 1], from), None)
  {
    ServedMore(ready, n, from);
    HeardTrans(h, h', h'', Some(u), Served(ready[..n], from), {ready[n]});
    ClosesTrans(h, h', h'', None);
  }

  lemma DeafToOne(h: Hub, h': Hub, frame: Out, ws: SockId)
    requires Formed(h) && Formed(h') && ws in h'.sockets && h'.sockets[ws].defunct
    requires Heard(h, h', None, {}, None)
    ensures Heard(h, h', Some(frame), {ws}, None)
  {
    forall i, u | i in h.sockets && i in h'.sockets && !h'.sockets[i].defunct
      ensures HeardAt(h, h', Some(frame), {ws}, i, u)
    {
      assert HeardAt(h, h', None, {}, i, u);
    }
  }

  lemma Marked(h: Hub, ws: SockId)
    requires Owned(h) && ws in h.sockets
    ensures OwnedBut(h.(sockets := h.sockets[ws := h.sockets[ws].(defunct := true)]), ws)
  {
    var h' := h.(sockets := h.sockets[ws := h.sockets[ws].(defunct := true)]);
    forall c | c in h'.presence
      ensures OwnedBy(h', c) || h'.presence[c].ws == ws
    {
      assert OwnedBy(h, c);
    }
  }

  lemma MarkedThenDropped(h: Hub, marked: Hub, h': Hub, ws: SockId)
    requires Owned(h) && ws in h.sockets
    requires marked == h.(sockets := h.sockets[ws := h.sockets[ws].(defunct := true)])
    requires Formed(marked) && Closes(marked, h', Some(ws)) && Heard(marked, h', None, {}, Some(ws))
    ensures h'.sockets[ws].defunct && Closes(h, h', None) && Heard(h, h', None, {}, None)
  {
    forall i, u | i in h.sockets && i in h'.sockets && !h'.sockets[i].defunct
      ensures HeardAt(h, h', None, {}, i, u)
    {
      assert HeardAt(marked, h', None, {}, i, u);
    }
  }

  lemma DroppedThenRelayed(h: Hub, without: Hub, h': Hub, ws: SockId, c: ClientId)
    requires OwnedBut(h, ws) && c in h.presence && h.presence[c].ws == ws
    requires without == h.(presence := h.presence - {c})
    requires Formed(without) && Closes(without, h', None)
    requires Heard(without, h', Some(Peer(c, None)), Audience(h.sockets, Some(ws)), None)
    ensures Closes(h, h', Some(ws)) && Heard(h, h', None, {}, Some(ws))
  {
    forall i, u | i in h.sockets && i in h'.sockets && !h'.sockets[i].defunct && i != ws
      ensures HeardAt(h, h', None, {}, i, u)
    {
      assert HeardAt(without, h', Some(Peer(c, None)), Audience(h.sockets, Some(ws)), i, u);
    }
  }

  lemma TookOne(h: Hub, h': Hub, ws: SockId, frame: Out)
    requires Owned(h) && ws in h.sockets && h' == h.(told := h.told[ws := h.told[ws] + [frame]])
    ensures Owned(h') && Closes(h, h', None) && Heard(h, h', Some(frame), {ws}, None)
  {
    forall i, u | i in h.sockets && !h'.sockets[i].defunct
      ensures HeardAt(h, h', Some(frame), {ws}, i, u)
    {
      CountAppend(h.told[ws], frame, u);
    }
  }

  // ----- which sockets close, step by step -----

  lemma Skipped(h: Hub, ws: SockId, frame: Out, bad: set<SockId>)
    requires Owned(h) && ws in h.sockets && h.sockets[ws].defunct
    ensures Closes(h, h, None) && Heard(h, h, Some(frame), {ws}, None) && Shuts(h, h, Hit(h, {ws}, bad), bad)
  {
    assert Hit(h, {ws}, bad) == {};
  }

  lemma OwnedIsFormed(h: Hub)
    requires Owned(h)
    ensures Formed(h)
  {
  }

  lemma ShutNone(closed: set<SockId>, sockets: map<SockId, Attachment>)
    ensures Shut(closed, closed, sockets)
  {
  }

  lemma ShutOne(was: set<SockId>, closed: set<SockId>, sockets: map<SockId, Attachment>, ws: SockId)
    requires Shut(was, closed, sockets) && ws in sockets && sockets[ws].defunct
    ensures Shut(was, closed + {ws}, sockets)
  {
  }

  lemma ShutTrans(h: Hub, h': Hub, a: set<SockId>, b: set<SockId>, c: set<SockId>)
    requires Formed(h) && Closes(h, h', None) && Shut(a, b, h.sockets) && Shut(b, c, h'.sockets)
    ensures Shut(a, c, h'.sockets)
  {
  }

  lemma ClosesNothing(h: Hub)
    requires Owned(h)
    ensures Formed(h) && Closes(h, h, None)
  {
  }

  lemma ClosesKeeps(h: Hub, h': Hub)
    requires Formed(h) && Closes(h, h', None)
    ensures h'.sockets.Keys == h.sockets.Keys && Formed(h')
    ensures forall i :: i in h.sockets ==>
              h'.sockets[i] == h.sockets[i].(defunct := h'.sockets[i].defunct) && (h.sockets[i].defunct ==> h'.sockets[i].defunct)
  {
  }

  lemma NothingDrops(h: Hub, ws: SockId, bad: set<SockId>)
    requires OwnedBut(h, ws) && !Owns(h, ws)
    ensures Closes(h, h, Some(ws)) && Heard(h, h, None, {}, Some(ws)) && DropShuts(h, h, ws, bad)
  {
  }

  lemma MarkedShuts(h: Hub, marked: Hub, h': Hub, ws: SockId, bad: set<SockId>)
    requires Owned(h) && ws in h.sockets && h'.sockets.Keys == h.sockets.Keys && h'.sockets[ws].defunct
    requires marked == h.(sockets := h.sockets[ws := h.sockets[ws].(defunct := true)])
    requires DropShuts(marked, h', ws, bad)
    ensures Shuts(h, h', {ws}, bad)
  {
    assert Owns(marked, ws) <==> Owns(h, ws);
    forall i | i in h.sockets && i != ws
      ensures h'.sockets[i].defunct <==> h.sockets[i].defunct || Falls(h, {ws}, bad, i)
    {
      assert marked.sockets[i] == h.sockets[i];
    }
  }

  lemma DroppedShuts(h: Hub, without: Hub, h': Hub, ws: SockId, c: ClientId, bad: set<SockId>)
    requires c in h.presence && h.presence[c].ws == ws && without == h.(presence := h.presence - {c})
    requires Shuts(without, h', Hit(without, Audience(h.sockets, Some(ws)), bad), bad)
    ensures DropShuts(h, h', ws, bad)
  {
    assert Owns(h, ws);
  }

  lemma BroadcastStarts(h: Hub, ready: seq<SockId>, except: Option<SockId>, bad: set<SockId>)
    requires Formed(h)
    ensures Closes(h, h, None) ==> Shuts(h, h, Hit(h, Served(ready[..0], except), bad), bad)
    ensures forall u :: Heard(h, h, u, Served(ready[..0], except), None)
  {
    assert Served(ready[..0], except) == {} && Hit(h, {}, bad) == {};
  }

  lemma RelayedShuts(h: Hub, h': Hub, h'': Hub, ready: seq<SockId>, n: nat, except: Option<SockId>, bad: set<SockId>, bad': set<SockId>)
    requires Owned(h) && n < |ready| && Distinct(ready) && Some(ready[n]) != except
    requires Closes(h, h', None) && Closes(h', h'', None) && SameBad(h', bad, bad')
    requires Shuts(h, h', Hit(h, Served(ready[..n], except), bad), bad) && Shuts(h', h'', Hit(h', {ready[n]}, bad'), bad')
    ensures Shuts(h, h'', Hit(h, Served(ready[..n + 1], except), bad), bad)
  {
    var (hit, next, more) := (Hit(h, Served(ready[..n], except), bad), Hit(h', {ready[n]}, bad'), Hit(h, {ready[n]}, bad));
    ServedMore(ready, n, except);
    ShutsThen(h, h', h'', hit, next, more, bad, bad');
    assert Hit(h, Served(ready[..n + 1], except), bad) == hit + more;
  }

  lemma OwnEntryStays(h: Hub, h': Hub, ws: SockId, shown: Option<Json>, bad: set<SockId>)
    requires ws in h.sockets && Formed(Announced(h, ws, shown)) && Listening(h.sockets[ws]) && ws !in bad
    requires Closes(Announced(h, ws, shown), h', None)
    requires Shuts(Announced(h, ws, shown), h', Hit(Announced(h, ws, shown), Audience(h.sockets, Some(ws)), bad), bad)
    ensures ShownBy(h'.presence, h.sockets[ws].clientId) == if shown.None? then None else Some(Entry(ws, shown.value))
  {
    assert !h'.sockets[ws].defunct;
  }

  lemma QuietStart(h: Hub, order: seq<SockId>, client: ClientId, bad: set<SockId>)
    requires Formed(h)
    ensures Heard(h, h, None, {}, None) && Shuts(h, h, SocketsOf(h.sockets, order[..0], client), bad)
  {
    assert SocketsOf(h.sockets, order[..0], client) == {};
  }

  lemma SupersededShuts(
      h: Hub, h': Hub, h'': Hub, order: seq<SockId>, n: nat, client: ClientId, bad: set<SockId>, bad': set<SockId>)
    requires Owned(h) && n < |order| && order[n] in h.sockets
    requires Closes(h, h', None) && Closes(h', h'', None) && SameBad(h', bad, bad')
    requires Shuts(h, h', SocketsOf(h.sockets, order[..n], client), bad)
    requires Shuts(h', h'', if h.sockets[order[n]].clientId == client then {order[n]} else {}, bad')
    ensures Shuts(h, h'', SocketsOf(h.sockets, order[..n + 1], client), bad)
  {
    var one := if h.sockets[order[n]].clientId == client then {order[n]} else {};
    assert order[..n + 1] == order[..n] + [order[n]];
    assert SocketsOf(h.sockets, order[..n + 1], client) == SocketsOf(h.sockets, order[..n], client) + one;
    ShutsThen(h, h', h'', SocketsOf(h.sockets, order[..n], client), one, one, bad, bad');
  }

  lemma RewrittenDrops(h: Hub, h': Hub, h'': Hub, ws: SockId, bad: set<SockId>)
    requires Owned(h) && ws in h.sockets && !h.sockets[ws].defunct && ws in bad && Closes(h, h', None)
    requires Shuts(h, h', Hit(h, {ws}, bad), bad)
    requires h'' == h'.(sockets := h'.sockets[ws := h.sockets[ws].(ready := true)])
    ensures DropShuts(h, h'', ws, bad) && !Owns(h'', ws)
  {
    assert Hit(h, {ws}, bad) == {ws};
    assert h'.sockets[ws].defunct by { assert Falls(h, {ws}, bad, ws); }
    forall i | i in h.sockets && i != ws
      ensures h''.sockets[i].defunct <==> h.sockets[i].defunct || (Owns(h, ws) && Listening(h.sockets[i]) && i in bad)
    {
      assert h''.sockets[i] == h'.sockets[i];
    }
  }

  /** A second failed send to a socket that no longer has an entry closes no one else. */
  lemma StillDropped(h: Hub, h': Hub, h'': Hub, ws: SockId, bad: set<SockId>, again: set<SockId>)
    requires DropShuts(h, h', ws, bad) && !Owns(h', ws) && h'.sockets.Keys == h.sockets.Keys == h''.sockets.Keys
    requires Shuts(h', h'', Hit(h', {ws}, again), again)
    ensures DropShuts(h, h'', ws, bad)
  {
    forall i | i in h.sockets && i != ws
      ensures h''.sockets[i].defunct <==> h'.sockets[i].defunct
    {
      assert i !in Hit(h', {ws}, again);
    }
  }

  lemma NobodyHit(h: Hub, bad: set<SockId>)
    ensures Hit(h, {}, bad) == {}
  {
  }

  lemma BinaryRecipients(sockets: map<SockId, Attachment>, ws: SockId, reply: Option<nat>, relay: Option<nat>)
    requires ws in sockets
    ensures Recipients(sockets, ws, Binary(reply, relay)) ==
            if !sockets[ws].ready then {}
            else if relay.None? then (if reply.Some? then {ws} else {})
            else (if reply.Some? then {ws} else {}) + Audience(sockets, Some(ws))
  {
  }

  /** Only what was told differs before. */
  lemma ShutsAlike(h: Hub, h': Hub, h'': Hub, to: set<SockId>, bad: set<SockId>)
    requires h'.sockets == h.sockets && h'.presence == h.presence && Shuts(h', h'', Hit(h', to, bad), bad)
    ensures Shuts(h, h'', Hit(h, to, bad), bad)
  {
    assert Hit(h', to, bad) == Hit(h, to, bad);
  }

  lemma RelayedAfter(h: Hub, h': Hub, h'': Hub, ws: SockId, first: set<SockId>, bad: set<SockId>, bad': set<SockId>)
    requires Owned(h) && Closes(h, h', None) && Closes(h', h'', None) && SameBad(h', bad, bad')
    requires Shuts(h, h', Hit(h, first, bad), bad)
    requires Shuts(h', h'', Hit(h', Audience(h'.sockets, Some(ws)), bad'), bad')
    ensures Shuts(h, h'', Hit(h, first + Audience(h.sockets, Some(ws)), bad), bad)
  {
    var (next, more) := (Hit(h', Audience(h'.sockets, Some(ws)), bad'), Hit(h, Audience(h.sockets, Some(ws)), bad));
    ShutsThen(h, h', h'', Hit(h, first, bad), next, more, bad, bad');
    assert Hit(h, first + Audience(h.sockets, Some(ws)), bad) == Hit(h, first, bad) + more;
  }
}
