/**
 * The client half of Yjs fields (packages/yjs/src/client.ts), and any number of clients syncing one field
 * with the server of FieldLog over sockets that may drop at any point. A client sends what it typed while it
 * may write, and after every reconnect asks for what it lacks and pushes back what the server lacks.
 */
module FieldSync {
  import opened Rows
  import opened FieldLog

  datatype Blocked = Told(reason: Reason) | LocalTooLarge

  /** One held field. Once `rejected`, no later STATE makes it writable again. */
  datatype Entry = Entry(doc: Doc, canWrite: bool, rejected: bool, blocked: Option<Blocked>, synced: bool)

  const NEW_ENTRY := Entry({}, false, false, None, false)

  /** A client asks with its state vector, which stands for what it has. */
  datatype Up = Get(known: Doc) | Change(u: Update)

  datatype Down = StateOf(writable: bool, stateVector: Doc, diff: Doc) | Relayed(u: Update) | Reject(reason: Reason)

  /** A doc encodes what another lacks, and may add what it has (deletions are always sent). */
  ghost predicate IsDiff(diff: Doc, doc: Doc, known: Doc) {
    diff <= doc <= diff + known
  }

  function SentUpdate(e: Entry, u: Update): (Entry, seq<Up>) {
    if u.size > MAX_FIELD_UPDATE_BYTES then
      (e.(rejected := true, blocked := Some(LocalTooLarge), canWrite := false), [])
    else (e, [Change(u)])
  }

  /** `live` is whether the connection is synced; `pushBack` what the doc encodes against the state vector. */
  datatype Input =
    | Synced
    | Edited(u: Update, live: bool)
    | Framed(frame: Down, pushBack: Update)

  function Stated(e: Entry, writable: bool, diff: Doc): Entry {
    Entry(e.doc + diff, writable && !e.rejected, e.rejected,
          if e.rejected then e.blocked else if writable then None else Some(Told(NotWritable)), true)
  }

  function Heard(e: Entry, i: Input): (Entry, seq<Up>) {
    match i
    case Synced => (e, [Get(e.doc)])
    case Edited(u, live) =>
      var e' := e.(doc := e.doc + Content(u));
      if e.canWrite && live then SentUpdate(e', u) else (e', [])
    case Framed(StateOf(writable, _, diff), pushBack) =>
      var e' := Stated(e, writable, diff);
      if e'.canWrite && Content(pushBack) != {} then SentUpdate(e', pushBack) else (e', [])
    case Framed(Relayed(u), _) => (e.(doc := e.doc + Content(u)), [])
    case Framed(Reject(reason), _) => (e.(rejected := true, blocked := Some(Told(reason)), canWrite := false), [])
  }

  // ----- one client, whatever arrives -----

  function HeardAll(e: Entry, ins: seq<Input>): Entry {
    if ins == [] then e else Heard(HeardAll(e, ins[..|ins| - 1]), ins[|ins| - 1]).0
  }

  function SentAll(e: Entry, ins: seq<Input>): seq<Up> {
    if ins == [] then []
    else SentAll(e, ins[..|ins| - 1]) + Heard(HeardAll(e, ins[..|ins| - 1]), ins[|ins| - 1]).1
  }

  /**
   * An edit always stays in the doc. It is sent exactly if the field is writable, the connection live and the
   * update within the limit; beyond the limit the field is read-only from then on.
   */
  lemma EditSentIff(e: Entry, u: Update, live: bool)
    ensures var (e', sent) := Heard(e, Edited(u, live));
            && e'.doc == e.doc + Content(u)
            && sent == (if e.canWrite && live && u.size <= 200_000 then [Change(u)] else [])
            && (e'.canWrite <==> e.canWrite && (live ==> u.size <= 200_000))
            && (e'.rejected <==> e.rejected || (e.canWrite && live && u.size > 200_000))
  {
  }

  /** A STATE is taken in whole; the field is writable from it on exactly if it says so and nothing was refused before. */
  lemma StateTakenIff(e: Entry, writable: bool, log: Doc, diff: Doc, pushBack: Update)
    requires Content(pushBack) == {} || pushBack.size <= 200_000
    ensures var (e', sent) := Heard(e, Framed(StateOf(writable, log, diff), pushBack));
            && e'.doc == e.doc + diff && e'.synced && (e'.canWrite <==> writable && !e.rejected) && e'.rejected == e.rejected
            && sent == (if writable && !e.rejected && Content(pushBack) != {} then [Change(pushBack)] else [])
            && e'.blocked == (if e.rejected then e.blocked else if writable then None else Some(Told(NotWritable)))
  {
  }

  /** A reason is shown exactly while a synced field is not writable. */
  ghost predicate EntryOk(e: Entry) {
    && (e.rejected ==> !e.canWrite && e.blocked.Some?)
    && (e.canWrite ==> e.synced)
    && (e.synced ==> (e.canWrite <==> e.blocked.None?))
  }

  lemma {:induction false} EntryKeeps(ins: seq<Input>)
    ensures EntryOk(HeardAll(NEW_ENTRY, ins))
  {
    if ins != [] { EntryKeeps(ins[..|ins| - 1]); }
  }

  /** Refused by the server or by its own size guard, a field never sends an update again, nor becomes writable. */
  lemma {:induction false} RefusalCollapses(before: seq<Input>, after: seq<Input>)
    requires HeardAll(NEW_ENTRY, before).rejected
    ensures var e := HeardAll(NEW_ENTRY, before);
            && HeardAll(e, after).rejected && !HeardAll(e, after).canWrite
            && forall k :: 0 <= k < |SentAll(e, after)| ==> SentAll(e, after)[k].Get?
  {
    EntryKeeps(before);
    if after != [] { RefusalCollapses(before, after[..|after| - 1]); }
  }

  /** The reason a refused field shows is replaced exactly by a REJECT that gives another one. */
  lemma ReasonStaysIff(e: Entry, i: Input)
    requires EntryOk(e) && e.rejected
    ensures Heard(e, i).0.blocked == e.blocked
       <==> !(i.Framed? && i.frame.Reject? && e.blocked != Some(Told(i.frame.reason)))
  {
  }

  /**
   * Such a REJECT does come: an edit is on its way when the next one, too large to send, makes the field
   * read-only here; refused by the server, the first replaces the reason of the second.
   */
  lemma ReasonReplaced(s: State, ws: nat, f: string, log: Doc, edit: Update, large: Update, nothing: Update)
    requires !IsRefused(s, ws, f) && Content(nothing) == {}
    requires edit.size <= MAX_FIELD_UPDATE_BYTES < large.size
    ensures var ins := [Synced, Framed(StateOf(true, log, log), nothing), Edited(edit, true), Edited(large, true)];
            var e := HeardAll(NEW_ENTRY, ins);
            && SentAll(NEW_ENTRY, ins) == [Get({}), Change(edit)]
            && Judge(s, ws, f, edit, false) == Rejected(NotWritable)
            && e.blocked == Some(LocalTooLarge)
            && Heard(e, Framed(Reject(NotWritable), nothing)).0.blocked == Some(Told(NotWritable))
  {
    var in1: seq<Input> := [Synced];
    var in2: seq<Input> := in1 + [Framed(StateOf(true, log, log), nothing)];
    var in3: seq<Input> := in2 + [Edited(edit, true)];
    var ins := in3 + [Edited(large, true)];
    assert in1[..0] == [] && in2[..1] == in1 && in3[..2] == in2 && ins[..3] == in3;
    var e2 := Stated(NEW_ENTRY, true, log);
    assert HeardAll(NEW_ENTRY, in1) == NEW_ENTRY && HeardAll(NEW_ENTRY, in2) == e2;
    assert SentAll(NEW_ENTRY, in1) == [Get({})] && SentAll(NEW_ENTRY, in2) == [Get({})];
    assert HeardAll(NEW_ENTRY, in3) == e2.(doc := e2.doc + Content(edit));
    assert SentAll(NEW_ENTRY, in3) == [Get({}), Change(edit)];
    assert ins == [Synced, Framed(StateOf(true, log, log), nothing), Edited(edit, true), Edited(large, true)];
  }

  // ----- one round -----

  /** On a writable field one GET, its STATE and the push-back leave both sides with their join. */
  lemma RoundJoins(cfg: Config, s: State, ws: nat, f: string, e: Entry, diff: Doc, pushBack: Update)
    requires Coherent(cfg, s) && !e.rejected && !IsRefused(s, ws, f) && !FieldOf(s, f).frozen
    requires IsDiff(diff, LogDoc(s, f), e.doc)
    requires IsDiff(Content(pushBack), e.doc + diff, LogDoc(s, f)) && pushBack.parses
    requires pushBack.size <= MAX_FIELD_UPDATE_BYTES
    ensures var s1 := Fetched(cfg, s, f);
            var (e', sent) := Heard(e, Framed(StateOf(true, LogDoc(s, f), diff), pushBack));
            var s2 := if sent == [] then s1 else Taken(s1, ws, f, sent[0].u, true);
            && (forall k :: 0 <= k < |sent| ==> sent[k].Change?)
            && e'.canWrite && e'.doc == e.doc + LogDoc(s, f)
            && LogDoc(s2, f) == e'.doc && Coherent(cfg, s2)
  {
    hide Coherent, LogDoc, LastNumber, CacheDoc, Followed, Appended;
    var s1 := Fetched(cfg, s, f);
    StepReceives(cfg, s, Gets(f), f);
    StepKeeps(cfg, s, Gets(f));
    StepReceives(cfg, s1, Updates(ws, f, pushBack, true), f);
    StepKeeps(cfg, s1, Updates(ws, f, pushBack, true));
    assert Judge(s1, ws, f, pushBack, true) == Accepted;
  }

  // ----- many clients -----

  /** How far a connection's round has come. */
  datatype Phase = Offline | Asked | Answered | Caught

  datatype Peer = Peer(entry: Entry, sock: nat, phase: Phase, up: seq<Up>, down: seq<Down>)

  const NEW_PEER := Peer(NEW_ENTRY, 0, Offline, [], [])

  function UpBody(x: Up): Doc {
    if x.Change? then Content(x.u) else {}
  }

  function DownBody(x: Down): Doc {
    match x
    case StateOf(_, _, diff) => diff
    case Relayed(u) => Content(u)
    case Reject(_) => {}
  }

  function Rising(up: seq<Up>): Doc {
    if up == [] then {} else UpBody(up[0]) + Rising(up[1..])
  }

  function Falling(down: seq<Down>): Doc {
    if down == [] then {} else DownBody(down[0]) + Falling(down[1..])
  }

  lemma {:induction false} RisingAppend(up: seq<Up>, x: Up)
    ensures Rising(up + [x]) == Rising(up) + UpBody(x)
  {
    if up == [] {
      assert [x][1..] == [];
    } else {
      assert (up + [x])[1..] == up[1..] + [x];
      RisingAppend(up[1..], x);
    }
  }

  lemma {:induction false} FallingAppend(down: seq<Down>, x: Down)
    ensures Falling(down + [x]) == Falling(down) + DownBody(x)
  {
    if down == [] {
      assert [x][1..] == [];
    } else {
      assert (down + [x])[1..] == down[1..] + [x];
      FallingAppend(down[1..], x);
    }
  }

  predicate Refusal(down: seq<Down>) {
    exists i :: 0 <= i < |down| && down[i].Reject?
  }

  /** What a client sends it has; only well-formed updates within the limit are sent. */
  ghost predicate UpOk(x: Up, doc: Doc) {
    match x
    case Get(known) => known <= doc
    case Change(u) => u.parses && u.size <= MAX_FIELD_UPDATE_BYTES && Content(u) <= doc
  }

  ghost predicate DownOk(x: Down, log: Doc) {
    DownBody(x) <= log && (x.StateOf? ==> x.stateVector <= log)
  }

  ghost predicate FlightOk(log: Doc, p: Peer) {
    && (forall i :: 0 <= i < |p.up| ==> UpOk(p.up[i], p.entry.doc))
    && (forall i :: 0 <= i < |p.down| ==> DownOk(p.down[i], log))
  }

  ghost predicate PhaseOk(p: Peer) {
    match p.phase
    case Offline => p.up == [] && p.down == []
    case Asked => exists i :: 0 <= i < |p.up| && p.up[i].Get?
    case Answered => exists i :: 0 <= i < |p.down| && p.down[i].StateOf?
    case Caught => true
  }

  /**
   * Once its GET is answered, a client lacks nothing that is not on its way to it; once it has read the
   * STATE, the server lacks nothing of a client that is still writable but what is on its way up.
   */
  ghost predicate CaughtUp(log: Doc, p: Peer) {
    && (p.phase.Answered? || p.phase.Caught? ==> log <= p.entry.doc + Falling(p.down))
    && (p.phase.Caught? && p.entry.canWrite && !Refusal(p.down) ==> p.entry.doc <= log + Rising(p.up))
  }

  ghost predicate PeerOk(log: Doc, refused: bool, p: Peer) {
    && EntryOk(p.entry)
    && FlightOk(log, p)
    && PhaseOk(p)
    && CaughtUp(log, p)
    && (p.phase != Offline && refused ==> p.entry.rejected || Refusal(p.down))
  }

  // ----- steps of one client -----

  function Sends(p: Peer, r: (Entry, seq<Up>)): Peer {
    p.(entry := r.0, up := p.up + r.1)
  }

  function Opened(p: Peer, sock: nat): Peer {
    Peer(p.entry, sock, Asked, [Get(p.entry.doc)], [])
  }

  function Dropped(p: Peer): Peer {
    p.(phase := Offline, up := [], down := [])
  }

  function Edits(p: Peer, u: Update): Peer {
    Sends(p, Heard(p.entry, Edited(u, p.phase != Offline)))
  }

  function Reads(p: Peer, pushBack: Update): Peer
    requires p.down != []
  {
    var x := p.down[0];
    var p' := p.(down := p.down[1..], phase := if x.StateOf? && p.phase.Answered? then Caught else p.phase);
    Sends(p', Heard(p.entry, Framed(x, pushBack)))
  }

  function Asks(p: Peer): Peer {
    Sends(p, Heard(p.entry, Synced))
  }

  function Delivered(p: Peer, x: Down): Peer {
    p.(down := p.down + [x])
  }

  function Served(p: Peer): Peer
    requires p.up != []
  {
    p.(up := p.up[1..])
  }

  function Replied(p: Peer, writable: bool, log: Doc, diff: Doc): Peer
    requires p.up != []
  {
    Delivered(Served(p), StateOf(writable, log, diff)).(phase := if p.phase.Asked? then Answered else p.phase)
  }

  ghost predicate Editable(u: Update) {
    u.parses && u.content.Some?
  }

  /** What a client may push back against a STATE's vector. */
  ghost predicate PushesBack(p: Peer, pushBack: Update) {
    p.down != [] && p.down[0].StateOf? ==>
      pushBack.parses && IsDiff(Content(pushBack), p.entry.doc + p.down[0].diff, p.down[0].stateVector)
  }

  lemma OpenedOk(log: Doc, p: Peer, sock: nat)
    requires EntryOk(p.entry)
    ensures PeerOk(log, false, Opened(p, sock))
  {
    assert Opened(p, sock).up[0].Get?;
  }

  lemma DroppedOk(log: Doc, refused: bool, p: Peer)
    requires PeerOk(log, refused, p)
    ensures PeerOk(log, refused, Dropped(p))
  {
  }

  lemma UpGrows(log: Doc, refused: bool, p: Peer, doc: Doc, more: seq<Up>)
    requires PeerOk(log, refused, p) && p.entry.doc <= doc
    requires forall i :: 0 <= i < |more| ==> UpOk(more[i], doc)
    ensures forall i :: 0 <= i < |p.up + more| ==> UpOk((p.up + more)[i], doc)
    ensures p.phase.Asked? ==> exists i :: 0 <= i < |p.up + more| && (p.up + more)[i].Get?
  {
    forall i | 0 <= i < |p.up|
      ensures UpOk(p.up[i], doc)
    {
      assert UpOk(p.up[i], p.entry.doc);
    }
    if p.phase.Asked? {
      var i :| 0 <= i < |p.up| && p.up[i].Get?;
      assert (p.up + more)[i].Get?;
    }
  }

  lemma EditsOk(log: Doc, refused: bool, p: Peer, u: Update)
    requires PeerOk(log, refused, p) && Editable(u)
    ensures PeerOk(log, refused, Edits(p, u))
  {
    hide Rising, Falling;
    var (e', sent) := Heard(p.entry, Edited(u, p.phase != Offline));
    UpGrows(log, refused, p, e'.doc, sent);
    if sent == [] { assert p.up + sent == p.up; } else { RisingAppend(p.up, sent[0]); }
  }

  lemma AsksOk(log: Doc, refused: bool, p: Peer)
    requires PeerOk(log, refused, p) && p.phase != Offline
    ensures PeerOk(log, refused, Asks(p))
  {
    hide Rising, Falling;
    UpGrows(log, refused, p, p.entry.doc, [Get(p.entry.doc)]);
    RisingAppend(p.up, Get(p.entry.doc));
  }

  lemma ReadsOk(log: Doc, refused: bool, p: Peer, pushBack: Update)
    requires PeerOk(log, refused, p) && p.down != [] && PushesBack(p, pushBack)
    ensures PeerOk(log, refused, Reads(p, pushBack))
  {
    hide Rising;
    var x, p' := p.down[0], Reads(p, pushBack);
    var (e', sent) := Heard(p.entry, Framed(x, pushBack));
    assert DownOk(x, log);
    UpGrows(log, refused, p, e'.doc, sent);
    if sent == [] { assert p.up + sent == p.up; } else { RisingAppend(p.up, sent[0]); }
    assert forall i :: 0 <= i < |p'.down| ==> p'.down[i] == p.down[i + 1];
    if Refusal(p.down) && !x.Reject? {
      var i :| 0 <= i < |p.down| && p.down[i].Reject?;
      assert p'.down[i - 1].Reject?;
    }
    if p.phase.Answered? && !x.StateOf? {
      var i :| 0 <= i < |p.down| && p.down[i].StateOf?;
      assert p'.down[i - 1].StateOf?;
    }
  }

  /** The log has grown by an update accepted from elsewhere, which is relayed to this client. */
  lemma DeliveredOk(log: Doc, refused: bool, p: Peer, x: Down, log': Doc, refused': bool)
    requires PeerOk(log, refused, p) && p.phase != Offline && !x.StateOf?
    requires DownBody(x) <= log' && log' == log + DownBody(x)
    requires refused' ==> refused || x.Reject?
    ensures PeerOk(log', refused', Delivered(p, x))
  {
    hide Rising, Falling;
    var p' := Delivered(p, x);
    FallingAppend(p.down, x);
    DownMore(p, x);
    forall i | 0 <= i < |p'.down|
      ensures DownOk(p'.down[i], log')
    {
      if i < |p.down| { assert DownOk(p.down[i], log); }
    }
  }

  lemma DownMore(p: Peer, x: Down)
    ensures Refusal(Delivered(p, x).down) <==> Refusal(p.down) || x.Reject?
    ensures PhaseOk(p) && p.phase != Offline ==> PhaseOk(Delivered(p, x))
  {
    var down := p.down + [x];
    assert down[|p.down|] == x && forall i :: 0 <= i < |p.down| ==> down[i] == p.down[i];
    if Refusal(p.down) {
      var i :| 0 <= i < |p.down| && p.down[i].Reject?;
      assert down[i].Reject?;
    }
    if PhaseOk(p) && p.phase.Answered? {
      var i :| 0 <= i < |p.down| && p.down[i].StateOf?;
      assert down[i].StateOf?;
    }
  }

  lemma RepliedOk(log: Doc, refused: bool, p: Peer, writable: bool, diff: Doc)
    requires PeerOk(log, refused, p) && p.up != [] && p.up[0].Get? && p.phase != Offline
    requires IsDiff(diff, log, p.up[0].known)
    ensures PeerOk(log, refused, Replied(p, writable, log, diff))
  {
    hide Falling;
    var x := StateOf(writable, log, diff);
    var p' := Replied(p, writable, log, diff);
    assert UpOk(p.up[0], p.entry.doc);
    FallingAppend(p.down, x);
    DownMore(p, x);
    assert p'.down[|p.down|].StateOf?;
    forall i | 0 <= i < |p'.down|
      ensures DownOk(p'.down[i], log)
    {
      if i < |p.down| { assert DownOk(p.down[i], log); }
    }
    assert forall i :: 0 <= i < |p'.up| ==> p'.up[i] == p.up[i + 1];
  }

  /** The client's update is served: accepted into the log, or refused already, or refused now. */
  lemma ServedOk(log: Doc, refused: bool, p: Peer, log': Doc, verdict: Verdict, refused': bool)
    requires PeerOk(log, refused, p) && p.up != [] && p.up[0].Change? && p.phase != Offline
    requires verdict.Accepted? ==> log' == log + Content(p.up[0].u) && refused' == refused
    requires verdict.Dropped? ==> log' == log && refused && refused'
    requires verdict.Rejected? ==> log' == log
    ensures PeerOk(log', refused', if verdict.Rejected? then Delivered(Served(p), Reject(verdict.reason)) else Served(p))
  {
    hide Falling;
    var p1 := Served(p);
    assert UpOk(p.up[0], p.entry.doc);
    assert forall i :: 0 <= i < |p1.up| ==> p1.up[i] == p.up[i + 1];
    if p.phase.Asked? {
      var i :| 0 <= i < |p.up| && p.up[i].Get?;
      assert p1.up[i - 1].Get?;
    }
    forall i | 0 <= i < |p.down|
      ensures DownOk(p.down[i], log')
    {
      assert DownOk(p.down[i], log);
    }
    if verdict.Rejected? {
      DownMore(p1, Reject(verdict.reason));
      FallingAppend(p.down, Reject(verdict.reason));
    }
  }

  // ----- the system -----

  datatype World = World(server: State, peers: map<string, Peer>, nextSock: nat)

  /** `Maintain` is anything the server does of itself, or for its other fields. */
  datatype Move =
    | Connect(c: string)
    | Cut(c: string)
    | Resync(c: string)
    | Edit(c: string, u: Update)
    | Read(c: string, pushBack: Update)
    | Serve(c: string, authorized: bool, diff: Doc)
    | Maintain(e: Event)

  ghost predicate Legal(f: string, w: World, m: Move) {
    match m
    case Connect(c) => c in w.peers && w.peers[c].phase == Offline
    case Cut(c) => c in w.peers
    case Resync(c) => c in w.peers && w.peers[c].phase != Offline
    case Edit(c, u) => c in w.peers && Editable(u)
    case Read(c, pushBack) => c in w.peers && w.peers[c].down != [] && PushesBack(w.peers[c], pushBack)
    case Serve(c, _, diff) =>
      && c in w.peers && w.peers[c].up != []
      && (w.peers[c].up[0].Get? ==> IsDiff(diff, LogDoc(w.server, f), w.peers[c].up[0].known))
    case Maintain(e) => e.Compacts? || e.Wakes? || e.Gets? || (e.Updates? && e.f != f && e.ws < w.nextSock)
  }

  /** Whoever sent an accepted update, every other connected client is relayed it. */
  function Broadcast(peers: map<string, Peer>, c: string, p: Peer, verdict: Verdict, u: Update): map<string, Peer> {
    map d | d in peers ::
      if d == c then p
      else if verdict.Accepted? && peers[d].phase != Offline then Delivered(peers[d], Relayed(u))
      else peers[d]
  }

  function After(cfg: Config, f: string, w: World, m: Move): World
    requires Legal(f, w, m)
  {
    match m
    case Connect(c) => World(w.server, w.peers[c := Opened(w.peers[c], w.nextSock)], w.nextSock + 1)
    case Cut(c) => w.(peers := w.peers[c := Dropped(w.peers[c])])
    case Resync(c) => w.(peers := w.peers[c := Asks(w.peers[c])])
    case Edit(c, u) => w.(peers := w.peers[c := Edits(w.peers[c], u)])
    case Read(c, pushBack) => w.(peers := w.peers[c := Reads(w.peers[c], pushBack)])
    case Serve(c, authorized, diff) =>
      var p := w.peers[c];
      if p.up[0].Get? then
        var writable := authorized && !FieldOf(w.server, f).frozen && !IsRefused(w.server, p.sock, f);
        w.(server := Step(cfg, w.server, Gets(f)),
           peers := w.peers[c := Replied(p, writable, LogDoc(w.server, f), diff)])
      else
        var u := p.up[0].u;
        var verdict := Judge(w.server, p.sock, f, u, authorized);
        var p' := if verdict.Rejected? then Delivered(Served(p), Reject(verdict.reason)) else Served(p);
        w.(server := Step(cfg, w.server, Updates(p.sock, f, u, authorized)),
           peers := Broadcast(w.peers, c, p', verdict, u))
    case Maintain(e) => w.(server := Step(cfg, w.server, e))
  }

  /** A GET is answered that the field may be written exactly if an update that fits would be accepted now. */
  lemma StateSaysWritableIff(cfg: Config, f: string, w: World, c: string, authorized: bool, diff: Doc, u: Update)
    requires c in w.peers && w.peers[c].up != [] && w.peers[c].up[0].Get? && Legal(f, w, Serve(c, authorized, diff))
    requires u.parses && u.size <= MAX_FIELD_UPDATE_BYTES
    ensures var (p, p') := (w.peers[c], After(cfg, f, w, Serve(c, authorized, diff)).peers[c]);
            && |p'.down| == |p.down| + 1 && p'.down[|p.down|].StateOf?
            && (p'.down[|p.down|].writable <==> Judge(w.server, p.sock, f, u, authorized) == Accepted)
  {
  }

  ghost predicate PeerIn(f: string, s: State, p: Peer, nextSock: nat) {
    && PeerOk(LogDoc(s, f), IsRefused(s, p.sock, f), p)
    && (p.phase != Offline ==> p.sock < nextSock)
  }

  ghost predicate Apart(peers: map<string, Peer>) {
    forall c, d :: c in peers && d in peers && c != d && peers[c].phase != Offline && peers[d].phase != Offline ==>
      peers[c].sock != peers[d].sock
  }

  ghost predicate WorldOk(cfg: Config, f: string, w: World) {
    && Coherent(cfg, w.server)
    && (forall ws: nat :: IsRefused(w.server, ws, f) ==> ws < w.nextSock)
    && Apart(w.peers)
    && forall c :: c in w.peers ==> PeerIn(f, w.server, w.peers[c], w.nextSock)
  }

  lemma RefusedAfter(cfg: Config, s: State, e: Event, ws: nat, f: string)
    requires e.Updates? || e.Compacts? || e.Gets? || e.Wakes?
    ensures IsRefused(Step(cfg, s, e), ws, f) ==>
              IsRefused(s, ws, f)
              || (e.Updates? && e.ws == ws && e.f == f && Judge(s, ws, f, e.u, e.authorized).Rejected?)
    ensures IsRefused(s, ws, f) && !e.Wakes? ==> IsRefused(Step(cfg, s, e), ws, f)
  {
    hide LogDoc, CacheDoc, Followed, LastNumber;
  }

  /** One client moved, the server did not. */
  lemma OneMoved(cfg: Config, f: string, w: World, c: string, p: Peer)
    requires WorldOk(cfg, f, w) && c in w.peers
    requires PeerOk(LogDoc(w.server, f), IsRefused(w.server, w.peers[c].sock, f), p)
    requires p.sock == w.peers[c].sock && (p.phase != Offline ==> w.peers[c].phase != Offline)
    ensures WorldOk(cfg, f, w.(peers := w.peers[c := p]))
  {
    hide PeerOk, Coherent, LogDoc, IsRefused;
  }

  lemma ConnectKeeps(cfg: Config, f: string, w: World, c: string)
    requires WorldOk(cfg, f, w) && Legal(f, w, Connect(c))
    ensures WorldOk(cfg, f, After(cfg, f, w, Connect(c)))
  {
    hide Coherent, LogDoc;
    assert PeerIn(f, w.server, w.peers[c], w.nextSock);
    OpenedOk(LogDoc(w.server, f), w.peers[c], w.nextSock);
    var w' := After(cfg, f, w, Connect(c));
    forall d | d in w'.peers
      ensures PeerIn(f, w'.server, w'.peers[d], w'.nextSock)
    {
      assert PeerIn(f, w.server, w.peers[d], w.nextSock);
    }
  }

  lemma MaintainKeeps(cfg: Config, f: string, w: World, e: Event)
    requires WorldOk(cfg, f, w) && Legal(f, w, Maintain(e))
    ensures WorldOk(cfg, f, After(cfg, f, w, Maintain(e)))
  {
    hide Coherent, LogDoc, Step, IsRefused, LastNumber, Judge;
    var s' := Step(cfg, w.server, e);
    StepKeeps(cfg, w.server, e);
    StepReceives(cfg, w.server, e, f);
    assert !Accepts(w.server, e, f);
    forall ws: nat
      ensures IsRefused(s', ws, f) ==> IsRefused(w.server, ws, f)
    {
      RefusedAfter(cfg, w.server, e, ws, f);
    }
    forall c | c in w.peers
      ensures PeerIn(f, s', w.peers[c], w.nextSock)
    {
      assert PeerIn(f, w.server, w.peers[c], w.nextSock);
    }
  }

  lemma ReplyKeeps(cfg: Config, f: string, w: World, c: string, authorized: bool, diff: Doc)
    requires WorldOk(cfg, f, w) && Legal(f, w, Serve(c, authorized, diff)) && w.peers[c].up[0].Get?
    ensures WorldOk(cfg, f, After(cfg, f, w, Serve(c, authorized, diff)))
  {
    hide Coherent, LogDoc, Step, IsRefused, LastNumber, PeerOk, IsDiff;
    var p := w.peers[c];
    assert PeerIn(f, w.server, p, w.nextSock);
    assert p.phase != Offline by { OfflineIsQuiet(LogDoc(w.server, f), IsRefused(w.server, p.sock, f), p); }
    var writable := authorized && !FieldOf(w.server, f).frozen && !IsRefused(w.server, p.sock, f);
    RepliedOk(LogDoc(w.server, f), IsRefused(w.server, p.sock, f), p, writable, diff);
    var w1 := w.(peers := w.peers[c := Replied(p, writable, LogDoc(w.server, f), diff)]);
    OneMoved(cfg, f, w, c, w1.peers[c]);
    MaintainKeeps(cfg, f, w1, Gets(f));
  }

  lemma OfflineIsQuiet(log: Doc, refused: bool, p: Peer)
    requires PeerOk(log, refused, p)
    ensures p.phase == Offline ==> p.up == [] && p.down == []
  {
  }

  /** An update served to the log, seen by one client of it. */
  lemma ServeSeen(cfg: Config, f: string, w: World, c: string, authorized: bool, d: string)
    requires WorldOk(cfg, f, w) && c in w.peers && w.peers[c].up != [] && w.peers[c].up[0].Change? && d in w.peers
    ensures var w' := After(cfg, f, w, Serve(c, authorized, {})); PeerIn(f, w'.server, w'.peers[d], w'.nextSock)
  {
    hide Coherent, LogDoc, Step, LastNumber, PeerOk, IsRefused;
    var p, q := w.peers[c], w.peers[d];
    assert PeerIn(f, w.server, p, w.nextSock) && PeerIn(f, w.server, q, w.nextSock);
    var u := p.up[0].u;
    var e := Updates(p.sock, f, u, authorized);
    var (log, log') := (LogDoc(w.server, f), LogDoc(Step(cfg, w.server, e), f));
    var (r, r') := (IsRefused(w.server, q.sock, f), IsRefused(Step(cfg, w.server, e), q.sock, f));
    var verdict := Judge(w.server, p.sock, f, u, authorized);
    OfflineIsQuiet(log, IsRefused(w.server, p.sock, f), p);
    StepReceives(cfg, w.server, e, f);
    RefusedAfter(cfg, w.server, e, q.sock, f);
    if d == c {
      assert u.parses by { FirstIsOk(log, r, p); }
      ServedOk(log, r, p, log', verdict, r');
    } else if q.phase == Offline {
      OfflineOk(log, r, q, log', r');
    } else {
      assert q.sock != p.sock;
      if verdict.Accepted? {
        DeliveredOk(log, r, q, Relayed(u), log', r');
      } else {
        assert log' == log && r' == r;
      }
    }
  }

  lemma FirstIsOk(log: Doc, refused: bool, p: Peer)
    requires PeerOk(log, refused, p) && p.up != []
    ensures UpOk(p.up[0], p.entry.doc)
  {
  }

  lemma OfflineOk(log: Doc, refused: bool, p: Peer, log': Doc, refused': bool)
    requires PeerOk(log, refused, p) && p.phase == Offline
    ensures PeerOk(log', refused', p)
  {
  }

  lemma ServeKeeps(cfg: Config, f: string, w: World, c: string, authorized: bool, diff: Doc)
    requires WorldOk(cfg, f, w) && Legal(f, w, Serve(c, authorized, diff)) && w.peers[c].up[0].Change?
    ensures WorldOk(cfg, f, After(cfg, f, w, Serve(c, authorized, diff)))
  {
    hide Coherent, LogDoc, Step, LastNumber, PeerOk, IsRefused, Judge;
    var w' := After(cfg, f, w, Serve(c, authorized, diff));
    var p := w.peers[c];
    assert PeerIn(f, w.server, p, w.nextSock);
    OfflineIsQuiet(LogDoc(w.server, f), IsRefused(w.server, p.sock, f), p);
    var e := Updates(p.sock, f, p.up[0].u, authorized);
    StepKeeps(cfg, w.server, e);
    forall ws: nat | IsRefused(w'.server, ws, f)
      ensures ws < w.nextSock
    {
      RefusedAfter(cfg, w.server, e, ws, f);
    }
    forall d | d in w'.peers
      ensures PeerIn(f, w'.server, w'.peers[d], w'.nextSock)
    {
      ServeSeen(cfg, f, w, c, authorized, d);
    }
  }

  lemma MoveKeeps(cfg: Config, f: string, w: World, m: Move)
    requires WorldOk(cfg, f, w) && Legal(f, w, m)
    ensures WorldOk(cfg, f, After(cfg, f, w, m))
  {
    hide Coherent, LogDoc, Step, LastNumber, PeerOk, IsRefused, Heard;
    var log := LogDoc(w.server, f);
    if !m.Maintain? { assert PeerIn(f, w.server, w.peers[m.c], w.nextSock); }
    match m {
      case Connect(c) => ConnectKeeps(cfg, f, w, c);
      case Cut(c) =>
        DroppedOk(log, IsRefused(w.server, w.peers[c].sock, f), w.peers[c]);
        OneMoved(cfg, f, w, c, Dropped(w.peers[c]));
      case Resync(c) =>
        AsksOk(log, IsRefused(w.server, w.peers[c].sock, f), w.peers[c]);
        OneMoved(cfg, f, w, c, Asks(w.peers[c]));
      case Edit(c, u) =>
        EditsOk(log, IsRefused(w.server, w.peers[c].sock, f), w.peers[c], u);
        OneMoved(cfg, f, w, c, Edits(w.peers[c], u));
      case Read(c, pushBack) =>
        OfflineIsQuiet(log, IsRefused(w.server, w.peers[c].sock, f), w.peers[c]);
        ReadsOk(log, IsRefused(w.server, w.peers[c].sock, f), w.peers[c], pushBack);
        OneMoved(cfg, f, w, c, Reads(w.peers[c], pushBack));
      case Serve(c, authorized, diff) =>
        if w.peers[c].up[0].Get? { ReplyKeeps(cfg, f, w, c, authorized, diff); }
        else { ServeKeeps(cfg, f, w, c, authorized, diff); }
      case Maintain(e) => MaintainKeeps(cfg, f, w, e);
    }
  }

  // ----- over whole runs -----

  /** Any server to begin with, and clients that have nothing yet. */
  function Start(s: State, clients: set<string>): World {
    World(s.(refused := map[]), map c | c in clients :: NEW_PEER, 0)
  }

  ghost predicate Reaches(cfg: Config, f: string, w: World, ms: seq<Move>, w': World)
    decreases |ms|
  {
    if ms == [] then w' == w
    else Legal(f, w, ms[0]) && Reaches(cfg, f, After(cfg, f, w, ms[0]), ms[1..], w')
  }

  lemma {:induction false} ReachedOk(cfg: Config, f: string, w: World, ms: seq<Move>, w': World)
    requires WorldOk(cfg, f, w) && Reaches(cfg, f, w, ms, w')
    ensures WorldOk(cfg, f, w')
    decreases |ms|
  {
    if ms != [] {
      MoveKeeps(cfg, f, w, ms[0]);
      ReachedOk(cfg, f, After(cfg, f, w, ms[0]), ms[1..], w');
    }
  }

  lemma StartOk(cfg: Config, f: string, s: State, clients: set<string>)
    requires Coherent(cfg, s)
    ensures WorldOk(cfg, f, Start(s, clients))
  {
    hide CacheOk, LogDoc;
    StepKeeps(cfg, s, Wakes);
    SameButRefused(cfg, s);
  }

  lemma SameButRefused(cfg: Config, s: State)
    requires Coherent(cfg, s)
    ensures Coherent(cfg, s.(refused := map[]))
  {
    forall f
      ensures LogDoc(s.(refused := map[]), f) == LogDoc(s, f) && LogOk(s.(refused := map[]), f)
    {
      assert LogOk(s, f);
    }
  }

  ghost predicate Quiet(p: Peer) {
    p.phase != Offline && p.up == [] && p.down == []
  }

  /**
   * However connections dropped and edits raced, a connected client with nothing in flight has all the
   * server has, and if it may write, the server has all of its: two such clients hold the same doc.
   */
  lemma QuietMeansEqual(cfg: Config, f: string, s: State, clients: set<string>, ms: seq<Move>, w: World, c: string, d: string)
    requires Coherent(cfg, s) && Reaches(cfg, f, Start(s, clients), ms, w)
    requires c in w.peers && Quiet(w.peers[c]) && d in w.peers && Quiet(w.peers[d])
    ensures LogDoc(w.server, f) <= w.peers[c].entry.doc
    ensures w.peers[c].entry.canWrite ==> w.peers[c].entry.doc == LogDoc(w.server, f)
    ensures w.peers[c].entry.canWrite && w.peers[d].entry.canWrite ==> w.peers[c].entry.doc == w.peers[d].entry.doc
  {
    hide Coherent, LogDoc, IsRefused;
    StartOk(cfg, f, s, clients);
    ReachedOk(cfg, f, Start(s, clients), ms, w);
    assert PeerIn(f, w.server, w.peers[c], w.nextSock) && PeerIn(f, w.server, w.peers[d], w.nextSock);
  }

  /** The server's doc only grows, so that nothing any client was ever answered or accepted is lost. */
  lemma {:induction false} LogOnlyGrows(cfg: Config, f: string, w: World, ms: seq<Move>, w': World)
    requires WorldOk(cfg, f, w) && Reaches(cfg, f, w, ms, w')
    ensures LogDoc(w.server, f) <= LogDoc(w'.server, f)
    decreases |ms|
  {
    hide LogDoc, Coherent, Step, LastNumber, Accepts, PeerOk, IsRefused;
    if ms != [] {
      var m, w1 := ms[0], After(cfg, f, w, ms[0]);
      if m.Maintain? { StepReceives(cfg, w.server, m.e, f); }
      if m.Serve? {
        var p := w.peers[m.c];
        StepReceives(cfg, w.server, if p.up[0].Get? then Gets(f) else Updates(p.sock, f, p.up[0].u, m.authorized), f);
      }
      MoveKeeps(cfg, f, w, m);
      LogOnlyGrows(cfg, f, w1, ms[1..], w');
    }
  }

  // ----- the object -----

  class HeldField {
    var doc: Doc
    var canWrite: bool
    var rejected: bool
    var writeBlocked: Option<Blocked>
    var synced: bool
    var sent: seq<Up>

    ghost function State(): Entry
      reads this
    {
      Entry(doc, canWrite, rejected, writeBlocked, synced)
    }

    constructor ()
      ensures State() == NEW_ENTRY && sent == []
    {
      doc, canWrite, rejected, writeBlocked, synced, sent := {}, false, false, None, false, [];
    }

    method SendGet()
      modifies this`sent
      ensures sent == old(sent) + Heard(State(), Synced).1
    {
      sent := sent + [Get(doc)];
    }

    method SendUpdate(u: Update)
      modifies this`rejected, this`writeBlocked, this`canWrite, this`sent
      ensures (State(), sent) == (SentUpdate(old(State()), u).0, old(sent) + SentUpdate(old(State()), u).1)
    {
      if u.size > MAX_FIELD_UPDATE_BYTES {
        rejected := true;
        writeBlocked := Some(LocalTooLarge);
        if canWrite { canWrite := false; }
        assert sent + [] == sent;
        return;
      }
      sent := sent + [Change(u)];
    }

    /** The doc's own update handler, for edits made here. */
    method OnLocalUpdate(u: Update, live: bool)
      modifies this
      ensures State() == Heard(old(State()), Edited(u, live)).0
      ensures sent == old(sent) + Heard(old(State()), Edited(u, live)).1
    {
      doc := doc + Content(u);
      if !canWrite || !live { return; }
      SendUpdate(u);
    }

    /** `pushBack` is what the doc, merged, encodes against the STATE's vector. */
    method OnFrame(frame: Down, pushBack: Update)
      modifies this
      ensures State() == Heard(old(State()), Framed(frame, pushBack)).0
      ensures sent == old(sent) + Heard(old(State()), Framed(frame, pushBack)).1
    {
      match frame {
        case Relayed(u) => doc := doc + Content(u);
        case StateOf(writable, _, diff) =>
          doc := doc + diff;
          canWrite := writable && !rejected;
          if !rejected { writeBlocked := if writable then None else Some(Told(NotWritable)); }
          synced := true;
          if canWrite && Content(pushBack) != {} { SendUpdate(pushBack); }
        case Reject(reason) =>
          rejected := true;
          writeBlocked := Some(Told(reason));
          if canWrite { canWrite := false; }
      }
    }
  }
}
