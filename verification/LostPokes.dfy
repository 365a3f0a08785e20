/** Runs, step by step from the start, in which what a lost poke or a workspace reset leaves behind shows. */
module LostPokes {
  import opened Rows
  import opened WriteSets
  import opened Server
  import Client
  import opened Protocol
  import opened Streams
  import opened Ledgers
  import Mirror
  import Convergence
  import ExactlyOnce
  import Stranded

  function Last(run: seq<System>): System
    requires run != []
  {
    run[|run| - 1]
  }

  lemma Longer(run: seq<System>, steps: seq<Step>, s': System, step: Step)
    requires IsRun(run, steps) && Next(Last(run), s', step)
    ensures IsRun(run + [s'], steps + [step]) && Last(run + [s']) == s'
  {
    hide Next, Init;
    var (run', steps') := (run + [s'], steps + [step]);
    forall i | 0 <= i < |steps'|
      ensures Next(run'[i], run'[i + 1], steps'[i])
    {
      if i < |steps| { assert Next(run[i], run[i + 1], steps[i]); }
    }
  }

  lemma ThreeLonger(run0: seq<System>, steps0: seq<Step>, s1: System, a: Step, s2: System, b: Step, s3: System, c: Step)
    returns (run: seq<System>, steps: seq<Step>)
    requires IsRun(run0, steps0) && Next(Last(run0), s1, a) && Next(s1, s2, b) && Next(s2, s3, c)
    ensures IsRun(run, steps) && run0 <= run && steps == steps0 + [a, b, c] && Last(run) == s3
  {
    hide IsRun, Next;
    Longer(run0, steps0, s1, a);
    Longer(run0 + [s1], steps0 + [a], s2, b);
    Longer(run0 + [s1] + [s2], steps0 + [a] + [b], s3, c);
    run, steps := run0 + [s1] + [s2] + [s3], steps0 + [a] + [b] + [c];
  }

  /** One client, which uses socket `i` as `line` says. */
  ghost predicate On(s: System, c: ClientId, st: Client.State, i: SockId, line: Sock) {
    && s.peers == map[c := Peer(st, Some(i))] && c in s.issued && c in s.tabs
    && i in s.socks && s.socks[i] == line
  }

  function Line(c: ClientId, ready: bool, up: seq<Client.Message>, down: seq<Client.Frame>): Sock {
    Sock(c, true, ready, false, false, up, down)
  }

  ghost predicate SameBut(s: System, s': System) {
    s'.server == s.server && s'.timeline == s.timeline && s'.issued == s.issued && s'.socks.Keys == s.socks.Keys
  }

  // ----- taking a poke -----

  function WholePoke(id: nat, p: Poke): seq<Client.Frame> {
    Client.PokeFrames(id, p, [p.ops])
  }

  lemma WholePokeIs(id: nat, p: Poke)
    ensures WholePoke(id, p) == [Client.PokeStart(id, p.base), Client.PokePart(id, p.ops, p.lmids, p.results), Client.PokeEnd(id, p.end)]
    ensures IsSplit([p.ops], p.ops)
  {
    assert [p.ops][1..] == [];
    assert Client.PartFrames(id, p, [p.ops][1..], false) == [];
    assert Client.Flatten([p.ops][1..]) == [] && p.ops + [] == p.ops;
  }

  function Fed(st: Client.State, id: nat, p: Poke): Client.State {
    Client.ApplyPoke(st, Client.Opened(id, p, st.cursor, p.ops, 1), p.end)
  }

  lemma TakesOne(s: System, c: ClientId, st: Client.State, i: SockId, k: Sock) returns (s': System)
    requires On(s, c, st, i, k) && k.down != [] && Client.OnFrame(st, k.down[0]).1 == []
    ensures Next(s, s', Deliver(c)) && SameBut(s, s')
    ensures On(s', c, Client.OnFrame(st, k.down[0]).0, i, k.(down := k.down[1..]))
  {
    hide Client.OnFrame, Noted;
    var (st', ms) := Client.OnFrame(st, k.down[0]);
    assert k.up + [] == k.up;
    s' := SetPeer(s, c, Peer(st', Some(i)))
          .(socks := s.socks[i := SendUp(k.(down := k.down[1..]), ms)],
            tabs := s.tabs[c := Noted(s.tabs[c], st, k.down[0])]);
    assert StepDeliver(s, s', c);
  }

  function Started(st: Client.State, id: nat, p: Poke, n: nat): Client.State {
    st.(poke := Some(Client.Opened(id, p, st.cursor, if n == 0 then [] else p.ops, n)))
  }

  lemma FrameByFrame(st: Client.State, id: nat, p: Poke)
    requires st.poke.None? && (p.base == st.cursor || HasClear(p.ops))
    ensures Client.OnFrame(st, Client.PokeStart(id, p.base)) == (Started(st, id, p, 0), [])
    ensures Client.OnFrame(Started(st, id, p, 0), Client.PokePart(id, p.ops, p.lmids, p.results)) == (Started(st, id, p, 1), [])
    ensures Client.OnFrame(Started(st, id, p, 1), Client.PokeEnd(id, p.end)) == (Fed(st, id, p), [])
  {
    hide Client.ApplyPoke;
    assert [] + p.ops == p.ops && map[] + p.lmids == p.lmids && [] + p.results == p.results;
    assert Started(st, id, p, 1).(poke := None) == st;
  }

  /** The three frames of a poke the client can apply, which it does. */
  lemma TakesPoke(run0: seq<System>, steps0: seq<Step>, c: ClientId, st: Client.State, i: SockId, ready: bool, id: nat, p: Poke)
    returns (run: seq<System>, steps: seq<Step>)
    requires IsRun(run0, steps0) && On(Last(run0), c, st, i, Line(c, ready, [], WholePoke(id, p)))
    requires st.poke.None? && (p.base == st.cursor || HasClear(p.ops))
    ensures IsRun(run, steps) && run0 <= run && steps == steps0 + [Deliver(c), Deliver(c), Deliver(c)]
    ensures SameBut(Last(run0), Last(run)) && On(Last(run), c, Fed(st, id, p), i, Line(c, ready, [], []))
  {
    hide Next, Init, Client.OnFrame, WholePoke, On;
    WholePokeIs(id, p);
    var (fs, st1, st2) := (WholePoke(id, p), Started(st, id, p, 0), Started(st, id, p, 1));
    FrameByFrame(st, id, p);
    var s1 := TakesOne(Last(run0), c, st, i, Line(c, ready, [], fs));
    var s2 := TakesOne(s1, c, st1, i, Line(c, ready, [], fs[1..]));
    var s3 := TakesOne(s2, c, st2, i, Line(c, ready, [], fs[2..]));
    run, steps := ThreeLonger(run0, steps0, s1, Deliver(c), s2, Deliver(c), s3, Deliver(c));
    assert fs[1..][1..] == fs[2..] && fs[2..][1..] == [];
  }

  // ----- connecting -----

  /** A client without a socket, as it starts and as a cut connection leaves it. */
  ghost predicate Off(s: System, c: ClientId, st: Client.State) {
    s.peers == map[c := Peer(st, None)] && c in s.issued && c in s.tabs
  }

  function Greeting(st: Client.State): Client.State {
    st.(synced := false, awaitingCatchUp := true)
  }

  /** Dial, accept, open: a hello is on its way over a new socket. */
  lemma Dials(run0: seq<System>, steps0: seq<Step>, c: ClientId, st: Client.State, i: SockId)
    returns (run: seq<System>, steps: seq<Step>)
    requires IsRun(run0, steps0) && Off(Last(run0), c, st) && i !in Last(run0).socks
    ensures IsRun(run, steps) && run0 <= run && steps == steps0 + [Dial(c, i), Accept(i), Open(c)]
    ensures var (s, s') := (Last(run0), Last(run));
            && s'.server == s.server && s'.timeline == s.timeline && s'.issued == s.issued && s'.socks.Keys == s.socks.Keys + {i}
            && On(s', c, Greeting(st), i, Line(c, false, [Client.HelloMsg(st.cursor)], []))
  {
    hide Init, Next, On, Off;
    var s1 := DialNext(Last(run0), c, i, st);
    var s2 := AcceptNext(s1, c, i, Client.Dial(st));
    var s3 := OpenNext(s2, c, Client.Dial(st), i);
    run, steps := ThreeLonger(run0, steps0, s1, Dial(c, i), s2, Accept(i), s3, Open(c));
  }

  lemma DialNext(s: System, c: ClientId, i: SockId, st: Client.State) returns (s': System)
    requires Off(s, c, st) && i !in s.socks
    ensures Next(s, s', Dial(c, i))
    ensures s'.server == s.server && s'.timeline == s.timeline && s'.issued == s.issued && s'.socks.Keys == s.socks.Keys + {i}
    ensures On(s', c, Client.Dial(st), i, Line(c, false, [], []).(accepted := false))
  {
    s' := SetPeer(s, c, Peer(Client.Dial(st), Some(i))).(socks := s.socks[i := Sock(c, false, false, false, false, [], [])]);
    assert StepDial(s, s', c, i);
  }

  lemma AcceptNext(s: System, c: ClientId, i: SockId, st: Client.State) returns (s': System)
    requires On(s, c, st, i, Line(c, false, [], []).(accepted := false))
    ensures Next(s, s', Accept(i)) && SameBut(s, s') && On(s', c, st, i, Line(c, false, [], []))
  {
    s' := s.(socks := Supersede(s.socks, i));
    assert StepAccept(s, s', i);
  }

  lemma OpenNext(s: System, c: ClientId, st: Client.State, i: SockId) returns (s': System)
    requires On(s, c, st, i, Line(c, false, [], []))
    ensures Next(s, s', Open(c)) && SameBut(s, s')
    ensures On(s', c, st.(awaitingCatchUp := true), i, Line(c, false, [Client.HelloMsg(st.cursor)], []))
  {
    var (st', ms) := Client.SayHello(st);
    s' := SetPeer(s, c, Peer(st', Some(i))).(socks := s.socks[i := SendUp(s.socks[i], ms)]);
    assert [] + ms == ms;
    assert StepOpen(s, s', c);
  }

  /** The server answers a hello whole. */
  lemma Answers(s: System, c: ClientId, st: Client.State, i: SockId, server: Server.State, id: nat, p: Poke)
    returns (s': System)
    requires On(s, c, st, i, Line(c, false, [Client.HelloMsg(st.cursor)], []))
    requires Hello(s.server, c, st.cursor, server, p)
    ensures Next(s, s', ServeHello(i, st.cursor, p, id, [p.ops]))
    ensures s'.server == server && s'.timeline == s.timeline && s'.issued == s.issued && s'.socks.Keys == s.socks.Keys
    ensures On(s', c, st, i, Line(c, true, [], WholePoke(id, p)))
  {
    hide Hello, Client.PokeFrames;
    WholePokeIs(id, p);
    var fs := Client.PokeFrames(id, p, [p.ops]);
    var k := s.socks[i];
    var k' := Line(c, true, [], fs);
    s' := s.(server := server, socks := s.socks[i := k']);
    var sent := Line(c, false, [], fs);
    assert k.up[1..] == [] && [] + fs == fs && fs[..|fs|] == fs;
    assert DeliveryOf(Popped(s, i), sent, fs, |fs|);
    assert k' == sent.(ready := true, defunct := false);
    assert Delivery(Popped(s, i), sent, fs);
    assert StepServeHello(s, s', i, st.cursor, p, id, [p.ops]);
  }

  lemma Connects(run0: seq<System>, steps0: seq<Step>, c: ClientId, st: Client.State, i: SockId, server: Server.State, id: nat, p: Poke)
    returns (run: seq<System>, steps: seq<Step>)
    requires IsRun(run0, steps0) && Off(Last(run0), c, st) && i !in Last(run0).socks && st.poke.None?
    requires Hello(Last(run0).server, c, st.cursor, server, p) && (p.base == st.cursor || HasClear(p.ops))
    ensures IsRun(run, steps) && run0 <= run
    ensures steps == steps0 + [Dial(c, i), Accept(i), Open(c), ServeHello(i, st.cursor, p, id, [p.ops]), Deliver(c), Deliver(c), Deliver(c)]
    ensures var (s, s') := (Last(run0), Last(run));
            && s'.server == server && s'.timeline == s.timeline && s'.issued == s.issued && s'.socks.Keys == s.socks.Keys + {i}
            && On(s', c, Fed(Greeting(st), id, p), i, Line(c, true, [], []))
  {
    hide Next, Init, Hello, Fed, WholePoke, On, Off, HasClear;
    var run1, steps1 := Dials(run0, steps0, c, st, i);
    var s := Answers(Last(run1), c, Greeting(st), i, server, id, p);
    var answer := ServeHello(i, st.cursor, p, id, [p.ops]);
    Longer(run1, steps1, s, answer);
    run, steps := TakesPoke(run1 + [s], steps1 + [answer], c, Greeting(st), i, true, id, p);
  }

  // ----- one call -----

  function Called(st: Client.State, call: Intent): Client.State {
    st.(outbox := [Client.Entry(Some(st.confirmed + 1), call)])
  }

  /** A synced client with nothing queued makes a call, which goes out at once. */
  lemma Calls(run0: seq<System>, steps0: seq<Step>, c: ClientId, st: Client.State, i: SockId, call: Intent)
    returns (run: seq<System>, steps: seq<Step>)
    requires IsRun(run0, steps0) && On(Last(run0), c, st, i, Line(c, true, [], [])) && st.synced && st.outbox == []
    ensures IsRun(run, steps) && run0 <= run && steps == steps0 + [Mutate(c, call), Flush(c)]
    ensures var (s, s') := (Last(run0), Last(run));
            && s'.server == s.server && s'.timeline == s.timeline && s'.socks.Keys == s.socks.Keys
            && On(s', c, Called(st, call), i, Line(c, true, [Client.PushMsg([Mutation(st.confirmed + 1, call)])], []))
  {
    hide Init, Next, On;
    var s1 := MutateNext(Last(run0), c, st, i, call);
    Longer(run0, steps0, s1, Mutate(c, call));
    var s2 := FlushNext(s1, c, st, i, call);
    Longer(run0 + [s1], steps0 + [Mutate(c, call)], s2, Flush(c));
    run, steps := run0 + [s1] + [s2], steps0 + [Mutate(c, call)] + [Flush(c)];
  }

  lemma MutateNext(s: System, c: ClientId, st: Client.State, i: SockId, call: Intent) returns (s': System)
    requires On(s, c, st, i, Line(c, true, [], [])) && st.synced && st.outbox == []
    ensures Next(s, s', Mutate(c, call))
    ensures s'.server == s.server && s'.timeline == s.timeline && s'.socks == s.socks
    ensures On(s', c, Called(st, call), i, Line(c, true, [], []))
  {
    var queued := [Client.Entry(None, call)];
    assert st.outbox + [Client.Entry(None, call)] == queued && queued[..0] == [];
    assert Client.MaxId(st.confirmed, queued[..0]) == st.confirmed;
    assert Client.NextMutationId(st.confirmed, queued) == st.confirmed + 1;
    assert Client.Enqueue(st, call) == Called(st, call);
    s' := SetPeer(s, c, Peer(Called(st, call), Some(i))).(issued := s.issued[c := s.issued[c] + [call]]);
    assert StepMutate(s, s', c, call);
  }

  lemma FlushNext(s: System, c: ClientId, st: Client.State, i: SockId, call: Intent) returns (s': System)
    requires On(s, c, Called(st, call), i, Line(c, true, [], [])) && st.synced
    ensures Next(s, s', Flush(c))
    ensures s'.server == s.server && s'.timeline == s.timeline && s'.socks.Keys == s.socks.Keys
    ensures On(s', c, Called(st, call), i, Line(c, true, [Client.PushMsg([Mutation(st.confirmed + 1, call)])], []))
  {
    var ms := [Mutation(st.confirmed + 1, call)];
    var outbox := Called(st, call).outbox;
    assert outbox[..0] == [] && [] + ms == ms;
    assert Client.PushBatch(st.confirmed, outbox) == ms;
    var sent := [Client.PushMsg(ms)];
    assert [] + sent == sent;
    s' := s.(socks := s.socks[i := SendUp(s.socks[i], sent)]);
    assert StepFlush(s, s', c);
  }

  function ErrorIn(o: Outcome): Option<AppError> {
    if o.Rejected? then Some(o.error) else None
  }

  function ResultPoke(s: Server.State, c: ClientId, m: Mutation, o: Outcome): Poke {
    Poke(Some(s.Here()), [], map[c := m.id], [MutationResult(m.id, ErrorIn(o))], s.Here())
  }

  /** The server executes the mutation next due on an empty workspace, changes no row, and answers its sender. */
  lemma Executes(s: System, c: ClientId, st: Client.State, i: SockId, m: Mutation, o: Outcome, id: nat)
    returns (s': System)
    requires On(s, c, st, i, Line(c, true, [Client.PushMsg([m])], []))
    requires s.server.rows == map[] && m.id == LastMutationId(s.server, c) + 1 && (o.Rejected? || o == Wrote(map[], {}))
    ensures var p := ResultPoke(s.server, c, m, o);
            && Next(s, s', ServePush(i, [m], [o], [Send(p, false)], id, [p.ops]))
            && On(s', c, st, i, Line(c, true, [], WholePoke(id, p)))
    ensures s'.server == Commit(s.server, c, m, o) && s'.server.rows == map[] && s'.socks.Keys == s.socks.Keys
  {
    hide Client.PokeFrames, Commit;
    var (k, p) := (s.socks[i], ResultPoke(s.server, c, m, o));
    var server := Commit(s.server, c, m, o);
    PushIs(s.server, c, m, o);
    WholePokeIs(id, p);
    var fs := Client.PokeFrames(id, p, [p.ops]);
    var told := Line(c, true, [], []);
    var answered := Line(c, true, [], fs);
    var out := [Send(p, false)];
    s' := s.(server := server, socks := s.socks[i := answered],
             timeline := RecordBatch(s.timeline, StartBatch(s.server, c), c, [m], [o]));
    assert k.up[1..] == [] && [] + fs == fs && fs[..|fs|] == fs && out[1..] == [];
    assert Errors(out) == [] && k.down + [] == k.down;
    assert DeliveryOf(Popped(s, i), told, [], 0) && Delivery(Popped(s, i), told, Errors(out));
    var socks := s.socks[i := told];
    assert DeliveryOf(told, answered, fs, |fs|) && Delivery(told, answered, fs);
    assert Broadcast(socks, s'.socks, Some(i), fs);
    assert Answered(socks, s'.socks, i, out, id, [p.ops]);
    assert StepServePush(s, s', i, [m], [o], out, id, [p.ops]);
  }

  lemma PushIs(s: Server.State, c: ClientId, m: Mutation, o: Outcome)
    requires s.rows == map[] && m.id == LastMutationId(s, c) + 1 && (o.Rejected? || o == Wrote(map[], {}))
    ensures Push(s, c, [m], [o], Commit(s, c, m, o), [Send(ResultPoke(s, c, m, o), false)]) && Disjoint([o])
    ensures Commit(s, c, m, o).rows == map[] && Commit(s, c, m, o).Here() == s.Here()
  {
    RunOne(StartBatch(s, c), c, m, o);
    assert o.Wrote? ==> Written(s.rows, o.puts, o.dels) == {};
    assert [] + [MutationResult(m.id, ErrorIn(o))] == [MutationResult(m.id, ErrorIn(o))];
    assert [Send(ResultPoke(s, c, m, o), false)][..0] == [];
  }

  // ----- a rejected call that resolves -----

  function Origin(backend: string): Cursor {
    Cursor(backend, 0)
  }

  /** An empty workspace and one client, with a store of its own. */
  function Empty(backend: string, c: ClientId): System {
    System(Fresh(backend), map[c := Peer(Client.Start(c), None)], map[], map[0 := Mirror.EMPTY_DISK], map[c := Tab(0, None, [])],
           map[Origin(backend) := map[]], map[c := []])
  }

  lemma EmptyIsInit(backend: string, c: ClientId)
    ensures Init(Empty(backend, c)) && IsRun([Empty(backend, c)], []) && Off(Empty(backend, c), c, Client.Start(c))
  {
    var s := Empty(backend, c);
    assert s.server == Fresh(backend);
  }

  function Welcome(backend: string, c: ClientId): Poke {
    Poke(None, [Clear], map[c := 0], [], Origin(backend))
  }

  function Welcomed(backend: string, c: ClientId): Server.State {
    Fresh(backend).(clients := map[c := 0], snapshot := Some(Snapshot(Origin(backend), [Clear])))
  }

  function Synced(backend: string, c: ClientId): Client.State {
    Client.State(c, Some(Origin(backend)), map[], 0, [], [], None, false, true, false)
  }

  lemma FirstHello(backend: string, c: ClientId)
    ensures Hello(Fresh(backend), c, None, Welcomed(backend, c), Welcome(backend, c)) && HasClear(Welcome(backend, c).ops)
    ensures Fed(Greeting(Client.Start(c)), 1, Welcome(backend, c)) == Synced(backend, c)
  {
    var clear := [Clear];
    assert clear[0].Clear? && clear[1..] == [] && HasClear(clear);
    assert Live(Fresh(backend).rows) == map[];
    assert IsBootstrap(clear, map[]);
    AbsorbIsApply(map[], clear);
    assert ApplyOps(ApplyOp(map[], clear[0]), []) == map[];
  }

  /** From nothing to a synced client of an empty workspace. */
  lemma FirstSync(backend: string, c: ClientId) returns (run: seq<System>, steps: seq<Step>)
    ensures IsRun(run, steps) && [Empty(backend, c)] <= run && forall i :: 0 <= i < |steps| ==> !steps[i].Reset?
    ensures var s := Last(run);
            && s.server == Welcomed(backend, c) && s.socks.Keys == {0} && s.timeline == map[Origin(backend) := map[]]
            && On(s, c, Synced(backend, c), 0, Line(c, true, [], []))
  {
    hide Next, Init, On, Off, Hello, HasClear, Fed;
    EmptyIsInit(backend, c);
    FirstHello(backend, c);
    run, steps := Connects([Empty(backend, c)], [], c, Client.Start(c), 0, Welcomed(backend, c), 1, Welcome(backend, c));
  }

  /** The connection breaks before anything more arrives, and the client notices. */
  lemma Breaks(run0: seq<System>, steps0: seq<Step>, c: ClientId, st: Client.State, i: SockId, k: Sock)
    returns (run: seq<System>, steps: seq<Step>)
    requires IsRun(run0, steps0) && On(Last(run0), c, st, i, k)
    ensures IsRun(run, steps) && run0 <= run && steps == steps0 + [Cut(i, 0, 0), Hangup(c)]
    ensures SameBut(Last(run0), Last(run)) && Off(Last(run), c, Client.Disconnect(st))
  {
    hide Next, Init;
    var s := Last(run0);
    var s1 := s.(socks := s.socks[i := k.(up := k.up[..0], down := k.down[..0], cut := true)]);
    var s2 := SetPeer(s1, c, Peer(Client.Disconnect(st), None));
    assert StepCut(s, s1, i, 0, 0) && StepHangup(s1, s2, c);
    assert Next(s, s1, Cut(i, 0, 0)) && Next(s1, s2, Hangup(c)) by { BreakNext(s, s1, s2, i, c); }
    Longer(run0, steps0, s1, Cut(i, 0, 0));
    Longer(run0 + [s1], steps0 + [Cut(i, 0, 0)], s2, Hangup(c));
    run, steps := run0 + [s1] + [s2], steps0 + [Cut(i, 0, 0)] + [Hangup(c)];
  }

  lemma BreakNext(s: System, s1: System, s2: System, i: SockId, c: ClientId)
    requires StepCut(s, s1, i, 0, 0) && StepHangup(s1, s2, c)
    ensures Next(s, s1, Cut(i, 0, 0)) && Next(s1, s2, Hangup(c))
  {
  }

  /** What hello says to a client that is where the server is: nothing but the confirmation. */
  function Confirmation(s: Server.State, c: ClientId): Poke {
    Poke(Some(s.Here()), [], map[c := LastMutationId(s, c)], [], s.Here())
  }

  lemma HelloConfirms(s: Server.State, c: ClientId)
    requires s.rows == map[] && s.minCursor <= s.version && c in s.clients
    ensures Hello(s, c, Some(s.Here()), s, Confirmation(s, c))
  {
    assert TouchClient(s, c) == s;
  }

  /** A first call, executed and answered; the answer is still on its way. */
  lemma FirstAnswer(backend: string, c: ClientId, call: Intent, o: Outcome) returns (run: seq<System>, steps: seq<Step>)
    requires o.Rejected?
    ensures IsRun(run, steps) && [Empty(backend, c)] <= run && forall i :: 0 <= i < |steps| ==> !steps[i].Reset?
    ensures var (s, m) := (Last(run), Mutation(1, call));
            && s.server == Commit(Welcomed(backend, c), c, m, o) && s.socks.Keys == {0}
            && On(s, c, Called(Synced(backend, c), call), 0,
                  Line(c, true, [], WholePoke(2, ResultPoke(Welcomed(backend, c), c, m, o))))
  {
    hide Next, Init, On, WholePoke, ResultPoke, Commit;
    var (st, m) := (Synced(backend, c), Mutation(1, call));
    var run1, steps1 := FirstSync(backend, c);
    var run2, steps2 := Calls(run1, steps1, c, st, 0, call);
    var s' := Executes(Last(run2), c, Called(st, call), 0, m, o, 2);
    var p := ResultPoke(Last(run2).server, c, m, o);
    var push := ServePush(0, [m], [o], [Send(p, false)], 2, [p.ops]);
    Longer(run2, steps2, s', push);
    run, steps := run2 + [s'], steps2 + [push];
  }

  /**
   * A mutation the server rejects, whose answer is lost with the connection: the hello that follows confirms
   * its id without the error, and the promise resolves.
   */
  lemma RejectedYetResolved(backend: string, c: ClientId, call: Intent, error: AppError)
    returns (run: seq<System>, steps: seq<Step>)
    requires c != "$system"
    ensures ExactlyOnce.OneHistory(run, steps) && c in Last(run).peers
    ensures LogOf(Last(run).server.log, c) == [LogEntry(None, c, 1, call, Some(error))]
    ensures Last(run).peers[c].state.settled == [Client.Settlement(1, call, None)]
  {
    hide Next, Init, Off, Hello, HasClear, Fed, WholePoke, ResultPoke, Commit, LogOf;
    var (m, o) := (Mutation(1, call), Rejected(error));
    var (st, line) := (Called(Synced(backend, c), call), Line(c, true, [], WholePoke(2, ResultPoke(Welcomed(backend, c), c, m, o))));
    var run1, steps1 := FirstAnswer(backend, c, call, o);
    var run2, steps2 := Breaks(run1, steps1, c, st, 0, line);
    var server := Commit(Welcomed(backend, c), c, m, o);
    Untold(backend, c, call, o);
    HelloConfirms(server, c);
    run, steps := Connects(run2, steps2, c, Client.Disconnect(st), 1, server, 3, Confirmation(server, c));
    assert run[0] == Empty(backend, c);
  }

  lemma Untold(backend: string, c: ClientId, call: Intent, o: Outcome)
    requires o.Rejected?
    ensures var server := Commit(Welcomed(backend, c), c, Mutation(1, call), o);
            var st := Client.Disconnect(Called(Synced(backend, c), call));
            && server.Here() == Origin(backend) && server.rows == map[] && server.minCursor == 0 && c in server.clients
            && Fed(Greeting(st), 3, Confirmation(server, c)).settled == [Client.Settlement(1, call, None)]
            && LogOf(server.log, c) == [LogEntry(None, c, 1, call, Some(o.error))]
  {
    var outbox := [Client.Entry(Some(1), call)];
    assert outbox[..0] == [] && [] + [Client.Settlement(1, call, None)] == [Client.Settlement(1, call, None)];
    assert Client.Settlements(1, outbox, []) == [Client.Settlement(1, call, None)];
    var e := LogEntry(None, c, 1, call, Some(o.error));
    assert [] + [e] == [e] && [e][..0] == [];
    assert LogOf([e], c) == [e];
  }

  // ----- a reset under a ready socket -----

  lemma ResetNext(s: System, c: ClientId, st: Client.State, i: SockId, backend: string, id: nat) returns (s': System)
    requires On(s, c, st, i, Line(c, true, [], [])) && s.socks.Keys == {i}
    requires forall x :: x in s.timeline ==> x.backend != backend
    ensures Next(s, s', Reset(backend, id, [ResetPoke(backend).ops]))
    ensures s'.server == Fresh(backend) && s'.socks.Keys == {i}
    ensures On(s', c, st, i, Line(c, true, [], WholePoke(id, ResetPoke(backend))))
  {
    hide Client.PokeFrames;
    var p := ResetPoke(backend);
    WholePokeIs(id, p);
    var fs := Client.PokeFrames(id, p, [p.ops]);
    var (k, k') := (s.socks[i], Line(c, true, [], fs));
    s' := s.(server := Fresh(backend), socks := s.socks[i := k'], timeline := Record(s.timeline, Fresh(backend)));
    assert [] + fs == fs && fs[..|fs|] == fs;
    assert DeliveryOf(k, k', fs, |fs|) && Delivery(k, k', fs);
    assert Broadcast(s.socks, s'.socks, None, fs);
    assert StepReset(s, s', backend, id, [p.ops]);
  }

  lemma ResetTaken(backend: string, anew: string, c: ClientId)
    requires anew != backend
    ensures HasClear(ResetPoke(anew).ops) && Fed(Synced(backend, c), 5, ResetPoke(anew)) == Synced(anew, c)
  {
    var clear := [Clear];
    assert clear[0].Clear? && clear[1..] == [] && HasClear(clear);
    AbsorbIsApply(map[], clear);
    assert ApplyOps(ApplyOp(map[], clear[0]), []) == map[];
  }

  /** A synced client under a reset: its next call is executed and confirmed to it, but recorded nowhere. */
  lemma ResetStrands(backend: string, anew: string, c: ClientId, call: Intent)
    returns (run: seq<System>, steps: seq<Step>)
    requires anew != backend
    ensures IsRun(run, steps) && [Empty(backend, c)] <= run
    ensures Stranded.IsStranded(Last(run), c) && LastMutationId(Last(run).server, c) == 0
    ensures LogOf(Last(run).server.log, c) == [LogEntry(None, c, 1, call, None)]
    ensures Last(run).peers[c].state.settled == [Client.Settlement(1, call, None)]
  {
    hide Next, Init, On, Fed, WholePoke, ResultPoke, Commit, HasClear, LogOf, Stranded.IsStranded;
    var (m, o) := (Mutation(1, call), Wrote(map[], {}));
    var run1, steps1 := FirstSync(backend, c);
    var s1 := ResetNext(Last(run1), c, Synced(backend, c), 0, anew, 5);
    var reset := Reset(anew, 5, [ResetPoke(anew).ops]);
    Longer(run1, steps1, s1, reset);
    ResetTaken(backend, anew, c);
    var run2, steps2 := TakesPoke(run1 + [s1], steps1 + [reset], c, Synced(backend, c), 0, true, 5, ResetPoke(anew));
    var run3, steps3 := Calls(run2, steps2, c, Synced(anew, c), 0, call);
    run, steps := CallAnswered(run3, steps3, c, anew, call);
  }

  lemma CallAnswered(run0: seq<System>, steps0: seq<Step>, c: ClientId, anew: string, call: Intent)
    returns (run: seq<System>, steps: seq<Step>)
    requires IsRun(run0, steps0) && Last(run0).server == Fresh(anew) && Last(run0).socks.Keys == {0}
    requires On(Last(run0), c, Called(Synced(anew, c), call), 0, Line(c, true, [Client.PushMsg([Mutation(1, call)])], []))
    ensures IsRun(run, steps) && run0 <= run
    ensures Stranded.IsStranded(Last(run), c) && LastMutationId(Last(run).server, c) == 0
    ensures LogOf(Last(run).server.log, c) == [LogEntry(None, c, 1, call, None)]
    ensures Last(run).peers[c].state.settled == [Client.Settlement(1, call, None)]
  {
    hide Next, Init, Fed, WholePoke, ResultPoke, Commit, HasClear, LogOf, Stranded.IsStranded;
    var (st, m, o) := (Called(Synced(anew, c), call), Mutation(1, call), Wrote(map[], {}));
    var s := Executes(Last(run0), c, st, 0, m, o, 6);
    var p := ResultPoke(Fresh(anew), c, m, o);
    var push := ServePush(0, [m], [o], [Send(p, false)], 6, [p.ops]);
    Longer(run0, steps0, s, push);
    Unrecorded(anew, c, call);
    run, steps := TakesPoke(run0 + [s], steps0 + [push], c, st, 0, true, 6, p);
    StrandedNow(Last(run), c, anew, call);
  }

  lemma Unrecorded(anew: string, c: ClientId, call: Intent)
    ensures var (st, m, o) := (Called(Synced(anew, c), call), Mutation(1, call), Wrote(map[], {}));
            var (server, p) := (Commit(Fresh(anew), c, m, o), ResultPoke(Fresh(anew), c, m, o));
            && server == Fresh(anew).(log := [LogEntry(None, c, 1, call, None)])
            && p.base == st.cursor && p.ops == []
            && Fed(st, 6, p) == Synced(anew, c).(confirmed := 1, settled := [Client.Settlement(1, call, None)])
            && LogOf(server.log, c) == [LogEntry(None, c, 1, call, None)]
  {
    var (m, o) := (Mutation(1, call), Wrote(map[], {}));
    assert Written(map[], o.puts, o.dels) == {};
    var outbox := [Client.Entry(Some(1), call)];
    var results := [MutationResult(1, None)];
    assert results[..0] == [] && Client.ErrorOf(results, 1) == None;
    assert outbox[..0] == [] && [] + [Client.Settlement(1, call, None)] == [Client.Settlement(1, call, None)];
    assert Client.Settlements(1, outbox, results) == [Client.Settlement(1, call, None)];
    assert Client.Unsettled(1, outbox) == [];
    var e := LogEntry(None, c, 1, call, None);
    assert [] + [e] == [e] && [e][..0] == [];
    assert LogOf([e], c) == [e];
  }

  lemma StrandedNow(s: System, c: ClientId, anew: string, call: Intent)
    requires s.server == Fresh(anew).(log := [LogEntry(None, c, 1, call, None)]) && s.socks.Keys == {0}
    requires On(s, c, Synced(anew, c).(confirmed := 1, settled := [Client.Settlement(1, call, None)]), 0, Line(c, true, [], []))
    ensures Stranded.IsStranded(s, c)
  {
  }
}
