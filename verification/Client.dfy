/** The sync client's state (packages/client/src/client.ts) and what each frame, call and reload does to it. */
module Client {
  import opened Rows
  import opened WriteSets
  import opened Server

  datatype Entry = Entry(id: Option<nat>, intent: Intent)

  /** A promise settled by the confirm sweep: resolved, or rejected with the server's error. */
  datatype Settlement = Settlement(id: nat, intent: Intent, error: Option<AppError>)

  /** `base` is the announced one, kept beside the mismatch flag computed from it on arrival. */
  datatype PokeBuffer = PokeBuffer(
    pokeId: nat, base: Option<Cursor>, baseMismatch: bool,
    ops: seq<PatchOp>, lmids: map<ClientId, nat>, results: seq<MutationResult>)

  datatype State = State(
    id: ClientId, cursor: Option<Cursor>, rows: Table,
    confirmed: nat, outbox: seq<Entry>, settled: seq<Settlement>,
    poke: Option<PokeBuffer>, needsRebase: bool, synced: bool, awaitingCatchUp: bool)

  datatype Frame =
    | PokeStart(pokeId: nat, base: Option<Cursor>)
    | PokePart(pokeId: nat, ops: seq<PatchOp>, lmids: map<ClientId, nat>, results: seq<MutationResult>)
    | PokeEnd(pokeId: nat, end: Cursor)
    | ErrorFrame(code: ErrorCode)

  /** What the durable store holds: shared rows and cursor, and this client's own queue. */
  datatype Persisted = Persisted(
    cursor: Option<Cursor>, schemaVersion: Option<nat>, confirmed: nat, rows: Table, outbox: seq<Entry>)

  datatype Message = HelloMsg(cursor: Option<Cursor>) | PushMsg(mutations: seq<Mutation>)

  /** The frames of one poke, its patch cut into `parts`; the first part carries the confirmations. */
  function PokeFrames(pokeId: nat, p: Poke, parts: seq<seq<PatchOp>>): seq<Frame> {
    [PokeStart(pokeId, p.base)] + PartFrames(pokeId, p, parts, true) + [PokeEnd(pokeId, p.end)]
  }

  function PartFrames(pokeId: nat, p: Poke, parts: seq<seq<PatchOp>>, first: bool): seq<Frame> {
    if parts == [] then []
    else
      [PokePart(pokeId, parts[0], if first then p.lmids else map[], if first then p.results else [])]
      + PartFrames(pokeId, p, parts[1..], false)
  }

  function Flatten<T>(parts: seq<seq<T>>): seq<T> {
    if parts == [] then [] else parts[0] + Flatten(parts[1..])
  }

  // ----- mutation ids -----

  function MaxId(floor: nat, outbox: seq<Entry>): (max: nat)
    ensures max >= floor
    ensures forall i :: 0 <= i < |outbox| && outbox[i].id.Some? ==> outbox[i].id.value <= max
    ensures max == floor || exists i :: 0 <= i < |outbox| && outbox[i].id == Some(max)
  {
    if outbox == [] then floor
    else
      var rest, last := MaxId(floor, outbox[..|outbox| - 1]), outbox[|outbox| - 1];
      if last.id.Some? && last.id.value > rest then last.id.value else rest
  }

  function NextMutationId(confirmed: nat, outbox: seq<Entry>): nat {
    MaxId(confirmed, outbox) + 1
  }

  /** Numbers the entries from `i` on that have no id, each after the highest id so far. */
  function AssignFrom(confirmed: nat, outbox: seq<Entry>, i: nat): seq<Entry>
    requires i <= |outbox|
    decreases |outbox| - i
  {
    if i == |outbox| then outbox
    else if outbox[i].id.Some? then AssignFrom(confirmed, outbox, i + 1)
    else AssignFrom(confirmed, outbox[i := Entry(Some(NextMutationId(confirmed, outbox)), outbox[i].intent)], i + 1)
  }

  /** Everything still queued renumbers from the confirmed id. */
  function Rebase(confirmed: nat, outbox: seq<Entry>): seq<Entry> {
    seq(|outbox|, i requires 0 <= i < |outbox| => Entry(Some(confirmed + 1 + i), outbox[i].intent))
  }

  predicate Confirmed(confirmed: nat, e: Entry) {
    e.id.Some? && e.id.value <= confirmed
  }

  function ErrorOf(results: seq<MutationResult>, id: nat): Option<AppError> {
    if results == [] then None
    else
      var last := results[|results| - 1];
      if last.error.Some? && last.id == id then last.error else ErrorOf(results[..|results| - 1], id)
  }

  function Unsettled(confirmed: nat, outbox: seq<Entry>): seq<Entry> {
    if outbox == [] then []
    else
      var last := outbox[|outbox| - 1];
      Unsettled(confirmed, outbox[..|outbox| - 1]) + if Confirmed(confirmed, last) then [] else [last]
  }

  function Settlements(confirmed: nat, outbox: seq<Entry>, results: seq<MutationResult>): seq<Settlement> {
    if outbox == [] then []
    else
      var last := outbox[|outbox| - 1];
      Settlements(confirmed, outbox[..|outbox| - 1], results) +
      if Confirmed(confirmed, last) then [Settlement(last.id.value, last.intent, ErrorOf(results, last.id.value))] else []
  }

  function InsertById(ms: seq<Mutation>, m: Mutation): seq<Mutation> {
    if ms == [] || ms[|ms| - 1].id <= m.id then ms + [m]
    else InsertById(ms[..|ms| - 1], m) + [ms[|ms| - 1]]
  }

  /** What `#flushPush` sends: the numbered, unconfirmed entries by id. */
  function PushBatch(confirmed: nat, outbox: seq<Entry>): seq<Mutation> {
    if outbox == [] then []
    else
      var init, last := PushBatch(confirmed, outbox[..|outbox| - 1]), outbox[|outbox| - 1];
      if last.id.Some? && last.id.value > confirmed then InsertById(init, Mutation(last.id.value, last.intent)) else init
  }

  // ----- the outbox is one run of ids, then entries without -----

  ghost predicate WellFormed(confirmed: nat, outbox: seq<Entry>, n: nat) {
    && n <= |outbox|
    && (forall i :: 0 <= i < n ==> outbox[i].id == Some(confirmed + 1 + i))
    && (forall i :: n <= i < |outbox| ==> outbox[i].id == None)
  }

  lemma NextIdContinuesRun(confirmed: nat, outbox: seq<Entry>, n: nat)
    requires WellFormed(confirmed, outbox, n)
    ensures NextMutationId(confirmed, outbox) == confirmed + n + 1
  {
    var max := MaxId(confirmed, outbox);
    if n > 0 {
      assert outbox[n - 1].id == Some(confirmed + n);
    }
    if max != confirmed {
      var i :| 0 <= i < |outbox| && outbox[i].id == Some(max);
      assert i < n;
    }
  }

  lemma RebaseIsTheRun(confirmed: nat, outbox: seq<Entry>)
    requires WellFormed(confirmed, outbox, |outbox|)
    ensures Rebase(confirmed, outbox) == outbox
  {
  }

  lemma RebaseForgetsIds(confirmed: nat, outbox: seq<Entry>, i: nat, e: Entry)
    requires i < |outbox| && e.intent == outbox[i].intent
    ensures Rebase(confirmed, outbox[i := e]) == Rebase(confirmed, outbox)
  {
  }

  /** Numbering what is pending extends the run to the whole outbox, as renumbering it all would. */
  lemma {:induction false} AssignCompletesRun(confirmed: nat, outbox: seq<Entry>, n: nat, i: nat)
    requires WellFormed(confirmed, outbox, n) && i <= |outbox|
    requires i <= n
    ensures var after := AssignFrom(confirmed, outbox, i);
            WellFormed(confirmed, after, |outbox|) && |after| == |outbox| && after == Rebase(confirmed, outbox)
    decreases |outbox| - i
  {
    if i == |outbox| {
      RebaseIsTheRun(confirmed, outbox);
    } else if outbox[i].id.Some? {
      AssignCompletesRun(confirmed, outbox, n, i + 1);
    } else {
      NextIdContinuesRun(confirmed, outbox, n);
      assert i == n;
      var more := outbox[i := Entry(Some(confirmed + n + 1), outbox[i].intent)];
      AssignCompletesRun(confirmed, more, n + 1, i + 1);
      RebaseForgetsIds(confirmed, outbox, i, more[i]);
    }
  }

  /** Renumbering changes no id the run already has, so replays keep the ids they were sent under. */
  lemma RebaseKeepsRun(confirmed: nat, outbox: seq<Entry>, n: nat)
    requires WellFormed(confirmed, outbox, n)
    ensures Rebase(confirmed, outbox)[..n] == outbox[..n]
    ensures WellFormed(confirmed, Rebase(confirmed, outbox), |outbox|)
  {
  }

  ghost predicate ConfirmedHead(confirmed: nat, outbox: seq<Entry>, k: nat) {
    && k <= |outbox|
    && forall i :: 0 <= i < |outbox| ==> (Confirmed(confirmed, outbox[i]) <==> i < k)
  }

  lemma {:induction false} UnsettledIsTail(confirmed: nat, outbox: seq<Entry>, k: nat)
    requires ConfirmedHead(confirmed, outbox, k)
    ensures Unsettled(confirmed, outbox) == outbox[k..]
  {
    if outbox != [] {
      var init, last := outbox[..|outbox| - 1], outbox[|outbox| - 1];
      assert Confirmed(confirmed, last) <==> k == |outbox|;
      var j := if k == |outbox| then k - 1 else k;
      assert ConfirmedHead(confirmed, init, j);
      UnsettledIsTail(confirmed, init, j);
      TailOfInit(outbox, j);
    }
  }

  lemma TailOfInit(outbox: seq<Entry>, j: nat)
    requires j < |outbox|
    ensures outbox[j..] == outbox[..|outbox| - 1][j..] + [outbox[|outbox| - 1]]
    ensures j == |outbox| - 1 ==> outbox[..|outbox| - 1][j..] == [] && outbox[j + 1..] == []
  {
  }

  function Settle(outbox: seq<Entry>, k: nat, from: nat, results: seq<MutationResult>): seq<Settlement>
    requires k <= |outbox|
  {
    seq(k, i requires 0 <= i < k => Settlement(from + i, outbox[i].intent, ErrorOf(results, from + i)))
  }

  lemma {:induction false} SettlementsAreHead(confirmed: nat, outbox: seq<Entry>, k: nat, from: nat, results: seq<MutationResult>)
    requires ConfirmedHead(confirmed, outbox, k)
    requires forall i :: 0 <= i < k ==> outbox[i].id == Some(from + i)
    ensures Settlements(confirmed, outbox, results) == Settle(outbox, k, from, results)
  {
    if outbox != [] {
      var init, last := outbox[..|outbox| - 1], outbox[|outbox| - 1];
      assert Confirmed(confirmed, last) <==> k == |outbox|;
      SettlementsAreHead(confirmed, init, if k == |outbox| then k - 1 else k, from, results);
    }
  }

  /** Confirming up to an id of the run settles exactly the entries up to it and leaves a run. */
  lemma SettleCutsRun(confirmed: nat, confirmed': nat, outbox: seq<Entry>, n: nat, results: seq<MutationResult>)
    requires WellFormed(confirmed, outbox, n) && confirmed <= confirmed' <= confirmed + n
    ensures var k := confirmed' - confirmed;
            && Unsettled(confirmed', outbox) == outbox[k..]
            && WellFormed(confirmed', outbox[k..], n - k)
            && Settlements(confirmed', outbox, results) == Settle(outbox, k, confirmed + 1, results)
  {
    var k := confirmed' - confirmed;
    assert ConfirmedHead(confirmed', outbox, k);
    UnsettledIsTail(confirmed', outbox, k);
    SettlementsAreHead(confirmed', outbox, k, confirmed + 1, results);
  }

  function Run(confirmed: nat, outbox: seq<Entry>, n: nat): seq<Mutation>
    requires n <= |outbox|
  {
    seq(n, i requires 0 <= i < n => Mutation(confirmed + 1 + i, outbox[i].intent))
  }

  lemma RunOfInit(confirmed: nat, outbox: seq<Entry>, n: nat)
    requires n < |outbox|
    ensures Run(confirmed, outbox[..|outbox| - 1], n) == Run(confirmed, outbox, n)
    ensures Run(confirmed, outbox, n + 1) == Run(confirmed, outbox, n) + [Mutation(confirmed + 1 + n, outbox[n].intent)]
  {
  }

  lemma InsertLast(ms: seq<Mutation>, m: Mutation)
    requires ms != [] ==> ms[|ms| - 1].id <= m.id
    ensures InsertById(ms, m) == ms + [m]
  {
  }

  /** A push carries the whole run, gap-free and starting right after the confirmed id. */
  lemma {:induction false} PushIsTheRun(confirmed: nat, outbox: seq<Entry>, n: nat)
    requires WellFormed(confirmed, outbox, n)
    ensures PushBatch(confirmed, outbox) == Run(confirmed, outbox, n)
    decreases |outbox|
  {
    if outbox != [] {
      var m := if n == |outbox| then n - 1 else n;
      PushIsTheRun(confirmed, outbox[..|outbox| - 1], m);
      RunOfInit(confirmed, outbox, m);
      if n == |outbox| { InsertLast(Run(confirmed, outbox, m), Mutation(confirmed + n, outbox[m].intent)); }
    }
  }

  // ----- steps -----

  function Start(id: ClientId): State {
    State.State(id, None, map[], 0, [], [], None, false, false, false)
  }

  function Enqueue(s: State, intent: Intent): State {
    var queued := s.outbox + [Entry(None, intent)];
    s.(outbox := if s.synced then queued[|s.outbox| := Entry(Some(NextMutationId(s.confirmed, queued)), intent)] else queued)
  }

  /** A new connection has not synced yet; its hello goes out when it opens. */
  function Dial(s: State): State {
    s.(synced := false)
  }

  function SayHello(s: State): (State, seq<Message>) {
    (s.(awaitingCatchUp := true), [HelloMsg(s.cursor)])
  }

  function RequestResync(s: State): (State, seq<Message>) {
    if s.awaitingCatchUp then (s, []) else SayHello(s)
  }

  function Disconnect(s: State): State {
    s.(poke := None, awaitingCatchUp := false)
  }

  /** A reload restores what was persisted; the outbox keeps its ids. */
  function Reload(s: State, cursor: Option<Cursor>, rows: Table): State {
    State.State(s.id, cursor, rows, s.confirmed, s.outbox, s.settled, None, false, false, false)
  }

  function ConfirmedAfter(s: State, p: PokeBuffer, backendChanged: bool): nat {
    if backendChanged then (if s.id in p.lmids then p.lmids[s.id] else 0)
    else if s.id in p.lmids && p.lmids[s.id] > s.confirmed then p.lmids[s.id] else s.confirmed
  }

  function ApplyPoke(s: State, p: PokeBuffer, end: Cursor): State {
    var backendChanged := s.cursor.Some? && s.cursor.value.backend != end.backend;
    var confirmed := ConfirmedAfter(s, p, backendChanged);
    var outbox0 := if backendChanged then Rebase(confirmed, s.outbox) else s.outbox;
    var outbox1 := Unsettled(confirmed, outbox0);
    var outbox2 := if s.needsRebase then Rebase(confirmed, outbox1) else outbox1;
    s.(rows := Absorb(s.rows, p.ops), cursor := Some(end), awaitingCatchUp := false,
       confirmed := confirmed, needsRebase := false, synced := true,
       settled := s.settled + Settlements(confirmed, outbox0, p.results),
       outbox := if s.synced then outbox2 else AssignFrom(confirmed, outbox2, 0))
  }

  function OnFrame(s: State, f: Frame): (State, seq<Message>) {
    match f
    case PokeStart(id, base) =>
      (s.(poke := Some(PokeBuffer(id, base, base != s.cursor, [], map[], []))), [])
    case PokePart(id, ops, lmids, results) =>
      if s.poke.None? || s.poke.value.pokeId != id then RequestResync(s.(poke := None))
      else
        var p := s.poke.value;
        (s.(poke := Some(p.(ops := p.ops + ops, lmids := p.lmids + lmids, results := p.results + results))), [])
    case PokeEnd(id, end) =>
      var s' := s.(poke := None);
      if s.poke.None? || s.poke.value.pokeId != id then RequestResync(s')
      else if s.poke.value.baseMismatch && !(exists i :: 0 <= i < |s.poke.value.ops| && s.poke.value.ops[i].Clear?) then
        RequestResync(s')
      else (ApplyPoke(s', s.poke.value, end), [])
    case ErrorFrame(PushInvalid) => RequestResync(s.(needsRebase := true))
    case ErrorFrame(Internal) => (s, [])
  }

  /** The frame shows that something was missed: a part or an end without its own start, a base not held, a refused push. */
  predicate ShowsGap(s: State, f: Frame) {
    match f
    case PokeStart(_, _) => false
    case PokePart(id, _, _, _) => s.poke.None? || s.poke.value.pokeId != id
    case PokeEnd(id, _) =>
      || s.poke.None? || s.poke.value.pokeId != id
      || (s.poke.value.baseMismatch && forall i :: 0 <= i < |s.poke.value.ops| ==> !s.poke.value.ops[i].Clear?)
    case ErrorFrame(code) => code == PushInvalid
  }

  /**
   * A gap, and nothing else, makes a client ask again for what it lacks, from the cursor it holds, unless it
   * has already asked; its rows stay until it is answered. Only a poke applied ends the wait.
   */
  lemma ResyncsIff(s: State, f: Frame)
    ensures var (s', ms) := OnFrame(s, f);
            && ms == (if ShowsGap(s, f) && !s.awaitingCatchUp then [HelloMsg(s.cursor)] else [])
            && (ShowsGap(s, f) ==> s'.awaitingCatchUp && s'.cursor == s.cursor && s'.rows == s.rows)
            && (!ShowsGap(s, f) ==> s'.awaitingCatchUp == (s.awaitingCatchUp && !f.PokeEnd?))
            && (Applies(s, f) <==> f.PokeEnd? && !ShowsGap(s, f))
  {
  }

  /** The frame ends a poke the client has whole and can apply. */
  predicate Applies(s: State, f: Frame) {
    && f.PokeEnd? && s.poke.Some? && s.poke.value.pokeId == f.pokeId
    && (s.poke.value.baseMismatch ==> exists i :: 0 <= i < |s.poke.value.ops| && s.poke.value.ops[i].Clear?)
  }

  function Receive(s: State, fs: seq<Frame>): State {
    if fs == [] then s else OnFrame(Receive(s, fs[..|fs| - 1]), fs[|fs| - 1]).0
  }

  lemma ReceiveMore(s: State, fs: seq<Frame>, f: Frame)
    ensures Receive(s, fs + [f]) == OnFrame(Receive(s, fs), f).0
  {
    assert (fs + [f])[..|fs|] == fs;
  }

  // ----- reassembly -----

  function Opened(pokeId: nat, p: Poke, cursor: Option<Cursor>, ops: seq<PatchOp>, n: nat): PokeBuffer {
    PokeBuffer(pokeId, p.base, p.base != cursor, ops, if n == 0 then map[] else p.lmids, if n == 0 then [] else p.results)
  }

  lemma OpenedMore(pokeId: nat, p: Poke, cursor: Option<Cursor>, ops: seq<PatchOp>, n: nat, part: seq<PatchOp>)
    ensures var b := Opened(pokeId, p, cursor, ops, n);
            b.(ops := b.ops + part,
               lmids := b.lmids + if n == 0 then p.lmids else map[],
               results := b.results + if n == 0 then p.results else [])
            == Opened(pokeId, p, cursor, ops + part, n + 1)
  {
    assert map[] + p.lmids == p.lmids && p.lmids + map[] == p.lmids;
    assert [] + p.results == p.results && p.results + [] == p.results;
  }

  lemma PartTaken(s: State, pokeId: nat, p: Poke, parts: seq<seq<PatchOp>>, n: nat)
    requires n < |parts| && s.poke == Some(Opened(pokeId, p, s.cursor, Flatten(parts[..n]), n))
    ensures var fs := PartFrames(pokeId, p, parts, true);
            && |fs| == |parts|
            && OnFrame(s, fs[n]).0 == s.(poke := Some(Opened(pokeId, p, s.cursor, Flatten(parts[..n + 1]), n + 1)))
  {
    PartFrameAt(pokeId, p, parts, true);
    assert Flatten(parts[..n + 1]) == Flatten(parts[..n]) + parts[n] by {
      FlattenSnoc(parts[..n], parts[n]);
      assert parts[..n + 1] == parts[..n] + [parts[n]];
    }
    OpenedMore(pokeId, p, s.cursor, Flatten(parts[..n]), n, parts[n]);
  }

  /** Taking in parts in order collects their operations, and the confirmations of the first. */
  lemma {:induction false} PartsReassemble(s: State, pokeId: nat, p: Poke, parts: seq<seq<PatchOp>>, n: nat)
    requires n <= |parts| && s.poke == Some(Opened(pokeId, p, s.cursor, [], 0))
    ensures var fs := PartFrames(pokeId, p, parts, true);
            && |fs| == |parts|
            && Receive(s, fs[..n]) == s.(poke := Some(Opened(pokeId, p, s.cursor, Flatten(parts[..n]), n)))
  {
    var fs := PartFrames(pokeId, p, parts, true);
    PartFrameAt(pokeId, p, parts, true);
    if n > 0 {
      PartsReassemble(s, pokeId, p, parts, n - 1);
      assert fs[..n] == fs[..n - 1] + [fs[n - 1]];
      ReceiveMore(s, fs[..n - 1], fs[n - 1]);
      PartTaken(Receive(s, fs[..n - 1]), pokeId, p, parts, n - 1);
    }
  }

  lemma {:induction false} PartFrameAt(pokeId: nat, p: Poke, parts: seq<seq<PatchOp>>, first: bool)
    ensures var fs := PartFrames(pokeId, p, parts, first);
            && |fs| == |parts|
            && forall i :: 0 <= i < |parts| ==>
                 fs[i] == PokePart(pokeId, parts[i], if first && i == 0 then p.lmids else map[], if first && i == 0 then p.results else [])
    decreases |parts|
  {
    if parts != [] {
      PartFrameAt(pokeId, p, parts[1..], false);
    }
  }

  lemma {:induction false} FlattenSnoc<T>(parts: seq<seq<T>>, last: seq<T>)
    ensures Flatten(parts + [last]) == Flatten(parts) + last
  {
    if parts == [] {
      assert [last][1..] == [];
      assert last + [] == last;
    } else {
      assert (parts + [last])[1..] == parts[1..] + [last];
      FlattenSnoc(parts[1..], last);
      assert parts[0] + (Flatten(parts[1..]) + last) == parts[0] + Flatten(parts[1..]) + last;
    }
  }

  /**
   * Receiving all frames of a poke applies it when its base is the client's cursor or it clears, and
   * otherwise leaves rows and cursor alone and asks to resync.
   */
  lemma PokeRoundTrip(s: State, pokeId: nat, p: Poke, parts: seq<seq<PatchOp>>)
    requires parts != [] && Flatten(parts) == p.ops
    ensures Receive(s, PokeFrames(pokeId, p, parts)) ==
            if p.base == s.cursor || HasClear(p.ops) then
              ApplyPoke(s.(poke := None), Opened(pokeId, p, s.cursor, p.ops, 1), p.end)
            else s.(poke := None, awaitingCatchUp := true)
  {
    var first, middle, last := PokeStart(pokeId, p.base), PartFrames(pokeId, p, parts, true), PokeEnd(pokeId, p.end);
    var s1 := s.(poke := Some(Opened(pokeId, p, s.cursor, [], 0)));
    assert Receive(s, [first]) == s1 by {
      assert [] + [first] == [first] && Receive(s, []) == s;
      ReceiveMore(s, [], first);
    }
    var s2 := s.(poke := Some(Opened(pokeId, p, s.cursor, p.ops, 1)));
    assert Receive(s, [first] + middle) == s2 by {
      PartsReassemble(s1, pokeId, p, parts, |parts|);
      assert middle[..|parts|] == middle && parts[..|parts|] == parts;
      ReceiveConcat(s, [first], middle);
    }
    ReceiveMore(s, [first] + middle, last);
    PokeEnds(s2, pokeId, p);
  }

  lemma PokeEnds(s: State, pokeId: nat, p: Poke)
    requires s.poke == Some(Opened(pokeId, p, s.cursor, p.ops, 1))
    ensures OnFrame(s, PokeEnd(pokeId, p.end)).0 ==
            if p.base == s.cursor || HasClear(p.ops) then ApplyPoke(s.(poke := None), s.poke.value, p.end)
            else s.(poke := None, awaitingCatchUp := true)
  {
  }

  lemma {:induction false} ReceiveConcat(s: State, a: seq<Frame>, b: seq<Frame>)
    ensures Receive(s, a + b) == Receive(Receive(s, a), b)
    decreases |b|
  {
    if b == [] {
      assert a + b == a;
    } else {
      assert (a + b)[..|a + b| - 1] == a + b[..|b| - 1];
      ReceiveConcat(s, a, b[..|b| - 1]);
    }
  }

  // ----- starting the ids over -----

  function Intents(outbox: seq<Entry>): seq<Intent> {
    seq(|outbox|, i requires 0 <= i < |outbox| => outbox[i].intent)
  }

  /** The whole queue is one run of ids after the confirmed one. */
  ghost predicate AllNumbered(s: State) {
    WellFormed(s.confirmed, s.outbox, |s.outbox|)
  }

  lemma {:induction false} NumberedStays(confirmed: nat, outbox: seq<Entry>, i: nat)
    requires i <= |outbox| && forall j :: 0 <= j < |outbox| ==> outbox[j].id.Some?
    ensures AssignFrom(confirmed, outbox, i) == outbox
    decreases |outbox| - i
  {
    if i < |outbox| { NumberedStays(confirmed, outbox, i + 1); }
  }

  /** After a refused push the next poke applied renumbers what it does not settle, in order, from the confirmed id on. */
  lemma RefusalRenumbers(s: State, p: PokeBuffer, end: Cursor)
    ensures var refused := OnFrame(s, ErrorFrame(PushInvalid)).0; var s' := ApplyPoke(refused, p, end);
            && AllNumbered(s') && !s'.needsRebase && s'.synced
            && (s.cursor.Some? && s.cursor.value.backend == end.backend ==>
                  Intents(s'.outbox) == Intents(Unsettled(s'.confirmed, s.outbox)))
  {
    var refused := OnFrame(s, ErrorFrame(PushInvalid)).0;
    var s' := ApplyPoke(refused, p, end);
    var changed := s.cursor.Some? && s.cursor.value.backend != end.backend;
    var outbox1 := Unsettled(s'.confirmed, if changed then Rebase(s'.confirmed, s.outbox) else s.outbox);
    NumberedStays(s'.confirmed, Rebase(s'.confirmed, outbox1), 0);
  }

  lemma {:induction false} AboveStays(confirmed: nat, outbox: seq<Entry>)
    requires forall i :: 0 <= i < |outbox| ==> outbox[i].id.Some? && outbox[i].id.value > confirmed
    ensures Unsettled(confirmed, outbox) == outbox
  {
    if outbox != [] { AboveStays(confirmed, outbox[..|outbox| - 1]); }
  }

  lemma {:induction false} NothingSettles(confirmed: nat, outbox: seq<Entry>, results: seq<MutationResult>)
    requires forall i :: 0 <= i < |outbox| ==> outbox[i].id.Some? && outbox[i].id.value > confirmed
    ensures Settlements(confirmed, outbox, results) == []
  {
    if outbox != [] { NothingSettles(confirmed, outbox[..|outbox| - 1], results); }
  }

  lemma RebaseRenumbers(confirmed: nat, outbox: seq<Entry>, results: seq<MutationResult>)
    ensures var queue := Rebase(confirmed, outbox);
            && Unsettled(confirmed, queue) == queue && Settlements(confirmed, queue, results) == []
            && Rebase(confirmed, queue) == queue && AssignFrom(confirmed, queue, 0) == queue
            && WellFormed(confirmed, queue, |queue|) && Intents(queue) == Intents(outbox)
  {
    hide Unsettled, Settlements, AssignFrom;
    var queue := Rebase(confirmed, outbox);
    AboveStays(confirmed, queue);
    NothingSettles(confirmed, queue, results);
    NumberedStays(confirmed, queue, 0);
  }

  /**
   * In a new history nothing queued is settled: the whole queue, in its order, renumbers from what the new
   * history has confirmed, which is nothing unless the poke says so.
   */
  lemma NewHistoryRenumbers(s: State, p: PokeBuffer, end: Cursor)
    requires s.cursor.Some? && s.cursor.value.backend != end.backend
    ensures var s' := ApplyPoke(s, p, end);
            && s'.confirmed == (if s.id in p.lmids then p.lmids[s.id] else 0)
            && AllNumbered(s') && Intents(s'.outbox) == Intents(s.outbox) && s'.settled == s.settled
  {
    hide Unsettled, Settlements, Rebase, AssignFrom, WellFormed, Intents, Absorb;
    var s' := ApplyPoke(s, p, end);
    RebaseRenumbers(s'.confirmed, s.outbox, p.results);
    assert s.settled + [] == s.settled;
  }
}
