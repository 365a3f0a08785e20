/**
 * What the server has executed for one client, what that client still has queued, and how a push and
 * a frame move the two along.
 */
module Ledgers {
  import opened Rows
  import opened WriteSets
  import opened Server
  import Client
  import opened Streams

  /** The log entries of one client, in log order. */
  function LogOf(log: seq<LogEntry>, c: ClientId): seq<LogEntry> {
    if log == [] then []
    else LogOf(log[..|log| - 1], c) + if log[|log| - 1].client == c then [log[|log| - 1]] else []
  }

  lemma LogOfAppend(log: seq<LogEntry>, e: LogEntry, c: ClientId)
    ensures LogOf(log + [e], c) == LogOf(log, c) + if e.client == c then [e] else []
  {
    assert (log + [e])[..|log|] == log;
  }

  // ----- what the server has executed for a client -----

  /** Entry i of a client's log is mutation i + 1 of those it enqueued, and the LMID counts them. */
  ghost predicate Ledger(s: Server.State, c: ClientId, issued: seq<Intent>) {
    var done := LogOf(s.log, c);
    && |done| == LastMutationId(s, c) <= |issued|
    && forall i :: 0 <= i < |done| ==> done[i].id == i + 1 && done[i].intent == issued[i]
  }

  /** The server only ever adds to what it did for a client. */
  ghost predicate Grows(s: Server.State, s': Server.State, c: ClientId) {
    && s'.backend == s.backend
    && LogOf(s.log, c) <= LogOf(s'.log, c)
    && LastMutationId(s, c) <= LastMutationId(s', c)
    && (c in s.clients ==> c in s'.clients)
  }

  // ----- what a client knows -----

  /** How many entries at the head of an outbox are numbered. */
  function Numbered(outbox: seq<Client.Entry>): (n: nat)
    ensures n <= |outbox|
    decreases |outbox|
  {
    if outbox == [] || outbox[0].id.None? then 0 else 1 + Numbered(outbox[1..])
  }

  lemma {:induction false} NumberedIsRun(confirmed: nat, outbox: seq<Client.Entry>, n: nat)
    requires Client.WellFormed(confirmed, outbox, n)
    ensures Numbered(outbox) == n
    decreases |outbox|
  {
    if n > 0 {
      assert forall i :: 0 <= i < |outbox| - 1 ==> outbox[1..][i] == outbox[i + 1];
      NumberedIsRun(confirmed + 1, outbox[1..], n - 1);
    }
  }

  /** The ids a client has given out so far. */
  function Limit(st: Client.State): nat {
    st.confirmed + Numbered(st.outbox)
  }

  ghost predicate QueueOk(confirmed: nat, outbox: seq<Client.Entry>, synced: bool, issued: seq<Intent>) {
    && Client.WellFormed(confirmed, outbox, Numbered(outbox))
    && (synced ==> Numbered(outbox) == |outbox|)
    && IsTail(outbox, issued, confirmed)
  }

  ghost predicate IsTail(outbox: seq<Client.Entry>, issued: seq<Intent>, confirmed: nat) {
    && confirmed + |outbox| == |issued|
    && forall i :: 0 <= i < |outbox| ==> outbox[i].intent == issued[confirmed + i]
  }

  /** Promises settled in order, one per confirmed id; a server error is what the server logged. */
  ghost predicate SettledOk(settled: seq<Client.Settlement>, issued: seq<Intent>, done: seq<LogEntry>) {
    && |settled| <= |done| <= |issued|
    && forall i :: 0 <= i < |settled| ==> SettledAt(settled[i], i, issued, done)
  }

  ghost predicate SettledAt(x: Client.Settlement, i: nat, issued: seq<Intent>, done: seq<LogEntry>)
    requires i < |done| <= |issued|
  {
    x.id == i + 1 && x.intent == issued[i] && (x.error.Some? ==> x.error == done[i].error)
  }

  ghost predicate ClientOk(st: Client.State, c: ClientId, issued: seq<Intent>, s: Server.State) {
    && st.id == c && !st.needsRebase
    && Ledger(s, c, issued)
    && QueueOk(st.confirmed, st.outbox, st.synced, issued)
    && st.confirmed <= LastMutationId(s, c) <= Limit(st)
    && |st.settled| == st.confirmed && SettledOk(st.settled, issued, LogOf(s.log, c))
  }

  // ----- what is on its way -----

  /** A push is a gap-free slice of the client's mutations that starts at or below the next one due. */
  ghost predicate PushOk(ms: seq<Mutation>, issued: seq<Intent>, lmid: nat, limit: nat) {
    && ms != [] && 1 <= ms[0].id <= lmid + 1 && ms[0].id - 1 + |ms| <= limit <= |issued|
    && forall i :: 0 <= i < |ms| ==> ms[i] == Mutation(ms[0].id + i, issued[ms[0].id - 1 + i])
  }

  ghost predicate Confirms(p: Poke, c: ClientId, s: Server.State) {
    c in p.lmids ==>
      && p.lmids[c] <= LastMutationId(s, c)
      && ResultsOk(p.results, LogOf(s.log, c))
  }

  ghost predicate ResultsOk(results: seq<MutationResult>, done: seq<LogEntry>) {
    forall r :: r in results && r.error.Some? ==> 1 <= r.id <= |done| && done[r.id - 1].error == r.error
  }

  // ----- a push on the server -----

  ghost predicate BatchOk(b: Batch, s: Server.State, c: ClientId, issued: seq<Intent>) {
    && Ledger(b.s, c, issued) && Grows(s, b.s, c)
    && c in b.s.clients && b.lmid == LastMutationId(b.s, c)
    && b.s.clients.Keys == s.clients.Keys
    && ResultsOk(b.results, LogOf(b.s.log, c))
    && !b.stop.Gap?
    && forall d :: d != c ==> SameFor(s, b.s, d)
  }

  ghost predicate Listed(results: seq<MutationResult>, id: nat) {
    exists r :: r in results && r.id == id && r.error.Some?
  }

  /** Every error logged from `from` on is among the results. */
  ghost predicate ListsFrom(results: seq<MutationResult>, from: nat, done: seq<LogEntry>) {
    forall i :: from <= i < |done| && done[i].error.Some? ==> Listed(results, i + 1)
  }

  ghost predicate SameFor(s: Server.State, s': Server.State, d: ClientId) {
    LogOf(s'.log, d) == LogOf(s.log, d) && LastMutationId(s', d) == LastMutationId(s, d)
  }

  lemma CommitExtendsLedger(b: Batch, s: Server.State, c: ClientId, issued: seq<Intent>, m: Mutation, o: Outcome)
    requires BatchOk(b, s, c, issued) && b.stop == Running && !o.Transient?
    requires m.id == b.lmid + 1 <= |issued| && m.intent == issued[b.lmid]
    ensures BatchOk(Advance(b, c, m, o), s, c, issued)
  {
    var b' := Advance(b, c, m, o);
    var e := b'.s.log[|b'.s.log| - 1];
    assert b'.s.log == b.s.log + [e];
    LogOfAppend(b.s.log, e, c);
    forall d | d != c
      ensures SameFor(s, b'.s, d)
    {
      assert SameFor(s, b.s, d);
      LogOfAppend(b.s.log, e, d);
    }
    ResultsMore(b.results, MutationResult(m.id, e.error), LogOf(b.s.log, c), e);
  }

  lemma ResultsMore(results: seq<MutationResult>, r: MutationResult, done: seq<LogEntry>, e: LogEntry)
    requires ResultsOk(results, done) && r.id == |done| + 1 && r.error == e.error
    ensures ResultsOk(results + [r], done + [e])
  {
  }

  /** A slice runs without a gap: what is below the LMID is skipped, the rest extends the ledger. */
  lemma {:induction false} SliceRuns(
      s: Server.State, c: ClientId, issued: seq<Intent>, ms: seq<Mutation>, os: seq<Outcome>, limit: nat, n: nat)
    requires |ms| == |os| && n <= |ms|
    requires Ledger(s, c, issued) && c in s.clients
    requires PushOk(ms, issued, LastMutationId(s, c), limit) && LastMutationId(s, c) <= limit
    ensures var b := RunBatch(StartBatch(s, c), c, ms[..n], os[..n]);
            && BatchOk(b, s, c, issued) && b.lmid <= limit
            && (b.stop == Running ==> b.lmid >= ms[0].id - 1 + n)
            && ((forall i :: 0 <= i < n ==> !os[i].Transient?) ==> b.stop == Running)
    decreases n
  {
    hide BatchOk, Ledger, LastMutationId;
    if n > 0 {
      SliceRuns(s, c, issued, ms, os, limit, n - 1);
      RunUpTo(StartBatch(s, c), c, ms, os, n);
      assert ms[n - 1] == Mutation(ms[0].id + (n - 1), issued[ms[0].id - 1 + (n - 1)]);
      SliceStep(RunBatch(StartBatch(s, c), c, ms[..n - 1], os[..n - 1]), s, c, issued, ms[n - 1], os[n - 1], limit);
    } else {
      SliceStart(s, c, issued, ms, os);
    }
  }

  lemma SliceStart(s: Server.State, c: ClientId, issued: seq<Intent>, ms: seq<Mutation>, os: seq<Outcome>)
    requires |ms| == |os| && Ledger(s, c, issued) && c in s.clients
    ensures RunBatch(StartBatch(s, c), c, ms[..0], os[..0]) == StartBatch(s, c)
    ensures BatchOk(StartBatch(s, c), s, c, issued)
  {
  }

  lemma RunUpTo(b: Batch, c: ClientId, ms: seq<Mutation>, os: seq<Outcome>, n: nat)
    requires 0 < n <= |ms| == |os|
    ensures RunBatch(b, c, ms[..n], os[..n]) == Advance(RunBatch(b, c, ms[..n - 1], os[..n - 1]), c, ms[n - 1], os[n - 1])
  {
    assert ms[..n][..n - 1] == ms[..n - 1] && os[..n][..n - 1] == os[..n - 1];
  }

  lemma SliceStep(b: Batch, s: Server.State, c: ClientId, issued: seq<Intent>, m: Mutation, o: Outcome, limit: nat)
    requires BatchOk(b, s, c, issued) && b.lmid <= limit <= |issued|
    requires 1 <= m.id <= limit && m.intent == issued[m.id - 1]
    requires b.stop == Running ==> m.id <= b.lmid + 1
    ensures var b' := Advance(b, c, m, o);
            && BatchOk(b', s, c, issued) && b'.lmid <= limit
            && (b'.stop == Running ==> b.stop == Running && b'.lmid >= m.id)
            && (b.stop == Running && !o.Transient? ==> b'.stop == Running)
  {
    if b.stop == Running && m.id == b.lmid + 1 && !o.Transient? {
      CommitExtendsLedger(b, s, c, issued, m, o);
    }
  }

  lemma ListsMore(results: seq<MutationResult>, r: MutationResult, from: nat, done: seq<LogEntry>, e: LogEntry)
    requires ListsFrom(results, from, done) && r == MutationResult(|done| + 1, e.error)
    ensures ListsFrom(results + [r], from, done + [e])
  {
    forall i | from <= i < |done + [e]| && (done + [e])[i].error.Some?
      ensures Listed(results + [r], i + 1)
    {
      if i == |done| {
        assert r in results + [r];
      } else {
        var x :| x in results && x.id == i + 1 && x.error.Some?;
        assert x in results + [r];
      }
    }
  }

  lemma AdvanceLists(b: Batch, s: Server.State, c: ClientId, issued: seq<Intent>, m: Mutation, o: Outcome, from: nat)
    requires BatchOk(b, s, c, issued) && ListsFrom(b.results, from, LogOf(b.s.log, c))
    ensures ListsFrom(Advance(b, c, m, o).results, from, LogOf(Advance(b, c, m, o).s.log, c))
  {
    hide ListsFrom, SameFor;
    var b' := Advance(b, c, m, o);
    if b'.s != b.s {
      var e := b'.s.log[|b'.s.log| - 1];
      assert b'.s.log == b.s.log + [e];
      LogOfAppend(b.s.log, e, c);
      ListsMore(b.results, MutationResult(m.id, e.error), from, LogOf(b.s.log, c), e);
    }
  }

  /** The answer to a push names every error among the mutations it executed. */
  lemma {:induction false} SliceLists(
      s: Server.State, c: ClientId, issued: seq<Intent>, ms: seq<Mutation>, os: seq<Outcome>, limit: nat, n: nat)
    requires |ms| == |os| && n <= |ms|
    requires Ledger(s, c, issued) && c in s.clients
    requires PushOk(ms, issued, LastMutationId(s, c), limit) && LastMutationId(s, c) <= limit
    ensures var b := RunBatch(StartBatch(s, c), c, ms[..n], os[..n]);
            ListsFrom(b.results, LastMutationId(s, c), LogOf(b.s.log, c))
    decreases n
  {
    hide BatchOk, ListsFrom, PushOk;
    if n > 0 {
      SliceLists(s, c, issued, ms, os, limit, n - 1);
      SliceRuns(s, c, issued, ms, os, limit, n - 1);
      RunUpTo(StartBatch(s, c), c, ms, os, n);
      AdvanceLists(RunBatch(StartBatch(s, c), c, ms[..n - 1], os[..n - 1]), s, c, issued, ms[n - 1], os[n - 1], LastMutationId(s, c));
    } else {
      NothingToList(s, c, issued, ms, os);
    }
  }

  lemma NothingToList(s: Server.State, c: ClientId, issued: seq<Intent>, ms: seq<Mutation>, os: seq<Outcome>)
    requires |ms| == |os| && Ledger(s, c, issued)
    ensures var b := RunBatch(StartBatch(s, c), c, ms[..0], os[..0]);
            ListsFrom(b.results, LastMutationId(s, c), LogOf(b.s.log, c))
  {
  }

  // ----- a frame at the client -----

  lemma {:induction false} ErrorOfIsListed(results: seq<MutationResult>, id: nat)
    ensures Client.ErrorOf(results, id).Some? ==> MutationResult(id, Client.ErrorOf(results, id)) in results
    ensures Client.ErrorOf(results, id).Some? <==> Listed(results, id)
  {
    if results != [] {
      var (init, last) := (results[..|results| - 1], results[|results| - 1]);
      ErrorOfIsListed(init, id);
      assert results == init + [last];
      if Listed(init, id) {
        var r :| r in init && r.id == id && r.error.Some?;
        assert r in results;
      } else if last.id == id && last.error.Some? {
        assert last in results;
      }
    }
  }

  lemma QueueSettles(confirmed: nat, confirmed': nat, outbox: seq<Client.Entry>, synced: bool, issued: seq<Intent>)
    requires QueueOk(confirmed, outbox, synced, issued) && confirmed <= confirmed' <= confirmed + Numbered(outbox)
    ensures var k := confirmed' - confirmed;
            && Client.Unsettled(confirmed', outbox) == outbox[k..]
            && Numbered(outbox[k..]) == Numbered(outbox) - k
            && QueueOk(confirmed', outbox[k..], synced, issued)
  {
    var k, n := confirmed' - confirmed, Numbered(outbox);
    Client.SettleCutsRun(confirmed, confirmed', outbox, n, []);
    NumberedIsRun(confirmed', outbox[k..], n - k);
    TailOfTail(outbox, issued, confirmed, k);
  }

  lemma TailOfTail(outbox: seq<Client.Entry>, issued: seq<Intent>, confirmed: nat, k: nat)
    requires IsTail(outbox, issued, confirmed) && k <= |outbox|
    ensures IsTail(outbox[k..], issued, confirmed + k)
  {
    var rest := outbox[k..];
    assert forall i :: 0 <= i < |rest| ==> rest[i] == outbox[k + i];
  }

  /** Settling the newly confirmed entries extends the settled promises in order. */
  lemma SettlingExtends(
      settled: seq<Client.Settlement>, confirmed': nat, outbox: seq<Client.Entry>, issued: seq<Intent>,
      done: seq<LogEntry>, results: seq<MutationResult>)
    requires var confirmed := |settled|;
             && Client.WellFormed(confirmed, outbox, Numbered(outbox)) && IsTail(outbox, issued, confirmed)
             && confirmed <= confirmed' <= confirmed + Numbered(outbox) && confirmed' <= |done|
    requires SettledOk(settled, issued, done)
    requires confirmed' > |settled| ==> ResultsOk(results, done)
    ensures var settled' := settled + Client.Settlements(confirmed', outbox, results);
            |settled'| == confirmed' && SettledOk(settled', issued, done)
  {
    var k := confirmed' - |settled|;
    Client.SettleCutsRun(|settled|, confirmed', outbox, Numbered(outbox), results);
    var more := Client.Settle(outbox, k, |settled| + 1, results);
    forall i: nat | i < k
      ensures SettledAt(more[i], |settled| + i, issued, done)
    {
      ErrorOfIsListed(results, |settled| + 1 + i);
      assert more[i] == Client.Settlement(|settled| + 1 + i, outbox[i].intent, Client.ErrorOf(results, |settled| + 1 + i));
    }
    var settled' := settled + more;
    assert forall i :: |settled| <= i < |settled'| ==> settled'[i] == more[i - |settled|];
  }

  /**
   * A newly settled promise tells what the server logged for its mutation exactly if no error was logged or
   * the results at hand name it.
   */
  ghost predicate TellsIffListed(settled: seq<Client.Settlement>, from: nat, done: seq<LogEntry>, results: seq<MutationResult>) {
    forall i :: from <= i < |settled| && i < |done| ==>
      (settled[i].error == done[i].error <==> done[i].error.None? || Listed(results, i + 1))
  }

  lemma SettlingTellsIff(
      settled: seq<Client.Settlement>, confirmed': nat, outbox: seq<Client.Entry>, issued: seq<Intent>,
      done: seq<LogEntry>, results: seq<MutationResult>)
    requires var confirmed := |settled|;
             && Client.WellFormed(confirmed, outbox, Numbered(outbox)) && IsTail(outbox, issued, confirmed)
             && confirmed <= confirmed' <= confirmed + Numbered(outbox) && confirmed' <= |done|
    requires confirmed' > |settled| ==> ResultsOk(results, done)
    ensures TellsIffListed(settled + Client.Settlements(confirmed', outbox, results), |settled|, done, results)
  {
    hide Client.WellFormed, Client.Settlements, Client.Unsettled, Client.ErrorOf, IsTail;
    var k := confirmed' - |settled|;
    Client.SettleCutsRun(|settled|, confirmed', outbox, Numbered(outbox), results);
    var more := Client.Settle(outbox, k, |settled| + 1, results);
    var settled' := settled + more;
    forall i | |settled| <= i < |settled'|
      ensures settled'[i].error == done[i].error <==> done[i].error.None? || Listed(results, i + 1)
    {
      ErrorOfIsListed(results, i + 1);
      assert settled'[i] == more[i - |settled|];
    }
  }

  /** The first poke of a connection numbers whatever was queued without a baseline. */
  lemma QueueAssigns(confirmed: nat, outbox: seq<Client.Entry>, synced: bool, issued: seq<Intent>)
    requires QueueOk(confirmed, outbox, synced, issued)
    ensures var after := Client.AssignFrom(confirmed, outbox, 0);
            QueueOk(confirmed, after, true, issued) && Numbered(after) == |outbox| >= Numbered(outbox)
  {
    Client.AssignCompletesRun(confirmed, outbox, Numbered(outbox), 0);
    NumberedIsRun(confirmed, Client.AssignFrom(confirmed, outbox, 0), |outbox|);
  }

  /** What a poke a client can apply may rely on: its own history, and confirmations of what is logged. */
  ghost predicate Applicable(st: Client.State, b: Client.PokeBuffer, end: Cursor, c: ClientId, issued: seq<Intent>, s: Server.State) {
    && ClientOk(st, c, issued, s)
    && Confirms(Poke(b.base, b.ops, b.lmids, b.results, end), c, s)
    && (st.cursor.Some? ==> st.cursor.value.backend == end.backend)
  }

  lemma AppliedQueue(st: Client.State, b: Client.PokeBuffer, end: Cursor, c: ClientId, issued: seq<Intent>, s: Server.State)
    requires Applicable(st, b, end, c, issued, s)
    ensures var st' := Client.ApplyPoke(st, b, end);
            && QueueOk(st'.confirmed, st'.outbox, st'.synced, issued)
            && st'.confirmed <= LastMutationId(s, c) && Limit(st) <= Limit(st')
  {
    var confirmed' := Client.ConfirmedAfter(st, b, false);
    QueueSettles(st.confirmed, confirmed', st.outbox, st.synced, issued);
    var rest := st.outbox[confirmed' - st.confirmed..];
    QueueAssigns(confirmed', rest, st.synced, issued);
    AppliedParts(st, b, end, confirmed', rest);
  }

  lemma AppliedSettled(st: Client.State, b: Client.PokeBuffer, end: Cursor, c: ClientId, issued: seq<Intent>, s: Server.State)
    requires Applicable(st, b, end, c, issued, s)
    ensures var st' := Client.ApplyPoke(st, b, end);
            |st'.settled| == st'.confirmed && SettledOk(st'.settled, issued, LogOf(s.log, c))
  {
    var confirmed' := Client.ConfirmedAfter(st, b, false);
    SettlingExtends(st.settled, confirmed', st.outbox, issued, LogOf(s.log, c), b.results);
    AppliedParts(st, b, end, confirmed', Client.Unsettled(confirmed', st.outbox));
  }

  lemma ApplyPokeOk(st: Client.State, b: Client.PokeBuffer, end: Cursor, c: ClientId, issued: seq<Intent>, s: Server.State)
    requires Applicable(st, b, end, c, issued, s)
    ensures var st' := Client.ApplyPoke(st, b, end); ClientOk(st', c, issued, s) && Limit(st) <= Limit(st')
  {
    AppliedQueue(st, b, end, c, issued, s);
    AppliedSettled(st, b, end, c, issued, s);
    AppliedParts(st, b, end, Client.ConfirmedAfter(st, b, false), Client.Unsettled(Client.ConfirmedAfter(st, b, false), st.outbox));
  }

  /** The promises an applied poke settles tell what the server logged exactly as far as its results name the errors. */
  lemma ApplyPokeTellsIff(st: Client.State, b: Client.PokeBuffer, end: Cursor, c: ClientId, issued: seq<Intent>, s: Server.State)
    requires Applicable(st, b, end, c, issued, s)
    ensures TellsIffListed(Client.ApplyPoke(st, b, end).settled, |st.settled|, LogOf(s.log, c), b.results)
  {
    var confirmed' := Client.ConfirmedAfter(st, b, false);
    SettlingTellsIff(st.settled, confirmed', st.outbox, issued, LogOf(s.log, c), b.results);
    AppliedParts(st, b, end, confirmed', Client.Unsettled(confirmed', st.outbox));
  }

  /** Without a change of backend or a rebase due, applying a poke settles and, if first, numbers. */
  lemma AppliedParts(st: Client.State, b: Client.PokeBuffer, end: Cursor, confirmed': nat, rest: seq<Client.Entry>)
    requires !st.needsRebase && (st.cursor.Some? ==> st.cursor.value.backend == end.backend)
    requires confirmed' == Client.ConfirmedAfter(st, b, false) && rest == Client.Unsettled(confirmed', st.outbox)
    ensures var st' := Client.ApplyPoke(st, b, end);
            && st'.id == st.id && st'.confirmed == confirmed' && st'.synced && !st'.needsRebase
            && st'.settled == st.settled + Client.Settlements(confirmed', st.outbox, b.results)
            && st'.outbox == if st.synced then rest else Client.AssignFrom(confirmed', rest, 0)
  {
  }

  lemma FrameApplies(st: Client.State, f: Client.Frame)
    requires Client.Applies(st, f)
    ensures Client.OnFrame(st, f) == (Client.ApplyPoke(st.(poke := None), st.poke.value, f.end), [])
  {
  }

  lemma FrameWaits(st: Client.State, f: Client.Frame)
    requires !Client.Applies(st, f) && f != Client.ErrorFrame(PushInvalid)
    ensures var st' := Client.OnFrame(st, f).0; st' == st.(poke := st'.poke, awaitingCatchUp := st'.awaitingCatchUp)
  {
  }

  lemma FrameOk(st: Client.State, f: Client.Frame, c: ClientId, issued: seq<Intent>, s: Server.State)
    requires ClientOk(st, c, issued, s) && f != Client.ErrorFrame(PushInvalid)
    requires forall q :: q in Completed(PartialOf(st.poke), f) ==>
               Confirms(q, c, s) && (st.cursor.Some? ==> st.cursor.value.backend == q.end.backend)
    ensures var st' := Client.OnFrame(st, f).0; ClientOk(st', c, issued, s) && Limit(st') >= Limit(st)
  {
    if Client.Applies(st, f) {
      var b := st.poke.value;
      FrameApplies(st, f);
      assert Poke(b.base, b.ops, b.lmids, b.results, f.end) in Completed(PartialOf(st.poke), f);
      ApplyPokeOk(st.(poke := None), b, f.end, c, issued, s);
    } else {
      FrameWaits(st, f);
    }
  }

  lemma QueueEnqueues(confirmed: nat, outbox: seq<Client.Entry>, synced: bool, issued: seq<Intent>, intent: Intent)
    requires QueueOk(confirmed, outbox, synced, issued)
    ensures var queued := outbox + [Client.Entry(None, intent)];
            var after := if synced then queued[|outbox| := Client.Entry(Some(Client.NextMutationId(confirmed, queued)), intent)] else queued;
            QueueOk(confirmed, after, synced, issued + [intent]) && Numbered(after) >= Numbered(outbox)
  {
    var queued, n := outbox + [Client.Entry(None, intent)], Numbered(outbox);
    EntryAdded(confirmed, outbox, n, Client.Entry(None, intent), issued);
    if synced {
      Client.NextIdContinuesRun(confirmed, queued, n);
      var id := Client.NextMutationId(confirmed, queued);
      var e := Client.Entry(Some(id), intent);
      assert queued[|outbox| := e] == outbox + [e];
      EntryAdded(confirmed, outbox, n, e, issued);
    }
  }

  lemma EntryAdded(confirmed: nat, outbox: seq<Client.Entry>, n: nat, e: Client.Entry, issued: seq<Intent>)
    requires Client.WellFormed(confirmed, outbox, n) && IsTail(outbox, issued, confirmed)
    requires e.id.None? || (n == |outbox| && e.id.value == confirmed + n + 1)
    ensures var m := if e.id.None? then n else n + 1;
            Client.WellFormed(confirmed, outbox + [e], m) && Numbered(outbox + [e]) == m
    ensures IsTail(outbox + [e], issued + [e.intent], confirmed)
  {
    NumberedIsRun(confirmed, outbox + [e], if e.id.None? then n else n + 1);
  }

  lemma EnqueueOk(st: Client.State, intent: Intent, c: ClientId, issued: seq<Intent>, s: Server.State)
    requires ClientOk(st, c, issued, s)
    ensures var st' := Client.Enqueue(st, intent); ClientOk(st', c, issued + [intent], s) && Limit(st') >= Limit(st)
  {
    QueueEnqueues(st.confirmed, st.outbox, st.synced, issued, intent);
    assert forall i :: 0 <= i < |st.settled| ==> SettledAt(st.settled[i], i, issued, LogOf(s.log, c));
  }

  lemma PushBatchOk(confirmed: nat, outbox: seq<Client.Entry>, synced: bool, issued: seq<Intent>, lmid: nat)
    requires QueueOk(confirmed, outbox, synced, issued) && confirmed <= lmid
    requires Client.PushBatch(confirmed, outbox) != []
    ensures PushOk(Client.PushBatch(confirmed, outbox), issued, lmid, confirmed + Numbered(outbox))
  {
    Client.PushIsTheRun(confirmed, outbox, Numbered(outbox));
    var ms := Client.PushBatch(confirmed, outbox);
    assert forall i :: 0 <= i < |ms| ==> ms[i] == Mutation(confirmed + 1 + i, outbox[i].intent);
  }

  /** What a client knows stays right while the server adds to its ledger within the ids given out. */
  lemma ClientOkGrows(st: Client.State, c: ClientId, issued: seq<Intent>, s: Server.State, s': Server.State)
    requires ClientOk(st, c, issued, s) && Grows(s, s', c) && Ledger(s', c, issued)
    requires LastMutationId(s', c) <= Limit(st)
    ensures ClientOk(st, c, issued, s')
  {
  }
}
