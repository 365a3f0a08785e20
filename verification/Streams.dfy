/** What a client will make of the frames still on their way: the pokes they complete, whole. */
module Streams {
  import opened Rows
  import opened Server
  import opened Client
  import opened Protocol

  datatype Partial = Partial(
    pokeId: nat, base: Option<Cursor>, ops: seq<PatchOp>, lmids: map<ClientId, nat>, results: seq<MutationResult>)

  function PartialOf(buf: Option<PokeBuffer>): Option<Partial> {
    match buf
    case None => None
    case Some(b) => Some(Partial(b.pokeId, b.base, b.ops, b.lmids, b.results))
  }

  function After(b: Option<Partial>, f: Frame): Option<Partial> {
    match f
    case PokeStart(id, base) => Some(Partial(id, base, [], map[], []))
    case PokePart(id, ops, lmids, results) =>
      if b.None? || b.value.pokeId != id then None
      else Some(b.value.(ops := b.value.ops + ops, lmids := b.value.lmids + lmids, results := b.value.results + results))
    case PokeEnd(_, _) => None
    case ErrorFrame(_) => b
  }

  function Completed(b: Option<Partial>, f: Frame): seq<Poke> {
    if f.PokeEnd? && b.Some? && b.value.pokeId == f.pokeId then
      [Poke(b.value.base, b.value.ops, b.value.lmids, b.value.results, f.end)]
    else []
  }

  /** The pokes a client holding this part of a poke will see end, in order. */
  function Completes(b: Option<Partial>, fs: seq<Frame>): seq<Poke>
    decreases |fs|
  {
    if fs == [] then [] else Completed(b, fs[0]) + Completes(After(b, fs[0]), fs[1..])
  }

  function AfterAll(b: Option<Partial>, fs: seq<Frame>): Option<Partial>
    decreases |fs|
  {
    if fs == [] then b else AfterAll(After(b, fs[0]), fs[1..])
  }

  /** The client's own buffer follows the same course. */
  lemma OnFrameFollows(s: Client.State, f: Frame)
    ensures PartialOf(OnFrame(s, f).0.poke) == After(PartialOf(s.poke), f)
  {
  }

  lemma {:induction false} CompletesConcat(b: Option<Partial>, x: seq<Frame>, y: seq<Frame>)
    ensures Completes(b, x + y) == Completes(b, x) + Completes(AfterAll(b, x), y)
    decreases |x|
  {
    if x == [] {
      assert x + y == y;
      assert [] + Completes(b, y) == Completes(b, y);
    } else {
      assert (x + y)[1..] == x[1..] + y;
      CompletesConcat(After(b, x[0]), x[1..], y);
    }
  }

  lemma CompletesPrefix(b: Option<Partial>, fs: seq<Frame>, n: nat)
    requires n <= |fs|
    ensures Completes(b, fs[..n]) <= Completes(b, fs)
  {
    assert fs == fs[..n] + fs[n..];
    CompletesConcat(b, fs[..n], fs[n..]);
  }

  function Grown(b: Partial, p: Poke, ops: seq<PatchOp>, first: bool): Partial {
    if first then b.(ops := b.ops + ops, lmids := b.lmids + p.lmids, results := b.results + p.results)
    else b.(ops := b.ops + ops)
  }

  lemma PartGrows(b: Partial, p: Poke, part: seq<PatchOp>, first: bool)
    ensures var f := PokePart(b.pokeId, part, if first then p.lmids else map[], if first then p.results else []);
            After(Some(b), f) == Some(Grown(b, p, part, first)) && Completed(Some(b), f) == []
  {
    assert b.lmids + map[] == b.lmids && b.results + [] == b.results;
  }

  lemma GrownTwice(b: Partial, p: Poke, part: seq<PatchOp>, rest: seq<PatchOp>, first: bool)
    ensures Grown(Grown(b, p, part, first), p, rest, false) == Grown(b, p, part + rest, first)
  {
    assert b.ops + part + rest == b.ops + (part + rest);
  }

  lemma CompletesCons(b: Option<Partial>, f: Frame, fs: seq<Frame>)
    ensures Completes(b, [f] + fs) == Completed(b, f) + Completes(After(b, f), fs)
  {
    assert ([f] + fs)[1..] == fs;
  }

  lemma EndCompletes(b: Partial, end: Cursor)
    ensures Completes(Some(b), [PokeEnd(b.pokeId, end)]) == [Poke(b.base, b.ops, b.lmids, b.results, end)]
  {
    assert [PokeEnd(b.pokeId, end)][1..] == [];
  }

  lemma {:induction false} CompletesParts(b: Partial, p: Poke, parts: seq<seq<PatchOp>>, first: bool)
    requires parts == [] ==> !first
    ensures var whole := Grown(b, p, Flatten(parts), first);
            Completes(Some(b), PartFrames(b.pokeId, p, parts, first) + [PokeEnd(b.pokeId, p.end)]) ==
            [Poke(b.base, whole.ops, whole.lmids, whole.results, p.end)]
    decreases |parts|
  {
    var end := [PokeEnd(b.pokeId, p.end)];
    if parts == [] {
      assert PartFrames(b.pokeId, p, parts, first) + end == end;
      EndCompletes(b, p.end);
      assert b.ops + [] == b.ops;
    } else {
      var f := PartFrames(b.pokeId, p, parts, first)[0];
      var rest := PartFrames(b.pokeId, p, parts[1..], false) + end;
      var b' := Grown(b, p, parts[0], first);
      PartGrows(b, p, parts[0], first);
      CompletesParts(b', p, parts[1..], false);
      GrownTwice(b, p, parts[0], Flatten(parts[1..]), first);
      CompletesCons(Some(b), f, rest);
      assert PartFrames(b.pokeId, p, parts, first) + end == [f] + rest;
    }
  }

  /** The frames of a poke complete that poke and nothing else, whatever they follow. */
  lemma CompletesPoke(b: Option<Partial>, pokeId: nat, p: Poke, parts: seq<seq<PatchOp>>)
    requires IsSplit(parts, p.ops)
    ensures Completes(b, PokeFrames(pokeId, p, parts)) == [p]
  {
    var fs := PokeFrames(pokeId, p, parts);
    var b' := Partial(pokeId, p.base, [], map[], []);
    assert fs[1..] == PartFrames(pokeId, p, parts, true) + [PokeEnd(pokeId, p.end)];
    CompletesParts(b', p, parts, true);
    assert [] + p.ops == p.ops && map[] + p.lmids == p.lmids && [] + p.results == p.results;
  }

  ghost predicate OnlyErrors(fs: seq<Frame>) {
    forall i :: 0 <= i < |fs| ==> fs[i].ErrorFrame?
  }

  lemma {:induction false} ErrorsCompleteNothing(b: Option<Partial>, fs: seq<Frame>)
    requires OnlyErrors(fs)
    ensures Completes(b, fs) == []
    decreases |fs|
  {
    if fs != [] {
      ErrorsCompleteNothing(After(b, fs[0]), fs[1..]);
    }
  }

  lemma {:induction false} ErrorsAreErrors(out: seq<Outgoing>)
    ensures OnlyErrors(Errors(out))
    decreases |out|
  {
    if out != [] {
      ErrorsAreErrors(out[1..]);
    }
  }

  // ----- what a step of the server adds to the queues -----

  /** The socket changes so that its client will see at most one more poke complete. */
  ghost predicate AddsAt(k: Sock, k': Sock, p: Option<Poke>) {
    && k'.client == k.client && (k.ready ==> k'.ready)
    && forall b, q :: q in Completes(b, k'.down) ==> q in Completes(b, k.down) || p == Some(q)
  }

  ghost predicate Adds(socks: map<SockId, Sock>, socks': map<SockId, Sock>, p: Option<Poke>) {
    forall i :: i in socks ==> i in socks' && AddsAt(socks[i], socks'[i], p)
  }

  lemma AddsTrans(a: map<SockId, Sock>, b: map<SockId, Sock>, c: map<SockId, Sock>, p: Option<Poke>)
    requires Adds(a, b, p) && Adds(b, c, p)
    ensures Adds(a, c, p)
  {
    forall i | i in a
      ensures i in c && AddsAt(a[i], c[i], p)
    {
      assert AddsAt(a[i], b[i], p) && AddsAt(b[i], c[i], p);
    }
  }

  /** A poke delivered whole or cut short adds at most itself. */
  lemma DeliveryAdds(k: Sock, k': Sock, pokeId: nat, p: Poke, parts: seq<seq<PatchOp>>)
    requires IsSplit(parts, p.ops) && Delivery(k, k', PokeFrames(pokeId, p, parts))
    ensures AddsAt(k, k', Some(p))
  {
    var fs := PokeFrames(pokeId, p, parts);
    var n :| 0 <= n <= |fs| && DeliveryOf(k, k', fs, n);
    forall b
      ensures forall q :: q in Completes(b, k'.down) ==> q in Completes(b, k.down) || q == p
    {
      CompletesConcat(b, k.down, fs[..n]);
      CompletesPrefix(AfterAll(b, k.down), fs, n);
      CompletesPoke(AfterAll(b, k.down), pokeId, p, parts);
    }
  }

  lemma BroadcastAdds(
      socks: map<SockId, Sock>, socks': map<SockId, Sock>, only: Option<SockId>,
      pokeId: nat, p: Poke, parts: seq<seq<PatchOp>>)
    requires IsSplit(parts, p.ops) && Broadcast(socks, socks', only, PokeFrames(pokeId, p, parts))
    ensures Adds(socks, socks', Some(p))
  {
    forall i | i in socks
      ensures i in socks' && AddsAt(socks[i], socks'[i], Some(p))
    {
      if Listening(socks[i]) && (only.None? || only == Some(i)) {
        DeliveryAdds(socks[i], socks'[i], pokeId, p, parts);
      }
    }
  }

  lemma ErrorsAdd(socks: map<SockId, Sock>, i: SockId, k: Sock, k': Sock, fs: seq<Frame>, p: Option<Poke>)
    requires i in socks && k == socks[i].(up := k.up) && OnlyErrors(fs)
    requires Delivery(k, k', fs)
    ensures Adds(socks, socks[i := k'], p)
  {
    var n :| 0 <= n <= |fs| && DeliveryOf(k, k', fs, n);
    forall b
      ensures Completes(b, k'.down) == Completes(b, socks[i].down)
    {
      CompletesConcat(b, k.down, fs[..n]);
      ErrorsCompleteNothing(AfterAll(b, k.down), fs[..n]);
    }
  }

  lemma ServeHelloAdds(
      s: System, s': System, sock: SockId, cursor: Option<Cursor>, poke: Poke, pokeId: nat, parts: seq<seq<PatchOp>>)
    requires StepServeHello(s, s', sock, cursor, poke, pokeId, parts)
    ensures Adds(s.socks, s'.socks, Some(poke))
  {
    var sent :| Delivery(Popped(s, sock), sent, PokeFrames(pokeId, poke, parts))
             && s'.socks[sock] == sent.(ready := true, defunct := false);
    DeliveryAdds(Popped(s, sock), sent, pokeId, poke, parts);
  }

  /** The poke a push is answered with, if any. */
  function PokeOf(out: seq<Outgoing>): Option<Poke> {
    if out != [] && out[|out| - 1].Send? then Some(out[|out| - 1].poke) else None
  }

  lemma ServePushAdds(
      s: System, s': System, sock: SockId, ms: seq<Mutation>, os: seq<Outcome>, out: seq<Outgoing>,
      pokeId: nat, parts: seq<seq<PatchOp>>)
    requires StepServePush(s, s', sock, ms, os, out, pokeId, parts)
    ensures Adds(s.socks, s'.socks, PokeOf(out))
  {
    var told :| Delivery(Popped(s, sock), told, Errors(out)) && Answered(s.socks[sock := told], s'.socks, sock, out, pokeId, parts);
    var socks := s.socks[sock := told];
    ErrorsAreErrors(out);
    ErrorsAdd(s.socks, sock, Popped(s, sock), told, Errors(out), PokeOf(out));
    if PokeOf(out).Some? {
      var last := out[|out| - 1];
      BroadcastAdds(socks, s'.socks, if last.everyone then None else Some(sock), pokeId, last.poke, parts);
      AddsTrans(s.socks, socks, s'.socks, PokeOf(out));
    }
  }
}
