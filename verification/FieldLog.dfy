/**
 * The server half of Yjs fields (packages/yjs/src/server.ts): an append-only log of updates per field, folded
 * into a snapshot now and then, with a least-recently-used cache of loaded docs, a byte ceiling and the
 * sockets' refusals. A doc is the set of operations it holds, so that merging is union.
 */
module FieldLog {
  import opened Rows
  import opened JsMaps

  const MAX_FIELD_UPDATE_BYTES := 200_000
  const MAX_FIELD_BYTES := 700_000
  const MAX_LOG_BYTES := 900_000

  datatype Op = Op(client: nat, clock: nat)

  type Doc = set<Op>

  /** `parses` is the structural check; an update that passes it may still fail to apply (`content` is None). */
  datatype Update = Update(size: nat, parses: bool, content: Option<Doc>)

  function Content(u: Update): Doc {
    if u.content.Some? then u.content.value else {}
  }

  datatype Reason = NotWritable | Frozen | TooLarge

  datatype Verdict = Dropped | Rejected(reason: Reason) | Accepted

  datatype Field = Field(snapshot: Option<Doc>, snapshotSeq: nat, byteTotal: nat, frozen: bool)

  const NEW_FIELD := Field(None, 0, 0, false)

  datatype Logged = Logged(number: nat, update: Update)

  /** How large a doc encodes to is Yjs's affair. */
  datatype Config = Config(maxCachedDocs: nat, encodedSize: Doc -> nat)

  datatype State = State(
    fields: map<string, Field>, updates: map<string, seq<Logged>>,
    cache: JsMap<string, Doc>, refused: map<nat, set<string>>)

  const NO_DOCS: JsMap<string, Doc> := Empty()

  const EMPTY := State(map[], map[], NO_DOCS, map[])

  function FieldOf(s: State, f: string): Field {
    if f in s.fields then s.fields[f] else NEW_FIELD
  }

  function TailOf(s: State, f: string): seq<Logged> {
    if f in s.updates then s.updates[f] else []
  }

  predicate IsRefused(s: State, ws: nat, f: string) {
    ws in s.refused && f in s.refused[ws]
  }

  function LastNumber(s: State, f: string): nat {
    var tail := TailOf(s, f);
    if tail == [] then FieldOf(s, f).snapshotSeq else tail[|tail| - 1].number
  }

  function Joined(tail: seq<Logged>, above: nat): Doc {
    if tail == [] then {}
    else
      var last := tail[|tail| - 1];
      Joined(tail[..|tail| - 1], above) + if last.number > above then Content(last.update) else {}
  }

  function SnapshotOf(s: State, f: string): Doc {
    var snapshot := FieldOf(s, f).snapshot;
    if snapshot.Some? then snapshot.value else {}
  }

  /** The snapshot and the tail above it: what a fresh load builds. */
  function LogDoc(s: State, f: string): Doc {
    SnapshotOf(s, f) + Joined(TailOf(s, f), FieldOf(s, f).snapshotSeq)
  }

  // ----- the cache -----

  function Trimmed(cache: JsMap<string, Doc>, max: nat): JsMap<string, Doc>
    decreases |cache.order|
  {
    if |cache.order| <= max then cache
    else
      WithoutIsDistinct(cache.order, cache.order[0]);
      Trimmed(Delete(cache, cache.order[0]), max)
  }

  function CacheDoc(cache: JsMap<string, Doc>, max: nat, f: string, doc: Doc): JsMap<string, Doc> {
    Trimmed(Insert(Delete(cache, f), f, doc), max)
  }

  lemma {:induction false} WithoutFirst(order: seq<string>)
    requires order != [] && Distinct(order)
    ensures Without(order, order[0]) == order[1..]
  {
    WithoutAbsent(order[1..], order[0]);
  }

  lemma {:induction false} WithoutAbsent(order: seq<string>, f: string)
    requires f !in order
    ensures Without(order, f) == order
  {
    if order != [] { WithoutAbsent(order[1..], f); }
  }

  ghost predicate Sub(a: JsMap<string, Doc>, b: JsMap<string, Doc>) {
    forall k :: k in a.vals ==> k in b.vals && a.vals[k] == b.vals[k]
  }

  /** Eviction takes the least recently used: what stays is the end of the order, and keeps its docs. */
  lemma {:induction false} TrimmedKeepsNewest(cache: JsMap<string, Doc>, max: nat)
    requires JsMaps.Valid(cache)
    ensures JsMaps.Valid(Trimmed(cache, max)) && Sub(Trimmed(cache, max), cache)
    ensures Trimmed(cache, max).order == cache.order[if |cache.order| <= max then 0 else |cache.order| - max..]
    decreases |cache.order|
  {
    hide Without;
    if |cache.order| > max {
      WithoutIsDistinct(cache.order, cache.order[0]);
      WithoutFirst(cache.order);
      TrimmedKeepsNewest(Delete(cache, cache.order[0]), max);
    }
  }

  /** A doc just used is the last to go, and only a cache of no docs at all forgets it at once. */
  lemma CacheDocIsLru(cache: JsMap<string, Doc>, max: nat, f: string, doc: Doc)
    requires JsMaps.Valid(cache)
    ensures var cache' := CacheDoc(cache, max, f, doc);
            var order := Without(cache.order, f) + [f];
            && JsMaps.Valid(cache')
            && cache'.order == order[if |order| <= max then 0 else |order| - max..]
            && |cache'.order| <= max
            && (forall k :: k in cache'.vals && k != f ==> k in cache.vals && cache'.vals[k] == cache.vals[k])
            && (f in cache'.vals ==> cache'.vals[f] == doc)
            && (f in cache'.vals <==> max > 0)
  {
    hide Without, Trimmed, Distinct;
    var put := Insert(Delete(cache, f), f, doc);
    TrimmedKeepsNewest(put, max);
    PutOrder(cache, f, doc);
    TailHolds(put.order, if |put.order| <= max then 0 else |put.order| - max, f);
  }

  lemma PutOrder(cache: JsMap<string, Doc>, f: string, doc: Doc)
    ensures Insert(Delete(cache, f), f, doc).order == Without(cache.order, f) + [f]
  {
  }

  lemma TailHolds(order: seq<string>, from: nat, f: string)
    requires order != [] && from <= |order| && order[|order| - 1] == f
    ensures f in order[from..] <==> from < |order|
  {
    if from < |order| {
      assert order[from..][|order| - 1 - from] == f;
    }
  }

  // ----- the steps -----

  function Fetched(cfg: Config, s: State, f: string): State {
    var doc := if f in s.cache.vals then s.cache.vals[f] else LogDoc(s, f);
    s.(cache := CacheDoc(s.cache, cfg.maxCachedDocs, f, doc))
  }

  function Judge(s: State, ws: nat, f: string, u: Update, authorized: bool): Verdict {
    if IsRefused(s, ws, f) then Dropped
    else if !authorized then Rejected(NotWritable)
    else if u.size > MAX_FIELD_UPDATE_BYTES then Rejected(TooLarge)
    else if FieldOf(s, f).frozen then Rejected(Frozen)
    else if !u.parses then Dropped
    else Accepted
  }

  /** An update is taken exactly if nothing stands against it; whatever does is named, in this order, unless already told. */
  lemma AcceptedIff(s: State, ws: nat, f: string, u: Update, authorized: bool)
    ensures Accepts(s, Updates(ws, f, u, authorized), f) <==>
              !IsRefused(s, ws, f) && authorized && u.size <= 200_000 && !FieldOf(s, f).frozen && u.parses
    ensures !IsRefused(s, ws, f) ==>
              var verdict := Judge(s, ws, f, u, authorized);
              && (verdict == Rejected(NotWritable) <==> !authorized)
              && (verdict == Rejected(TooLarge) <==> authorized && u.size > 200_000)
              && (verdict == Rejected(Frozen) <==> authorized && u.size <= 200_000 && FieldOf(s, f).frozen)
    ensures forall g :: IsRefused(Taken(s, ws, f, u, authorized), ws, g) <==>
              IsRefused(s, ws, g) || (g == f && (!authorized || u.size > 200_000 || FieldOf(s, f).frozen))
  {
  }

  function Refusing(s: State, ws: nat, f: string): State {
    s.(refused := s.refused[ws := (if ws in s.refused then s.refused[ws] else {}) + {f}])
  }

  /** A cached doc takes the update as well, or is evicted if it cannot. */
  function Followed(cache: JsMap<string, Doc>, f: string, u: Update): JsMap<string, Doc> {
    if f !in cache.vals then cache
    else if u.content.None? then Delete(cache, f)
    else Insert(cache, f, cache.vals[f] + u.content.value)
  }

  /** The update that crosses the ceiling is still taken, and freezes the field. */
  function Appended(s: State, f: string, u: Update): State {
    var total := FieldOf(s, f).byteTotal + u.size;
    s.(fields := s.fields[f := FieldOf(s, f).(byteTotal := total, frozen := total > MAX_FIELD_BYTES)],
       updates := s.updates[f := TailOf(s, f) + [Logged(LastNumber(s, f) + 1, u)]],
       cache := Followed(s.cache, f, u))
  }

  function Taken(s: State, ws: nat, f: string, u: Update, authorized: bool): State {
    match Judge(s, ws, f, u, authorized)
    case Dropped => s
    case Rejected(_) => Refusing(s, ws, f)
    case Accepted => Appended(s, f, u)
  }

  function Folded(cfg: Config, s: State, f: string): Field {
    FieldOf(s, f).(snapshot := Some(LogDoc(s, f)), snapshotSeq := LastNumber(s, f), byteTotal := cfg.encodedSize(LogDoc(s, f)))
  }

  /** `frozen` stays as it was. */
  function Compacted(cfg: Config, s: State, f: string): State {
    if TailOf(s, f) == [] then s
    else
      s.(fields := if f in s.fields then s.fields[f := Folded(cfg, s, f)] else s.fields,
         updates := s.updates - {f},
         cache := CacheDoc(s.cache, cfg.maxCachedDocs, f, LogDoc(s, f)))
  }

  function Imported(cfg: Config, docs: map<string, Doc>): map<string, Field> {
    map f | f in docs ::
      Field(Some(docs[f]), 0, cfg.encodedSize(docs[f]), cfg.encodedSize(docs[f]) > MAX_FIELD_BYTES)
  }

  /** `Wakes` is the object starting again: what it kept in memory is gone. */
  datatype Event =
    | Updates(ws: nat, f: string, u: Update, authorized: bool)
    | Gets(f: string)
    | Compacts(f: string)
    | Imports(docs: map<string, Doc>)
    | Resets
    | Wakes

  function Step(cfg: Config, s: State, e: Event): State {
    match e
    case Updates(ws, f, u, authorized) => Taken(s, ws, f, u, authorized)
    case Gets(f) => Fetched(cfg, s, f)
    case Compacts(f) => Compacted(cfg, s, f)
    case Imports(docs) => State(Imported(cfg, docs), map[], NO_DOCS, s.refused)
    case Resets => EMPTY
    case Wakes => State(s.fields, s.updates, NO_DOCS, map[])
  }

  function Run(cfg: Config, s: State, es: seq<Event>): State {
    if es == [] then s else Step(cfg, Run(cfg, s, es[..|es| - 1]), es[|es| - 1])
  }

  // ----- what every step keeps -----

  ghost predicate LogOk(s: State, f: string) {
    && (TailOf(s, f) != [] ==> f in s.fields)
    && Numbered(TailOf(s, f), FieldOf(s, f).snapshotSeq)
  }

  /** Numbers go up by one from the snapshot's. */
  ghost predicate Numbered(tail: seq<Logged>, base: nat) {
    forall i :: 0 <= i < |tail| ==> tail[i].number == base + 1 + i
  }

  ghost predicate CacheOk(cfg: Config, s: State) {
    && JsMaps.Valid(s.cache)
    && |s.cache.order| <= cfg.maxCachedDocs
    && forall f :: f in s.cache.vals ==> s.cache.vals[f] == LogDoc(s, f)
  }

  ghost predicate Coherent(cfg: Config, s: State) {
    CacheOk(cfg, s) && forall f :: LogOk(s, f)
  }

  lemma JoinedAppend(tail: seq<Logged>, above: nat, l: Logged)
    ensures Joined(tail + [l], above) == Joined(tail, above) + if l.number > above then Content(l.update) else {}
  {
    assert (tail + [l])[..|tail|] == tail;
  }

  /** An accepted update joins the field's doc under the next number, and touches no other field. */
  lemma AppendJoins(s: State, f: string, u: Update, g: string)
    requires LogOk(s, f) && LogOk(s, g)
    ensures var s' := Appended(s, f, u);
            && LogOk(s', g)
            && LogDoc(s', g) == LogDoc(s, g) + (if g == f then Content(u) else {})
            && LastNumber(s', g) == LastNumber(s, g) + if g == f then 1 else 0
  {
    hide Joined;
    if g == f {
      JoinedAppend(TailOf(s, f), FieldOf(s, f).snapshotSeq, Logged(LastNumber(s, f) + 1, u));
    }
  }

  /** Folding the tail into the snapshot changes no field's doc and no number. */
  lemma CompactIsInvisible(cfg: Config, s: State, f: string, g: string)
    requires LogOk(s, f) && LogOk(s, g)
    ensures var s' := Compacted(cfg, s, f);
            && LogOk(s', g)
            && LogDoc(s', g) == LogDoc(s, g)
            && LastNumber(s', g) == LastNumber(s, g)
            && FieldOf(s', g).frozen == FieldOf(s, g).frozen
  {
    hide CacheDoc;
    if g == f && TailOf(s, f) != [] {
      assert Joined([], LastNumber(s, f)) == {};
    }
  }

  /** What a fold leaves is one snapshot of the whole doc, and the running total is what that encodes to. */
  lemma FoldMeasures(cfg: Config, s: State, f: string)
    requires LogOk(s, f) && TailOf(s, f) != []
    ensures var s' := Compacted(cfg, s, f);
            && TailOf(s', f) == [] && FieldOf(s', f).snapshot == Some(LogDoc(s', f))
            && FieldOf(s', f).byteTotal == cfg.encodedSize(LogDoc(s', f))
  {
    hide CacheDoc;
    CompactIsInvisible(cfg, s, f, f);
  }

  /** After an import a field is what was imported for it, writable exactly if that encodes to at most the ceiling. */
  lemma ImportMeasures(cfg: Config, s: State, docs: map<string, Doc>, f: string)
    ensures var s' := Step(cfg, s, Imports(docs));
            && LogDoc(s', f) == (if f in docs then docs[f] else {})
            && TailOf(s', f) == [] && LastNumber(s', f) == 0
            && FieldOf(s', f).byteTotal == (if f in docs then cfg.encodedSize(docs[f]) else 0)
            && (FieldOf(s', f).frozen <==> f in docs && cfg.encodedSize(docs[f]) > 700_000)
            && s'.refused == s.refused
  {
    assert Joined([], 0) == {};
  }

  lemma FollowedIsFresh(cfg: Config, s: State, f: string, u: Update)
    requires Coherent(cfg, s)
    ensures CacheOk(cfg, Appended(s, f, u))
  {
    hide Joined, Without;
    var s' := Appended(s, f, u);
    WithoutIsDistinct(s.cache.order, f);
    forall g | g in s'.cache.vals
      ensures s'.cache.vals[g] == LogDoc(s', g)
    {
      AppendJoins(s, f, u, g);
    }
  }

  lemma CachingKeeps(cfg: Config, s: State, s': State, f: string)
    requires CacheOk(cfg, s) && forall g :: LogDoc(s', g) == LogDoc(s, g)
    requires s'.cache == CacheDoc(s.cache, cfg.maxCachedDocs, f, LogDoc(s, f))
    ensures CacheOk(cfg, s')
  {
    hide LogDoc, CacheDoc;
    CacheDocIsLru(s.cache, cfg.maxCachedDocs, f, LogDoc(s, f));
  }

  /** A cached doc is always what a fresh load would build, and there are never more than allowed. */
  lemma StepKeeps(cfg: Config, s: State, e: Event)
    requires Coherent(cfg, s)
    ensures Coherent(cfg, Step(cfg, s, e))
  {
    hide Joined, CacheDoc, Without, Followed;
    var s' := Step(cfg, s, e);
    match e {
      case Updates(ws, f, u, authorized) =>
        if Judge(s, ws, f, u, authorized) == Accepted {
          FollowedIsFresh(cfg, s, f, u);
          forall g
            ensures LogOk(s', g)
          {
            AppendJoins(s, f, u, g);
          }
        } else {
          forall g
            ensures LogDoc(s', g) == LogDoc(s, g) && LogOk(s', g)
          {
            assert LogOk(s, g);
          }
        }
      case Gets(f) =>
        forall g
          ensures LogDoc(s', g) == LogDoc(s, g) && LogOk(s', g)
        {
          assert LogOk(s, g);
        }
        CachingKeeps(cfg, s, s', f);
      case Compacts(f) =>
        forall g
          ensures LogDoc(s', g) == LogDoc(s, g) && LogOk(s', g)
        {
          CompactIsInvisible(cfg, s, f, g);
        }
        if TailOf(s, f) != [] { CachingKeeps(cfg, s, s', f); }
      case Wakes =>
        forall g
          ensures LogOk(s', g)
        {
          assert LogOk(s, g);
        }
      case _ =>
    }
  }

  // ----- the log is its history -----

  predicate Accepts(s: State, e: Event, f: string) {
    e.Updates? && e.f == f && Judge(s, e.ws, e.f, e.u, e.authorized) == Accepted
  }

  /** The join of every update accepted for a field, from the doc last imported for it. */
  function Received(cfg: Config, s: State, es: seq<Event>, f: string): Doc {
    if es == [] then LogDoc(s, f)
    else
      var init, e := es[..|es| - 1], es[|es| - 1];
      if e.Imports? then (if f in e.docs then e.docs[f] else {})
      else if e.Resets? then {}
      else Received(cfg, s, init, f) + if Accepts(Run(cfg, s, init), e, f) then Content(e.u) else {}
  }

  /** How many updates were accepted for a field since its log last started over. */
  function Count(cfg: Config, s: State, es: seq<Event>, f: string): nat {
    if es == [] then LastNumber(s, f)
    else
      var init, e := es[..|es| - 1], es[|es| - 1];
      if e.Imports? || e.Resets? then 0
      else Count(cfg, s, init, f) + if Accepts(Run(cfg, s, init), e, f) then 1 else 0
  }

  lemma StepReceives(cfg: Config, s: State, e: Event, f: string)
    requires Coherent(cfg, s)
    ensures var s' := Step(cfg, s, e);
            if e.Imports? then LogDoc(s', f) == (if f in e.docs then e.docs[f] else {}) && LastNumber(s', f) == 0
            else if e.Resets? then LogDoc(s', f) == {} && LastNumber(s', f) == 0
            else
              && LogDoc(s', f) == LogDoc(s, f) + (if Accepts(s, e, f) then Content(e.u) else {})
              && LastNumber(s', f) == LastNumber(s, f) + if Accepts(s, e, f) then 1 else 0
  {
    hide CacheDoc, Compacted, Taken, CacheOk, Joined, Judge, LogOk;
    match e {
      case Updates(_, _, _, _) => TakenReceives(s, e, f);
      case Compacts(g) =>
        assert LogOk(s, f) && LogOk(s, g);
        CompactIsInvisible(cfg, s, g, f);
      case _ => StartOver(cfg, s, e, f);
    }
  }

  lemma StartOver(cfg: Config, s: State, e: Event, f: string)
    requires !e.Updates? && !e.Compacts?
    ensures var s' := Step(cfg, s, e);
            if e.Imports? then LogDoc(s', f) == (if f in e.docs then e.docs[f] else {}) && LastNumber(s', f) == 0
            else if e.Resets? then LogDoc(s', f) == {} && LastNumber(s', f) == 0
            else LogDoc(s', f) == LogDoc(s, f) && LastNumber(s', f) == LastNumber(s, f)
  {
    hide CacheDoc;
  }

  lemma TakenReceives(s: State, e: Event, f: string)
    requires e.Updates? && LogOk(s, f) && LogOk(s, e.f)
    ensures var s' := Taken(s, e.ws, e.f, e.u, e.authorized);
            && LogDoc(s', f) == LogDoc(s, f) + (if Accepts(s, e, f) then Content(e.u) else {})
            && LastNumber(s', f) == LastNumber(s, f) + if Accepts(s, e, f) then 1 else 0
  {
    hide Followed, Joined, Appended;
    if Judge(s, e.ws, e.f, e.u, e.authorized) == Accepted { AppendJoins(s, e.f, e.u, f); }
  }

  /**
   * In every reachable state a field's snapshot and tail join to exactly the updates accepted for it, whose
   * numbers count them; every cached doc is what a fresh load would build.
   */
  lemma {:induction false} LogIsItsHistory(cfg: Config, es: seq<Event>, f: string)
    ensures var s := Run(cfg, EMPTY, es);
            && Coherent(cfg, s)
            && LogDoc(s, f) == Received(cfg, EMPTY, es, f)
            && LastNumber(s, f) == Count(cfg, EMPTY, es, f)
  {
    hide LogDoc, LastNumber, Coherent, Step, Accepts;
    if es == [] {
      EmptyIsCoherent(cfg);
    } else {
      var init := es[..|es| - 1];
      LogIsItsHistory(cfg, init, f);
      StepKeeps(cfg, Run(cfg, EMPTY, init), es[|init|]);
      StepReceives(cfg, Run(cfg, EMPTY, init), es[|init|], f);
    }
  }

  lemma EmptyIsCoherent(cfg: Config)
    ensures Coherent(cfg, EMPTY)
  {
  }

  // ----- the ceiling -----

  /** A snapshot encodes to no more than the running sum it replaces. */
  ghost predicate ShrinksAt(cfg: Config, s: State, e: Event) {
    e.Compacts? && TailOf(s, e.f) != [] ==> cfg.encodedSize(LogDoc(s, e.f)) <= FieldOf(s, e.f).byteTotal
  }

  ghost predicate Shrinks(cfg: Config, s: State, es: seq<Event>) {
    forall i :: 0 <= i < |es| ==> ShrinksAt(cfg, Run(cfg, s, es[..i]), es[i])
  }

  ghost predicate NoImports(es: seq<Event>) {
    forall i :: 0 <= i < |es| ==> !es[i].Imports?
  }

  /** The byte total was over the ceiling at some point since the log last started over. */
  predicate Crossed(cfg: Config, s: State, es: seq<Event>, f: string) {
    || FieldOf(Run(cfg, s, es), f).byteTotal > MAX_FIELD_BYTES
    || (es != [] && !es[|es| - 1].Imports? && !es[|es| - 1].Resets? && Crossed(cfg, s, es[..|es| - 1], f))
  }

  /** Frozen or within the ceiling, and never past the ceiling by more than one update. */
  ghost predicate WithinCeiling(s: State, f: string) {
    && FieldOf(s, f).byteTotal <= MAX_LOG_BYTES
    && (FieldOf(s, f).byteTotal > MAX_FIELD_BYTES ==> FieldOf(s, f).frozen)
  }

  lemma StepCeiling(cfg: Config, s: State, e: Event, f: string)
    requires Coherent(cfg, s) && WithinCeiling(s, f) && ShrinksAt(cfg, s, e) && !e.Imports?
    ensures WithinCeiling(Step(cfg, s, e), f)
    ensures var f' := FieldOf(Step(cfg, s, e), f);
            f'.frozen <==> f'.byteTotal > MAX_FIELD_BYTES || (!e.Resets? && FieldOf(s, f).frozen)
  {
    hide CacheDoc, Followed, CacheOk, LogDoc;
    assert LogOk(s, f);
  }

  /** A field's total stays at or below 900,000, and it is frozen exactly if it ever passed 700,000. */
  lemma {:induction false} FrozenIffCrossed(cfg: Config, es: seq<Event>, f: string)
    requires Shrinks(cfg, EMPTY, es) && NoImports(es)
    ensures var s := Run(cfg, EMPTY, es);
            && WithinCeiling(s, f)
            && (FieldOf(s, f).frozen <==> Crossed(cfg, EMPTY, es, f))
  {
    hide Coherent, Step, ShrinksAt, FieldOf;
    if es == [] {
      EmptyCeiling(cfg, f);
    } else {
      var init, e := es[..|es| - 1], es[|es| - 1];
      forall i | 0 <= i < |init|
        ensures ShrinksAt(cfg, Run(cfg, EMPTY, init[..i]), init[i])
      {
        assert init[..i] == es[..i];
      }
      assert forall i :: 0 <= i < |init| ==> init[i] == es[i];
      FrozenIffCrossed(cfg, init, f);
      LogIsItsHistory(cfg, init, f);
      assert ShrinksAt(cfg, Run(cfg, EMPTY, es[..|init|]), es[|init|]);
      StepCeiling(cfg, Run(cfg, EMPTY, init), e, f);
    }
  }

  lemma EmptyCeiling(cfg: Config, f: string)
    ensures WithinCeiling(EMPTY, f) && !FieldOf(EMPTY, f).frozen
  {
  }

  /** Whatever its size becomes, only starting over thaws a field; nothing is accepted for it until then. */
  lemma {:induction false} FrozenForGood(cfg: Config, s: State, es: seq<Event>, f: string)
    requires FieldOf(s, f).frozen && forall i :: 0 <= i < |es| ==> !es[i].Imports? && !es[i].Resets?
    ensures FieldOf(Run(cfg, s, es), f).frozen && Received(cfg, s, es, f) == LogDoc(s, f)
  {
    hide CacheDoc, Followed, LogDoc;
    if es != [] {
      var init := es[..|es| - 1];
      assert forall i :: 0 <= i < |init| ==> init[i] == es[i];
      FrozenForGood(cfg, s, init, f);
    }
  }

  // ----- refusals -----

  /** The well-formed updates a socket sent for a field. */
  function Sent(es: seq<Event>, ws: nat, f: string): seq<Update> {
    if es == [] then []
    else
      var e := es[|es| - 1];
      Sent(es[..|es| - 1], ws, f) + if e.Updates? && e.ws == ws && e.f == f && e.u.parses then [e.u] else []
  }

  /** Those of them the server accepted. */
  function Took(cfg: Config, s: State, es: seq<Event>, ws: nat, f: string): seq<Update> {
    if es == [] then []
    else
      var init, e := es[..|es| - 1], es[|es| - 1];
      Took(cfg, s, init, ws, f) + if Accepts(Run(cfg, s, init), e, f) && e.ws == ws then [e.u] else []
  }

  /** A wake or a reset comes only while nothing of this socket's is refused for the field. */
  ghost predicate ForgetsNothing(cfg: Config, s: State, es: seq<Event>, ws: nat, f: string) {
    forall i :: 0 <= i < |es| ==> ForgetsNothingAt(Run(cfg, s, es[..i]), es[i], ws, f)
  }

  predicate ForgetsNothingAt(s: State, e: Event, ws: nat, f: string) {
    e.Wakes? || e.Resets? ==> !IsRefused(s, ws, f)
  }

  predicate IsPrefix(a: seq<Update>, b: seq<Update>) {
    |a| <= |b| && a == b[..|a|]
  }

  /** Once one update of a socket is refused, so is every later one: the log never holds one past a gap. */
  lemma {:induction false} TookIsPrefix(cfg: Config, s: State, es: seq<Event>, ws: nat, f: string)
    requires ForgetsNothing(cfg, s, es, ws, f) && !IsRefused(s, ws, f)
    ensures IsPrefix(Took(cfg, s, es, ws, f), Sent(es, ws, f))
    ensures !IsRefused(Run(cfg, s, es), ws, f) ==> Took(cfg, s, es, ws, f) == Sent(es, ws, f)
  {
    hide Appended, Fetched, Compacted, Imported;
    if es != [] {
      var init, e := es[..|es| - 1], es[|es| - 1];
      forall i | 0 <= i < |init|
        ensures ForgetsNothingAt(Run(cfg, s, init[..i]), init[i], ws, f)
      {
        assert init[..i] == es[..i];
        assert ForgetsNothingAt(Run(cfg, s, es[..i]), es[i], ws, f);
      }
      TookIsPrefix(cfg, s, init, ws, f);
      assert ForgetsNothingAt(Run(cfg, s, es[..|init|]), es[|init|], ws, f);
      RefusalStays(cfg, Run(cfg, s, init), e, ws, f);
    }
  }

  lemma RefusalStays(cfg: Config, s: State, e: Event, ws: nat, f: string)
    requires ForgetsNothingAt(s, e, ws, f)
    ensures IsRefused(s, ws, f) ==> IsRefused(Step(cfg, s, e), ws, f) && !(Accepts(s, e, f) && e.ws == ws)
    ensures e.Updates? && e.ws == ws && e.f == f && e.u.parses && !IsRefused(Step(cfg, s, e), ws, f) ==> Accepts(s, e, f)
  {
    hide LogDoc, CacheDoc, Followed, LastNumber;
  }

  /**
   * From a refusal on nothing of the socket's is accepted, but once the object has woken whatever else is
   * acceptable is, exactly if the field is not frozen; after a reset it always is.
   */
  lemma ForgettingLetsInIff(cfg: Config, s: State, ws: nat, f: string, u: Update)
    requires IsRefused(s, ws, f) && u.parses && u.size <= MAX_FIELD_UPDATE_BYTES
    ensures forall authorized, v :: !Accepts(s, Updates(ws, f, v, authorized), f)
    ensures Accepts(Step(cfg, s, Wakes), Updates(ws, f, u, true), f) <==> !FieldOf(s, f).frozen
    ensures Accepts(Step(cfg, s, Resets), Updates(ws, f, u, true), f)
  {
  }

  /**
   * A wake that does forget: of an update the socket sends next the accepted ones are still a prefix exactly
   * if the field is frozen, or the update is the very one that was first refused, sent again.
   */
  lemma WakeBreaksPrefixIff(cfg: Config, s: State, es: seq<Event>, ws: nat, f: string, u: Update)
    requires ForgetsNothing(cfg, s, es, ws, f) && !IsRefused(s, ws, f)
    requires |Took(cfg, s, es, ws, f)| < |Sent(es, ws, f)|
    requires u.parses && u.size <= MAX_FIELD_UPDATE_BYTES
    ensures var es' := es + [Wakes, Updates(ws, f, u, true)];
            IsPrefix(Took(cfg, s, es', ws, f), Sent(es', ws, f)) <==>
            FieldOf(Run(cfg, s, es), f).frozen || Sent(es, ws, f)[|Took(cfg, s, es, ws, f)|] == u
  {
    hide Took, Sent, IsPrefix, Step, Judge, IsRefused, Run, ForgetsNothing;
    TookIsPrefix(cfg, s, es, ws, f);
    var (now, took, sent) := (Run(cfg, s, es), Took(cfg, s, es, ws, f), Sent(es, ws, f));
    assert IsRefused(now, ws, f);
    ForgettingLetsInIff(cfg, now, ws, f, u);
    AfterWake(cfg, s, es, ws, f, u);
    PrefixPastGap(took, sent, u, FieldOf(now, f).frozen);
  }

  lemma PrefixPastGap(took: seq<Update>, sent: seq<Update>, u: Update, frozen: bool)
    requires IsPrefix(took, sent) && |took| < |sent|
    ensures IsPrefix(took + (if frozen then [] else [u]), sent + [u]) <==> frozen || sent[|took|] == u
  {
    var (x, all) := (sent[|took|], sent + [u]);
    assert all[..|took|] == took && took + [] == took;
    assert all[..|took| + 1] == took + [x];
    assert (took + [u])[|took|] == u && (took + [x])[|took|] == x;
    assert |took + [u]| == |took| + 1;
  }

  lemma AfterWake(cfg: Config, s: State, es: seq<Event>, ws: nat, f: string, u: Update)
    requires u.parses
    ensures var (e, es') := (Updates(ws, f, u, true), es + [Wakes, Updates(ws, f, u, true)]);
            && Took(cfg, s, es', ws, f) == Took(cfg, s, es, ws, f)
               + (if Accepts(Step(cfg, Run(cfg, s, es), Wakes), e, f) then [u] else [])
            && Sent(es', ws, f) == Sent(es, ws, f) + [u]
  {
    hide Step, Judge;
    var woken, es' := es + [Wakes], es + [Wakes, Updates(ws, f, u, true)];
    assert woken[..|woken| - 1] == es && es'[..|es'| - 1] == woken;
    assert Took(cfg, s, woken, ws, f) == Took(cfg, s, es, ws, f) + [] == Took(cfg, s, es, ws, f);
    assert Sent(woken, ws, f) == Sent(es, ws, f) + [] == Sent(es, ws, f);
  }

  /** Refusals are kept in memory only: an object that wakes in between accepts what follows the gap. */
  lemma WakeForgetsRefusals(cfg: Config, ws: nat, f: string, u: Update)
    requires u.parses && u.size <= MAX_FIELD_UPDATE_BYTES
    ensures var large := Update(MAX_FIELD_UPDATE_BYTES + 1, true, u.content);
            var es := [Updates(ws, f, large, true), Wakes, Updates(ws, f, u, true)];
            && Sent(es, ws, f) == [large, u] && Took(cfg, EMPTY, es, ws, f) == [u]
            && !IsPrefix(Took(cfg, EMPTY, es, ws, f), Sent(es, ws, f))
  {
    var large := Update(MAX_FIELD_UPDATE_BYTES + 1, true, u.content);
    var es := [Updates(ws, f, large, true), Wakes, Updates(ws, f, u, true)];
    var es2, es1 := es[..2], es[..1];
    assert es2[..1] == es1 && es1[..0] == [];
    assert es2[1] == Wakes && es1[0] == Updates(ws, f, large, true);
    assert Judge(EMPTY, ws, f, large, true) == Rejected(TooLarge);
    assert Run(cfg, EMPTY, es1) == Refusing(EMPTY, ws, f);
    assert Run(cfg, EMPTY, es2) == Step(cfg, Refusing(EMPTY, ws, f), Wakes);
    assert Judge(Run(cfg, EMPTY, es2), ws, f, u, true) == Accepted;
    assert Took(cfg, EMPTY, es1, ws, f) == [] && Took(cfg, EMPTY, es2, ws, f) == [];
    assert Sent(es1, ws, f) == [large] && Sent(es2, ws, f) == [large];
  }

  // ----- the object -----

  /** The STATE reply: whether the socket may write, what the server has, and what the client lacks. */
  datatype Reply = Reply(writable: bool, stateVector: Doc, diff: Doc)

  class FieldServer {
    const cfg: Config
    const compactionThreshold: nat
    var fields: map<string, Field>
    var updates: map<string, seq<Logged>>
    var cache: JsMap<string, Doc>
    var refused: map<nat, set<string>>

    ghost function Log(): State
      reads this
    {
      State(fields, updates, cache, refused)
    }

    constructor (cfg: Config, compactionThreshold: nat)
      ensures this.cfg == cfg && this.compactionThreshold == compactionThreshold
      ensures Log() == EMPTY && Coherent(cfg, Log())
    {
      this.cfg, this.compactionThreshold := cfg, compactionThreshold;
      fields, updates, cache, refused := map[], map[], Empty(), map[];
    }

    method Remember(f: string, doc: Doc)
      modifies this`cache
      ensures cache == CacheDoc(old(cache), cfg.maxCachedDocs, f, doc)
    {
      hide Without;
      cache := Insert(Delete(cache, f), f, doc);
      while |cache.order| > cfg.maxCachedDocs
        invariant Trimmed(cache, cfg.maxCachedDocs) == CacheDoc(old(cache), cfg.maxCachedDocs, f, doc)
        decreases |cache.order|
      {
        var oldest := cache.order[0];
        WithoutIsDistinct(cache.order, oldest);
        cache := Delete(cache, oldest);
      }
    }

    /** Whether from the cache or built afresh, the doc is what the log holds, and is now the newest in the cache. */
    method LoadDoc(f: string, freshly: bool) returns (doc: Doc)
      requires Coherent(cfg, Log())
      modifies this`cache
      ensures doc == LogDoc(old(Log()), f)
      ensures cache == CacheDoc(old(cache), cfg.maxCachedDocs, f, doc)
    {
      hide CacheDoc, Joined;
      if !freshly && f in cache.vals {
        doc := cache.vals[f];
        Remember(f, doc);
        return;
      }
      doc := {};
      var above := 0;
      if f in fields {
        above := fields[f].snapshotSeq;
        if fields[f].snapshot.Some? { doc := fields[f].snapshot.value; }
      }
      var tail: seq<Logged> := if f in updates then updates[f] else [];
      JoinedNone(above);
      assert tail[..0] == [];
      for i := 0 to |tail|
        invariant doc == SnapshotOf(Log(), f) + Joined(tail[..i], above)
        invariant cache == old(cache)
      {
        assert tail[..i + 1] == tail[..i] + [tail[i]];
        JoinedAppend(tail[..i], above, tail[i]);
        if tail[i].number > above && tail[i].update.content.Some? {
          doc := doc + tail[i].update.content.value;
        }
      }
      assert tail[..|tail|] == tail;
      Remember(f, doc);
    }

    /** `known` is the client's state vector; none if it sent an empty or unreadable one. */
    method HandleGet(ws: nat, f: string, known: Option<Doc>, authorized: bool) returns (reply: Reply)
      requires Coherent(cfg, Log())
      modifies this`cache
      ensures Coherent(cfg, Log()) && Log() == Fetched(cfg, old(Log()), f)
      ensures forall u: Update :: u.parses && u.size <= MAX_FIELD_UPDATE_BYTES ==>
                (reply.writable <==> Judge(Log(), ws, f, u, authorized) == Accepted)
      ensures reply.stateVector == LogDoc(Log(), f)
      ensures reply.diff <= LogDoc(Log(), f) <= reply.diff + (if known.Some? then known.value else {})
    {
      hide CacheDoc, LogDoc, LastNumber, Joined;
      StepKeeps(cfg, Log(), Gets(f));
      var frozen := f in fields && fields[f].frozen;
      var writable := authorized && !frozen && !(ws in refused && f in refused[ws]);
      ghost var was := Log();
      var doc := LoadDoc(f, false);
      SameLog(was, Log(), f);
      reply := Reply(writable, doc, if known.Some? then doc - known.value else doc);
    }

    /** `Accepted` means appended, then relayed to every other socket; `Rejected` that the sender is told. */
    method HandleUpdate(ws: nat, f: string, u: Update, authorized: bool) returns (verdict: Verdict)
      requires Coherent(cfg, Log())
      modifies this`fields, this`updates, this`cache, this`refused
      ensures Coherent(cfg, Log()) && Log() == Taken(old(Log()), ws, f, u, authorized)
      ensures verdict == Judge(old(Log()), ws, f, u, authorized)
    {
      hide Joined, LogDoc, Without, CacheOk, LogOk, Appended;
      StepKeeps(cfg, Log(), Updates(ws, f, u, authorized));
      if ws in refused && f in refused[ws] { return Dropped; }
      if !authorized {
        MarkRefused(ws, f);
        return Rejected(NotWritable);
      }
      if u.size > MAX_FIELD_UPDATE_BYTES {
        MarkRefused(ws, f);
        return Rejected(TooLarge);
      }
      var row := if f in fields then fields[f] else NEW_FIELD;
      if row.frozen {
        MarkRefused(ws, f);
        return Rejected(Frozen);
      }
      if !u.parses { return Dropped; }
      Append(f, row, u);
      return Accepted;
    }

    /** One transaction: the running total, the freeze and the row of the log; then the cached doc. */
    method Append(f: string, row: Field, u: Update)
      requires row == FieldOf(Log(), f)
      modifies this`fields, this`updates, this`cache
      ensures Log() == Appended(old(Log()), f, u)
    {
      hide Without;
      var byteTotal := row.byteTotal + u.size;
      var frozen := byteTotal > MAX_FIELD_BYTES;
      fields := fields[f := row.(byteTotal := byteTotal, frozen := frozen)];
      var tail: seq<Logged> := if f in updates then updates[f] else [];
      var last := if tail == [] then row.snapshotSeq else tail[|tail| - 1].number;
      updates := updates[f := tail + [Logged(last + 1, u)]];
      if f in cache.vals {
        if u.content.Some? { cache := Insert(cache, f, cache.vals[f] + u.content.value); }
        else { cache := Delete(cache, f); }
      }
    }

    method MarkRefused(ws: nat, f: string)
      modifies this`refused
      ensures Log() == Refusing(old(Log()), ws, f)
    {
      refused := refused[ws := (if ws in refused then refused[ws] else {}) + {f}];
    }

    method CompactField(f: string)
      requires Coherent(cfg, Log())
      modifies this`fields, this`updates, this`cache
      ensures Coherent(cfg, Log()) && Log() == Compacted(cfg, old(Log()), f)
    {
      hide Joined, LogDoc, Without, CacheOk, CacheDoc;
      StepKeeps(cfg, Log(), Compacts(f));
      var tail: seq<Logged> := if f in updates then updates[f] else [];
      if tail == [] { return; }
      var last := tail[|tail| - 1].number;
      var doc := LoadDoc(f, true);
      if f in fields {
        fields := fields[f := fields[f].(snapshot := Some(doc), snapshotSeq := last, byteTotal := cfg.encodedSize(doc))];
      }
      updates := updates - {f};
    }

    /** Folds every tail longer than the threshold; to readers nothing changes. */
    method OnAlarm()
      requires Coherent(cfg, Log())
      modifies this`fields, this`updates, this`cache
      ensures Coherent(cfg, Log())
      ensures forall f :: |TailOf(Log(), f)| <= compactionThreshold
      ensures forall f :: SeenAlike(old(Log()), Log(), f)
    {
      hide Joined, LogDoc, CacheOk, CacheDoc, LastNumber;
      var candidates := set f | f in updates && |updates[f]| > compactionThreshold;
      while candidates != {}
        invariant Coherent(cfg, Log())
        invariant forall f :: |TailOf(Log(), f)| > compactionThreshold ==> f in candidates
        invariant forall f :: SeenAlike(old(Log()), Log(), f)
      {
        var f :| f in candidates;
        ghost var was := Log();
        CompactField(f);
        forall g
          ensures SeenAlike(old(Log()), Log(), g)
        {
          assert SeenAlike(old(Log()), was, g) && LogOk(was, f) && LogOk(was, g);
          CompactIsInvisible(cfg, was, f, g);
        }
        assert forall g :: TailOf(Log(), g) == if g == f then [] else TailOf(was, g);
        candidates := candidates - {f};
      }
    }

    method OnImport(docs: map<string, Doc>)
      requires Coherent(cfg, Log())
      modifies this`fields, this`updates, this`cache
      ensures Coherent(cfg, Log()) && Log() == Step(cfg, old(Log()), Imports(docs))
    {
      hide Joined, CacheOk, CacheDoc;
      StepKeeps(cfg, Log(), Imports(docs));
      fields, updates := map[], map[];
      var pending := docs.Keys;
      while pending != {}
        invariant updates == map[] && pending <= docs.Keys && fields.Keys == docs.Keys - pending
        invariant forall f :: f in fields ==> fields[f] == Imported(cfg, docs)[f]
      {
        var f :| f in pending;
        var size := cfg.encodedSize(docs[f]);
        fields := fields[f := Field(Some(docs[f]), 0, size, size > MAX_FIELD_BYTES)];
        pending := pending - {f};
      }
      assert fields == Imported(cfg, docs);
      cache := Empty();
    }

    method OnReset()
      modifies this`fields, this`updates, this`cache, this`refused
      ensures Coherent(cfg, Log()) && Log() == Step(cfg, old(Log()), Resets)
    {
      fields, updates, cache, refused := map[], map[], Empty(), map[];
    }
  }

  lemma JoinedNone(above: nat)
    ensures Joined([], above) == {}
  {
  }

  lemma SameLog(s: State, s': State, f: string)
    requires s'.fields == s.fields && s'.updates == s.updates
    ensures LogDoc(s', f) == LogDoc(s, f)
  {
  }

  ghost predicate SeenAlike(s: State, s': State, f: string) {
    && LogDoc(s', f) == LogDoc(s, f)
    && LastNumber(s', f) == LastNumber(s, f)
    && FieldOf(s', f).frozen == FieldOf(s, f).frozen
  }
}
