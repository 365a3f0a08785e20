/**
 * The hook gate and the insert-or-update mapping of packages/client/src/collection.ts. While a collection
 * has not started syncing, the gate keeps a pending clear and the last operation per row; attaching drains
 * them. The simple thing it must agree with delivers every call in order.
 */
module HookGate {
  import opened Rows
  import opened JsMaps

  type Synced = map<string, Data>

  datatype RowOp = Put(id: string, value: Data) | Del(id: string)

  datatype Hook = Write(op: RowOp) | Truncate | MarkReady

  function At(rows: Synced, id: string): Option<Data> {
    if id in rows then Some(rows[id]) else None
  }

  function Performed(rows: Synced, op: RowOp): Synced {
    match op
    case Put(id, value) => rows[id := value]
    case Del(id) => rows - {id}
  }

  function Delivered(rows: Synced, h: Hook): Synced {
    match h
    case Write(op) => Performed(rows, op)
    case Truncate => map[]
    case MarkReady => rows
  }

  /** Every call delivered in order: what the table has to end up as. */
  function DeliveredAll(rows: Synced, hooks: seq<Hook>): Synced {
    if hooks == [] then rows else Delivered(DeliveredAll(rows, hooks[..|hooks| - 1]), hooks[|hooks| - 1])
  }

  predicate Readies(hooks: seq<Hook>) {
    MarkReady in hooks
  }

  // ----- the buffer -----

  datatype Buffer = Buffer(clear: bool, ready: bool, ops: JsMap<string, RowOp>)

  const EMPTY := Buffer(false, false, Empty())

  function Buffered(b: Buffer, h: Hook): Buffer {
    match h
    case Write(op) => b.(ops := Insert(b.ops, op.id, op))
    case Truncate => b.(clear := true, ops := Empty())
    case MarkReady => b.(ready := true)
  }

  function BufferedAll(b: Buffer, hooks: seq<Hook>): Buffer {
    if hooks == [] then b else Buffered(BufferedAll(b, hooks[..|hooks| - 1]), hooks[|hooks| - 1])
  }

  ghost predicate Keyed(b: Buffer) {
    JsMaps.Valid(b.ops) && forall id :: id in b.ops.vals ==> b.ops.vals[id].id == id
  }

  function Pending(ops: JsMap<string, RowOp>): seq<RowOp>
    requires forall id :: id in ops.order ==> id in ops.vals
  {
    seq(|ops.order|, i requires 0 <= i < |ops.order| => ops.vals[ops.order[i]])
  }

  function PerformedAll(rows: Synced, ops: seq<RowOp>): Synced {
    if ops == [] then rows else Performed(PerformedAll(rows, ops[..|ops| - 1]), ops[|ops| - 1])
  }

  /** What draining the buffer leaves of `rows`. */
  function Drained(b: Buffer, rows: Synced): Synced
    requires forall id :: id in b.ops.order ==> id in b.ops.vals
  {
    PerformedAll(if b.clear then map[] else rows, Pending(b.ops))
  }

  ghost predicate DistinctIds(ops: seq<RowOp>) {
    forall i, j :: 0 <= i < j < |ops| ==> ops[i].id != ops[j].id
  }

  function Outcome(op: RowOp): Option<Data> {
    if op.Put? then Some(op.value) else None
  }

  lemma {:induction false} PerformedAt(rows: Synced, ops: seq<RowOp>, id: string)
    requires DistinctIds(ops)
    ensures forall i :: 0 <= i < |ops| && ops[i].id == id ==> At(PerformedAll(rows, ops), id) == Outcome(ops[i])
    ensures (forall i :: 0 <= i < |ops| ==> ops[i].id != id) ==> At(PerformedAll(rows, ops), id) == At(rows, id)
  {
    if ops != [] {
      var init := ops[..|ops| - 1];
      PerformedAt(rows, init, id);
      assert forall i :: 0 <= i < |init| ==> init[i] == ops[i];
    }
  }

  /** Row by row: the last operation kept for it decides, else the clear, else what was there. */
  lemma DrainedAt(b: Buffer, rows: Synced, id: string)
    requires Keyed(b)
    ensures At(Drained(b, rows), id) ==
            if id in b.ops.vals then Outcome(b.ops.vals[id]) else if b.clear then None else At(rows, id)
  {
    var base: Synced := if b.clear then map[] else rows;
    var ops := Pending(b.ops);
    PendingIds(b);
    PerformedAt(base, ops, id);
    if id in b.ops.vals {
      assert id in b.ops.order;
      var i :| 0 <= i < |b.ops.order| && b.ops.order[i] == id;
      assert ops[i].id == id;
    } else {
      forall i | 0 <= i < |ops|
        ensures ops[i].id != id
      {
        assert b.ops.order[i] in b.ops.vals;
      }
    }
  }

  lemma PendingIds(b: Buffer)
    requires Keyed(b)
    ensures DistinctIds(Pending(b.ops))
    ensures forall i :: 0 <= i < |b.ops.order| ==> Pending(b.ops)[i].id == b.ops.order[i]
  {
    forall i | 0 <= i < |b.ops.order|
      ensures Pending(b.ops)[i].id == b.ops.order[i]
    {
      assert b.ops.order[i] in b.ops.vals;
    }
  }

  lemma SyncedEqual(a: Synced, b: Synced)
    requires forall id :: At(a, id) == At(b, id)
    ensures a == b
  {
    forall id
      ensures id in a <==> id in b
      ensures id in a ==> a[id] == b[id]
    {
      assert At(a, id) == At(b, id);
    }
  }

  /** Buffering one more call and draining is draining and delivering the call. */
  lemma BufferedIsDelivered(b: Buffer, h: Hook, rows: Synced)
    requires Keyed(b)
    ensures Keyed(Buffered(b, h)) && Drained(Buffered(b, h), rows) == Delivered(Drained(b, rows), h)
  {
    var b' := Buffered(b, h);
    assert JsMaps.Valid(b'.ops);
    forall id
      ensures At(Drained(b', rows), id) == At(Delivered(Drained(b, rows), h), id)
    {
      DrainedAt(b, rows, id);
      DrainedAt(b', rows, id);
    }
    SyncedEqual(Drained(b', rows), Delivered(Drained(b, rows), h));
  }

  lemma EmptyDrains(rows: Synced)
    ensures Keyed(EMPTY) && Drained(EMPTY, rows) == rows
  {
  }

  /** One operation per row and a clear flag are enough: the drained buffer is every call delivered in order. */
  lemma {:induction false} DrainIsDelivery(hooks: seq<Hook>, rows: Synced)
    ensures var b := BufferedAll(EMPTY, hooks);
            Keyed(b) && Drained(b, rows) == DeliveredAll(rows, hooks) && b.ready == Readies(hooks)
  {
    hide Drained, Delivered, Keyed;
    if hooks == [] {
      EmptyDrains(rows);
    } else {
      var init, last := hooks[..|hooks| - 1], hooks[|hooks| - 1];
      DrainIsDelivery(init, rows);
      BufferedIsDelivered(BufferedAll(EMPTY, init), last, rows);
      assert hooks == init + [last];
    }
  }

  lemma {:induction false} DeliveredConcat(rows: Synced, before: seq<Hook>, after: seq<Hook>)
    ensures DeliveredAll(rows, before + after) == DeliveredAll(DeliveredAll(rows, before), after)
  {
    if after == [] {
      assert before + after == before;
    } else {
      var init := after[..|after| - 1];
      assert (before + after)[..|before + after| - 1] == before + init;
      DeliveredConcat(rows, before, init);
    }
  }

  /** Whenever the collection attaches, it ends up as if it had been there from the first call. */
  lemma LateStartLosesNothing(before: seq<Hook>, after: seq<Hook>, rows: Synced)
    ensures Keyed(BufferedAll(EMPTY, before))
    ensures DeliveredAll(Drained(BufferedAll(EMPTY, before), rows), after) == DeliveredAll(rows, before + after)
  {
    DrainIsDelivery(before, rows);
    DeliveredConcat(rows, before, after);
  }

  // ----- typed writes -----

  datatype TypedWrite = Inserted(id: string, value: Data) | Updated(id: string, value: Data) | Deleted(id: string)

  /** The one write an operation becomes, or none: deleting an absent row is not passed on. */
  function Typed(keys: set<string>, op: RowOp): seq<TypedWrite> {
    match op
    case Put(id, value) => [if id in keys then Updated(id, value) else Inserted(id, value)]
    case Del(id) => if id in keys then [Deleted(id)] else []
  }

  function TypedAll(rows: Synced, ops: seq<RowOp>): seq<TypedWrite> {
    if ops == [] then []
    else
      var init := ops[..|ops| - 1];
      TypedAll(rows, init) + Typed(PerformedAll(rows, init).Keys, ops[|ops| - 1])
  }

  /** The collection refuses to insert a present row and to update or delete an absent one. */
  function Applied(rows: Synced, w: TypedWrite): Option<Synced> {
    match w
    case Inserted(id, value) => if id in rows then None else Some(rows[id := value])
    case Updated(id, value) => if id in rows then Some(rows[id := value]) else None
    case Deleted(id) => if id in rows then Some(rows - {id}) else None
  }

  function AppliedAll(rows: Synced, ws: seq<TypedWrite>): Option<Synced> {
    if ws == [] then Some(rows)
    else
      var before := AppliedAll(rows, ws[..|ws| - 1]);
      if before.None? then None else Applied(before.value, ws[|ws| - 1])
  }

  /** No typed write is ever refused, and together they do what the untyped operations ask for. */
  lemma {:induction false} TypedNeverRefused(rows: Synced, ops: seq<RowOp>)
    ensures AppliedAll(rows, TypedAll(rows, ops)) == Some(PerformedAll(rows, ops))
  {
    if ops != [] {
      var init, last := ops[..|ops| - 1], ops[|ops| - 1];
      TypedNeverRefused(rows, init);
      var ws, now := TypedAll(rows, init), PerformedAll(rows, init);
      var more := Typed(now.Keys, last);
      if more == [] {
        assert ws + more == ws && now - {last.id} == now;
      } else {
        assert ws + more == ws + [more[0]] && (ws + more)[..|ws + more| - 1] == ws;
      }
    }
  }

  lemma DrainNothing(rows: Synced)
    ensures PerformedAll(rows, []) == rows && TypedAll(rows, []) == []
  {
  }

  lemma DrainStep(rows: Synced, ops: seq<RowOp>, i: nat)
    requires i < |ops|
    ensures PerformedAll(rows, ops[..i + 1]) == Performed(PerformedAll(rows, ops[..i]), ops[i])
    ensures TypedAll(rows, ops[..i + 1])
         == TypedAll(rows, ops[..i]) + Typed(PerformedAll(rows, ops[..i]).Keys, ops[i])
  {
    assert ops[..i + 1][..i] == ops[..i];
  }

  // ----- the objects -----

  /** A started collection: its synced rows, what it was written, and the adapter's `syncedKeys`. */
  class Target {
    var syncedKeys: set<string>
    var rows: Synced
    var writes: seq<TypedWrite>
    var open: bool
    var ready: bool

    ghost predicate Valid()
      reads this
    {
      syncedKeys == rows.Keys
    }

    /** A collection starts empty, and is wiped when it restarts. */
    constructor ()
      ensures Valid() && rows == map[] && writes == [] && !open && !ready
    {
      syncedKeys, rows, writes, open, ready := {}, map[], [], false, false;
    }

    method Begin()
      modifies this`open
      ensures open
    {
      open := true;
    }

    method Commit()
      modifies this`open
      ensures !open
    {
      open := false;
    }

    method Write(op: RowOp)
      requires Valid() && open
      modifies this`syncedKeys, this`rows, this`writes
      ensures Valid() && rows == Performed(old(rows), op)
      ensures writes == old(writes) + Typed(old(rows.Keys), op)
    {
      match op {
        case Put(id, value) =>
          var known := id in syncedKeys;
          syncedKeys := syncedKeys + {id};
          Apply(if known then Updated(id, value) else Inserted(id, value));
        case Del(id) =>
          if id in syncedKeys {
            syncedKeys := syncedKeys - {id};
            Apply(Deleted(id));
          } else {
            assert rows - {id} == rows;
          }
      }
    }

    /** The collection's own `write`, which must not be handed a write it refuses. */
    method Apply(w: TypedWrite)
      requires Applied(rows, w).Some?
      modifies this`rows, this`writes
      ensures rows == Applied(old(rows), w).value && writes == old(writes) + [w]
    {
      rows, writes := Applied(rows, w).value, writes + [w];
    }

    method Truncate()
      requires open
      modifies this`syncedKeys, this`rows
      ensures Valid() && rows == map[]
    {
      syncedKeys, rows := {}, map[];
    }

    method MarkReady()
      modifies this`ready
      ensures ready
    {
      ready := true;
    }
  }

  class Gate {
    var target: Target?
    var pendingClear: bool
    var pendingReady: bool
    var pendingOps: JsMap<string, RowOp>

    ghost function Held(): Buffer
      reads this
    {
      Buffer(pendingClear, pendingReady, pendingOps)
    }

    /** While attached the buffer stays empty. */
    ghost predicate Valid()
      reads this, target
    {
      && Keyed(Held())
      && (target != null ==> target.Valid() && Held() == EMPTY)
    }

    constructor ()
      ensures Valid() && target == null && Held() == EMPTY
    {
      target, pendingClear, pendingReady, pendingOps := null, false, false, Empty();
    }

    method Write(op: RowOp)
      requires Valid() && (target != null ==> target.open)
      modifies this`pendingOps, target
      ensures Valid() && target == old(target)
      ensures target == null ==> Held() == Buffered(old(Held()), Hook.Write(op))
      ensures target != null ==>
                && target.rows == Performed(old(target.rows), op)
                && target.writes == old(target.writes) + Typed(old(target.rows.Keys), op)
                && target.ready == old(target.ready)
    {
      BufferedIsDelivered(Held(), Hook.Write(op), map[]);
      if target != null { target.Write(op); }
      else { pendingOps := Insert(pendingOps, op.id, op); }
    }

    method Truncate()
      requires Valid() && (target != null ==> target.open)
      modifies this`pendingClear, this`pendingOps, target
      ensures Valid() && target == old(target)
      ensures target == null ==> Held() == Buffered(old(Held()), Hook.Truncate)
      ensures target != null ==>
                target.rows == map[] && target.writes == old(target.writes) && target.ready == old(target.ready)
    {
      if target != null {
        target.Truncate();
      } else {
        pendingClear, pendingOps := true, Empty();
      }
    }

    method MarkReady()
      requires Valid()
      modifies this`pendingReady, target
      ensures Valid() && target == old(target)
      ensures target == null ==> Held() == Buffered(old(Held()), Hook.MarkReady)
      ensures target != null ==>
                target.ready && target.rows == old(target.rows) && target.writes == old(target.writes)
    {
      if target != null { target.MarkReady(); } else { pendingReady := true; }
    }

    /** Hands the collection every pending operation, in the order the rows were first named. */
    method DrainInto(t: Target)
      requires Keyed(Held()) && t.Valid() && t.open
      modifies t`syncedKeys, t`rows, t`writes
      ensures t.Valid() && t.rows == PerformedAll(old(t.rows), Pending(pendingOps))
      ensures t.writes == old(t.writes) + TypedAll(old(t.rows), Pending(pendingOps))
    {
      hide PerformedAll, TypedAll, Performed, Typed;
      ghost var ops := Pending(pendingOps);
      assert ops[..0] == [];
      DrainNothing(old(t.rows));
      for i := 0 to |pendingOps.order|
        invariant t.Valid() && t.open
        invariant t.rows == PerformedAll(old(t.rows), ops[..i])
        invariant t.writes == old(t.writes) + TypedAll(old(t.rows), ops[..i])
      {
        DrainStep(old(t.rows), ops, i);
        t.Write(pendingOps.vals[pendingOps.order[i]]);
      }
      assert ops[..|ops|] == ops;
    }

    /** Drains what was kept into the collection as one transaction, and passes everything on from here. */
    method Attach(t: Target)
      requires Valid() && t.Valid() && !t.open
      modifies this, t
      ensures Valid() && target == t && Held() == EMPTY && !t.open
      ensures t.rows == Drained(old(Held()), old(t.rows))
      ensures t.writes == old(t.writes)
                + TypedAll(if old(pendingClear) then map[] else old(t.rows), Pending(old(pendingOps)))
      ensures t.ready == (old(t.ready) || old(pendingReady))
    {
      hide PerformedAll, TypedAll, DistinctIds;
      target := t;
      DrainNothing(t.rows);
      if pendingClear || |pendingOps.order| > 0 {
        t.Begin();
        if pendingClear { t.Truncate(); }
        DrainInto(t);
        t.Commit();
      } else {
        assert Pending(pendingOps) == [];
      }
      if pendingReady { t.MarkReady(); }
      pendingClear, pendingReady, pendingOps := false, false, Empty();
    }

    method Detach()
      requires Valid()
      modifies this`target
      ensures Valid() && target == null && Held() == old(Held())
    {
      target := null;
    }
  }
}
