/** Rows, patch operations and what applying a patch does: the vocabulary every other module shares. */
module Rows {

  datatype Option<+T> = None | Some(value: T)

  /** Parsed JSON, as a row's fields hold it. */
  datatype Json =
    | Null
    | Bool(b: bool)
    | Num(n: real)
    | Str(s: string)
    | Arr(items: seq<Json>)
    | Obj(fields: map<string, Json>)

  /** A full row: patches carry whole rows, never fields. */
  datatype Data = Data(fields: map<string, Json>)

  datatype Key = Key(tbl: string, id: string)

  type Table = map<Key, Data>

  /** A row of the `rows` table: a deleted row stays as a tombstone stamped with the version that deleted it. */
  datatype Stored = Stored(data: Data, version: nat, deleted: bool)

  type Store = map<Key, Stored>

  function Live(rows: Store): Table {
    map k | k in rows && !rows[k].deleted :: rows[k].data
  }

  function Find(t: Table, k: Key): Option<Data> {
    if k in t then Some(t[k]) else None
  }

  // ----- patches -----

  datatype PatchOp = Clear | Put(key: Key, value: Data) | Del(key: Key)

  function ApplyOp(t: Table, op: PatchOp): Table {
    match op
    case Clear => map[]
    case Put(k, v) => t[k := v]
    case Del(k) => t - {k}
  }

  /** The meaning of a patch: its operations one after the other. */
  function ApplyOps(t: Table, ops: seq<PatchOp>): Table
    decreases |ops|
  {
    if ops == [] then t else ApplyOps(ApplyOp(t, ops[0]), ops[1..])
  }

  lemma {:induction false} ApplyOpsConcat(t: Table, a: seq<PatchOp>, b: seq<PatchOp>)
    ensures ApplyOps(t, a + b) == ApplyOps(ApplyOps(t, a), b)
    decreases |a|
  {
    if a == [] {
      assert a + b == b;
    } else {
      assert (a + b)[1..] == a[1..] + b;
      ApplyOpsConcat(ApplyOp(t, a[0]), a[1..], b);
    }
  }

  ghost predicate HasClear(ops: seq<PatchOp>) {
    exists i :: 0 <= i < |ops| && ops[i].Clear?
  }

  predicate Touches(ops: seq<PatchOp>, k: Key) {
    exists i :: 0 <= i < |ops| && !ops[i].Clear? && ops[i].key == k
  }

  /** Each row is named by one operation at most, which is how every patch the server builds looks. */
  ghost predicate OneOpPerKey(ops: seq<PatchOp>) {
    && !HasClear(ops)
    && forall i, j :: 0 <= i < j < |ops| ==> ops[i].key != ops[j].key
  }

  /** Under `OneOpPerKey` the outcome can be read off operation by operation, whatever their order. */
  lemma {:induction false} ApplyOpsPointwise(t: Table, ops: seq<PatchOp>)
    requires OneOpPerKey(ops)
    ensures forall k :: !Touches(ops, k) ==> Find(ApplyOps(t, ops), k) == Find(t, k)
    ensures forall i :: 0 <= i < |ops| ==>
              Find(ApplyOps(t, ops), ops[i].key) == if ops[i].Put? then Some(ops[i].value) else None
    decreases |ops|
  {
    if ops != [] {
      var rest, t' := ops[1..], ApplyOp(t, ops[0]);
      assert forall i :: 0 <= i < |rest| ==> rest[i] == ops[i + 1];
      ApplyOpsPointwise(t', rest);
      forall k | !Touches(ops, k)
        ensures Find(ApplyOps(t, ops), k) == Find(t, k)
      {
        assert !Touches(rest, k);
        assert ops[0].key != k;
      }
      assert !Touches(rest, ops[0].key);
      forall i | 0 <= i < |ops|
        ensures Find(ApplyOps(t, ops), ops[i].key) == if ops[i].Put? then Some(ops[i].value) else None
      {
        if i > 0 {
          assert rest[i - 1] == ops[i];
        }
      }
    }
  }

  // ----- what a client makes of a patch -----

  function WithoutClears(ops: seq<PatchOp>): seq<PatchOp> {
    if ops == [] then []
    else if ops[0].Clear? then WithoutClears(ops[1..])
    else [ops[0]] + WithoutClears(ops[1..])
  }

  /** A patch holding `clear` anywhere empties the tables first, then applies every other operation. */
  function Absorb(t: Table, ops: seq<PatchOp>): Table {
    ApplyOps(if exists i :: 0 <= i < |ops| && ops[i].Clear? then map[] else t, WithoutClears(ops))
  }

  lemma {:induction false} WithoutClearsIsAll(ops: seq<PatchOp>)
    requires !HasClear(ops)
    ensures WithoutClears(ops) == ops
  {
    if ops != [] {
      assert forall i :: 0 <= i < |ops| - 1 ==> ops[1..][i] == ops[i + 1];
      WithoutClearsIsAll(ops[1..]);
    }
  }

  /** For a patch that clears first or not at all, the client's reading is the patch's meaning. */
  lemma AbsorbIsApply(t: Table, ops: seq<PatchOp>)
    requires !HasClear(ops) || (ops[0].Clear? && !HasClear(ops[1..]))
    ensures Absorb(t, ops) == ApplyOps(t, ops)
  {
    if HasClear(ops) {
      WithoutClearsIsAll(ops[1..]);
    } else {
      WithoutClearsIsAll(ops);
    }
  }

  lemma {:induction false} WithoutClearsConcat(a: seq<PatchOp>, b: seq<PatchOp>)
    ensures WithoutClears(a + b) == WithoutClears(a) + WithoutClears(b)
  {
    if a == [] {
      assert a + b == b;
    } else {
      assert (a + b)[1..] == a[1..] + b;
      WithoutClearsConcat(a[1..], b);
    }
  }

  lemma TouchesCons(ops: seq<PatchOp>, k: Key)
    requires ops != []
    ensures Touches(ops, k) <==> (!ops[0].Clear? && ops[0].key == k) || Touches(ops[1..], k)
  {
    assert forall i :: 0 <= i < |ops| - 1 ==> ops[1..][i] == ops[i + 1];
    assert forall i :: 0 < i < |ops| ==> ops[i] == ops[1..][i - 1];
  }

  /** What a row becomes depends on the rows before only where no operation names it. */
  lemma {:induction false} TouchedForgets(t: Table, u: Table, ops: seq<PatchOp>, k: Key)
    requires !HasClear(ops)
    ensures Touches(ops, k) ==> Find(ApplyOps(t, ops), k) == Find(ApplyOps(u, ops), k)
    ensures !Touches(ops, k) ==> Find(ApplyOps(t, ops), k) == Find(t, k) && Find(ApplyOps(u, ops), k) == Find(u, k)
    decreases |ops|
  {
    if ops != [] {
      var rest := ops[1..];
      assert forall i :: 0 <= i < |rest| ==> rest[i] == ops[i + 1];
      TouchedForgets(ApplyOp(t, ops[0]), ApplyOp(u, ops[0]), rest, k);
      TouchesCons(ops, k);
    }
  }

  /**
   * With a `clear` in the middle the client's reading differs from the patch's meaning exactly when
   * something put before the last `clear` is not named after it. No patch the server builds is like that.
   */
  lemma AbsorbIsApplyIff(t: Table, ops: seq<PatchOp>, last: nat)
    requires last < |ops| && ops[last].Clear? && !HasClear(ops[last + 1..])
    ensures Absorb(t, ops) == ApplyOps(t, ops) <==>
            forall k :: k in ApplyOps(map[], WithoutClears(ops[..last])) ==> Touches(ops[last + 1..], k)
  {
    var head, tail := ops[..last], ops[last + 1..];
    var before := ApplyOps(map[], WithoutClears(head));
    assert ops == head + ([Clear] + tail);
    assert ([Clear] + tail)[1..] == tail;
    WithoutClearsConcat(head, [Clear] + tail);
    WithoutClearsIsAll(tail);
    ApplyOpsConcat(map[], WithoutClears(head), tail);
    ApplyOpsConcat(t, head, [Clear] + tail);
    assert Absorb(t, ops) == ApplyOps(before, tail);
    assert ApplyOps(t, ops) == ApplyOps(map[], tail);
    forall k
      ensures Find(ApplyOps(before, tail), k) == Find(ApplyOps(map[], tail), k) <==> k !in before || Touches(tail, k)
    {
      TouchedForgets(before, map[], tail, k);
    }
    if forall k :: k in before ==> Touches(tail, k) {
      TablesEqual(ApplyOps(before, tail), ApplyOps(map[], tail));
    }
  }

  lemma TablesEqual(a: Table, b: Table)
    requires forall k :: Find(a, k) == Find(b, k)
    ensures a == b
  {
    forall k
      ensures k in a <==> k in b
      ensures k in a ==> a[k] == b[k]
    {
      assert Find(a, k) == Find(b, k);
    }
  }
}
