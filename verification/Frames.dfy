/** Poke frames of packages/server/src/frames.ts: counting bytes, packing operations, counting down. */
module Frames {
  import opened Rows
  import opened Server
  import Client
  import WriteSets

  const MAX_PART_PATCH_BYTES := 850_000

  // ----- UTF-8 (section 3 of RFC 3629) -----

  /** A string as the runtime holds it: UTF-16 code units, surrogates paired or not. */
  type Unit = u: int | 0 <= u < 0x1_0000

  type Text = seq<Unit>

  type Byte = b: int | 0 <= b < 0x100

  type Scalar = c: int | 0 <= c < 0xd800 || 0xe000 <= c < 0x11_0000

  const REPLACEMENT: Scalar := 0xfffd

  predicate High(u: Unit) { 0xd800 <= u <= 0xdbff }

  predicate Low(u: Unit) { 0xdc00 <= u <= 0xdfff }

  predicate Paired(t: Text) {
    |t| >= 2 && High(t[0]) && Low(t[1])
  }

  /** The characters of a string; a surrogate without its partner becomes U+FFFD. */
  function Scalars(t: Text): seq<Scalar> {
    if t == [] then []
    else if Paired(t) then [0x1_0000 + (t[0] - 0xd800) * 0x400 + (t[1] - 0xdc00)] + Scalars(t[2..])
    else [if High(t[0]) || Low(t[0]) then REPLACEMENT else t[0]] + Scalars(t[1..])
  }

  function EncodeScalar(c: Scalar): seq<Byte> {
    if c < 0x80 then [c]
    else if c < 0x800 then [0xc0 + c / 0x40, 0x80 + c % 0x40]
    else if c < 0x1_0000 then [0xe0 + c / 0x1000, 0x80 + c / 0x40 % 0x40, 0x80 + c % 0x40]
    else [0xf0 + c / 0x4_0000, 0x80 + c / 0x1000 % 0x40, 0x80 + c / 0x40 % 0x40, 0x80 + c % 0x40]
  }

  function Encode(cs: seq<Scalar>): seq<Byte> {
    if cs == [] then [] else EncodeScalar(cs[0]) + Encode(cs[1..])
  }

  function Utf8(t: Text): seq<Byte> {
    Encode(Scalars(t))
  }

  function Tail(b: Byte): int { b - 0x80 }

  /** The first character of an encoding and the bytes it took. */
  function DecodeFirst(bs: seq<Byte>): (int, nat)
    requires bs != []
  {
    if bs[0] < 0x80 then (bs[0], 1)
    else if bs[0] < 0xe0 && |bs| >= 2 then ((bs[0] - 0xc0) * 0x40 + Tail(bs[1]), 2)
    else if bs[0] < 0xf0 && |bs| >= 3 then ((bs[0] - 0xe0) * 0x1000 + Tail(bs[1]) * 0x40 + Tail(bs[2]), 3)
    else if |bs| >= 4 then
      ((bs[0] - 0xf0) * 0x4_0000 + Tail(bs[1]) * 0x1000 + Tail(bs[2]) * 0x40 + Tail(bs[3]), 4)
    else (REPLACEMENT, |bs|)
  }

  function Decode(bs: seq<Byte>): seq<int>
    decreases |bs|
  {
    if bs == [] then [] else var (c, n) := DecodeFirst(bs); [c] + Decode(bs[n..])
  }

  lemma SixBits(c: nat)
    ensures c / 0x40 * 0x40 + c % 0x40 == c
    ensures c / 0x1000 * 0x1000 + c / 0x40 % 0x40 * 0x40 + c % 0x40 == c
    ensures c / 0x4_0000 * 0x4_0000 + c / 0x1000 % 0x40 * 0x1000 + c / 0x40 % 0x40 * 0x40 + c % 0x40 == c
  {
    assert c / 0x1000 == c / 0x40 / 0x40 && c / 0x4_0000 == c / 0x1000 / 0x40;
  }

  lemma FirstDecodes(c: Scalar, rest: seq<Byte>)
    ensures DecodeFirst(EncodeScalar(c) + rest) == (c, |EncodeScalar(c)|)
  {
    SixBits(c);
    var e := EncodeScalar(c);
    assert forall i :: 0 <= i < |e| ==> (e + rest)[i] == e[i];
  }

  /** The encoding loses nothing, so its length is that of the one encoding there is. */
  lemma {:induction false} EncodeDecodes(cs: seq<Scalar>)
    ensures Decode(Encode(cs)) == cs
  {
    if cs != [] {
      var first, rest := EncodeScalar(cs[0]), Encode(cs[1..]);
      FirstDecodes(cs[0], rest);
      assert (first + rest)[|first|..] == rest;
      EncodeDecodes(cs[1..]);
    }
  }

  function Width(u: Unit): nat {
    if u < 0x80 then 1 else if u < 0x800 then 2 else 3
  }

  function Size(t: Text): nat {
    |Utf8(t)|
  }

  lemma SizeStep(t: Text)
    ensures t == [] ==> Size(t) == 0
    ensures Paired(t) ==> Size(t) == 4 + Size(t[2..])
    ensures t != [] && !Paired(t) ==> Size(t) == Width(t[0]) + Size(t[1..])
  {
    if t != [] {
      var cs := Scalars(t);
      assert cs[1..] == Scalars(t[if Paired(t) then 2 else 1..]);
    }
  }

  predicate IsAscii(t: Text) {
    forall i :: 0 <= i < |t| ==> t[i] < 0x80
  }

  lemma {:induction false} AsciiSize(t: Text)
    requires IsAscii(t)
    ensures Size(t) == |t|
  {
    SizeStep(t);
    if t != [] { AsciiSize(t[1..]); }
  }

  method Utf8ByteLength(text: Text) returns (bytes: nat)
    ensures bytes == |Utf8(text)|
  {
    if forall i :: 0 <= i < |text| ==> text[i] < 0x80 {
      AsciiSize(text);
      return |text|;
    }
    bytes := |text|;
    var i := 0;
    assert text[0..] == text;
    while i < |text|
      invariant 0 <= i <= |text|
      invariant bytes + Size(text[i..]) == Size(text) + |text| - i
    {
      var code := text[i];
      var rest := text[i..];
      SizeStep(rest);
      assert rest[1..] == text[i + 1..];
      if code < 0x80 {
      } else if code < 0x800 {
        bytes := bytes + 1;
      } else if 0xd800 <= code <= 0xdbff {
        // Two units and four bytes for a pair, three bytes for a surrogate alone.
        bytes := bytes + 2;
        if i + 1 < |text| && 0xdc00 <= text[i + 1] <= 0xdfff {
          assert rest[2..] == text[i + 2..];
          i := i + 1;
        }
      } else {
        bytes := bytes + 2;
      }
      i := i + 1;
    }
    SizeStep(text[i..]);
  }

  const COMMA: Unit := 0x2c

  /** A comma never completes a pair, so joining costs one byte each. */
  lemma {:induction false} CommaJoins(a: Text, b: Text)
    ensures Size(a + [COMMA] + b) == Size(a) + 1 + Size(b)
    decreases |a|
  {
    hide Size;
    var t := a + [COMMA] + b;
    SizeStep(t);
    SizeStep(a);
    if a == [] {
      assert t[1..] == b;
    } else if Paired(a) {
      assert t[2..] == a[2..] + [COMMA] + b;
      CommaJoins(a[2..], b);
    } else {
      assert t[1..] == a[1..] + [COMMA] + b;
      CommaJoins(a[1..], b);
    }
  }

  lemma {:induction false} SizeConcat(a: Text, b: Text)
    ensures Size(a + b) <= Size(a) + Size(b)
    decreases |a|
  {
    hide Size;
    var t := a + b;
    SizeStep(t);
    SizeStep(a);
    if a == [] {
      assert t == b;
    } else if Paired(a) {
      assert t[2..] == a[2..] + b;
      SizeConcat(a[2..], b);
    } else if Paired(t) {
      assert |a| == 1 && t[2..] == b[1..] && a[1..] == [];
      SizeStep(a[1..]);
      SizeStep(b);
    } else {
      assert t[1..] == a[1..] + b;
      SizeConcat(a[1..], b);
    }
  }

  // ----- packing -----

  datatype Packing = Packed(parts: seq<Text>, counts: seq<nat>, total: nat) | Oversize(bytes: nat, max: nat)

  function Cost(op: Text): nat {
    Size(op) + 1
  }

  function Weight(ops: seq<Text>): nat {
    if ops == [] then 0 else Weight(ops[..|ops| - 1]) + Cost(ops[|ops| - 1])
  }

  function Joined(ops: seq<Text>): Text {
    if ops == [] then []
    else if |ops| == 1 then ops[0]
    else Joined(ops[..|ops| - 1]) + [COMMA] + ops[|ops| - 1]
  }

  lemma {:induction false} JoinedSize(ops: seq<Text>)
    requires ops != []
    ensures Size(Joined(ops)) + 1 == Weight(ops)
  {
    if |ops| > 1 {
      JoinedSize(ops[..|ops| - 1]);
      CommaJoins(Joined(ops[..|ops| - 1]), ops[|ops| - 1]);
    } else {
      assert Weight(ops[..0]) == 0;
    }
  }

  lemma WeightAppend(ops: seq<Text>, op: Text)
    ensures Weight(ops + [op]) == Weight(ops) + Cost(op)
  {
    assert (ops + [op])[..|ops|] == ops;
  }

  lemma {:induction false} WeightConcat(a: seq<Text>, b: seq<Text>)
    ensures Weight(a + b) == Weight(a) + Weight(b)
    decreases |b|
  {
    if b == [] {
      assert a + b == a;
    } else {
      assert (a + b)[..|a + b| - 1] == a + b[..|b| - 1];
      WeightConcat(a, b[..|b| - 1]);
    }
  }

  function Sum(counts: seq<nat>): nat {
    if counts == [] then 0 else Sum(counts[..|counts| - 1]) + counts[|counts| - 1]
  }

  lemma {:induction false} SumPrefix(counts: seq<nat>, n: nat)
    requires n <= |counts|
    ensures Sum(counts[..n]) <= Sum(counts)
    decreases |counts|
  {
    if n < |counts| {
      assert counts[..|counts| - 1][..n] == counts[..n];
      SumPrefix(counts[..|counts| - 1], n);
    } else {
      assert counts[..n] == counts;
    }
  }

  /** Where part `j` of a split starts. */
  function StartOf(counts: seq<nat>, j: nat): nat
    requires j <= |counts|
  {
    Sum(counts[..j])
  }

  lemma StartOfNext(counts: seq<nat>, j: nat)
    requires j < |counts|
    ensures StartOf(counts, j + 1) == StartOf(counts, j) + counts[j]
    ensures StartOf(counts, j + 1) <= Sum(counts)
  {
    assert counts[..j + 1][..j] == counts[..j];
    SumPrefix(counts, j + 1);
  }

  function Group<T>(ops: seq<T>, counts: seq<nat>, j: nat): seq<T>
    requires j < |counts| && Sum(counts) <= |ops|
  {
    StartOfNext(counts, j);
    ops[StartOf(counts, j)..StartOf(counts, j + 1)]
  }

  /** The parts closed so far; each was closed because the next operation no longer fitted. */
  ghost predicate PackedTo(ops: seq<Text>, parts: seq<Text>, counts: seq<nat>, max: nat) {
    && |parts| == |counts| && Sum(counts) <= |ops|
    && forall j :: 0 <= j < |counts| ==> PartOk(ops, parts[j], counts, j, max)
  }

  ghost predicate PartOk(ops: seq<Text>, part: Text, counts: seq<nat>, j: nat, max: nat)
    requires j < |counts| && Sum(counts) <= |ops|
  {
    var (g, next) := (Group(ops, counts, j), StartOf(counts, j + 1));
    && counts[j] > 0 && part == Joined(g) && Weight(g) <= max
    && (next < |ops| ==> Weight(g) + Cost(ops[next]) > max)
  }

  lemma PackedMore(ops: seq<Text>, parts: seq<Text>, counts: seq<nat>, max: nat, n: nat)
    requires PackedTo(ops, parts, counts, max) && 0 < n <= |ops| - Sum(counts)
    requires var (from, to) := (Sum(counts), Sum(counts) + n);
             && Weight(ops[from..to]) <= max
             && (to < |ops| ==> Weight(ops[from..to]) + Cost(ops[to]) > max)
    ensures var more := counts + [n];
            && Sum(more) == Sum(counts) + n
            && PackedTo(ops, parts + [Joined(ops[Sum(counts)..Sum(counts) + n])], more, max)
  {
    hide Joined, Weight, Cost;
    var more, parts' := counts + [n], parts + [Joined(ops[Sum(counts)..Sum(counts) + n])];
    assert more[..|counts|] == counts && more[..|more|] == more;
    forall j | 0 <= j < |more|
      ensures PartOk(ops, parts'[j], more, j, max)
    {
      if j < |counts| {
        assert more[..j] == counts[..j] && more[..j + 1] == counts[..j + 1];
        assert PartOk(ops, parts[j], counts, j, max);
      }
    }
  }

  /** Packing after `i` operations: the parts closed, and the open one with its weight. */
  ghost predicate PackingAt(
      ops: seq<Text>, max: nat, i: nat, parts: seq<Text>, counts: seq<nat>, current: seq<Text>, currentBytes: nat)
  {
    && PackedTo(ops, parts, counts, max) && Sum(counts) <= i <= |ops|
    && current == ops[Sum(counts)..i] && currentBytes == Weight(current) <= max
  }

  lemma CloseKeeps(
      ops: seq<Text>, max: nat, i: nat, parts: seq<Text>, counts: seq<nat>, current: seq<Text>, currentBytes: nat)
    requires PackingAt(ops, max, i, parts, counts, current, currentBytes) && current != []
    requires i < |ops| ==> currentBytes + Cost(ops[i]) > max
    ensures PackingAt(ops, max, i, parts + [Joined(current)], counts + [|current|], [], 0)
    ensures Sum(counts + [|current|]) == i
  {
    hide Weight, Joined, Sum, PartOk;
    PackedMore(ops, parts, counts, max, |current|);
    EmptyWeighsNothing();
  }

  lemma EmptyPart()
    ensures Sum([0]) == 0 && Joined([]) == []
  {
    assert [0][..0] == [];
  }

  lemma EmptyWeighsNothing()
    ensures Weight([]) == 0 && Sum([]) == 0
  {
  }

  lemma PushKeeps(
      ops: seq<Text>, max: nat, i: nat, parts: seq<Text>, counts: seq<nat>, current: seq<Text>, currentBytes: nat)
    requires PackingAt(ops, max, i, parts, counts, current, currentBytes) && i < |ops|
    requires currentBytes + Cost(ops[i]) <= max
    ensures PackingAt(ops, max, i + 1, parts, counts, current + [ops[i]], currentBytes + Cost(ops[i]))
  {
    hide Weight, PartOk;
    WeightAppend(current, ops[i]);
  }

  /** Greedy under the per-part budget; an operation over the budget on its own is refused. */
  method PackPatch(ops: seq<Text>, maxBytes: nat) returns (r: Packing)
    ensures r.Oversize? <==> exists i :: 0 <= i < |ops| && Cost(ops[i]) > maxBytes
    ensures r.Packed? ==> r.total == |ops| == Sum(r.counts)
    ensures r.Packed? && ops == [] ==> r.parts == [[]] && r.counts == [0]
    ensures r.Packed? && ops != [] ==> PackedTo(ops, r.parts, r.counts, maxBytes)
  {
    hide Weight, Joined, PackedTo, PackingAt, Sum;
    var parts, current := [], [];
    var counts: seq<nat>, currentBytes: nat := [], 0;
    StartPacking(ops, maxBytes);
    for i := 0 to |ops|
      invariant PackingAt(ops, maxBytes, i, parts, counts, current, currentBytes)
      invariant if i > 0 then current != [] else parts == [] && current == [] && currentBytes == 0
      invariant forall j :: 0 <= j < i ==> Cost(ops[j]) <= maxBytes
    {
      var op := ops[i];
      var size := Utf8ByteLength(op);
      var bytes := size + 1;
      if bytes > maxBytes { return Oversize(bytes, maxBytes); }
      if |current| > 0 && currentBytes + bytes > maxBytes {
        CloseKeeps(ops, maxBytes, i, parts, counts, current, currentBytes);
        parts, counts := parts + [Joined(current)], counts + [|current|];
        current, currentBytes := [], 0;
      }
      PushKeeps(ops, maxBytes, i, parts, counts, current, currentBytes);
      current := current + [op];
      currentBytes := currentBytes + bytes;
    }
    if |current| > 0 || |parts| == 0 {
      LastPart(ops, maxBytes, parts, counts, current, currentBytes);
      parts, counts := parts + [Joined(current)], counts + [|current|];
    }
    return Packed(parts, counts, |ops|);
  }

  lemma StartPacking(ops: seq<Text>, max: nat)
    ensures PackingAt(ops, max, 0, [], [], [], 0)
  {
    assert ops[0..0] == [];
  }

  lemma LastPart(ops: seq<Text>, max: nat, parts: seq<Text>, counts: seq<nat>, current: seq<Text>, currentBytes: nat)
    requires PackingAt(ops, max, |ops|, parts, counts, current, currentBytes)
    requires if ops == [] then parts == [] && current == [] else current != []
    ensures Sum(counts + [|current|]) == |ops|
    ensures ops == [] ==> parts + [Joined(current)] == [[]] && counts + [|current|] == [0]
    ensures ops != [] ==> PackedTo(ops, parts + [Joined(current)], counts + [|current|], max)
  {
    hide Weight, PartOk, Sum, Joined;
    if ops == [] {
      assert counts == [] && counts + [|current|] == [0];
      EmptyPart();
    } else {
      hide PackingAt, PackedTo;
      CloseKeeps(ops, max, |ops|, parts, counts, current, currentBytes);
    }
  }

  /** A part's text is within the budget in bytes, the commas counted. */
  lemma PartsFit(ops: seq<Text>, parts: seq<Text>, counts: seq<nat>, max: nat, j: nat)
    requires PackedTo(ops, parts, counts, max) && j < |parts|
    ensures |Utf8(parts[j])| < max
  {
    assert PartOk(ops, parts[j], counts, j, max);
    StartOfNext(counts, j);
    JoinedSize(Group(ops, counts, j));
  }

  // ----- no split into fewer parts -----

  ghost predicate SplitFits(ops: seq<Text>, counts: seq<nat>, max: nat) {
    Sum(counts) == |ops| && forall j :: 0 <= j < |counts| ==> Weight(Group(ops, counts, j)) <= max
  }

  lemma WiderWeighsMore(ops: seq<Text>, a: nat, b: nat, c: nat, d: nat)
    requires a <= b <= c <= d <= |ops|
    ensures Weight(ops[b..c]) <= Weight(ops[a..d])
  {
    assert ops[a..d] == ops[a..b] + ops[b..c] + ops[c..d];
    WeightConcat(ops[a..b] + ops[b..c], ops[c..d]);
    WeightConcat(ops[a..b], ops[b..c]);
  }

  /** After as many parts, no fitting split is further on than the greedy one. */
  lemma {:induction false} GreedyStaysAhead(ops: seq<Text>, parts: seq<Text>, counts: seq<nat>, other: seq<nat>, max: nat, j: nat)
    requires PackedTo(ops, parts, counts, max) && Sum(counts) == |ops| && SplitFits(ops, other, max)
    requires j <= |counts| && j <= |other|
    ensures StartOf(other, j) <= StartOf(counts, j)
  {
    hide Weight, Joined, Sum, Cost;
    if j > 0 {
      GreedyStaysAhead(ops, parts, counts, other, max, j - 1);
      assert PartOk(ops, parts[j - 1], counts, j - 1, max);
      StartOfNext(counts, j - 1);
      StartOfNext(other, j - 1);
      assert Weight(Group(ops, other, j - 1)) <= max;
      var from, to := StartOf(counts, j - 1), StartOf(counts, j);
      if StartOf(other, j) > to {
        WiderWeighsMore(ops, StartOf(other, j - 1), from, to + 1, StartOf(other, j));
        assert ops[from..to + 1] == Group(ops, counts, j - 1) + [ops[to]];
        WeightAppend(Group(ops, counts, j - 1), ops[to]);
        assert false;
      }
    }
  }

  /** The greedy split has the fewest parts of any that keeps the order and the budget. */
  lemma GreedyIsFewest(ops: seq<Text>, parts: seq<Text>, counts: seq<nat>, other: seq<nat>, max: nat)
    requires PackedTo(ops, parts, counts, max) && Sum(counts) == |ops| && SplitFits(ops, other, max)
    ensures |counts| <= |other|
  {
    if |other| < |counts| {
      var n := |other|;
      GreedyStaysAhead(ops, parts, counts, other, max, n);
      assert other[..n] == other;
      assert PartOk(ops, parts[n], counts, n, max);
      StartOfNext(counts, n);
      assert false;
    }
  }

  // ----- no operation of a stored row is oversize -----

  /** An ASCII string as text. */
  function Ascii(s: string): (t: Text)
    requires forall i :: 0 <= i < |s| ==> s[i] as int < 0x80
    ensures |t| == |s| && IsAscii(t)
  {
    if s == [] then [] else [s[0] as int] + Ascii(s[1..])
  }

  function Hex(n: nat): Unit
    requires n < 16
  {
    if n < 10 then 0x30 + n else 0x61 + n - 10
  }

  /** One unit inside a JSON string: short escapes where there are any, \u00xx for other control characters. */
  function Escaped(u: Unit): Text {
    if u == 0x22 || u == 0x5c then [0x5c, u]
    else if u == 0x08 then [0x5c, 0x62]
    else if u == 0x09 then [0x5c, 0x74]
    else if u == 0x0a then [0x5c, 0x6e]
    else if u == 0x0c then [0x5c, 0x66]
    else if u == 0x0d then [0x5c, 0x72]
    else if u < 0x20 then [0x5c, 0x75, 0x30, 0x30, Hex(u / 16), Hex(u % 16)]
    else [u]
  }

  function EscapedAll(t: Text): Text {
    if t == [] then [] else EscapedAll(t[..|t| - 1]) + Escaped(t[|t| - 1])
  }

  function JsonQuote(t: Text): Text {
    [0x22] + EscapedAll(t) + [0x22]
  }

  lemma EscapedSize(u: Unit)
    ensures Size(Escaped(u)) <= 6
  {
    var t := Escaped(u);
    if IsAscii(t) {
      AsciiSize(t);
    } else {
      SizeStep(t);
      SizeStep(t[1..]);
    }
  }

  lemma {:induction false} EscapedAllSize(t: Text)
    ensures Size(EscapedAll(t)) <= 6 * |t|
  {
    if t == [] {
      SizeStep([]);
    } else {
      EscapedAllSize(t[..|t| - 1]);
      EscapedSize(t[|t| - 1]);
      SizeConcat(EscapedAll(t[..|t| - 1]), Escaped(t[|t| - 1]));
    }
  }

  lemma QuoteSize(t: Text)
    ensures Size(JsonQuote(t)) <= 6 * |t| + 2
  {
    EscapedAllSize(t);
    AsciiSize([0x22]);
    SizeConcat([0x22] + EscapedAll(t), [0x22]);
    SizeConcat([0x22], EscapedAll(t));
  }

  const PUT_HEAD := Ascii("{\"op\":\"put\",\"tbl\":")
  const DEL_HEAD := Ascii("{\"op\":\"del\",\"tbl\":")
  const ID_HEAD := Ascii(",\"id\":")
  const VALUE_HEAD := Ascii(",\"value\":")
  const CLOSE := Ascii("}")

  /** The text of a row's operation, put together from the stored columns. */
  function PutOp(tbl: Text, id: Text, data: Text): Text {
    PUT_HEAD + (JsonQuote(tbl) + (ID_HEAD + (JsonQuote(id) + (VALUE_HEAD + (data + CLOSE)))))
  }

  function DelOp(tbl: Text, id: Text): Text {
    DEL_HEAD + (JsonQuote(tbl) + (ID_HEAD + (JsonQuote(id) + CLOSE)))
  }

  /** Rows the engine stores pack whatever their bytes: names, ids and data are bounded before storage. */
  lemma StoredRowsPack(tbl: Text, id: Text, data: Text)
    requires |tbl| <= WriteSets.MAX_TABLE_NAME && |id| <= WriteSets.MAX_ID_LENGTH && |Utf8(data)| <= WriteSets.MAX_ROW_BYTES
    ensures Cost(PutOp(tbl, id, data)) <= MAX_PART_PATCH_BYTES && Cost(DelOp(tbl, id)) <= MAX_PART_PATCH_BYTES
  {
    AsciiSize(PUT_HEAD);
    AsciiSize(DEL_HEAD);
    AsciiSize(ID_HEAD);
    AsciiSize(VALUE_HEAD);
    AsciiSize(CLOSE);
    QuoteSize(tbl);
    QuoteSize(id);
    SizeConcat(data, CLOSE);
    SizeConcat(VALUE_HEAD, data + CLOSE);
    IdSize(id, VALUE_HEAD + (data + CLOSE));
    IdSize(id, CLOSE);
    TableSize(PUT_HEAD, tbl, ID_HEAD + (JsonQuote(id) + (VALUE_HEAD + (data + CLOSE))));
    TableSize(DEL_HEAD, tbl, ID_HEAD + (JsonQuote(id) + CLOSE));
  }

  lemma IdSize(id: Text, rest: Text)
    ensures Size(ID_HEAD + (JsonQuote(id) + rest)) <= Size(ID_HEAD) + Size(JsonQuote(id)) + Size(rest)
  {
    SizeConcat(ID_HEAD, JsonQuote(id) + rest);
    SizeConcat(JsonQuote(id), rest);
  }

  lemma TableSize(head: Text, tbl: Text, rest: Text)
    ensures Size(head + (JsonQuote(tbl) + rest)) <= Size(head) + Size(JsonQuote(tbl)) + Size(rest)
  {
    SizeConcat(head, JsonQuote(tbl) + rest);
    SizeConcat(JsonQuote(tbl), rest);
  }

  // ----- frames -----

  datatype Wire = Start | Part(patch: Text, remaining: int, confirms: bool) | End

  /** Start, the parts counting down to nothing left, end; only the first part confirms. */
  method PokeFrames(parts: seq<Text>, counts: seq<nat>, total: nat) returns (frames: seq<Wire>)
    requires |parts| == |counts|
    ensures |frames| == |parts| + 2 && frames[0] == Start && frames[|parts| + 1] == End
    ensures forall i :: 0 <= i < |parts| ==> frames[i + 1] == Part(parts[i], total - Sum(counts[..i + 1]), i == 0)
  {
    frames := [Start];
    var sent := 0;
    for i := 0 to |parts|
      invariant |frames| == i + 1 && frames[0] == Start && sent == Sum(counts[..i])
      invariant forall j :: 0 <= j < i ==> frames[j + 1] == Part(parts[j], total - Sum(counts[..j + 1]), j == 0)
    {
      StartOfNext(counts, i);
      sent := sent + counts[i];
      frames := frames + [Part(parts[i], total - sent, i == 0)];
    }
    frames := frames + [End];
  }

  /** The countdown never rises, stays within the operations still to come, and ends at zero. */
  lemma CountsDown(counts: seq<nat>, i: nat)
    requires i < |counts|
    ensures 0 <= Sum(counts) - Sum(counts[..i + 1]) <= Sum(counts) - Sum(counts[..i])
    ensures Sum(counts) - Sum(counts[..|counts|]) == 0
  {
    StartOfNext(counts, i);
    assert counts[..|counts|] == counts;
  }

  // ----- what arrives -----

  function Groups<T>(ops: seq<T>, counts: seq<nat>, n: nat): seq<seq<T>>
    requires n <= |counts| && Sum(counts) <= |ops|
  {
    if n == 0 then [] else Groups(ops, counts, n - 1) + [Group(ops, counts, n - 1)]
  }

  lemma {:induction false} GroupsFlatten<T>(ops: seq<T>, counts: seq<nat>, n: nat)
    requires n <= |counts| && Sum(counts) <= |ops|
    ensures StartOf(counts, n) <= |ops| && Client.Flatten(Groups(ops, counts, n)) == ops[..StartOf(counts, n)]
  {
    SumPrefix(counts, n);
    if n > 0 {
      GroupsFlatten(ops, counts, n - 1);
      StartOfNext(counts, n - 1);
      Client.FlattenSnoc(Groups(ops, counts, n - 1), Group(ops, counts, n - 1));
      assert ops[..StartOf(counts, n)] == ops[..StartOf(counts, n - 1)] + Group(ops, counts, n - 1);
    }
  }

  /** However a poke is packed, receiving its frames does what the poke as a whole does. */
  lemma PackedPokeArrives(s: Client.State, pokeId: nat, p: Poke, counts: seq<nat>)
    requires counts != [] && Sum(counts) == |p.ops|
    ensures Client.Receive(s, Client.PokeFrames(pokeId, p, Groups(p.ops, counts, |counts|))) ==
            if p.base == s.cursor || HasClear(p.ops) then
              Client.ApplyPoke(s.(poke := None), Client.Opened(pokeId, p, s.cursor, p.ops, 1), p.end)
            else s.(poke := None, awaitingCatchUp := true)
  {
    GroupsFlatten(p.ops, counts, |counts|);
    assert counts[..|counts|] == counts && p.ops[..|p.ops|] == p.ops;
    Client.PokeRoundTrip(s, pokeId, p, Groups(p.ops, counts, |counts|));
  }
}
