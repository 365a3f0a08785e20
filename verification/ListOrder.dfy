/**
 * The order of a `list` (packages/server/src/engine-core.ts and its mirror in packages/client/src/local-writes.ts):
 * both merge into an insertion-ordered map, over whatever order the rows below come in.
 */
module ListOrder {
  import opened Rows
  import opened JsMaps
  import opened WriteSets

  type Listing = JsMap<string, Data>

  /** The stored rows that match, as they come. */
  function Stored(ids: seq<string>, rows: map<string, Data>, where: Where): Listing {
    if ids == [] then Empty()
    else
      var (m, id) := (Stored(ids[..|ids| - 1], rows, where), ids[|ids| - 1]);
      if id in rows && Matches(where, rows[id]) then Insert(m, id, rows[id]) else m
  }

  function Undeleted(m: Listing, dels: seq<Key>, tbl: string): Listing {
    if dels == [] then m
    else
      var (rest, k) := (Undeleted(m, dels[..|dels| - 1], tbl), dels[|dels| - 1]);
      if k.tbl == tbl then Delete(rest, k.id) else rest
  }

  /** A buffered row that matches keeps a stored row's place or comes last; one that does not goes. */
  function Overlaid(m: Listing, order: seq<Key>, vals: Table, tbl: string, where: Where): Listing
    requires forall k :: k in order ==> k in vals
  {
    if order == [] then m
    else
      assert order == order[..|order| - 1] + [order[|order| - 1]];
      var (rest, k) := (Overlaid(m, order[..|order| - 1], vals, tbl, where), order[|order| - 1]);
      if k.tbl != tbl then rest
      else if Matches(where, vals[k]) then Insert(rest, k.id, vals[k])
      else Delete(rest, k.id)
  }

  function Listed(ids: seq<string>, rows: map<string, Data>, dels: seq<Key>, order: seq<Key>, vals: Table, tbl: string, where: Where): Listing
    requires forall k :: k in order ==> k in vals
  {
    Overlaid(Undeleted(Stored(ids, rows, where), dels, tbl), order, vals, tbl, where)
  }

  // ----- what survives, and what is added -----

  function Only(s: seq<string>, gone: set<string>): seq<string> {
    if s == [] then [] else (if s[0] in gone then [] else [s[0]]) + Only(s[1..], gone)
  }

  /** Buffered rows of the table that match and are not below, in the order they were put. */
  function Added(order: seq<Key>, vals: Table, tbl: string, where: Where, below: set<string>): seq<string>
    requires forall k :: k in order ==> k in vals
  {
    if order == [] then []
    else
      assert order == order[..|order| - 1] + [order[|order| - 1]];
      var (rest, k) := (Added(order[..|order| - 1], vals, tbl, where, below), order[|order| - 1]);
      if k.tbl == tbl && Matches(where, vals[k]) && k.id !in below then rest + [k.id] else rest
  }

  /** Buffered rows of the table that do not match. */
  function Hidden(order: seq<Key>, vals: Table, tbl: string, where: Where): set<string>
    requires forall k :: k in order ==> k in vals
  {
    set k | k in order && k.tbl == tbl && !Matches(where, vals[k]) :: k.id
  }

  lemma {:induction false} WithoutConcat(a: seq<string>, b: seq<string>, id: string)
    ensures Without(a + b, id) == Without(a, id) + Without(b, id)
  {
    if a == [] {
      assert a + b == b;
    } else {
      assert (a + b)[1..] == a[1..] + b;
      WithoutConcat(a[1..], b, id);
    }
  }

  lemma {:induction false} WithoutIsOnly(s: seq<string>, gone: set<string>, id: string)
    ensures Without(Only(s, gone), id) == Only(s, gone + {id})
  {
    if s != [] {
      var head := if s[0] in gone then [] else [s[0]];
      WithoutConcat(head, Only(s[1..], gone), id);
      WithoutIsOnly(s[1..], gone, id);
    }
  }

  lemma {:induction false} WithoutAbsent(s: seq<string>, id: string)
    requires id !in s
    ensures Without(s, id) == s
  {
    if s != [] { WithoutAbsent(s[1..], id); }
  }

  lemma {:induction false} OnlyElems(s: seq<string>, gone: set<string>)
    ensures forall id :: id in Only(s, gone) <==> id in s && id !in gone
  {
    if s != [] { OnlyElems(s[1..], gone); }
  }

  lemma {:induction false} AddedElems(order: seq<Key>, vals: Table, tbl: string, where: Where, below: set<string>)
    requires forall k :: k in order ==> k in vals
    ensures forall id :: id in Added(order, vals, tbl, where, below) ==> id !in below && Key(tbl, id) in order
  {
    if order != [] {
      var (init, last) := (order[..|order| - 1], order[|order| - 1]);
      assert order == init + [last];
      AddedElems(init, vals, tbl, where, below);
      assert last.tbl == tbl ==> Key(tbl, last.id) == last;
    }
  }

  lemma {:induction false} OnlyConcat(a: seq<string>, b: seq<string>, gone: set<string>)
    ensures Only(a + b, gone) == Only(a, gone) + Only(b, gone)
  {
    if a == [] {
      assert a + b == b;
    } else {
      assert (a + b)[1..] == a[1..] + b;
      OnlyConcat(a[1..], b, gone);
    }
  }

  lemma {:induction false} OnlyOnly(s: seq<string>, a: set<string>, b: set<string>)
    ensures Only(Only(s, a), b) == Only(s, a + b)
  {
    if s != [] {
      var head := if s[0] in a then [] else [s[0]];
      OnlyConcat(head, Only(s[1..], a), b);
      OnlyOnly(s[1..], a, b);
    }
  }

  lemma {:induction false} OnlyNone(s: seq<string>, gone: set<string>)
    requires forall id :: id in s ==> id !in gone
    ensures Only(s, gone) == s
  {
    if s != [] { OnlyNone(s[1..], gone); }
  }

  lemma {:induction false} OnlySame(s: seq<string>, a: set<string>, b: set<string>)
    requires forall id :: id in s ==> (id in a <==> id in b)
    ensures Only(s, a) == Only(s, b)
  {
    if s != [] { OnlySame(s[1..], a, b); }
  }

  // ----- each stage -----

  function Unmatched(ids: seq<string>, rows: map<string, Data>, where: Where): set<string> {
    set id | id in ids && !(id in rows && Matches(where, rows[id]))
  }

  lemma {:induction false} StoredOrder(ids: seq<string>, rows: map<string, Data>, where: Where)
    requires Distinct(ids)
    ensures JsMaps.Valid(Stored(ids, rows, where))
    ensures Stored(ids, rows, where).order == Only(ids, Unmatched(ids, rows, where))
  {
    if ids != [] {
      var (init, last) := (ids[..|ids| - 1], ids[|ids| - 1]);
      assert ids == init + [last] && last !in init;
      StoredOrder(init, rows, where);
      OnlyConcat(init, [last], Unmatched(ids, rows, where));
      OnlySame(init, Unmatched(init, rows, where), Unmatched(ids, rows, where));
      OnlyElems(init, Unmatched(init, rows, where));
    }
  }

  lemma {:induction false} UndeletedOrder(m: Listing, dels: seq<Key>, tbl: string)
    requires JsMaps.Valid(m)
    ensures JsMaps.Valid(Undeleted(m, dels, tbl))
    ensures Undeleted(m, dels, tbl).order == Only(m.order, Ids(Elems(dels), tbl))
    ensures Undeleted(m, dels, tbl).vals == m.vals - Ids(Elems(dels), tbl)
  {
    hide Only, Without, JsMaps.Valid;
    if dels == [] {
      OnlyNone(m.order, Ids(Elems(dels), tbl));
    } else {
      var (init, last) := (dels[..|dels| - 1], dels[|dels| - 1]);
      assert dels == init + [last];
      UndeletedOrder(m, init, tbl);
      OneMoreId(init, last, tbl);
      var rest := Undeleted(m, init, tbl);
      if last.tbl == tbl {
        WithoutIsOnly(m.order, Ids(Elems(init), tbl), last.id);
        WithoutIsDistinct(rest.order, last.id);
        assert Undeleted(m, dels, tbl) == Delete(rest, last.id);
      } else {
        assert Undeleted(m, dels, tbl) == rest;
        assert Ids(Elems(dels), tbl) == Ids(Elems(init), tbl);
      }
    }
  }

  lemma OneMoreId(init: seq<Key>, last: Key, tbl: string)
    ensures Ids(Elems(init + [last]), tbl) == Ids(Elems(init), tbl) + if last.tbl == tbl then {last.id} else {}
  {
    assert last.tbl == tbl ==> Key(tbl, last.id) == last;
  }

  lemma {:induction false} OverlaidOrder(m: Listing, order: seq<Key>, vals: Table, tbl: string, where: Where)
    requires JsMaps.Valid(m) && Distinct(order) && forall k :: k in order ==> k in vals
    ensures JsMaps.Valid(Overlaid(m, order, vals, tbl, where))
    ensures Overlaid(m, order, vals, tbl, where).order ==
            Only(m.order, Hidden(order, vals, tbl, where)) + Added(order, vals, tbl, where, Elems(m.order))
  {
    hide JsMaps.Valid, Distinct;
    if order == [] {
      OnlyNone(m.order, Hidden(order, vals, tbl, where));
    } else {
      var (init, last) := (order[..|order| - 1], order[|order| - 1]);
      assert order == init + [last];
      LastIsNew(order);
      OverlaidOrder(m, init, vals, tbl, where);
      OverlaidOne(m, init, last, vals, tbl, where);
    }
  }

  lemma LastIsNew(order: seq<Key>)
    requires order != [] && Distinct(order)
    ensures order[|order| - 1] !in order[..|order| - 1] && Distinct(order[..|order| - 1])
  {
  }

  lemma OverlaidOne(m: Listing, init: seq<Key>, last: Key, vals: Table, tbl: string, where: Where)
    requires (forall k :: k in init ==> k in vals) && last in vals && last !in init
    requires JsMaps.Valid(Overlaid(m, init, vals, tbl, where))
    requires Overlaid(m, init, vals, tbl, where).order ==
             Only(m.order, Hidden(init, vals, tbl, where)) + Added(init, vals, tbl, where, Elems(m.order))
    ensures var order := init + [last];
            && JsMaps.Valid(Overlaid(m, order, vals, tbl, where))
            && Overlaid(m, order, vals, tbl, where).order ==
               Only(m.order, Hidden(order, vals, tbl, where)) + Added(order, vals, tbl, where, Elems(m.order))
  {
    hide Only, JsMaps.Valid, Insert, Delete, Overlaid, Added, Hidden, Matches;
    var (order, rest, id) := (init + [last], Overlaid(m, init, vals, tbl, where), last.id);
    var (hidden, added) := (Hidden(init, vals, tbl, where), Added(init, vals, tbl, where, Elems(m.order)));
    OneMore(m, init, last, vals, tbl, where);
    AddedElems(init, vals, tbl, where, Elems(m.order));
    HiddenMore(init, last, vals, tbl, where);
    assert hidden + {} == hidden;
    if last.tbl == tbl {
      assert Key(tbl, id) == last && id !in added && id !in hidden;
      if Matches(where, vals[last]) { Shown(rest, m.order, hidden, added, id, vals[last]); }
      else { Hides(rest, m.order, hidden, added, id); }
    }
  }

  lemma OneMore(m: Listing, init: seq<Key>, last: Key, vals: Table, tbl: string, where: Where)
    requires (forall k :: k in init ==> k in vals) && last in vals
    ensures forall k :: k in init + [last] ==> k in vals
    ensures var rest := Overlaid(m, init, vals, tbl, where);
            Overlaid(m, init + [last], vals, tbl, where) ==
            if last.tbl != tbl then rest
            else if Matches(where, vals[last]) then Insert(rest, last.id, vals[last]) else Delete(rest, last.id)
    ensures forall below: set<string> :: Added(init + [last], vals, tbl, where, below) ==
              Added(init, vals, tbl, where, below)
              + if last.tbl == tbl && Matches(where, vals[last]) && last.id !in below then [last.id] else []
  {
    hide Insert, Delete, Matches;
    var order := init + [last];
    assert order[..|order| - 1] == init && order[|order| - 1] == last;
    forall below: set<string>
      ensures Added(order, vals, tbl, where, below) ==
              Added(init, vals, tbl, where, below)
              + if last.tbl == tbl && Matches(where, vals[last]) && last.id !in below then [last.id] else []
    {
      assert Added(init, vals, tbl, where, below) + [] == Added(init, vals, tbl, where, below);
    }
  }

  lemma Shown(rest: Listing, below: seq<string>, hidden: set<string>, added: seq<string>, id: string, data: Data)
    requires JsMaps.Valid(rest) && rest.order == Only(below, hidden) + added && id !in added && id !in hidden
    ensures JsMaps.Valid(Insert(rest, id, data))
    ensures Insert(rest, id, data).order == Only(below, hidden) + if id in below then added else added + [id]
  {
    hide Only, JsMaps.Distinct;
    OnlyElems(below, hidden);
    assert id in rest.vals <==> id in Elems(rest.order);
    assert Only(below, hidden) + added + [id] == Only(below, hidden) + (added + [id]);
  }

  lemma Hides(rest: Listing, below: seq<string>, hidden: set<string>, added: seq<string>, id: string)
    requires JsMaps.Valid(rest) && rest.order == Only(below, hidden) + added && id !in added
    ensures JsMaps.Valid(Delete(rest, id)) && Delete(rest, id).order == Only(below, hidden + {id}) + added
  {
    hide Only, JsMaps.Valid, Without;
    WithoutConcat(Only(below, hidden), added, id);
    WithoutIsOnly(below, hidden, id);
    WithoutAbsent(added, id);
  }

  lemma HiddenMore(init: seq<Key>, last: Key, vals: Table, tbl: string, where: Where)
    requires (forall k :: k in init ==> k in vals) && last in vals
    ensures Hidden(init + [last], vals, tbl, where) ==
            Hidden(init, vals, tbl, where) + if last.tbl == tbl && !Matches(where, vals[last]) then {last.id} else {}
    ensures last.tbl == tbl && last !in init ==> last.id !in Hidden(init, vals, tbl, where)
  {
    assert forall k :: k in init + [last] <==> k in init || k == last;
    assert last.tbl == tbl ==> Key(tbl, last.id) == last;
  }

  // ----- the whole -----

  /** Rows of the enumeration that a listing leaves out: unmatched, deleted, or buffered and no longer matching. */
  function Unlisted(ids: seq<string>, rows: map<string, Data>, dels: set<Key>, order: seq<Key>, vals: Table, tbl: string, where: Where): set<string>
    requires forall k :: k in order ==> k in vals
  {
    Unmatched(ids, rows, where) + Ids(dels, tbl) + Hidden(order, vals, tbl, where)
  }

  /** A listing is the rows below that survive, as they come, then the buffered ones not among them, as put. */
  lemma ListedOrder(ids: seq<string>, rows: map<string, Data>, dels: seq<Key>, order: seq<Key>, vals: Table, tbl: string, where: Where)
    requires Distinct(ids) && Distinct(order) && forall k :: k in order ==> k in vals
    ensures var below := (Elems(ids) - Unmatched(ids, rows, where)) - Ids(Elems(dels), tbl);
            Listed(ids, rows, dels, order, vals, tbl, where).order ==
            Only(ids, Unlisted(ids, rows, Elems(dels), order, vals, tbl, where)) + Added(order, vals, tbl, where, below)
  {
    var (a, b) := (Unmatched(ids, rows, where), Ids(Elems(dels), tbl));
    var stored := Stored(ids, rows, where);
    var kept := Undeleted(stored, dels, tbl);
    StoredOrder(ids, rows, where);
    UndeletedOrder(stored, dels, tbl);
    OverlaidOrder(kept, order, vals, tbl, where);
    OnlyElems(ids, a);
    OnlyElems(stored.order, b);
    assert Elems(kept.order) == (Elems(ids) - a) - b;
    OnlyOnly(ids, a, b);
    OnlyOnly(ids, a + b, Hidden(order, vals, tbl, where));
  }

  /**
   * Client and server, the same rows in whatever order and the same buffered writes: their listings come in
   * the same order exactly if the surviving rows below do. Which rows these are is the same on both sides.
   */
  lemma ListsAlikeIff(
      ids: seq<string>, ids': seq<string>, rows: map<string, Data>, dels: seq<Key>, dels': seq<Key>,
      order: seq<Key>, vals: Table, tbl: string, where: Where)
    requires Distinct(ids) && Distinct(ids') && Elems(ids) == Elems(ids') && Elems(dels) == Elems(dels')
    requires Distinct(order) && forall k :: k in order ==> k in vals
    ensures var gone := Unlisted(ids, rows, Elems(dels), order, vals, tbl, where);
            Listed(ids, rows, dels, order, vals, tbl, where).order == Listed(ids', rows, dels', order, vals, tbl, where).order
            <==> Only(ids, gone) == Only(ids', gone)
  {
    ListedOrder(ids, rows, dels, order, vals, tbl, where);
    ListedOrder(ids', rows, dels', order, vals, tbl, where);
    assert Unmatched(ids, rows, where) == Unmatched(ids', rows, where) by {
      assert forall id :: id in ids <==> id in Elems(ids);
      assert forall id :: id in ids' <==> id in Elems(ids');
    }
    var gone := Unlisted(ids, rows, Elems(dels), order, vals, tbl, where);
    assert gone == Unlisted(ids', rows, Elems(dels'), order, vals, tbl, where);
    var tail := Added(order, vals, tbl, where, (Elems(ids) - Unmatched(ids, rows, where)) - Ids(Elems(dels), tbl));
    SameTail(Only(ids, gone), Only(ids', gone), tail);
  }

  lemma SameTail(a: seq<string>, b: seq<string>, tail: seq<string>)
    ensures a + tail == b + tail <==> a == b
  {
    if a + tail == b + tail {
      assert |a| == |b|;
      assert a == (a + tail)[..|a|] && b == (b + tail)[..|b|];
    }
  }

  // ----- the rows listed -----

  lemma {:induction false} OverlaidRows(m: Listing, order: seq<Key>, vals: Table, tbl: string, where: Where)
    requires forall k :: k in order ==> k in vals
    ensures Overlaid(m, order, vals, tbl, where).vals == OverlayAlong(order, vals, tbl, where, m.vals)
  {
    if order != [] {
      assert order == order[..|order| - 1] + [order[|order| - 1]];
      OverlaidRows(m, order[..|order| - 1], vals, tbl, where);
    }
  }

  lemma {:induction false} StoredRows(ids: seq<string>, rows: map<string, Data>, where: Where)
    ensures Stored(ids, rows, where).vals == map id | id in ids && id in rows && Matches(where, rows[id]) :: rows[id]
  {
    if ids != [] {
      var (init, last) := (ids[..|ids| - 1], ids[|ids| - 1]);
      assert ids == init + [last];
      StoredRows(init, rows, where);
    }
  }

  /** Whatever order it comes in, the listing holds the rows the buffer's `list` returns. */
  lemma ListedIsList(base: Table, b: Buffer, ids: seq<string>, dels: seq<Key>, tbl: string, where: Where)
    requires JsMaps.Valid(b.puts) && Elems(dels) == b.dels
    requires forall id :: id in TableRows(base, tbl) && Matches(where, TableRows(base, tbl)[id]) ==> id in ids
    ensures forall k :: k in b.puts.order ==> k in b.puts.vals
    ensures Listed(ids, TableRows(base, tbl), dels, b.puts.order, b.puts.vals, tbl, where).vals == BufferedList(base, b, tbl, where)
  {
    var rows := TableRows(base, tbl);
    assert forall k :: k in b.puts.order <==> k in Elems(b.puts.order);
    StoredRows(ids, rows, where);
    assert Stored(ids, rows, where).vals == Filtered(rows, where);
    StoredValid(ids, rows, where);
    UndeletedOrder(Stored(ids, rows, where), dels, tbl);
    var m := Undeleted(Stored(ids, rows, where), dels, tbl);
    OverlaidRows(m, b.puts.order, b.puts.vals, tbl, where);
    OverlayAlongIsMerged(b.puts.order, b.puts.vals, tbl, where, m.vals);
  }

  lemma {:induction false} StoredValid(ids: seq<string>, rows: map<string, Data>, where: Where)
    ensures JsMaps.Valid(Stored(ids, rows, where))
  {
    if ids != [] { StoredValid(ids[..|ids| - 1], rows, where); }
  }
}