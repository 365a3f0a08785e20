/** The insertion-ordered map of JavaScript: setting a present key keeps its position, deleting and setting moves it last. */
module JsMaps {

  datatype JsMap<K, V> = JsMap(order: seq<K>, vals: map<K, V>)

  ghost predicate Valid<K(!new), V>(m: JsMap<K, V>) {
    && Distinct(m.order)
    && m.vals.Keys == Elems(m.order)
  }

  ghost predicate Distinct<K(!new)>(s: seq<K>) {
    forall i, j :: 0 <= i < j < |s| ==> s[i] != s[j]
  }

  function Empty<K, V>(): JsMap<K, V> {
    JsMap([], map[])
  }

  function Insert<K(==, !new), V>(m: JsMap<K, V>, k: K, v: V): (r: JsMap<K, V>)
    ensures Valid(m) ==> Valid(r)
  {
    JsMap(if k in m.vals then m.order else m.order + [k], m.vals[k := v])
  }

  function Delete<K(==, !new), V>(m: JsMap<K, V>, k: K): (r: JsMap<K, V>)
    ensures Valid(m) ==> Valid(r)
  {
    WithoutIsDistinct(m.order, k);
    JsMap(Without(m.order, k), m.vals - {k})
  }

  function Without<K(==, !new)>(s: seq<K>, k: K): (r: seq<K>)
    ensures forall x :: x in r <==> x in s && x != k
  {
    if s == [] then [] else if s[0] == k then Without(s[1..], k) else [s[0]] + Without(s[1..], k)
  }

  lemma {:induction false} WithoutIsDistinct<K(!new)>(s: seq<K>, k: K)
    ensures Distinct(s) ==> Distinct(Without(s, k))
    ensures |Without(s, k)| <= |s|
    ensures k in s ==> |Without(s, k)| < |s|
  {
    if s != [] {
      WithoutIsDistinct(s[1..], k);
      if Distinct(s) {
        var r, rest := Without(s, k), Without(s[1..], k);
        assert Distinct(s[1..]);
        assert s[0] !in rest;
        assert forall i :: 0 <= i < |rest| ==> rest[i] in rest;
      }
    }
  }

  /** The first occurrence of every element, in order: what inserting them one by one leaves as key order. */
  function Firsts<K(==, !new)>(s: seq<K>): (r: seq<K>)
    ensures forall x :: x in r <==> x in s
  {
    if s == [] then []
    else
      var init := Firsts(s[..|s| - 1]);
      var last := s[|s| - 1];
      assert s == s[..|s| - 1] + [last];
      if last in init then init else init + [last]
  }

  /** How many elements of a sequence a set keeps. */
  function Kept<K(==, !new)>(s: seq<K>, keep: set<K>): nat {
    if s == [] then 0 else Kept(s[..|s| - 1], keep) + if s[|s| - 1] in keep then 1 else 0
  }

  function Elems<K(!new)>(s: seq<K>): (r: set<K>)
    ensures forall x :: x in r <==> x in s
  {
    set k | k in s
  }

  lemma KeepLast<K(!new)>(init: seq<K>, last: K, keep: set<K>)
    ensures keep * Elems(init + [last]) == keep * Elems(init) + if last in keep then {last} else {}
  {
  }

  lemma {:induction false} KeptCount<K(!new)>(s: seq<K>, keep: set<K>)
    requires Distinct(s)
    ensures Kept(s, keep) == |keep * Elems(s)|
  {
    if s == [] {
      assert keep * Elems(s) == {};
    } else {
      var init, last := s[..|s| - 1], s[|s| - 1];
      KeptCount(init, keep);
      KeepLast(init, last, keep);
      assert s == init + [last];
      assert last !in init;
    }
  }
}
