/**
 * App-schema migrations: which declarations defineApp accepts and which steps carry a stored version
 * forward (packages/protocol/src/app.ts), and what replaying the chain through one buffer comes to
 * (packages/server/src/do.ts).
 */
module Migrations {
  import opened Rows
  import opened JsMaps
  import opened WriteSets
  import Server

  // ----- declarations -----

  /** What is declared for a version: a migrate function, null for an additive change, or something else. */
  datatype Declared = Function(run: Mutator) | Additive | Junk

  /** A property name: a number as it prints, or another text and the integer it converts to, if any. */
  datatype Name = Canonical(n: int) | Alias(text: string, parsed: Option<int>)

  datatype SchemaMigration = SchemaMigration(to: int, migrate: Option<Mutator>)

  function Target(name: Name): Option<int> {
    match name
    case Canonical(n) => Some(n)
    case Alias(_, parsed) => parsed
  }

  /** The entry pushed for a name; values are looked up under the converted number. */
  function EntryFor(declared: JsMap<Name, Declared>, name: Name, version: int): Option<SchemaMigration> {
    match Target(name)
    case None => None
    case Some(to) =>
      if to < 2 || to > version || Canonical(to) !in declared.vals then None
      else match declared.vals[Canonical(to)]
        case Function(run) => Some(SchemaMigration(to, Some(run)))
        case Additive => Some(SchemaMigration(to, None))
        case Junk => None
  }

  /** The names are the numbers lo..version, each with a function or null. */
  ghost predicate Covers(declared: JsMap<Name, Declared>, lo: int, version: int) {
    && 2 <= lo <= version + 1
    && (forall name :: name in declared.vals ==> name.Canonical? && lo <= name.n <= version && !declared.vals[name].Junk?)
    && (forall n :: lo <= n <= version ==> Canonical(n) in declared.vals)
  }

  ghost predicate Acceptable(version: int, declared: JsMap<Name, Declared>) {
    version >= 1 && exists lo :: Covers(declared, lo, version)
  }

  ghost predicate IsChain(ms: seq<SchemaMigration>, declared: JsMap<Name, Declared>, lo: int, version: int) {
    && |ms| == version + 1 - lo
    && forall i :: 0 <= i < |ms| ==>
         ms[i].to == lo + i && EntryFor(declared, Canonical(ms[i].to), version) == Some(ms[i])
  }

  function InsertByTo(ms: seq<SchemaMigration>, m: SchemaMigration): seq<SchemaMigration> {
    if ms == [] || ms[|ms| - 1].to <= m.to then ms + [m]
    else InsertByTo(ms[..|ms| - 1], m) + [ms[|ms| - 1]]
  }

  ghost predicate Ascending(ms: seq<SchemaMigration>) {
    forall i, j :: 0 <= i < j < |ms| ==> ms[i].to <= ms[j].to
  }

  function CountTo(ms: seq<SchemaMigration>, to: int): nat {
    if ms == [] then 0 else CountTo(ms[..|ms| - 1], to) + if ms[|ms| - 1].to == to then 1 else 0
  }

  lemma CountAppend(ms: seq<SchemaMigration>, m: SchemaMigration, to: int)
    ensures CountTo(ms + [m], to) == CountTo(ms, to) + if m.to == to then 1 else 0
  {
    assert (ms + [m])[..|ms|] == ms;
  }

  lemma {:induction false} InsertSorts(ms: seq<SchemaMigration>, m: SchemaMigration)
    requires Ascending(ms)
    ensures Ascending(InsertByTo(ms, m))
    ensures forall x :: x in InsertByTo(ms, m) <==> x in ms || x == m
  {
    if ms != [] && ms[|ms| - 1].to > m.to {
      var init, last := ms[..|ms| - 1], ms[|ms| - 1];
      assert ms == init + [last];
      InsertSorts(init, m);
      var sorted := InsertByTo(init, m);
      assert forall x :: x in sorted ==> x.to <= last.to;
      assert forall i :: 0 <= i < |sorted| ==> sorted[i] in sorted;
    }
  }

  lemma {:induction false} InsertCounts(ms: seq<SchemaMigration>, m: SchemaMigration, to: int)
    ensures CountTo(InsertByTo(ms, m), to) == CountTo(ms, to) + if m.to == to then 1 else 0
  {
    CountAppend(ms, m, to);
    if ms != [] && ms[|ms| - 1].to > m.to {
      InsertCounts(ms[..|ms| - 1], m, to);
      CountAppend(InsertByTo(ms[..|ms| - 1], m), ms[|ms| - 1], to);
    }
  }

  /** The entries pushed for the first names, sorted as they come. */
  ghost predicate Pushed(declared: JsMap<Name, Declared>, version: int, names: seq<Name>, ms: seq<SchemaMigration>) {
    && Ascending(ms)
    && (forall name :: name in names ==> EntryFor(declared, name, version).Some? && EntryFor(declared, name, version).value in ms)
    && (forall m :: m in ms ==> EntryFor(declared, Canonical(m.to), version) == Some(m))
    && (forall to :: CountTo(ms, to) == NamesFor(names, to))
  }

  function NamesFor(names: seq<Name>, to: int): nat {
    if names == [] then 0 else NamesFor(names[..|names| - 1], to) + if Target(names[|names| - 1]) == Some(to) then 1 else 0
  }

  lemma EntryOfEntry(declared: JsMap<Name, Declared>, name: Name, version: int)
    requires EntryFor(declared, name, version).Some?
    ensures var m := EntryFor(declared, name, version).value;
            Target(name) == Some(m.to) && EntryFor(declared, Canonical(m.to), version) == Some(m)
  {
  }

  lemma NamesAppend(names: seq<Name>, name: Name, to: int)
    ensures NamesFor(names + [name], to) == NamesFor(names, to) + if Target(name) == Some(to) then 1 else 0
  {
    assert (names + [name])[..|names|] == names;
  }

  lemma PushedMore(declared: JsMap<Name, Declared>, version: int, names: seq<Name>, ms: seq<SchemaMigration>, name: Name)
    requires Pushed(declared, version, names, ms) && EntryFor(declared, name, version).Some?
    ensures Pushed(declared, version, names + [name], InsertByTo(ms, EntryFor(declared, name, version).value))
  {
    hide InsertByTo, CountTo, NamesFor, EntryFor, Ascending;
    var m := EntryFor(declared, name, version).value;
    EntryOfEntry(declared, name, version);
    InsertSorts(ms, m);
    forall to
      ensures CountTo(InsertByTo(ms, m), to) == NamesFor(names + [name], to)
    {
      InsertCounts(ms, m, to);
      NamesAppend(names, name, to);
    }
  }

  lemma {:induction false} TwiceCountsTwo(names: seq<Name>, i: nat, j: nat, to: int)
    requires i < j < |names| && Target(names[i]) == Target(names[j]) == Some(to)
    ensures NamesFor(names, to) >= 2
  {
    if j == |names| - 1 {
      OnceCountsOne(names[..j], i, to);
    } else {
      TwiceCountsTwo(names[..|names| - 1], i, j, to);
    }
  }

  lemma {:induction false} OnceCountsOne(names: seq<Name>, i: nat, to: int)
    requires i < |names| && Target(names[i]) == Some(to)
    ensures NamesFor(names, to) >= 1
  {
    if i < |names| - 1 { OnceCountsOne(names[..|names| - 1], i, to); }
  }

  ghost predicate Consecutive(ms: seq<SchemaMigration>, n: nat) {
    n <= |ms| && forall i :: 0 <= i < n ==> ms[i].to == ms[0].to + i
  }

  lemma {:induction false} ConsecutiveCounts(ms: seq<SchemaMigration>, to: int)
    requires Consecutive(ms, |ms|)
    ensures CountTo(ms, to) == if ms != [] && ms[0].to <= to < ms[0].to + |ms| then 1 else 0
  {
    if ms != [] { ConsecutiveCounts(ms[..|ms| - 1], to); }
  }

  /** In a run without repeats every name is a plain number of the run. */
  lemma NameIsPlain(declared: JsMap<Name, Declared>, version: int, ms: seq<SchemaMigration>, name: Name)
    requires JsMaps.Valid(declared) && Pushed(declared, version, declared.order, ms)
    requires Consecutive(ms, |ms|) && name in declared.vals
    ensures name.Canonical? && ms != [] && ms[0].to <= name.n < ms[0].to + |ms| && !declared.vals[name].Junk?
  {
    hide CountTo, NamesFor, Ascending;
    assert name in declared.order;
    var to := EntryFor(declared, name, version).value.to;
    ConsecutiveCounts(ms, to);
    var plain := Canonical(to);
    assert plain in declared.vals && plain in declared.order;
    var i :| 0 <= i < |declared.order| && declared.order[i] == name;
    var j :| 0 <= j < |declared.order| && declared.order[j] == plain;
    OnceCountsOne(declared.order, i, to);
    if i != j {
      TwiceCountsTwo(declared.order, if i < j then i else j, if i < j then j else i, to);
      assert false;
    }
  }

  /** A run of entries up to the version is what an acceptable declaration gives. */
  lemma ChainCovers(declared: JsMap<Name, Declared>, version: int, ms: seq<SchemaMigration>)
    requires JsMaps.Valid(declared) && Pushed(declared, version, declared.order, ms)
    requires ms != [] && Consecutive(ms, |ms|) && ms[|ms| - 1].to == version
    ensures Covers(declared, ms[0].to, version) && IsChain(ms, declared, ms[0].to, version)
  {
    hide CountTo, NamesFor, Ascending;
    var lo := ms[0].to;
    assert ms[0] in ms;
    forall name | name in declared.vals
      ensures name.Canonical? && lo <= name.n <= version && !declared.vals[name].Junk?
    {
      NameIsPlain(declared, version, ms, name);
    }
    assert forall i :: 0 <= i < |ms| ==> ms[i] in ms;
    forall n | lo <= n <= version
      ensures Canonical(n) in declared.vals
    {
      assert ms[n - lo].to == n;
    }
  }

  /** An acceptable declaration never has a gap, a repeat or a short end. */
  lemma CoversIsConsecutive(declared: JsMap<Name, Declared>, lo: int, version: int, ms: seq<SchemaMigration>, i: nat)
    requires JsMaps.Valid(declared) && Covers(declared, lo, version)
    requires Pushed(declared, version, declared.order, ms) && i < |ms|
    ensures i + 1 < |ms| ==> ms[i + 1].to == ms[i].to + 1
    ensures i + 1 == |ms| ==> ms[i].to == version
  {
    var to := ms[i].to;
    assert forall m :: m in ms ==> Canonical(m.to) in declared.vals && lo <= m.to <= version;
    assert ms[i] in ms;
    if to < version {
      var next := Canonical(to + 1);
      assert next in declared.vals && next in declared.order;
      var j :| 0 <= j < |ms| && ms[j].to == to + 1;
      assert j > i;
    }
    if i + 1 < |ms| && ms[i + 1].to == to {
      TwoAlikeCount(ms, i, to);
      NamesOnce(declared.order, to);
    }
    assert i + 1 < |ms| ==> ms[i + 1] in ms;
  }

  lemma {:induction false} TwoAlikeCount(ms: seq<SchemaMigration>, i: nat, to: int)
    requires i + 1 < |ms| && ms[i].to == ms[i + 1].to == to
    ensures CountTo(ms, to) >= 2
  {
    if i + 2 < |ms| {
      TwoAlikeCount(ms[..|ms| - 1], i, to);
    } else {
      var init := ms[..|ms| - 1];
      assert CountTo(init, to) == CountTo(init[..|init| - 1], to) + 1;
    }
  }

  lemma {:induction false} NamesOnce(names: seq<Name>, to: int)
    requires Distinct(names) && forall name :: name in names ==> name.Canonical?
    ensures NamesFor(names, to) <= if Canonical(to) in names then 1 else 0
  {
    if names != [] {
      var init, last := names[..|names| - 1], names[|names| - 1];
      assert names == init + [last] && last !in init;
      NamesOnce(init, to);
    }
  }

  /** Accepted declarations are exactly those covering consecutive versions up to the current one. */
  method DefineMigrations(version: int, declared: JsMap<Name, Declared>) returns (r: Option<seq<SchemaMigration>>)
    requires JsMaps.Valid(declared)
    ensures r.Some? <==> Acceptable(version, declared)
    ensures r.Some? ==> exists lo :: Covers(declared, lo, version) && IsChain(r.value, declared, lo, version)
  {
    hide EntryFor, InsertByTo, CountTo, NamesFor, Ascending, Covers;
    if version < 1 { return None; }
    assert forall name :: name in declared.order <==> name in declared.vals;
    var migrations := [];
    NothingPushed(declared, version);
    for i := 0 to |declared.order|
      invariant Pushed(declared, version, declared.order[..i], migrations)
    {
      var name := declared.order[i];
      assert declared.order[..i + 1] == declared.order[..i] + [name];
      var entry := EntryFor(declared, name, version);
      if entry.None? {
        RefusedName(declared, version, name);
        return None;
      }
      PushedMore(declared, version, declared.order[..i], migrations, name);
      migrations := InsertByTo(migrations, entry.value);
    }
    assert declared.order[..|declared.order|] == declared.order;
    var n := 1;
    while n < |migrations|
      invariant 1 <= n && (migrations != [] ==> Consecutive(migrations, n))
    {
      if migrations[n].to != migrations[n - 1].to + 1 {
        NotCovered(declared, version, migrations, n - 1);
        return None;
      }
      n := n + 1;
    }
    if migrations == [] {
      NothingDeclared(declared, version, migrations);
      return Some([]);
    }
    if migrations[|migrations| - 1].to != version {
      NotCovered(declared, version, migrations, |migrations| - 1);
      return None;
    }
    ChainCovers(declared, version, migrations);
    return Some(migrations);
  }

  lemma NothingPushed(declared: JsMap<Name, Declared>, version: int)
    ensures Pushed(declared, version, [], [])
  {
  }

  lemma RefusedName(declared: JsMap<Name, Declared>, version: int, name: Name)
    requires name in declared.vals && EntryFor(declared, name, version).None?
    ensures !Acceptable(version, declared)
  {
  }

  lemma NotCovered(declared: JsMap<Name, Declared>, version: int, ms: seq<SchemaMigration>, i: nat)
    requires JsMaps.Valid(declared) && Pushed(declared, version, declared.order, ms) && i < |ms|
    requires if i + 1 < |ms| then ms[i + 1].to != ms[i].to + 1 else ms[i].to != version
    ensures !Acceptable(version, declared)
  {
    forall lo
      ensures !Covers(declared, lo, version)
    {
      if Covers(declared, lo, version) { CoversIsConsecutive(declared, lo, version, ms, i); }
    }
  }

  lemma NothingDeclared(declared: JsMap<Name, Declared>, version: int, ms: seq<SchemaMigration>)
    requires JsMaps.Valid(declared) && Pushed(declared, version, declared.order, ms) && ms == [] && version >= 1
    ensures Covers(declared, version + 1, version) && IsChain(ms, declared, version + 1, version)
  {
    assert forall name :: name in declared.vals ==> name in declared.order;
  }

  // ----- the path from a stored version -----

  function StepsAbove(ms: seq<SchemaMigration>, stored: int): seq<SchemaMigration> {
    if ms == [] then []
    else StepsAbove(ms[..|ms| - 1], stored) + if ms[|ms| - 1].to > stored then [ms[|ms| - 1]] else []
  }

  function MigrationPath(version: int, ms: seq<SchemaMigration>, stored: int): Option<seq<SchemaMigration>> {
    if stored == version then Some([])
    else if stored > version then None
    else
      var steps := StepsAbove(ms, stored);
      if |steps| != version - stored then None else Some(steps)
  }

  lemma {:induction false} StepsAboveIsTail(ms: seq<SchemaMigration>, stored: int, lo: int)
    requires forall i :: 0 <= i < |ms| ==> ms[i].to == lo + i
    ensures StepsAbove(ms, stored) ==
            ms[if stored < lo then 0 else if stored + 1 - lo > |ms| then |ms| else stored + 1 - lo..]
  {
    if ms != [] {
      var init, last := ms[..|ms| - 1], ms[|ms| - 1];
      StepsAboveIsTail(init, stored, lo);
      assert ms == init + [last];
    }
  }

  /**
   * For whatever defineApp accepts, there is a path exactly from the versions its chain reaches back
   * to, and its steps are those to stored + 1, stored + 2 and so on up to the current version.
   */
  lemma PathIsTheChainAbove(version: int, declared: JsMap<Name, Declared>, ms: seq<SchemaMigration>, lo: int, stored: int)
    requires Covers(declared, lo, version) && IsChain(ms, declared, lo, version)
    ensures var path := MigrationPath(version, ms, stored);
            && (path.Some? <==> lo - 1 <= stored <= version)
            && (path.Some? ==>
                  && |path.value| == version - stored
                  && forall i :: 0 <= i < |path.value| ==>
                       var step := path.value[i];
                       step.to == stored + 1 + i && EntryFor(declared, Canonical(step.to), version) == Some(step))
  {
    hide EntryFor;
    StepsAboveIsTail(ms, stored, lo);
  }

  // ----- replaying the chain -----

  datatype Chain = Replayed(buffer: Buffer) | Thrown

  /** All steps through one buffer; a throw of any kind ends the chain. */
  function Replay(o: Options, steps: seq<SchemaMigration>, base: Table, b: Buffer, limit: nat): Chain {
    if steps == [] then Replayed(b)
    else match steps[0].migrate
      case None => Replay(o, steps[1..], base, b, limit)
      case Some(run) =>
        var e := Execute(o, run, base, b, [], limit);
        if e.end == Returned then Replay(o, steps[1..], base, e.buffer, limit) else Thrown
  }

  /** The reference: each step runs on the rows the one before it left. */
  function OneByOne(o: Options, steps: seq<SchemaMigration>, t: Table, limit: nat): Option<Table> {
    if steps == [] then Some(t)
    else match steps[0].migrate
      case None => OneByOne(o, steps[1..], t, limit)
      case Some(run) =>
        var d := RunDirect(o, run, t, [], limit);
        if d.end == Returned then OneByOne(o, steps[1..], d.table, limit) else None
  }

  lemma {:induction false} ReplayIsOneByOne(o: Options, steps: seq<SchemaMigration>, base: Table, b: Buffer, limit: nat)
    requires BufferOk(o, base, b)
    ensures match Replay(o, steps, base, b, limit)
            case Thrown => OneByOne(o, steps, View(base, b), limit) == None
            case Replayed(b') => BufferOk(o, base, b') && OneByOne(o, steps, View(base, b), limit) == Some(View(base, b'))
  {
    hide View, BufferOk, Execute, RunDirect;
    if steps != [] {
      match steps[0].migrate
      case None => ReplayIsOneByOne(o, steps[1..], base, b, limit);
      case Some(run) =>
        BufferedRefinesDirect(o, run, base, b, [], limit);
        var e := Execute(o, run, base, b, [], limit);
        if e.end == Returned { ReplayIsOneByOne(o, steps[1..], base, e.buffer, limit); }
    }
  }

  lemma {:induction false} NetRowsReparsed(o: Options, order: seq<Key>, vals: Table)
    requires forall k :: k in order ==> k in vals
    ensures NetRows(o, order, vals).Unfit? <==> exists k :: k in order && Reparse(o, k, vals[k]).Raised?
    ensures NetRows(o, order, vals).Net? ==>
              forall k :: k in order ==> Reparse(o, k, vals[k]) == Ok(NetRows(o, order, vals).rows[k])
  {
    if order != [] {
      var init, last := order[..|order| - 1], order[|order| - 1];
      assert order == init + [last];
      NetRowsReparsed(o, init, vals);
    }
  }

  /** The current schema parses this row of a table it names, and the parse is no larger than a row may be. */
  predicate Fits(schema: Schema, k: Key, data: Data) {
    && k.tbl in schema.tables && schema.tables[k.tbl](data).Some?
    && schema.bytes(schema.tables[k.tbl](data).value) <= 700_000
  }

  /**
   * With validation deferred, the flush fails exactly when a row left by the whole chain does not fit the
   * current schema, and otherwise writes the parse of each row left.
   */
  lemma OnlyNetRowsValidated(o: Options, order: seq<Key>, vals: Table)
    requires forall k :: k in order ==> k in vals
    ensures NetRows(o, order, vals).Unfit? <==> o.validateAtFlush && exists k :: k in order && !Fits(o.schema, k, vals[k])
    ensures NetRows(o, order, vals).Net? && !o.validateAtFlush ==> forall k :: k in order ==> NetRows(o, order, vals).rows[k] == vals[k]
    ensures NetRows(o, order, vals).Net? && o.validateAtFlush ==>
              forall k :: k in order ==> o.schema.tables[k.tbl](vals[k]) == Some(NetRows(o, order, vals).rows[k])
  {
    hide NetRows;
    NetRowsReparsed(o, order, vals);
    assert forall k :: k in order ==> (Reparse(o, k, vals[k]).Ok? <==> !o.validateAtFlush || Fits(o.schema, k, vals[k]));
  }

  /** What a rollout stamps is the current schema's parse of what the chain left, and no larger than a row may be. */
  lemma RolloutStoresParses(o: Options, s: Server.State, steps: seq<SchemaMigration>, limit: nat, k: Key)
    requires o.validateAtFlush && (forall x :: x in s.rows ==> s.rows[x].version <= s.version)
    requires Rollout(o, s, steps, limit).Some?
    ensures var s' := Rollout(o, s, steps, limit).value;
            s'.version != s.version && k in s'.rows && s'.rows[k].version == s'.version && !s'.rows[k].deleted ==>
              && k.tbl in o.schema.tables && OneByOne(o, steps, Live(s.rows), limit).Some?
              && k in OneByOne(o, steps, Live(s.rows), limit).value
              && o.schema.tables[k.tbl](OneByOne(o, steps, Live(s.rows), limit).value[k]) == Some(s'.rows[k].data)
              && o.schema.bytes(s'.rows[k].data) <= 700_000
  {
    hide Execute, RunDirect;
    var base := Live(s.rows);
    ReplayIsOneByOne(o, steps, base, EMPTY_BUFFER, limit);
    assert View(base, EMPTY_BUFFER) == base;
    var b := Replay(o, steps, base, EMPTY_BUFFER, limit).buffer;
    assert forall x :: x in b.puts.order <==> x in Elems(b.puts.order);
    NetRowsAreParses(o, b.puts.order, b.puts.vals);
  }

  /** A rollout validates what the chain leaves, not what a step puts. */
  function RolloutOptions(schema: Schema): Options {
    Options(schema, true, false)
  }

  lemma ReplayStep(o: Options, steps: seq<SchemaMigration>, i: nat, base: Table, b: Buffer, limit: nat)
    requires i < |steps|
    ensures Replay(o, steps[i..], base, b, limit) ==
            match steps[i].migrate
            case None => Replay(o, steps[i + 1..], base, b, limit)
            case Some(run) =>
              var e := Execute(o, run, base, b, [], limit);
              if e.end == Returned then Replay(o, steps[i + 1..], base, e.buffer, limit) else Thrown
  {
    assert steps[i..][1..] == steps[i + 1..];
  }

  /** What a rollout leaves: nothing if the chain throws or a net row does not fit, else one migration. */
  function Rollout(o: Options, s: Server.State, steps: seq<SchemaMigration>, limit: nat): Option<Server.State> {
    ReplayIsOneByOne(o, steps, Live(s.rows), EMPTY_BUFFER, limit);
    match Replay(o, steps, Live(s.rows), EMPTY_BUFFER, limit)
    case Thrown => None
    case Replayed(b) =>
      assert forall k :: k in b.puts.order ==> k in Elems(b.puts.order);
      match NetRows(o, b.puts.order, b.puts.vals)
        case Unfit(_) => None
        case Net(net) => Some(Server.Migrate(s, net, b.dels))
  }

  /**
   * The rows after a rollout are those the steps leave run one by one, the rewritten ones as the current
   * schema parses them. If any row was written the version moves on by one and no earlier cursor is
   * accepted any more; if none was, rows, version and cursors stay.
   */
  lemma RolloutIsOneByOne(o: Options, s: Server.State, steps: seq<SchemaMigration>, limit: nat, cursor: Option<Server.Cursor>)
    requires s.minCursor <= s.version
    ensures var left := OneByOne(o, steps, Live(s.rows), limit);
            match Rollout(o, s, steps, limit)
            case None =>
              left.Some? ==> exists k :: k in left.value && Reparse(o, k, left.value[k]).Raised?
            case Some(s') =>
              && left.Some?
              && (forall k :: k in left.value <==> k in Live(s'.rows))
              && (forall k :: k in left.value ==>
                    Live(s'.rows)[k] == left.value[k] || Reparse(o, k, left.value[k]) == Ok(Live(s'.rows)[k]))
              && (s'.version == s.version ==> s'.rows == s.rows && s'.minCursor == s.minCursor)
              && (s'.version != s.version ==>
                    && s'.version == s'.minCursor == s.version + 1
                    && (Server.Accepts(s, cursor) ==> !Server.Accepts(s', cursor)))
  {
    var base := Live(s.rows);
    ReplayIsOneByOne(o, steps, base, EMPTY_BUFFER, limit);
    assert View(base, EMPTY_BUFFER) == base;
    match Replay(o, steps, base, EMPTY_BUFFER, limit)
    case Thrown =>
    case Replayed(b) =>
      assert forall k :: k in b.puts.order <==> k in Elems(b.puts.order);
      NetRowsReparsed(o, b.puts.order, b.puts.vals);
      match NetRows(o, b.puts.order, b.puts.vals)
      case Unfit(_) =>
        var k :| k in b.puts.order && Reparse(o, k, b.puts.vals[k]).Raised?;
        assert View(base, b)[k] == b.puts.vals[k];
      case Net(net) =>
        Server.MigratedRows(s, net, b.dels);
  }
}
