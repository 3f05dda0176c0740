/** The generator itself (build.rs), and that its text does not depend on the
    order of the entries it was given. */
module SchemaGenerator {
  import opened Prelude
  import opened SchemaTable
  import Numerals
  import ProtocolNames
  import SchemaIdentity

  // ---- what the hash maps hold ----

  /** `known` maps exactly the identities of `rows` to their names. */
  ghost predicate Records(known: map<nat, string>, rows: seq<Row>) {
    && (forall r :: r in rows ==> r.id in known && known[r.id] == r.name)
    && (forall k :: k in known ==> exists r :: r in rows && r.id == k && r.name == known[k])
  }

  /** `ids` maps exactly the aliases of `rows` to their identities. */
  ghost predicate Directs(ids: map<string, nat>, rows: seq<Row>) {
    && (forall r, a :: r in rows && a in Aliases(r) ==> a in ids && ids[a] == r.id)
    && (forall a :: a in ids ==> exists r :: r in rows && a in Aliases(r) && r.id == ids[a])
  }

  lemma ApartSlice(rows: seq<Row>, from: nat, to: nat)
    requires from <= to <= |rows| && Apart(rows)
    ensures Apart(rows[from..to])
  {
  }

  lemma ApartExtends(rows: seq<Row>, row: Row)
    ensures Apart(rows + [row]) <==> Apart(rows) && forall r :: r in rows ==> Separate(r, row)
  {
    hide Separate;
    var all := rows + [row];
    if Apart(all) {
      ApartSlice(all, 0, |rows|);
      assert all[0..|rows|] == rows;
      forall r | r in rows
        ensures Separate(r, row)
      {
        var i :| 0 <= i < |rows| && rows[i] == r;
        assert Separate(all[i], all[|rows|]);
      }
    }
  }

  lemma LookupFinds(rows: seq<Row>, r: Row, name: string)
    requires Apart(rows) && r in rows && name in Aliases(r)
    ensures Lookup(rows, name) == Some(r.id)
  {
  }

  lemma LookupMisses(rows: seq<Row>, name: string)
    ensures Lookup(rows, name).None? <==> forall r :: r in rows ==> name !in Aliases(r)
  {
  }

  lemma DirectoryAnswers(ids: map<string, nat>, rows: seq<Row>, name: string)
    requires Apart(rows) && Directs(ids, rows)
    ensures Lookup(rows, name) == if name in ids then Some(ids[name]) else None
  {
    hide Aliases, Separate, Lookup;
    LookupMisses(rows, name);
    if name in ids {
      var r :| r in rows && name in Aliases(r) && r.id == ids[name];
      LookupFinds(rows, r, name);
    }
  }

  // ---- the loops ----

  /** The identity and name assertions both loops make. */
  method Register(known: map<nat, string>, row: Row, ghost rows: seq<Row>) returns (ok: bool, now: map<nat, string>)
    requires Records(known, rows)
    ensures ok <==> forall r :: r in rows ==> r.id != row.id && r.name != row.name
    ensures ok ==> Records(now, rows + [row])
  {
    var renamed := exists k | k in known :: known[k] == row.name && k != row.id;
    ok := !renamed && row.id !in known;
    now := known[row.id := row.name];
  }

  /** Entering one alias; `ok` is false when another identity had it. */
  method Enter(ids: map<string, nat>, alias: string, id: nat) returns (ok: bool, now: map<string, nat>)
    ensures ok <==> (alias in ids ==> ids[alias] == id)
    ensures now == ids[alias := id]
  {
    ok := alias in ids ==> ids[alias] == id;
    now := ids[alias := id];
  }

  lemma Entered(ids: map<string, nat>, row: Row, rows: seq<Row>)
    requires row.Endpoint? && Directs(ids, rows)
    requires forall r :: r in rows ==> r.id != row.id
    ensures (forall r :: r in rows ==> Separate(r, row)) <==> row.rust !in ids && row.name !in ids
    ensures row.rust !in ids && row.name !in ids ==> Directs(ids[row.rust := row.id][row.name := row.id], rows + [row])
  {
  }

  /** Entering both aliases of a new row. */
  method EnterAliases(ids: map<string, nat>, row: Row, ghost rows: seq<Row>) returns (ok: bool, now: map<string, nat>)
    requires row.Endpoint? && Directs(ids, rows)
    requires forall r :: r in rows ==> r.id != row.id && r.name != row.name
    ensures ok <==> forall r :: r in rows ==> Separate(r, row)
    ensures ok ==> Directs(now, rows + [row])
  {
    Entered(ids, row, rows);
    hide Separate, Aliases;
    ok, now := Enter(ids, row.rust, row.id);
    if ok {
      ok, now := Enter(now, row.name, row.id);
    }
  }

  method EmitEndpoints(values: seq<Value>, reader: Reader, quote: Quote)
    returns (ok: bool, text: string, ids: map<string, nat>)
    requires forall v :: reader.row(v).Some? ==> reader.row(v).value.Endpoint?
    ensures ok <==> Unrefused(values, reader)
    ensures ok ==> text == Lines(Rows(values, reader).value, [], quote) && Directs(ids, Rows(values, reader).value)
  {
    hide Separate, Line, Aliases;
    var known: map<nat, string> := map[];
    text, ids := "", map[];
    ghost var rows: seq<Row> := [];
    for i := 0 to |values|
      invariant Rows(values[..i], reader) == Some(rows)
      invariant Apart(rows) && Records(known, rows) && Directs(ids, rows)
      invariant text == Lines(rows, [], quote)
    {
      RowsStep(values, i, rows, reader);
      var read := reader.row(values[i]);
      if read.None? {
        return false, text, ids;
      }
      var row := read.value;
      var novel, now := Register(known, row, rows);
      ApartExtends(rows, row);
      if !novel {
        NotSeparate(row, rows);
        UnrefusedPrefix(values, i + 1, reader);
        return false, text, ids;
      }
      var entered, next := EnterAliases(ids, row, rows);
      if !entered {
        UnrefusedPrefix(values, i + 1, reader);
        return false, text, ids;
      }
      known, ids, rows := now, next, rows + [row];
      text := text + Line(row, [], quote);
    }
    assert values[..|values|] == values;
    ok := true;
  }

  lemma {:induction false} RowsPrefix(values: seq<Value>, i: nat, reader: Reader)
    requires i <= |values| && Rows(values, reader).Some?
    ensures |Rows(values, reader).value| == |values|
    ensures Rows(values[..i], reader) == Some(Rows(values, reader).value[..i])
  {
    if i < |values| {
      var init := values[..|values| - 1];
      RowsPrefix(init, i, reader);
      assert init[..i] == values[..i];
      assert Rows(values, reader).value[..i] == Rows(init, reader).value[..i];
    } else if |values| > 0 {
      RowsPrefix(values[..|values| - 1], |values| - 1, reader);
      assert values[..i] == values;
      assert Rows(values, reader).value[..i] == Rows(values, reader).value;
    }
  }

  lemma RowsStep(values: seq<Value>, i: nat, rows: seq<Row>, reader: Reader)
    requires i < |values| && Rows(values[..i], reader) == Some(rows)
    ensures reader.row(values[i]).None? ==> Rows(values, reader).None?
    ensures reader.row(values[i]).Some? ==>
              Rows(values[..i + 1], reader) == Some(rows + [reader.row(values[i]).value])
  {
    assert values[..i + 1][..i] == values[..i];
    if Rows(values, reader).Some? {
      RowsPrefix(values, i + 1, reader);
    }
  }

  /** A collision among the first entries refuses the whole list. */
  lemma UnrefusedPrefix(values: seq<Value>, i: nat, reader: Reader)
    requires i <= |values|
    ensures Unrefused(values, reader) ==> Unrefused(values[..i], reader)
  {
    hide Separate, Rows;
    if Unrefused(values, reader) {
      RowsPrefix(values, i, reader);
      ApartSlice(Rows(values, reader).value, 0, i);
    }
  }

  ghost predicate Unrefused(values: seq<Value>, reader: Reader) {
    Rows(values, reader).Some? && Apart(Rows(values, reader).value)
  }

  lemma NotSeparate(row: Row, rows: seq<Row>)
    ensures (forall r :: r in rows ==> Separate(r, row)) ==>
              forall r :: r in rows ==> r.id != row.id && r.name != row.name
  {
  }

  /** The second loop: as the first, with no aliases to enter. */
  method EmitTypes(values: seq<Value>, reader: Reader, ids: map<string, nat>, ghost directory: seq<Row>, quote: Quote)
    returns (ok: bool, text: string)
    requires forall v :: reader.row(v).Some? ==> reader.row(v).value.DataType?
    requires Apart(directory) && Directs(ids, directory)
    ensures ok <==> Unrefused(values, reader)
    ensures ok ==> text == Lines(Rows(values, reader).value, directory, quote)
  {
    hide Separate, Concat, TypeParts, Aliases, Targets;
    var known: map<nat, string> := map[];
    text := "";
    ghost var rows: seq<Row> := [];
    for i := 0 to |values|
      invariant Rows(values[..i], reader) == Some(rows)
      invariant Apart(rows) && Records(known, rows)
      invariant forall r :: r in rows ==> r.DataType?
      invariant text == Lines(rows, directory, quote)
    {
      RowsStep(values, i, rows, reader);
      var read := reader.row(values[i]);
      if read.None? {
        return false, text;
      }
      var row := read.value;
      var novel, now := Register(known, row, rows);
      ApartExtends(rows, row);
      TypesSeparate(row, rows);
      if !novel {
        UnrefusedPrefix(values, i + 1, reader);
        return false, text;
      }
      var targets := JoinTargets(row.targets, ids, directory);
      text := text + Concat(TypeParts(row, targets, quote));
      known, rows := now, rows + [row];
    }
    assert values[..|values|] == values;
    ok := true;
  }

  lemma TypesSeparate(row: Row, rows: seq<Row>)
    requires row.DataType? && forall r :: r in rows ==> r.DataType?
    ensures (forall r :: r in rows ==> Separate(r, row)) <==>
              forall r :: r in rows ==> r.id != row.id && r.name != row.name
  {
  }

  /** One target's identity, from the alias map or by the name's default. */
  method TargetId(name: string, ids: map<string, nat>, ghost directory: seq<Row>) returns (id: nat)
    requires Apart(directory) && Directs(ids, directory)
    ensures id == Target(directory, name)
  {
    DirectoryAnswers(ids, directory, name);
    TargetAnswers(directory, name);
    hide Directs, Apart, Target;
    IdentitiesAreNatural(true, NameBytes(name), None);
    id := if name in ids then ids[name]
          else SchemaIdentity.DispatchDefault(ProtocolNames.Table(true), NameBytes(name));
  }

  /** The targets of one type, joined. */
  method JoinTargets(names: seq<string>, ids: map<string, nat>, ghost directory: seq<Row>) returns (text: string)
    requires Apart(directory) && Directs(ids, directory)
    ensures text == Targets(directory, names)
  {
    hide Apart, Directs, Target;
    text := "";
    for i := 0 to |names|
      invariant text == Targets(directory, names[..i])
    {
      var id := TargetId(names[i], ids, directory);
      var one := "DataEndpoint(" + Numerals.Decimal(id) + ")";
      text := if i == 0 then one else text + ", " + one;
      assert names[..i + 1][..i] == names[..i];
    }
    assert names[..|names|] == names;
  }

  lemma TargetAnswers(directory: seq<Row>, name: string)
    ensures Target(directory, name) ==
            if Lookup(directory, name).Some? then Lookup(directory, name).value
            else SchemaIdentity.DispatchDefault(ProtocolNames.Table(true), NameBytes(name))
  {
    hide SchemaIdentity.DispatchDefault, NameBytes, ProtocolNames.Table;
  }

  // ---- sorting ----

  /** `sort_unstable_by_key`: any sorted permutation. */
  method SortById(values: seq<Value>, reader: Reader) returns (sorted: seq<Value>)
    requires forall i :: 0 <= i < |values| ==> reader.key(values[i]).Some?
    ensures Arranges(sorted, values, reader)
  {
    sorted := [];
    for i := 0 to |values|
      invariant Arranges(sorted, values[..i], reader)
    {
      var k := Place(sorted, values[i], reader);
      InsertArranges(sorted, k, values, i, reader);
      sorted := sorted[..k] + [values[i]] + sorted[k..];
    }
    assert values[..|values|] == values;
  }

  method Place(sorted: seq<Value>, v: Value, reader: Reader) returns (k: nat)
    requires reader.key(v).Some? && Sorted(sorted, reader)
    ensures k <= |sorted| && (forall j :: 0 <= j < k ==> reader.key(sorted[j]).value <= reader.key(v).value)
    ensures k < |sorted| ==> reader.key(v).value < reader.key(sorted[k]).value
  {
    k := 0;
    while k < |sorted| && reader.key(sorted[k]).value <= reader.key(v).value
      invariant k <= |sorted| && forall j :: 0 <= j < k ==> reader.key(sorted[j]).value <= reader.key(v).value
    {
      k := k + 1;
    }
  }

  lemma InsertArranges(sorted: seq<Value>, k: nat, values: seq<Value>, i: nat, reader: Reader)
    requires i < |values| && Arranges(sorted, values[..i], reader) && reader.key(values[i]).Some? && k <= |sorted|
    requires forall j :: 0 <= j < k ==> reader.key(sorted[j]).value <= reader.key(values[i]).value
    requires k < |sorted| ==> reader.key(values[i]).value < reader.key(sorted[k]).value
    ensures Arranges(sorted[..k] + [values[i]] + sorted[k..], values[..i + 1], reader)
  {
    InsertKeepsOrder(sorted, k, values[i], reader);
    hide Sorted;
    InsertedMultiset(sorted, k, values[i]);
    assert values[..i + 1] == values[..i] + [values[i]];
  }

  lemma InsertedMultiset(sorted: seq<Value>, k: nat, v: Value)
    requires k <= |sorted|
    ensures multiset(sorted[..k] + [v] + sorted[k..]) == multiset(sorted) + multiset{v}
  {
    assert sorted == sorted[..k] + sorted[k..];
  }

  lemma InsertKeepsOrder(sorted: seq<Value>, k: nat, v: Value, reader: Reader)
    requires k <= |sorted| && Sorted(sorted, reader) && reader.key(v).Some?
    requires forall j :: 0 <= j < k ==> reader.key(sorted[j]).value <= reader.key(v).value
    requires k < |sorted| ==> reader.key(v).value < reader.key(sorted[k]).value
    ensures Sorted(sorted[..k] + [v] + sorted[k..], reader)
  {
  }

  /** `arranged` is a possible result of sorting `values`. */
  ghost predicate Arranges(arranged: seq<Value>, values: seq<Value>, reader: Reader) {
    multiset(arranged) == multiset(values) && Sorted(arranged, reader)
  }

  // ---- order does not matter ----

  /** A row's identity is its entry's sort key. */
  ghost predicate Keyed(reader: Reader) {
    forall v :: reader.row(v).Some? ==> reader.key(v) == Some(reader.row(v).value.id)
  }

  lemma {:induction false} RowAt(values: seq<Value>, reader: Reader, i: nat)
    requires i < |values| && Rows(values, reader).Some?
    ensures |Rows(values, reader).value| == |values|
    ensures reader.row(values[i]) == Some(Rows(values, reader).value[i])
  {
    RowsPrefix(values, i, reader);
    RowsPrefix(values, i + 1, reader);
    assert values[..i + 1][..i] == values[..i];
    assert Rows(values, reader).value[..i + 1] == Rows(values, reader).value[..i] + [Rows(values, reader).value[i]];
  }

  lemma {:induction false} RowsExist(values: seq<Value>, reader: Reader)
    ensures Rows(values, reader).Some? <==> forall v :: v in values ==> reader.row(v).Some?
  {
    if values != [] {
      var init, last := values[..|values| - 1], values[|values| - 1];
      RowsExist(init, reader);
      assert values == init + [last];
    }
  }

  lemma RowsWithout(values: seq<Value>, reader: Reader, i: nat)
    requires i < |values| && Rows(values, reader).Some?
    ensures |Rows(values, reader).value| == |values|
    ensures Rows(Without(values, i), reader) == Some(Without(Rows(values, reader).value, i))
  {
    hide Rows;
    var rest := Without(values, i);
    RowsExist(values, reader);
    RowsExist(rest, reader);
    RowsPrefix(values, 0, reader);
    RowsPrefix(rest, 0, reader);
    var all, some := Rows(values, reader).value, Rows(rest, reader).value;
    forall j | 0 <= j < |rest|
      ensures some[j] == Without(all, i)[j]
    {
      RowAt(rest, reader, j);
      RowAt(values, reader, if j < i then j else j + 1);
    }
    assert some == Without(all, i);
  }

  /** Permuted entries give permuted rows. */
  lemma {:induction false} PermutedRows(a: seq<Value>, b: seq<Value>, reader: Reader)
    requires multiset(a) == multiset(b) && Rows(a, reader).Some?
    ensures Rows(b, reader).Some? && multiset(Rows(a, reader).value) == multiset(Rows(b, reader).value)
    decreases |a|
  {
    RowsExist(a, reader);
    RowsExist(b, reader);
    assert forall v :: v in b ==> v in multiset(a);
    if a != [] {
      assert a[0] in multiset(b);
      var j :| 0 <= j < |b| && b[j] == a[0];
      PermutedStep(a, b, j, reader);
      PermutedRows(Without(a, 0), Without(b, j), reader);
      WithoutMultiset(Rows(a, reader).value, 0);
      WithoutMultiset(Rows(b, reader).value, j);
    } else {
      assert |b| == |multiset(b)| == 0;
    }
  }

  lemma PermutedStep(a: seq<Value>, b: seq<Value>, j: nat, reader: Reader)
    requires a != [] && j < |b| && b[j] == a[0] && multiset(a) == multiset(b)
    requires Rows(a, reader).Some? && Rows(b, reader).Some?
    ensures multiset(Without(a, 0)) == multiset(Without(b, j))
    ensures |Rows(a, reader).value| == |a| && |Rows(b, reader).value| == |b|
    ensures Rows(a, reader).value[0] == Rows(b, reader).value[j]
    ensures Rows(Without(a, 0), reader) == Some(Without(Rows(a, reader).value, 0))
    ensures Rows(Without(b, j), reader) == Some(Without(Rows(b, reader).value, j))
  {
    hide Rows;
    RowsWithout(a, reader, 0);
    RowsWithout(b, reader, j);
    RowAt(a, reader, 0);
    RowAt(b, reader, j);
    WithoutPermuted(a, b, 0, j);
  }

  lemma SeparateSymmetric(a: Row, b: Row)
    ensures Separate(a, b) <==> Separate(b, a)
    ensures !Separate(a, a)
  {
    assert a.name in Aliases(a);
  }

  /** Whether rows collide does not depend on their order. */
  lemma {:induction false} ApartPermuted(a: seq<Row>, b: seq<Row>)
    requires multiset(a) == multiset(b) && Apart(a)
    ensures Apart(b)
  {
    hide Separate;
    forall i, j | 0 <= i < j < |b|
      ensures Separate(b[i], b[j])
    {
      TwoPlaces(a, b, i, j);
      var p, q :| 0 <= p < |a| && 0 <= q < |a| && p != q && a[p] == b[i] && a[q] == b[j];
      SeparateSymmetric(a[p], a[q]);
    }
  }

  /** Two positions of a permutation come from two positions. */
  lemma TwoPlaces<T>(a: seq<T>, b: seq<T>, i: nat, j: nat)
    requires multiset(a) == multiset(b) && i < j < |b|
    ensures exists p, q :: 0 <= p < |a| && 0 <= q < |a| && p != q && a[p] == b[i] && a[q] == b[j]
  {
    assert b[j] in multiset(b);
    var q :| 0 <= q < |a| && a[q] == b[j];
    WithoutPermuted(a, b, q, j);
    assert Without(b, j)[i] == b[i];
    assert b[i] in multiset(Without(b, j));
    assert b[i] in multiset(Without(a, q));
    var p :| 0 <= p < |a| - 1 && Without(a, q)[p] == b[i];
    var at := if p < q then p else p + 1;
    assert a[at] == b[i] && at != q;
  }

  /** Rows in strictly ascending order are determined by which rows they are. */
  lemma {:induction false} AscendingUnique(a: seq<Row>, b: seq<Row>)
    requires multiset(a) == multiset(b) && Ascending(a) && Ascending(b)
    ensures a == b
    decreases |a|
  {
    hide Ascending, Without;
    SameLength(a, b);
    if a != [] {
      SameFirst(a, b);
      WithoutPermuted(a, b, 0, 0);
      AscendingTail(a);
      AscendingTail(b);
      AscendingUnique(Without(a, 0), Without(b, 0));
    }
  }

  lemma SameLength<T>(a: seq<T>, b: seq<T>)
    requires multiset(a) == multiset(b)
    ensures |a| == |b|
  {
    assert |a| == |multiset(a)| && |b| == |multiset(b)|;
  }

  lemma AscendingTail(a: seq<Row>)
    requires a != [] && Ascending(a)
    ensures Ascending(Without(a, 0)) && a == [a[0]] + Without(a, 0)
  {
    assert Without(a, 0) == a[1..];
  }

  lemma SameFirst(a: seq<Row>, b: seq<Row>)
    requires multiset(a) == multiset(b) && Ascending(a) && Ascending(b) && a != [] && b != []
    ensures a[0] == b[0]
  {
    LeastFirst(a, b);
    LeastFirst(b, a);
    var i :| 0 <= i < |a| && a[i] == b[0];
  }

  lemma LeastFirst(a: seq<Row>, b: seq<Row>)
    requires multiset(a) == multiset(b) && Ascending(a) && b != []
    ensures a != [] && b[0] in a && a[0].id <= b[0].id
  {
    assert b[0] in multiset(a);
  }

  /** Accepted tables list their entries by strictly increasing identity, with
      pairwise different names. */
  lemma AcceptedTablesAreStrict(values: seq<Value>, reader: Reader)
    requires Keyed(reader) && Sorted(values, reader) && Unrefused(values, reader)
    ensures Ascending(Rows(values, reader).value)
    ensures var rows := Rows(values, reader).value;
            forall i, j :: 0 <= i < j < |rows| ==> rows[i].name != rows[j].name
  {
    hide Rows;
    RowsPrefix(values, 0, reader);
    var rows := Rows(values, reader).value;
    forall i, j | 0 <= i < j < |rows|
      ensures rows[i].id < rows[j].id && rows[i].name != rows[j].name
    {
      RowAt(values, reader, i);
      RowAt(values, reader, j);
      assert Separate(rows[i], rows[j]);
      assert rows[i].name in Aliases(rows[i]) && rows[j].name in Aliases(rows[j]);
    }
  }

  /** Two arrangements of the same entries are refused alike or read alike. */
  lemma ArrangementsAgree(a: seq<Value>, b: seq<Value>, reader: Reader)
    requires Keyed(reader) && multiset(a) == multiset(b) && Sorted(a, reader) && Sorted(b, reader)
    ensures Unrefused(a, reader) <==> Unrefused(b, reader)
    ensures Unrefused(a, reader) ==> Rows(a, reader) == Rows(b, reader)
  {
    hide Rows, Apart, Sorted, Keyed;
    UnrefusedPermuted(a, b, reader);
    UnrefusedPermuted(b, a, reader);
    if Unrefused(a, reader) {
      PermutedRows(a, b, reader);
      AcceptedTablesAreStrict(a, reader);
      AcceptedTablesAreStrict(b, reader);
      AscendingUnique(Rows(a, reader).value, Rows(b, reader).value);
    }
  }

  lemma UnrefusedPermuted(a: seq<Value>, b: seq<Value>, reader: Reader)
    requires multiset(a) == multiset(b)
    ensures Unrefused(a, reader) ==> Unrefused(b, reader)
  {
    hide Rows, Apart;
    if Unrefused(a, reader) {
      PermutedRows(a, b, reader);
      ApartPermuted(Rows(a, reader).value, Rows(b, reader).value);
    }
  }

  lemma ReadersAreKeyed(endpoint: bool)
    ensures Keyed(ReaderOf(endpoint))
    ensures forall v :: ReaderOf(endpoint).row(v).Some? ==> ReaderOf(endpoint).row(v).value.Endpoint? == endpoint
  {
    hide SchemaId, ReadEndpoint, ReadDataType;
  }

  lemma EmittedFromRows(endpoints: seq<Value>, types: seq<Value>, quote: Quote)
    ensures Emitted(endpoints, types, quote).Some? <==>
              Unrefused(endpoints, ReaderOf(true)) && Unrefused(types, ReaderOf(false))
    ensures Emitted(endpoints, types, quote).Some? ==>
              Emitted(endpoints, types, quote).value ==
              Document(Rows(endpoints, ReaderOf(true)).value, Rows(types, ReaderOf(false)).value, quote)
  {
    hide Document, Rows, ReaderOf, Apart;
  }

  /** Whichever sorted order the unstable sorts leave the entries in, all are
      refused or give the same text. */
  lemma ArrangedTextsAgree(
      endpoints: seq<Value>, types: seq<Value>, endpoints': seq<Value>, types': seq<Value>, quote: Quote)
    requires multiset(endpoints) == multiset(endpoints') && multiset(types) == multiset(types')
    requires Sorted(endpoints, ReaderOf(true)) && Sorted(endpoints', ReaderOf(true))
    requires Sorted(types, ReaderOf(false)) && Sorted(types', ReaderOf(false))
    ensures Emitted(endpoints, types, quote) == Emitted(endpoints', types', quote)
  {
    hide Rows, ReaderOf, Apart, Sorted, Keyed, Emitted, Unrefused, Document;
    ReadersAreKeyed(true);
    ReadersAreKeyed(false);
    ArrangementsAgree(endpoints, endpoints', ReaderOf(true));
    ArrangementsAgree(types, types', ReaderOf(false));
    EmittedFromRows(endpoints, types, quote);
    EmittedFromRows(endpoints', types', quote);
  }

  // ---- the generator ----

  /** The sort evaluates every key, and a missing key ends the build. */
  method HaveKeys(values: seq<Value>, reader: Reader) returns (ok: bool)
    ensures ok <==> forall i :: 0 <= i < |values| ==> reader.key(values[i]).Some?
  {
    for i := 0 to |values|
      invariant forall j :: 0 <= j < i ==> reader.key(values[j]).Some?
    {
      if reader.key(values[i]).None? {
        return false;
      }
    }
    ok := true;
  }

  ghost predicate AllKeyed(values: seq<Value>, reader: Reader) {
    forall i :: 0 <= i < |values| ==> reader.key(values[i]).Some?
  }

  /** `generate_embedded_schema`: the text it writes, or None where it stops the
      build. Without a schema file both tables are empty. */
  method Generate(schema: Option<Value>, quote: Quote) returns (text: Option<string>)
    ensures schema.None? ==> text == Some(EMPTY_TABLES)
    ensures schema.Some? && !(Field(schema.value, "endpoints").Arr? && Field(schema.value, "types").Arr?) ==> text.None?
    ensures schema.Some? && Field(schema.value, "endpoints").Arr? && Field(schema.value, "types").Arr? ==>
              Correct(Field(schema.value, "endpoints").items, Field(schema.value, "types").items, quote, text)
  {
    if schema.None? {
      return Some(EMPTY_TABLES);
    }
    var endpoints, types := AsArray(Field(schema.value, "endpoints")), AsArray(Field(schema.value, "types"));
    if endpoints.None? || types.None? {
      return None;
    }
    text := GenerateTables(endpoints.value, types.value, quote);
  }

  /** A missing identity stops the build; otherwise the text is the one for any
      sorted order of the entries. */
  ghost predicate Correct(endpoints: seq<Value>, types: seq<Value>, quote: Quote, text: Option<string>) {
    && (!AllKeyed(endpoints, ReaderOf(true)) || !AllKeyed(types, ReaderOf(false)) ==> text.None?)
    && (AllKeyed(endpoints, ReaderOf(true)) && AllKeyed(types, ReaderOf(false)) ==>
          exists e, t :: Arranges(e, endpoints, ReaderOf(true)) && Arranges(t, types, ReaderOf(false)))
    && (forall e, t :: Arranges(e, endpoints, ReaderOf(true)) && Arranges(t, types, ReaderOf(false)) ==>
          text == Emitted(e, t, quote))
  }

  method GenerateTables(endpoints: seq<Value>, types: seq<Value>, quote: Quote) returns (text: Option<string>)
    ensures Correct(endpoints, types, quote, text)
  {
    hide Rows, ReaderOf, Sorted, Emitted, Unrefused, Apart, Document;
    var forEndpoints, forTypes := ReaderOf(true), ReaderOf(false);
    var keyed := HaveKeys(endpoints, forEndpoints);
    var typed := HaveKeys(types, forTypes);
    if !keyed || !typed {
      ArrangedHaveKeys(endpoints, forEndpoints);
      ArrangedHaveKeys(types, forTypes);
      return None;
    }
    var e := SortById(endpoints, forEndpoints);
    var t := SortById(types, forTypes);
    text := EmitTables(e, t, quote);
    forall e', t' | Arranges(e', endpoints, forEndpoints) && Arranges(t', types, forTypes)
      ensures text == Emitted(e', t', quote)
    {
      ArrangedTextsAgree(e, t, e', t', quote);
    }
  }

  /** Order independence: two schemas with the same entries in any order, keyed or
      not, sorted or not, are both refused or give the same text. */
  lemma GenerationIgnoresOrder(
      endpoints: seq<Value>, types: seq<Value>, text: Option<string>,
      endpoints': seq<Value>, types': seq<Value>, text': Option<string>, quote: Quote)
    requires multiset(endpoints) == multiset(endpoints') && multiset(types) == multiset(types')
    requires Correct(endpoints, types, quote, text) && Correct(endpoints', types', quote, text')
    ensures text == text'
  {
    hide ReaderOf, Sorted, Emitted, AllKeyed;
    KeysIgnoreOrder(endpoints, endpoints', ReaderOf(true));
    KeysIgnoreOrder(types, types', ReaderOf(false));
  }

  lemma KeysIgnoreOrder(a: seq<Value>, b: seq<Value>, reader: Reader)
    requires multiset(a) == multiset(b)
    ensures AllKeyed(a, reader) <==> AllKeyed(b, reader)
  {
    assert forall i :: 0 <= i < |a| ==> a[i] in multiset(b);
    assert forall i :: 0 <= i < |b| ==> b[i] in multiset(a);
  }

  lemma ArrangedHaveKeys(values: seq<Value>, reader: Reader)
    ensures (exists a :: Arranges(a, values, reader)) ==> AllKeyed(values, reader)
  {
    forall a | Arranges(a, values, reader)
      ensures AllKeyed(values, reader)
    {
      forall i | 0 <= i < |values|
        ensures reader.key(values[i]).Some?
      {
        assert values[i] in multiset(a);
      }
    }
  }

  method EmitTables(endpoints: seq<Value>, types: seq<Value>, quote: Quote) returns (text: Option<string>)
    ensures text == Emitted(endpoints, types, quote)
  {
    hide Rows, ReaderOf, Emitted, Apart, Lines;
    ReadersAreKeyed(true);
    ReadersAreKeyed(false);
    EmittedFromRows(endpoints, types, quote);
    var ok, endpointText, ids := EmitEndpoints(endpoints, ReaderOf(true), quote);
    if !ok {
      return None;
    }
    ghost var directory := Rows(endpoints, ReaderOf(true)).value;
    var fine, typeText := EmitTypes(types, ReaderOf(false), ids, directory, quote);
    if !fine {
      return None;
    }
    text := Some(Concat([BANNER, ENDPOINT_TABLE, "\n", endpointText, "];\n", TYPE_TABLE, "\n", typeText, "];\n"]));
  }
}
