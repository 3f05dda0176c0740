/** What the entries of a schema configuration mean, spelling by spelling, and
    that the generated tables say exactly that. */
module SchemaEntries {
  import opened Prelude
  import opened SchemaReadback
  import opened SchemaTable
  import ProtocolNames
  import SchemaGenerator
  import SchemaIdentity

  /** An unsigned number, or the default where the value is none. */
  predicate Counts(v: Value, n: nat, default: nat) {
    if v.Number? && v.exact.Some? then n == v.exact.value else n == default
  }

  predicate EncryptionSays(v: Value, word: string) {
    if v.Str? then
      (v.text, word) in {
        ("PreferOff", "PreferOff"), ("prefer_off", "PreferOff"), ("off", "PreferOff"), ("false", "PreferOff"),
        ("PreferOn", "PreferOn"), ("prefer_on", "PreferOn"), ("preferred", "PreferOn"), ("true", "PreferOn"),
        ("RequireOn", "RequireOn"), ("require_on", "RequireOn"), ("required", "RequireOn")
      }
    else word == "PreferOff"
  }

  predicate ReliabilitySays(v: Value, word: string) {
    v.Str? && (v.text, word) in {("Off", "None"), ("Ordered", "Ordered"), ("Unordered", "Unordered")}
  }

  predicate ElementSays(v: Value, messageClass: Value, e: Element) {
    && messageClass == Str(e.messageClass) && e.messageClass in {"Data", "Error", "Warning"}
    && Field(v, "data_type") == Str(e.dataType)
    && e.dataType in {"Float64", "Float32", "UInt8", "UInt16", "UInt32", "UInt64", "UInt128", "Int8", "Int16",
                      "Int32", "Int64", "Int128", "Bool", "String", "Binary", "NoData"}
    && Field(v, "kind") == (if e.count.Some? then Str("Static") else Str("Dynamic"))
    && (e.count.Some? ==> Counts(Field(v, "count"), e.count.value, 1))
  }

  /** Everything of a type entry but its targets. A `reliable_mode` is refused. */
  predicate EntrySays(v: Value, id: nat, name: string, element: Element, delivery: Delivery) {
    && SchemaId(v, false) == Some(id) && Field(v, "name") == Str(name)
    && ElementSays(Field(v, "element"), Field(v, "class"), element)
    && !(v.Obj? && "reliable_mode" in v.fields)
    && ReliabilitySays(Field(v, "reliable"), delivery.reliable)
    && Counts(Field(v, "priority"), delivery.priority, 0)
    && EncryptionSays(Field(v, "e2e_encryption"), delivery.e2e)
  }

  predicate EndpointSays(v: Value, d: Definition) {
    && d.EndpointDefinition? && Field(v, "name") == Str(d.name) && SchemaId(v, true) == Some(d.id)
    && (d.linkLocal <==> Field(v, "link_local_only") == Bool(true) || Field(v, "broadcast_mode") == Str("Never"))
  }

  /** The endpoint entry `v` answers to the name `s`. */
  predicate Answers(v: Value, s: string) { Field(v, "name") == Str(s) || Field(v, "rust") == Str(s) }

  /** A target stands for the configured endpoint that answers to it, or, where
      none does, for the default identity of its name. */
  ghost predicate TargetSays(target: Value, id: nat, endpoints: seq<Value>, ids: seq<Definition>)
    requires |endpoints| == |ids|
  {
    && target.Str?
    && (forall k :: 0 <= k < |endpoints| && Answers(endpoints[k], target.text) ==> ids[k].id == id)
    && ((forall k :: 0 <= k < |endpoints| ==> !Answers(endpoints[k], target.text)) ==>
          id == SchemaIdentity.DispatchDefault(ProtocolNames.Table(true), NameBytes(target.text)))
  }

  ghost predicate TypeSays(v: Value, d: Definition, endpoints: seq<Value>, ids: seq<Definition>)
    requires |endpoints| == |ids|
  {
    && d.TypeDefinition? && EntrySays(v, d.id, d.name, d.element, d.delivery)
    && Field(v, "endpoints").Arr? && |Field(v, "endpoints").items| == |d.endpoints|
    && forall i :: 0 <= i < |d.endpoints| ==>
         TargetSays(Field(v, "endpoints").items[i], d.endpoints[i], endpoints, ids)
  }

  // ---- accepted entries ----

  lemma {:induction false} StringsAre(items: seq<Value>, texts: seq<string>)
    ensures Strings(items) == Some(texts)
       <==> |items| == |texts| && forall i :: 0 <= i < |items| ==> items[i] == Str(texts[i])
  {
    if items != [] && texts != [] {
      StringsAre(items[1..], texts[1..]);
      assert forall i :: 0 < i < |items| ==> items[1..][i - 1] == items[i];
      assert texts == [texts[0]] + texts[1..];
    }
  }

  lemma ReliabilitySpelled(v: Value, word: string)
    ensures ReliabilitySays(v, word) <==> v.Str? && Reliability(v.text) == Some(word)
  {
  }

  lemma EncryptionSpelled(v: Value, word: string)
    ensures EncryptionSays(v, word) <==> Encryption(Or(AsStr(v), "PreferOff")) == Some(word)
  {
  }

  lemma ElementSpelled(v: Value, messageClass: Value, e: Element)
    ensures ElementSays(v, messageClass, e) <==> ReadElement(v, messageClass) == Some(e)
  {
  }

  /** A type entry is accepted as `row` exactly when it says so. */
  lemma TypeAcceptedIff(v: Value, row: Row)
    requires row.DataType?
    ensures ReadRow(v, false) == Some(row)
       <==> && EntrySays(v, row.id, row.name, row.element, Delivery(row.reliable, row.priority, row.e2e))
            && Field(v, "endpoints").Arr? && |Field(v, "endpoints").items| == |row.targets|
            && forall i :: 0 <= i < |row.targets| ==> Field(v, "endpoints").items[i] == Str(row.targets[i])
  {
    hide SchemaId, ElementSays, ReadElement, EncryptionSays, Encryption, ReliabilitySays, Reliability, Strings;
    ElementSpelled(Field(v, "element"), Field(v, "class"), row.element);
    ReliabilitySpelled(Field(v, "reliable"), row.reliable);
    EncryptionSpelled(Field(v, "e2e_encryption"), row.e2e);
    if Field(v, "endpoints").Arr? {
      StringsAre(Field(v, "endpoints").items, row.targets);
    }
  }

  /** An endpoint entry is accepted exactly when it has an identity. */
  lemma EndpointAcceptedIff(v: Value)
    ensures ReadRow(v, true).Some? <==> SchemaId(v, true).Some?
    ensures ReadRow(v, true).Some? ==>
      && ReadRow(v, true).value.Endpoint? && EndpointSays(v, DefinitionOf(ReadRow(v, true).value, []))
      && forall s :: s in Aliases(ReadRow(v, true).value) <==> Answers(v, s)
  {
    NamedWhereIdentified(v, true);
    hide SchemaId;
  }

  lemma NamedWhereIdentified(v: Value, endpoint: bool)
    ensures SchemaId(v, endpoint).Some? ==> Field(v, "name").Str?
  {
    hide SchemaIdentity.DispatchResolve, ProtocolNames.Table, NameBytes;
  }

  // ---- the words of an accepted type are words ----

  lemma DataTypesAreWords(s: string)
    requires s in DATA_TYPES
    ensures IsWord(s)
  {
  }

  lemma OtherWords()
    ensures IsWord("Data") && IsWord("Error") && IsWord("Warning")
    ensures IsWord("None") && IsWord("Ordered") && IsWord("Unordered")
    ensures IsWord("PreferOff") && IsWord("PreferOn") && IsWord("RequireOn")
  {
  }

  lemma AcceptedIsSpelled(v: Value)
    requires ReadRow(v, false).Some?
    ensures ReadRow(v, false).value.DataType? && Spelled(ReadRow(v, false).value)
  {
    hide SchemaId, Strings, IsWord;
    OtherWords();
    var row := ReadRow(v, false).value;
    DataTypesAreWords(row.element.dataType);
  }

  // ---- the generated tables say what the entries say ----

  /** The definitions are those of the entries, one each, in the same order. */
  ghost predicate Faithful(
      endpoints: seq<Value>, types: seq<Value>, endpointDefs: seq<Definition>, typeDefs: seq<Definition>) {
    && |endpointDefs| == |endpoints| && |typeDefs| == |types|
    && (forall i :: 0 <= i < |endpoints| ==> EndpointSays(endpoints[i], endpointDefs[i]))
    && (forall i :: 0 <= i < |types| ==> TypeSays(types[i], typeDefs[i], endpoints, endpointDefs))
  }

  /** The rows of accepted endpoint entries, and what resolves the targets. */
  ghost predicate Directory(endpoints: seq<Value>, directory: seq<Row>) {
    Rows(endpoints, ReaderOf(true)) == Some(directory) && Apart(directory)
  }

  /** Acceptance of a list of entries, row by row. */
  lemma AcceptedRow(values: seq<Value>, endpoint: bool, rows: seq<Row>, i: nat)
    requires Rows(values, ReaderOf(endpoint)) == Some(rows) && i < |values|
    ensures |rows| == |values| && ReadRow(values[i], endpoint) == Some(rows[i])
  {
    hide Rows, ReadRow;
    SchemaGenerator.RowAt(values, ReaderOf(endpoint), i);
  }

  lemma SameCount(values: seq<Value>, endpoint: bool, rows: seq<Row>)
    requires Rows(values, ReaderOf(endpoint)) == Some(rows)
    ensures |rows| == |values|
  {
    hide Rows, ReaderOf;
    SchemaGenerator.RowsPrefix(values, 0, ReaderOf(endpoint));
  }

  lemma TargetFound(endpoints: seq<Value>, directory: seq<Row>, name: string, k: nat)
    requires Directory(endpoints, directory) && k < |endpoints| && Answers(endpoints[k], name)
    ensures |directory| == |endpoints| && Target(directory, name) == directory[k].id
  {
    hide Rows, ReaderOf, ReadRow, Target, Apart, Answers, Aliases;
    AcceptedRow(endpoints, true, directory, k);
    EndpointAcceptedIff(endpoints[k]);
    SchemaGenerator.LookupFinds(directory, directory[k], name);
    SchemaGenerator.TargetAnswers(directory, name);
  }

  lemma TargetMissing(endpoints: seq<Value>, directory: seq<Row>, name: string)
    requires Directory(endpoints, directory) && forall k :: 0 <= k < |endpoints| ==> !Answers(endpoints[k], name)
    ensures Target(directory, name) == SchemaIdentity.DispatchDefault(ProtocolNames.Table(true), NameBytes(name))
  {
    hide Rows, ReaderOf, ReadRow, Target, Apart, Answers, Aliases;
    SameCount(endpoints, true, directory);
    forall k | 0 <= k < |directory|
      ensures name !in Aliases(directory[k])
    {
      AcceptedRow(endpoints, true, directory, k);
      EndpointAcceptedIff(endpoints[k]);
    }
    SchemaGenerator.LookupMisses(directory, name);
    SchemaGenerator.TargetAnswers(directory, name);
  }

  lemma TargetResolves(endpoints: seq<Value>, directory: seq<Row>, name: string)
    requires Directory(endpoints, directory)
    ensures |directory| == |endpoints|
    ensures TargetSays(Str(name), Target(directory, name), endpoints, Definitions(directory, []))
  {
    hide Directory, Target, Answers, NameBytes, SchemaIdentity.DispatchDefault, ProtocolNames.Table;
    SameCountOfDirectory(endpoints, directory);
    forall k | 0 <= k < |endpoints| && Answers(endpoints[k], name)
      ensures Target(directory, name) == directory[k].id
    {
      TargetFound(endpoints, directory, name, k);
    }
    if forall k :: 0 <= k < |endpoints| ==> !Answers(endpoints[k], name) {
      TargetMissing(endpoints, directory, name);
    }
  }

  lemma SameCountOfDirectory(endpoints: seq<Value>, directory: seq<Row>)
    requires Directory(endpoints, directory)
    ensures |directory| == |endpoints|
  {
    SameCount(endpoints, true, directory);
  }

  lemma TargetsAreSaid(endpoints: seq<Value>, directory: seq<Row>, items: seq<Value>, names: seq<string>)
    requires Directory(endpoints, directory) && |items| == |names|
    requires forall i :: 0 <= i < |names| ==> items[i] == Str(names[i])
    ensures |directory| == |endpoints|
    ensures forall i :: 0 <= i < |names| ==>
      TargetSays(items[i], TargetIds(directory, names)[i], endpoints, Definitions(directory, []))
  {
    hide Directory, TargetSays, Target, Definitions;
    SameCountOfDirectory(endpoints, directory);
    forall i | 0 <= i < |names|
      ensures TargetSays(items[i], Target(directory, names[i]), endpoints, Definitions(directory, []))
    {
      TargetResolves(endpoints, directory, names[i]);
    }
  }

  lemma TypeIsSaid(endpoints: seq<Value>, directory: seq<Row>, v: Value, row: Row)
    requires Directory(endpoints, directory) && ReadRow(v, false) == Some(row)
    ensures |directory| == |endpoints|
    ensures TypeSays(v, DefinitionOf(row, directory), endpoints, Definitions(directory, []))
  {
    hide Directory, ReadRow, EntrySays, TargetSays, Definitions, TargetIds, Field;
    AcceptedIsSpelled(v);
    TypeAcceptedIff(v, row);
    TargetsAreSaid(endpoints, directory, Field(v, "endpoints").items, row.targets);
  }

  lemma RowsAreFaithful(endpoints: seq<Value>, types: seq<Value>, directory: seq<Row>, rows: seq<Row>)
    requires Directory(endpoints, directory) && Rows(types, ReaderOf(false)) == Some(rows)
    ensures Faithful(endpoints, types, Definitions(directory, []), Definitions(rows, directory))
  {
    hide Rows, ReaderOf, ReadRow, EndpointSays, TypeSays, Apart;
    SameCount(endpoints, true, directory);
    SameCount(types, false, rows);
    forall i | 0 <= i < |endpoints|
      ensures EndpointSays(endpoints[i], Definitions(directory, [])[i])
    {
      AcceptedRow(endpoints, true, directory, i);
      EndpointAcceptedIff(endpoints[i]);
    }
    forall i | 0 <= i < |types|
      ensures TypeSays(types[i], Definitions(rows, directory)[i], endpoints, Definitions(directory, []))
    {
      AcceptedRow(types, false, rows, i);
      TypeIsSaid(endpoints, directory, types[i], rows[i]);
    }
  }

  lemma RowsReadBack(endpoints: seq<Value>, types: seq<Value>, directory: seq<Row>, rows: seq<Row>,
                     quote: Quote, unquote: Unquote)
    requires Inverts(unquote, quote)
    requires Rows(endpoints, ReaderOf(true)) == Some(directory) && Rows(types, ReaderOf(false)) == Some(rows)
    ensures ReadDocument(Document(directory, rows, quote), unquote)
         == Some((Definitions(directory, []), Definitions(rows, directory)))
  {
    hide Rows, ReaderOf, ReadRow, Document, ReadDocument, Definitions, Spelled, Inverts;
    SameCount(endpoints, true, directory);
    SameCount(types, false, rows);
    forall i | 0 <= i < |directory|
      ensures directory[i].Endpoint?
    {
      AcceptedRow(endpoints, true, directory, i);
      EndpointAcceptedIff(endpoints[i]);
    }
    forall i | 0 <= i < |rows|
      ensures rows[i].DataType? && Spelled(rows[i])
    {
      AcceptedRow(types, false, rows, i);
      AcceptedIsSpelled(types[i]);
    }
    DocumentReadsBack(directory, rows, quote, unquote);
  }

  /** Whatever is emitted reads back as definitions that say what the entries
      say, given that quoted names can be read back. */
  lemma EmittedTablesAreFaithful(endpoints: seq<Value>, types: seq<Value>, quote: Quote, unquote: Unquote)
    requires Inverts(unquote, quote) && Emitted(endpoints, types, quote).Some?
    ensures var read := ReadDocument(Emitted(endpoints, types, quote).value, unquote);
      read.Some? && Faithful(endpoints, types, read.value.0, read.value.1)
  {
    hide Rows, ReaderOf, Document, ReadDocument, Definitions, Faithful, Apart;
    var directory, rows := Rows(endpoints, ReaderOf(true)).value, Rows(types, ReaderOf(false)).value;
    RowsReadBack(endpoints, types, directory, rows, quote, unquote);
    RowsAreFaithful(endpoints, types, directory, rows);
  }

  /** So does whatever the generator writes: it lists the entries of the
      configuration, rearranged by identity, and nothing else. */
  lemma GeneratedTablesAreFaithful(
      endpoints: seq<Value>, types: seq<Value>, text: string, quote: Quote, unquote: Unquote)
    requires Inverts(unquote, quote) && SchemaGenerator.Correct(endpoints, types, quote, Some(text))
    ensures exists e, t ::
      && multiset(e) == multiset(endpoints) && multiset(t) == multiset(types)
      && ReadDocument(text, unquote).Some?
      && Faithful(e, t, ReadDocument(text, unquote).value.0, ReadDocument(text, unquote).value.1)
  {
    hide ReaderOf, ReadDocument, Faithful, Emitted, Sorted, Inverts;
    var e, t :| SchemaGenerator.Arranges(e, endpoints, ReaderOf(true))
                && SchemaGenerator.Arranges(t, types, ReaderOf(false));
    EmittedTablesAreFaithful(e, t, quote, unquote);
  }
}
