/** An independent reader of the generated schema tables, and that it finds in
    the text exactly the rows that were printed. */
module SchemaReadback {
  import opened Prelude
  import opened Numerals
  import opened SchemaTable

  datatype Definition = EndpointDefinition(id: nat, name: string, linkLocal: bool)
                      | TypeDefinition(id: nat, name: string, element: Element, endpoints: seq<nat>,
                                       delivery: Delivery)

  datatype Delivery = Delivery(reliable: string, priority: nat, e2e: string)

  /** Reads a quoted string off the front of a text. */
  type Unquote = string -> Parsed<string>

  ghost predicate Inverts(unquote: Unquote, quote: Quote) {
    forall s: string, rest: string :: unquote(quote(s) + rest) == Some((s, rest))
  }

  // ---- the reader ----

  function Skip(text: string, literal: string): Option<string> {
    if literal <= text then Some(text[|literal|..]) else None
  }

  predicate IsWordChar(c: char) { 'A' <= c <= 'Z' || 'a' <= c <= 'z' || '0' <= c <= '9' }

  function ReadWord(text: string): (string, string) {
    if text == "" || !IsWordChar(text[0]) then ("", text)
    else
      var (word, rest) := ReadWord(text[1..]);
      ([text[0]] + word, rest)
  }

  /** The identity and name a definition starts with, and its empty description. */
  function ReadHead(text: string, opening: string, unquote: Unquote): Parsed<(nat, string)> {
    var text :- Skip(text, opening);
    var (id, text) :- ParseNumber(text);
    var text :- Skip(text, "), name: ");
    var (name, text) :- unquote(text);
    var text :- Skip(text, ", description: ");
    var (description, text) :- unquote(text);
    if description != "" then None else Some(((id, name), text))
  }

  function ReadEndpoint(text: string, unquote: Unquote): Parsed<Definition> {
    var (head, text) :- ReadHead(text, "    EndpointDefinition { id: DataEndpoint(", unquote);
    var text :- Skip(text, ", link_local_only: ");
    var (flag, text) := ReadWord(text);
    var text :- Skip(text, " },\n");
    if flag != "true" && flag != "false" then None
    else Some((EndpointDefinition(head.0, head.1, flag == "true"), text))
  }

  function ReadCount(text: string): Parsed<Option<nat>> {
    match Skip(text, "Dynamic(")
    case Some(text) => Some((None, text))
    case None =>
      var text :- Skip(text, "Static(");
      var (count, text) :- ParseNumber(text);
      var text :- Skip(text, ", ");
      Some((Some(count), text))
  }

  function ReadElementText(text: string): Parsed<Element> {
    var text :- Skip(text, ", element: MessageElement::");
    var (count, text) :- ReadCount(text);
    var text :- Skip(text, "MessageDataType::");
    var (dataType, text) := ReadWord(text);
    var text :- Skip(text, ", MessageClass::");
    var (messageClass, text) := ReadWord(text);
    Some((Element(count, dataType, messageClass), text))
  }

  function ReadId(text: string): (r: Parsed<nat>)
    ensures r.Some? ==> |r.value.1| < |text|
  {
    var text :- Skip(text, "DataEndpoint(");
    var (id, text) :- ParseNumber(text);
    var text :- Skip(text, ")");
    Some((id, text))
  }

  /** The identities between the brackets of an endpoint list. */
  function ReadIds(text: string): (seq<nat>, string)
    decreases |text|
  {
    match ReadId(text)
    case None => ([], text)
    case Some((id, rest)) =>
      match Skip(rest, ", ")
      case None => ([id], rest)
      case Some(more) =>
        var (ids, rest) := ReadIds(more);
        ([id] + ids, rest)
  }

  function ReadDelivery(text: string): Parsed<Delivery> {
    var text :- Skip(text, "], reliable: ReliableMode::");
    var (reliable, text) := ReadWord(text);
    var text :- Skip(text, ", priority: ");
    var (priority, text) :- ParseNumber(text);
    var text :- Skip(text, ", e2e_encryption: E2eEncryptionPolicy::");
    var (e2e, text) := ReadWord(text);
    var text :- Skip(text, " },\n");
    Some((Delivery(reliable, priority, e2e), text))
  }

  function ReadType(text: string, unquote: Unquote): Parsed<Definition> {
    var (head, text) :- ReadHead(text, "    DataTypeDefinition { id: DataType(", unquote);
    var (element, text) :- ReadElementText(text);
    var text :- Skip(text, "), endpoints: &[");
    var (endpoints, text) := ReadIds(text);
    var (delivery, text) :- ReadDelivery(text);
    Some((TypeDefinition(head.0, head.1, element, endpoints, delivery), text))
  }

  function EndpointReader(unquote: Unquote): string -> Parsed<Definition> { s => ReadEndpoint(s, unquote) }

  function TypeReader(unquote: Unquote): string -> Parsed<Definition> { s => ReadType(s, unquote) }

  /** Lines up to the closing bracket. */
  function ReadLines(read: string -> Parsed<Definition>, text: string): Parsed<seq<Definition>>
    decreases |text|
  {
    match read(text)
    case None =>
      var rest :- Skip(text, "];\n");
      Some(([], rest))
    case Some((d, rest)) =>
      if |rest| >= |text| then None
      else
        var (more, rest) :- ReadLines(read, rest);
        Some(([d] + more, rest))
  }

  /** The table that `heading` opens, with its lines below it. */
  function ReadTable(heading: string, read: string -> Parsed<Definition>, text: string): Parsed<seq<Definition>> {
    var text :- Skip(text, heading);
    ReadLines(read, Or(Skip(text, "\n"), text))
  }

  const FIRST_LINE := "// Generated by build.rs. Static metadata stays in flash on no_std targets.\n"
  const ENDPOINTS_ARE := "const EMBEDDED_SCHEMA_ENDPOINTS: &[EndpointDefinition] = &["
  const TYPES_ARE := "const EMBEDDED_SCHEMA_TYPES: &[DataTypeDefinition] = &["

  function ReadDocument(text: string, unquote: Unquote): Option<(seq<Definition>, seq<Definition>)> {
    var text :- Skip(text, FIRST_LINE);
    var (endpoints, text) :- ReadTable(ENDPOINTS_ARE, EndpointReader(unquote), text);
    var (types, text) :- ReadTable(TYPES_ARE, TypeReader(unquote), text);
    if text != "" then None else Some((endpoints, types))
  }

  // ---- what a row should be read as ----

  function TargetIds(directory: seq<Row>, names: seq<string>): (ids: seq<nat>)
    ensures |ids| == |names| && forall i :: 0 <= i < |names| ==> ids[i] == Target(directory, names[i])
  {
    if names == [] then [] else [Target(directory, names[0])] + TargetIds(directory, names[1..])
  }

  function DefinitionOf(row: Row, directory: seq<Row>): Definition {
    match row
    case Endpoint(id, name, _, linkLocal) => EndpointDefinition(id, name, linkLocal)
    case DataType(id, name, element, targets, reliable, priority, e2e) =>
      TypeDefinition(id, name, element, TargetIds(directory, targets), Delivery(reliable, priority, e2e))
  }

  function Definitions(rows: seq<Row>, directory: seq<Row>): (ds: seq<Definition>)
    ensures |ds| == |rows| && forall i :: 0 <= i < |rows| ==> ds[i] == DefinitionOf(rows[i], directory)
  {
    if rows == [] then [] else [DefinitionOf(rows[0], directory)] + Definitions(rows[1..], directory)
  }

  // ---- one part at a time ----

  lemma Mismatch(text: string, literal: string)
    requires text != "" && literal != "" && text[0] != literal[0]
    ensures Skip(text, literal).None?
  {
  }

  /** What is left of `parts`, and of what follows them, from part `k` on. */
  ghost function From(parts: seq<string>, k: nat, after: string): string
    requires k <= |parts|
  {
    Concat(parts[k..]) + after
  }

  lemma Peel(parts: seq<string>, k: nat, after: string)
    requires k < |parts|
    ensures From(parts, k, after) == parts[k] + From(parts, k + 1, after)
  {
    assert parts[k..][1..] == parts[k + 1..];
  }

  lemma SkipPart(parts: seq<string>, k: nat, after: string)
    requires k < |parts|
    ensures Skip(From(parts, k, after), parts[k]) == Some(From(parts, k + 1, after))
  {
    Peel(parts, k, after);
  }

  lemma NumberPart(parts: seq<string>, k: nat, after: string, n: nat)
    requires k + 1 < |parts| && parts[k] == Decimal(n) && parts[k + 1] != "" && !IsDigit(parts[k + 1][0])
    ensures ParseNumber(From(parts, k, after)) == Some((n, From(parts, k + 1, after)))
  {
    hide ParseNumber, Decimal;
    Peel(parts, k, after);
    Peel(parts, k + 1, after);
    NumberRoundTrip(n, From(parts, k + 1, after));
  }

  lemma QuotedPart(parts: seq<string>, k: nat, after: string, s: string, quote: Quote, unquote: Unquote)
    requires Inverts(unquote, quote) && k < |parts| && parts[k] == quote(s)
    ensures unquote(From(parts, k, after)) == Some((s, From(parts, k + 1, after)))
  {
    Peel(parts, k, after);
  }

  predicate IsWord(s: string) { forall i :: 0 <= i < |s| ==> IsWordChar(s[i]) }

  lemma {:induction false} WordReadsBack(word: string, rest: string)
    requires IsWord(word) && rest != "" && !IsWordChar(rest[0])
    ensures ReadWord(word + rest) == (word, rest)
  {
    if word == "" {
      assert word + rest == rest;
    } else {
      assert (word + rest)[1..] == word[1..] + rest;
      WordReadsBack(word[1..], rest);
      assert [word[0]] + word[1..] == word;
    }
  }

  lemma WordPart(parts: seq<string>, k: nat, after: string)
    requires k + 1 < |parts| && IsWord(parts[k]) && parts[k + 1] != "" && !IsWordChar(parts[k + 1][0])
    ensures ReadWord(From(parts, k, after)) == (parts[k], From(parts, k + 1, after))
  {
    Peel(parts, k, after);
    Peel(parts, k + 1, after);
    WordReadsBack(parts[k], From(parts, k + 1, after));
  }

  // ---- endpoint lines ----

  lemma PartsStart(parts: seq<string>, after: string)
    ensures From(parts, 0, after) == Concat(parts) + after
  {
    assert parts[0..] == parts;
  }

  lemma PartsEnd(parts: seq<string>, after: string)
    ensures From(parts, |parts|, after) == after
  {
    assert parts[|parts|..] == [];
  }

  lemma HeadPart(
      parts: seq<string>, after: string, opening: string, id: nat, name: string, quote: Quote, unquote: Unquote)
    requires Inverts(unquote, quote) && |parts| > 5
    requires parts[0] == opening && parts[1] == Decimal(id) && parts[2] == "), name: " && parts[3] == quote(name)
    requires parts[4] == ", description: " && parts[5] == quote("")
    ensures ReadHead(From(parts, 0, after), opening, unquote) == Some(((id, name), From(parts, 6, after)))
  {
    hide Skip, ParseNumber, Decimal, Inverts, From;
    SkipPart(parts, 0, after);
    NumberPart(parts, 1, after, id);
    SkipPart(parts, 2, after);
    QuotedPart(parts, 3, after, name, quote, unquote);
    SkipPart(parts, 4, after);
    QuotedPart(parts, 5, after, "", quote, unquote);
  }

  lemma EndpointReadsBack(row: Row, directory: seq<Row>, quote: Quote, unquote: Unquote, rest: string)
    requires row.Endpoint? && Inverts(unquote, quote)
    ensures ReadEndpoint(Line(row, directory, quote) + rest, unquote) == Some((DefinitionOf(row, directory), rest))
  {
    hide Skip, ReadWord, ReadHead, Decimal, Inverts, Concat;
    var parts := EndpointParts(row, quote);
    PartsStart(parts, rest);
    HeadPart(parts, rest, parts[0], row.id, row.name, quote, unquote);
    SkipPart(parts, 6, rest);
    WordPart(parts, 7, rest);
    SkipPart(parts, 8, rest);
    PartsEnd(parts, rest);
    hide From;
  }

  // ---- type lines ----

  lemma CountReadsBack(count: Option<nat>, rest: string)
    ensures ReadCount(Shape(count) + rest) == Some((count, rest))
  {
    hide Decimal, ParseNumber;
    match count
    case None =>
      assert (Shape(count) + rest)[|"Dynamic("|..] == rest;
    case Some(n) =>
      var tail := ", " + rest;
      assert Shape(count) + rest == "Static(" + (Decimal(n) + tail);
      Mismatch("Static(" + (Decimal(n) + tail), "Dynamic(");
      assert Skip("Static(" + (Decimal(n) + tail), "Static(") == Some(Decimal(n) + tail);
      NumberRoundTrip(n, tail);
      assert Skip(tail, ", ") == Some(rest);
  }

  lemma {:induction false} FirstTarget(directory: seq<Row>, names: seq<string>)
    requires |names| >= 2
    ensures Targets(directory, names) == TargetText(directory, names[0]) + ", " + Targets(directory, names[1..])
  {
    hide TargetText;
    var init, last := names[..|names| - 1], names[|names| - 1];
    if |names| > 2 {
      FirstTarget(directory, init);
      assert names[1..][..|names| - 2] == init[1..];
    }
  }

  lemma IdReadsBack(id: nat, rest: string)
    ensures ReadId("DataEndpoint(" + Decimal(id) + ")" + rest) == Some((id, rest))
  {
    hide Decimal, ParseNumber;
    var tail := ")" + rest;
    assert "DataEndpoint(" + Decimal(id) + ")" + rest == "DataEndpoint(" + (Decimal(id) + tail);
    assert Skip("DataEndpoint(" + (Decimal(id) + tail), "DataEndpoint(") == Some(Decimal(id) + tail);
    NumberRoundTrip(id, tail);
    assert Skip(tail, ")") == Some(rest);
  }

  lemma NoId(rest: string)
    requires rest != "" && rest[0] == ']'
    ensures ReadIds(rest) == ([], rest)
  {
    Mismatch(rest, "DataEndpoint(");
  }

  lemma LastId(directory: seq<Row>, name: string, rest: string)
    requires rest != "" && rest[0] == ']'
    ensures ReadIds(TargetText(directory, name) + rest) == ([Target(directory, name)], rest)
  {
    hide ReadId, Decimal, Target;
    IdReadsBack(Target(directory, name), rest);
    Mismatch(rest, ", ");
  }

  lemma NextId(directory: seq<Row>, name: string, more: string)
    ensures ReadIds(TargetText(directory, name) + (", " + more))
         == ([Target(directory, name)] + ReadIds(more).0, ReadIds(more).1)
  {
    hide ReadId, Decimal, Target;
    IdReadsBack(Target(directory, name), ", " + more);
    assert Skip(", " + more, ", ") == Some(more);
  }

  lemma Regroup(a: string, b: string, c: string, d: string)
    ensures a + b + c + d == a + (b + (c + d))
  {
  }

  lemma {:induction false} IdsReadBack(directory: seq<Row>, names: seq<string>, rest: string)
    requires rest != "" && rest[0] == ']'
    ensures ReadIds(Targets(directory, names) + rest) == (TargetIds(directory, names), rest)
    decreases |names|
  {
    hide ReadIds, Target, TargetText;
    if names == [] {
      assert "" + rest == rest;
      NoId(rest);
    } else if |names| == 1 {
      LastId(directory, names[0], rest);
      assert TargetIds(directory, names) == [Target(directory, names[0])];
    } else {
      FirstTarget(directory, names);
      hide Targets;
      Regroup(TargetText(directory, names[0]), ", ", Targets(directory, names[1..]), rest);
      NextId(directory, names[0], Targets(directory, names[1..]) + rest);
      IdsReadBack(directory, names[1..], rest);
    }
  }

  // ---- a whole type line ----

  /** The words of a row are words. */
  predicate Spelled(row: Row) {
    row.DataType? ==>
      IsWord(row.element.dataType) && IsWord(row.element.messageClass) && IsWord(row.reliable) && IsWord(row.e2e)
  }

  lemma CountPart(parts: seq<string>, k: nat, after: string, count: Option<nat>)
    requires k < |parts| && parts[k] == Shape(count)
    ensures ReadCount(From(parts, k, after)) == Some((count, From(parts, k + 1, after)))
  {
    hide ReadCount, Shape;
    Peel(parts, k, after);
    CountReadsBack(count, From(parts, k + 1, after));
  }

  lemma IdsPart(parts: seq<string>, k: nat, after: string, directory: seq<Row>, names: seq<string>)
    requires k + 1 < |parts| && parts[k] == Targets(directory, names) && parts[k + 1] != "" && parts[k + 1][0] == ']'
    ensures ReadIds(From(parts, k, after)) == (TargetIds(directory, names), From(parts, k + 1, after))
  {
    hide ReadIds, Targets, TargetIds;
    Peel(parts, k, after);
    Peel(parts, k + 1, after);
    IdsReadBack(directory, names, From(parts, k + 1, after));
  }

  lemma ElementPart(parts: seq<string>, after: string, element: Element)
    requires |parts| > 12 && IsWord(element.dataType) && IsWord(element.messageClass)
    requires parts[6] == ", element: MessageElement::" && parts[7] == Shape(element.count)
    requires parts[8] == "MessageDataType::" && parts[9] == element.dataType
    requires parts[10] == ", MessageClass::" && parts[11] == element.messageClass && parts[12] == "), endpoints: &["
    ensures ReadElementText(From(parts, 6, after)) == Some((element, From(parts, 12, after)))
  {
    hide Skip, ReadWord, ReadCount, IsWord, Shape, From;
    SkipPart(parts, 6, after);
    CountPart(parts, 7, after, element.count);
    SkipPart(parts, 8, after);
    WordPart(parts, 9, after);
    SkipPart(parts, 10, after);
    WordPart(parts, 11, after);
  }

  lemma DeliveryPart(parts: seq<string>, after: string, d: Delivery)
    requires |parts| == 21 && IsWord(d.reliable) && IsWord(d.e2e)
    requires parts[14] == "], reliable: ReliableMode::" && parts[15] == d.reliable
    requires parts[16] == ", priority: " && parts[17] == Decimal(d.priority)
    requires parts[18] == ", e2e_encryption: E2eEncryptionPolicy::" && parts[19] == d.e2e && parts[20] == " },\n"
    ensures ReadDelivery(From(parts, 14, after)) == Some((d, after))
  {
    hide Skip, ReadWord, ParseNumber, Decimal, IsWord;
    SkipPart(parts, 14, after);
    WordPart(parts, 15, after);
    SkipPart(parts, 16, after);
    NumberPart(parts, 17, after, d.priority);
    SkipPart(parts, 18, after);
    WordPart(parts, 19, after);
    SkipPart(parts, 20, after);
    PartsEnd(parts, after);
    hide From;
  }

  /** The parts of a type line, by position. */
  lemma TypePartsAt(row: Row, targets: string, quote: Quote)
    requires row.DataType?
    ensures var parts := TypeParts(row, targets, quote);
      && |parts| == 21
      && parts[0] == "    DataTypeDefinition { id: DataType(" && parts[1] == Decimal(row.id)
      && parts[2] == "), name: " && parts[3] == quote(row.name)
      && parts[4] == ", description: " && parts[5] == quote("")
      && parts[6] == ", element: MessageElement::" && parts[7] == Shape(row.element.count)
      && parts[8] == "MessageDataType::" && parts[9] == row.element.dataType
      && parts[10] == ", MessageClass::" && parts[11] == row.element.messageClass
      && parts[12] == "), endpoints: &[" && parts[13] == targets
      && parts[14] == "], reliable: ReliableMode::" && parts[15] == row.reliable
      && parts[16] == ", priority: " && parts[17] == Decimal(row.priority)
      && parts[18] == ", e2e_encryption: E2eEncryptionPolicy::" && parts[19] == row.e2e && parts[20] == " },\n"
  {
    hide Decimal, Shape;
  }

  lemma TypeReadsBack(row: Row, directory: seq<Row>, quote: Quote, unquote: Unquote, rest: string)
    requires row.DataType? && Spelled(row) && Inverts(unquote, quote)
    ensures ReadType(Line(row, directory, quote) + rest, unquote) == Some((DefinitionOf(row, directory), rest))
  {
    hide Skip, ReadHead, ReadElementText, ReadIds, ReadDelivery;
    hide Decimal, Inverts, Concat, Shape, Targets, TargetIds, IsWord;
    hide TypeParts;
    var parts := TypeParts(row, Targets(directory, row.targets), quote);
    TypePartsAt(row, Targets(directory, row.targets), quote);
    PartsStart(parts, rest);
    HeadPart(parts, rest, parts[0], row.id, row.name, quote, unquote);
    ElementPart(parts, rest, row.element);
    SkipPart(parts, 12, rest);
    IdsPart(parts, 13, rest, directory, row.targets);
    DeliveryPart(parts, rest, Delivery(row.reliable, row.priority, row.e2e));
    hide From;
  }

  // ---- a whole document ----

  /** `read` reads the line `row` prints as, whatever follows it. */
  ghost predicate Reads(read: string -> Parsed<Definition>, row: Row, directory: seq<Row>, quote: Quote) {
    && Line(row, directory, quote) != ""
    && forall more: string ::
      read(Line(row, directory, quote) + more) == Some((DefinitionOf(row, directory), more))
  }

  lemma {:induction false} FirstLine(rows: seq<Row>, directory: seq<Row>, quote: Quote)
    requires rows != []
    ensures Lines(rows, directory, quote) == Line(rows[0], directory, quote) + Lines(rows[1..], directory, quote)
  {
    hide Line;
    var init, last := rows[..|rows| - 1], rows[|rows| - 1];
    if |rows| > 1 {
      FirstLine(init, directory, quote);
      assert rows[1..][..|rows| - 2] == init[1..];
    }
  }

  lemma {:induction false} LinesReadBack(
      read: string -> Parsed<Definition>, rows: seq<Row>, directory: seq<Row>, quote: Quote, rest: string)
    requires forall r :: r in rows ==> Reads(read, r, directory, quote)
    requires read("];\n" + rest).None?
    ensures ReadLines(read, Lines(rows, directory, quote) + ("];\n" + rest))
         == Some((Definitions(rows, directory), rest))
  {
    hide Line, DefinitionOf;
    var closing := "];\n" + rest;
    if rows == [] {
      assert "" + closing == closing;
      assert closing[3..] == rest;
    } else {
      FirstLine(rows, directory, quote);
      hide Lines;
      var more := Lines(rows[1..], directory, quote) + closing;
      assert Reads(read, rows[0], directory, quote);
      assert Lines(rows, directory, quote) + closing == Line(rows[0], directory, quote) + more;
      LinesReadBack(read, rows[1..], directory, quote, rest);
    }
  }

  lemma TablesHaveHeadings()
    ensures BANNER == FIRST_LINE && ENDPOINT_TABLE == ENDPOINTS_ARE && TYPE_TABLE == TYPES_ARE
  {
  }

  lemma TableReadsBack(
      parts: seq<string>, k: nat, read: string -> Parsed<Definition>, rows: seq<Row>, directory: seq<Row>, quote: Quote)
    requires k + 4 <= |parts| && parts[k + 1] == "\n" && parts[k + 2] == Lines(rows, directory, quote)
    requires parts[k + 3] == "];\n"
    requires forall r :: r in rows ==> Reads(read, r, directory, quote)
    requires read("];\n" + From(parts, k + 4, "")).None?
    ensures ReadTable(parts[k], read, From(parts, k, ""))
         == Some((Definitions(rows, directory), From(parts, k + 4, "")))
  {
    hide Skip, Reads, Lines, Definitions, From;
    SkipPart(parts, k, "");
    SkipPart(parts, k + 1, "");
    Peel(parts, k + 2, "");
    Peel(parts, k + 3, "");
    LinesReadBack(read, rows, directory, quote, From(parts, k + 4, ""));
  }

  lemma NotEmpty(parts: seq<string>)
    requires parts != [] && parts[0] != ""
    ensures Concat(parts) != ""
  {
  }

  lemma ClosingIsNoLine(rest: string, unquote: Unquote)
    ensures EndpointReader(unquote)("];\n" + rest).None? && TypeReader(unquote)("];\n" + rest).None?
  {
    hide Skip, ParseNumber;
    Mismatch("];\n" + rest, "    EndpointDefinition { id: DataEndpoint(");
    Mismatch("];\n" + rest, "    DataTypeDefinition { id: DataType(");
  }

  lemma EndpointLineRead(row: Row, quote: Quote, unquote: Unquote)
    requires row.Endpoint? && Inverts(unquote, quote)
    ensures Reads(EndpointReader(unquote), row, [], quote)
  {
    NotEmpty(EndpointParts(row, quote));
    forall more: string
      ensures ReadEndpoint(Line(row, [], quote) + more, unquote) == Some((DefinitionOf(row, []), more))
    {
      hide Line, ReadEndpoint;
      EndpointReadsBack(row, [], quote, unquote, more);
    }
    hide ReadEndpoint, Concat;
  }

  lemma TypeLineRead(row: Row, directory: seq<Row>, quote: Quote, unquote: Unquote)
    requires row.DataType? && Spelled(row) && Inverts(unquote, quote)
    ensures Reads(TypeReader(unquote), row, directory, quote)
  {
    NotEmpty(TypeParts(row, Targets(directory, row.targets), quote));
    forall more: string
      ensures ReadType(Line(row, directory, quote) + more, unquote) == Some((DefinitionOf(row, directory), more))
    {
      hide Line, ReadType;
      TypeReadsBack(row, directory, quote, unquote, more);
    }
    hide ReadType, Concat;
  }

  /** Reading the printed tables gives back every row, in order. */
  lemma DocumentReadsBack(endpoints: seq<Row>, types: seq<Row>, quote: Quote, unquote: Unquote)
    requires Inverts(unquote, quote)
    requires forall r :: r in endpoints ==> r.Endpoint?
    requires forall r :: r in types ==> r.DataType? && Spelled(r)
    ensures ReadDocument(Document(endpoints, types, quote), unquote)
         == Some((Definitions(endpoints, []), Definitions(types, endpoints)))
  {
    hide Skip, Reads, Lines, Definitions, ReadTable, ReadEndpoint, ReadType, Concat, Spelled;
    var readEndpoint, readType := EndpointReader(unquote), TypeReader(unquote);
    forall r | r in endpoints ensures Reads(readEndpoint, r, [], quote) {
      EndpointLineRead(r, quote, unquote);
    }
    forall r | r in types ensures Reads(readType, r, endpoints, quote) {
      TypeLineRead(r, endpoints, quote, unquote);
    }
    TablesHaveHeadings();
    var parts := [BANNER, ENDPOINT_TABLE, "\n", Lines(endpoints, [], quote), "];\n",
                  TYPE_TABLE, "\n", Lines(types, endpoints, quote), "];\n"];
    PartsStart(parts, "");
    assert Concat(parts) + "" == Concat(parts);
    SkipPart(parts, 0, "");
    ClosingIsNoLine(From(parts, 5, ""), unquote);
    ClosingIsNoLine(From(parts, 9, ""), unquote);
    hide EndpointReader, TypeReader, From;
    TableReadsBack(parts, 1, readEndpoint, endpoints, [], quote);
    TableReadsBack(parts, 5, readType, types, endpoints, quote);
    PartsEnd(parts, "");
  }

  lemma EmptyTable(parts: seq<string>, k: nat, read: string -> Parsed<Definition>)
    requires k + 2 <= |parts| && parts[k + 1] == "];\n" && read("];\n" + From(parts, k + 2, "")).None?
    ensures ReadTable(parts[k], read, From(parts, k, "")) == Some(([], From(parts, k + 2, "")))
  {
    hide From, Skip;
    SkipPart(parts, k, "");
    SkipPart(parts, k + 1, "");
    Peel(parts, k + 1, "");
    Mismatch(From(parts, k + 1, ""), "\n");
  }

  /** A build without a schema has two empty tables. */
  lemma EmptyTablesReadBack(unquote: Unquote)
    ensures ReadDocument(EMPTY_TABLES, unquote) == Some(([], []))
  {
    hide Skip, ReadTable, Concat;
    TablesHaveHeadings();
    var parts := [BANNER, ENDPOINT_TABLE, "];\n", TYPE_TABLE, "];\n"];
    PartsStart(parts, "");
    assert Concat(parts) + "" == Concat(parts);
    SkipPart(parts, 0, "");
    ClosingIsNoLine(From(parts, 3, ""), unquote);
    ClosingIsNoLine(From(parts, 5, ""), unquote);
    hide EndpointReader, TypeReader;
    EmptyTable(parts, 1, EndpointReader(unquote));
    EmptyTable(parts, 3, TypeReader(unquote));
    PartsEnd(parts, "");
  }
}
