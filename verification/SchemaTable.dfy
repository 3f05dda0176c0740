/** The build-time generator of the embedded schema tables (build.rs): entries
    are sorted by identity, checked against each other through hash maps, and
    printed. The sort is unstable and its result is used as any sorted
    permutation. */
module SchemaTable {
  import opened Prelude
  import opened Numerals
  import SchemaIdentity
  import ProtocolNames
  import Utf8

  /** A parsed JSON value; a number is kept only as far as `as_u64` shows it. */
  datatype Value = Null | Bool(flag: bool) | Number(exact: Option<u64>) | Str(text: string)
                 | Arr(items: seq<Value>) | Obj(fields: map<string, Value>)

  function Field(v: Value, key: string): Value {
    if v.Obj? && key in v.fields then v.fields[key] else Null
  }

  function AsStr(v: Value): Option<string> { if v.Str? then Some(v.text) else None }

  function AsU64(v: Value): Option<u64> { if v.Number? then v.exact else None }

  function AsArray(v: Value): Option<seq<Value>> { if v.Arr? then Some(v.items) else None }

  function Or<T>(o: Option<T>, default: T): T { if o.Some? then o.value else default }

  function NameBytes(name: string): SchemaIdentity.Name {
    var b := Utf8.Encode(name);
    seq(|b|, i requires 0 <= i < |b| => b[i] as bv8)
  }

  lemma IdentitiesAreNatural(endpoint: bool, name: SchemaIdentity.Name, explicit: Option<u32>)
    ensures var r := SchemaIdentity.DispatchResolve(ProtocolNames.Table(endpoint), name, explicit);
            r.Id? ==> r.value >= 0
    ensures SchemaIdentity.DispatchDefault(ProtocolNames.Table(endpoint), name) >= 0
  {
    var ns := ProtocolNames.Table(endpoint);
    hide ProtocolNames.Table;
    SchemaIdentity.GeneratedRange(name, ns.tag);
    hide SchemaIdentity.Generated;
  }

  /** The identity of an entry, where it has one. */
  function SchemaId(v: Value, endpoint: bool): Option<nat> {
    var id := Field(v, "id");
    if !Field(v, "name").Str? || !(id.Null? || (AsU64(id).Some? && AsU64(id).value <= 0xFFFF_FFFF)) then None
    else
      var explicit: Option<u32> := if id.Null? then None else Some(AsU64(id).value);
      var name := NameBytes(Field(v, "name").text);
      IdentitiesAreNatural(endpoint, name, explicit);
      match SchemaIdentity.DispatchResolve(ProtocolNames.Table(endpoint), name, explicit)
      case Id(value) => Some(value)
      case Rejected => None
  }

  // ---- rows ----

  /** An entry as the loops read it; the words of a type are variant names. */
  datatype Row = Endpoint(id: nat, name: string, rust: string, linkLocal: bool)
               | DataType(id: nat, name: string, element: Element, targets: seq<string>,
                          reliable: string, priority: nat, e2e: string)

  /** A fixed number of values, or any number, of one type. */
  datatype Element = Element(count: Option<nat>, dataType: string, messageClass: string)

  const DATA_TYPES := {"Float64", "Float32", "UInt8", "UInt16", "UInt32", "UInt64", "UInt128", "Int8", "Int16",
                       "Int32", "Int64", "Int128", "Bool", "String", "Binary", "NoData"}

  function Reliability(s: string): Option<string> {
    if s == "Off" then Some("None")
    else if s in {"Ordered", "Unordered"} then Some(s)
    else None
  }

  function Encryption(s: string): Option<string> {
    if s in {"PreferOff", "prefer_off", "off", "false"} then Some("PreferOff")
    else if s in {"PreferOn", "prefer_on", "preferred", "true"} then Some("PreferOn")
    else if s in {"RequireOn", "require_on", "required"} then Some("RequireOn")
    else None
  }

  function ReadElement(element: Value, messageClass: Value): Option<Element> {
    var dataType, kind := Field(element, "data_type"), Field(element, "kind");
    if !(messageClass.Str? && messageClass.text in {"Data", "Error", "Warning"}) then None
    else if !(dataType.Str? && dataType.text in DATA_TYPES) then None
    else if kind == Str("Static") then
      Some(Element(Some(Or(AsU64(Field(element, "count")), 1)), dataType.text, messageClass.text))
    else if kind == Str("Dynamic") then Some(Element(None, dataType.text, messageClass.text))
    else None
  }

  function Strings(items: seq<Value>): Option<seq<string>> {
    if items == [] then Some([])
    else if !items[0].Str? || Strings(items[1..]).None? then None
    else Some([items[0].text] + Strings(items[1..]).value)
  }

  function ReadEndpoint(v: Value, id: nat, name: string): Row {
    Endpoint(id, name, Or(AsStr(Field(v, "rust")), name),
             Field(v, "link_local_only") == Bool(true) || Field(v, "broadcast_mode") == Str("Never"))
  }

  function ReadDataType(v: Value, id: nat, name: string): Option<Row> {
    var element := ReadElement(Field(v, "element"), Field(v, "class"));
    var reliable := if Field(v, "reliable").Str? then Reliability(Field(v, "reliable").text) else None;
    var e2e := Encryption(Or(AsStr(Field(v, "e2e_encryption")), "PreferOff"));
    var targets := if Field(v, "endpoints").Arr? then Strings(Field(v, "endpoints").items) else None;
    if element.None? || (v.Obj? && "reliable_mode" in v.fields) || reliable.None? || e2e.None? || targets.None?
    then None
    else Some(DataType(id, name, element.value, targets.value, reliable.value,
                       Or(AsU64(Field(v, "priority")), 0), e2e.value))
  }

  /** Everything a loop iteration reads of its entry; None is a refusal. */
  function ReadRow(v: Value, endpoint: bool): (r: Option<Row>)
    ensures r.Some? ==> SchemaId(v, endpoint) == Some(r.value.id) && r.value.Endpoint? == endpoint
  {
    match SchemaId(v, endpoint)
    case None => None
    case Some(id) =>
      match AsStr(Field(v, "name"))
      case None => None
      case Some(name) => if endpoint then Some(ReadEndpoint(v, id, name)) else ReadDataType(v, id, name)
  }

  /** How a loop reads its entries: the sort key, and the row. */
  datatype Reader = Reader(key: Value -> Option<nat>, row: Value -> Option<Row>)

  function ReaderOf(endpoint: bool): Reader {
    Reader(v => SchemaId(v, endpoint), v => ReadRow(v, endpoint))
  }

  /** The rows of a list of entries, or None if any entry is refused. */
  function Rows(values: seq<Value>, reader: Reader): Option<seq<Row>> {
    if values == [] then Some([])
    else
      var init, last := Rows(values[..|values| - 1], reader), reader.row(values[|values| - 1]);
      if init.None? || last.None? then None else Some(init.value + [last.value])
  }

  /** The names an entry may be referred to by. */
  function Aliases(r: Row): set<string> {
    if r.Endpoint? then {r.rust, r.name} else {r.name}
  }

  predicate Separate(a: Row, b: Row) {
    a.id != b.id && Aliases(a) !! Aliases(b)
  }

  /** No two rows share an identity, a name or an alias. */
  predicate Apart(rows: seq<Row>) {
    forall i, j :: 0 <= i < j < |rows| ==> Separate(rows[i], rows[j])
  }

  predicate Ascending(rows: seq<Row>) {
    forall i, j :: 0 <= i < j < |rows| ==> rows[i].id < rows[j].id
  }

  /** Sorted by identity, where every entry has one. */
  predicate Sorted(values: seq<Value>, reader: Reader) {
    && (forall i :: 0 <= i < |values| ==> reader.key(values[i]).Some?)
    && (forall i, j :: 0 <= i < j < |values| ==> reader.key(values[i]).value <= reader.key(values[j]).value)
  }

  // ---- the printed text ----

  type Quote = string -> string

  function Shown(b: bool): string { if b then "true" else "false" }

  /** The identity a target name stands for: a configured endpoint's, or the
      default of the name. */
  function Target(directory: seq<Row>, name: string): nat {
    match Lookup(directory, name)
    case Some(id) => id
    case None =>
      IdentitiesAreNatural(true, NameBytes(name), None);
      SchemaIdentity.DispatchDefault(ProtocolNames.Table(true), NameBytes(name))
  }

  function Lookup(directory: seq<Row>, name: string): Option<nat> {
    if directory == [] then None
    else if name in Aliases(directory[0]) then Some(directory[0].id)
    else Lookup(directory[1..], name)
  }

  function TargetText(directory: seq<Row>, name: string): string {
    "DataEndpoint(" + Decimal(Target(directory, name)) + ")"
  }

  function Targets(directory: seq<Row>, names: seq<string>): string {
    if names == [] then ""
    else if |names| == 1 then TargetText(directory, names[0])
    else Targets(directory, names[..|names| - 1]) + ", " + TargetText(directory, names[|names| - 1])
  }

  function Concat(parts: seq<string>): string {
    if parts == [] then "" else parts[0] + Concat(parts[1..])
  }

  function Line(row: Row, directory: seq<Row>, quote: Quote): string {
    if row.Endpoint? then Concat(EndpointParts(row, quote))
    else Concat(TypeParts(row, Targets(directory, row.targets), quote))
  }

  function EndpointParts(row: Row, quote: Quote): seq<string>
    requires row.Endpoint?
  {
    ["    EndpointDefinition { id: DataEndpoint(", Decimal(row.id), "), name: ", quote(row.name),
     ", description: ", quote(""), ", link_local_only: ", Shown(row.linkLocal), " },\n"]
  }

  function Shape(count: Option<nat>): string {
    if count.Some? then "Static(" + Decimal(count.value) + ", " else "Dynamic("
  }

  function TypeParts(row: Row, targets: string, quote: Quote): seq<string>
    requires row.DataType?
  {
    ["    DataTypeDefinition { id: DataType(", Decimal(row.id), "), name: ", quote(row.name),
     ", description: ", quote(""), ", element: MessageElement::", Shape(row.element.count),
     "MessageDataType::", row.element.dataType, ", MessageClass::", row.element.messageClass,
     "), endpoints: &[", targets, "], reliable: ReliableMode::", row.reliable, ", priority: ", Decimal(row.priority),
     ", e2e_encryption: E2eEncryptionPolicy::", row.e2e, " },\n"]
  }

  function Lines(rows: seq<Row>, directory: seq<Row>, quote: Quote): string {
    if rows == [] then ""
    else Lines(rows[..|rows| - 1], directory, quote) + Line(rows[|rows| - 1], directory, quote)
  }

  const BANNER := "// Generated by build.rs. Static metadata stays in flash on no_std targets.\n"
  const ENDPOINT_TABLE := "const EMBEDDED_SCHEMA_ENDPOINTS: &[EndpointDefinition] = &["
  const TYPE_TABLE := "const EMBEDDED_SCHEMA_TYPES: &[DataTypeDefinition] = &["

  /** What the generator writes when its sorts leave the entries in this order. */
  function Emitted(endpoints: seq<Value>, types: seq<Value>, quote: Quote): Option<string> {
    var read, rows := Rows(endpoints, ReaderOf(true)), Rows(types, ReaderOf(false));
    if read.None? || rows.None? || !Apart(read.value) || !Apart(rows.value) then None
    else Some(Document(read.value, rows.value, quote))
  }

  /** The text for a build without a schema. */
  const EMPTY_TABLES := Concat([BANNER, ENDPOINT_TABLE, "];\n", TYPE_TABLE, "];\n"])

  function Document(endpoints: seq<Row>, types: seq<Row>, quote: Quote): string {
    Concat([BANNER, ENDPOINT_TABLE, "\n", Lines(endpoints, [], quote), "];\n",
            TYPE_TABLE, "\n", Lines(types, endpoints, quote), "];\n"])
  }
}
