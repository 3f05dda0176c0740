/** JSON trees, their canonical text, and an independent parser. The parser
    accepts a sub-grammar of RFC 8259 (no insignificant white space, unsigned
    integers only, no surrogate pairs), so whatever it accepts is JSON. */
module Json {
  import opened Prelude
  import opened Numerals

  /** A character that stands for itself inside a string literal. */
  predicate Plain(c: char) { ' ' <= c < 0x7F as char && c != '"' && c != '\\' }

  /** Member names, which are printed without escaping. */
  type Key = s: string | forall i :: 0 <= i < |s| ==> Plain(s[i])

  datatype Tree = Null | Bool(flag: bool) | Num(n: nat) | Str(s: string) | Arr(items: Items) | Obj(members: Members)

  /** Array elements and object members in printing order, the last one outermost. */
  datatype Items = NoItems | Item(init: Items, last: Tree)
  datatype Members = NoMembers | Member(init: Members, key: Key, value: Tree)

  // ---- canonical text ----

  /** `is_control`: general category Cc. */
  predicate IsControl(c: char) { c as int < 0x20 || 0x7F <= c as int < 0xA0 }

  function HexDigit(d: nat): (c: char)
    requires d < 16
    ensures HexValue(c) == Some(d)
  {
    if d < 10 then Digit(d) else ('a' as int + (d - 10)) as char
  }

  function HexValue(c: char): (v: Option<nat>)
    ensures v.Some? ==> v.value < 16
  {
    if '0' <= c <= '9' then Some(c as int - '0' as int)
    else if 'a' <= c <= 'f' then Some(c as int - 'a' as int + 10)
    else if 'A' <= c <= 'F' then Some(c as int - 'A' as int + 10)
    else None
  }

  function Escape(c: char): string {
    if c == '"' then ['\\', '"']
    else if c == '\\' then ['\\', '\\']
    else if c == '\n' then ['\\', 'n']
    else if c == '\r' then ['\\', 'r']
    else if c == '\t' then ['\\', 't']
    else if IsControl(c) then ['\\', 'u', '0', '0', HexDigit(c as int / 16), HexDigit(c as int % 16)]
    else [c]
  }

  function Escaped(s: string): string {
    if s == [] then [] else Escaped(s[..|s| - 1]) + Escape(s[|s| - 1])
  }

  function Quoted(s: string): string { ['"'] + Escaped(s) + ['"'] }

  function KeyText(k: Key): string { ['"'] + k + ['"', ':'] }

  function Text(t: Tree): string {
    match t
    case Null => "null"
    case Bool(b) => if b then "true" else "false"
    case Num(n) => Decimal(n)
    case Str(s) => Quoted(s)
    case Arr(items) => ['['] + ItemsText(items) + [']']
    case Obj(members) => ['{'] + MembersText(members) + ['}']
  }

  function ItemsText(items: Items): string {
    match items
    case NoItems => ""
    case Item(init, last) => ItemsText(init) + (if init.NoItems? then "" else ",") + Text(last)
  }

  function MembersText(members: Members): string {
    match members
    case NoMembers => ""
    case Member(init, key, value) =>
      MembersText(init) + (if init.NoMembers? then "" else ",") + KeyText(key) + Text(value)
  }

  // ---- parsing ----

  /** The character an escape letter stands for. */
  function Unescape(c: char): Option<char> {
    match c
    case '"' => Some('"')
    case '\\' => Some('\\')
    case '/' => Some('/')
    case 'b' => Some(8 as char)
    case 'f' => Some(12 as char)
    case 'n' => Some('\n')
    case 'r' => Some('\r')
    case 't' => Some('\t')
    case _ => None
  }

  function CodePoint(s: string): Option<char>
    requires |s| == 4
  {
    var a, b, c, d := HexValue(s[0]), HexValue(s[1]), HexValue(s[2]), HexValue(s[3]);
    if a.None? || b.None? || c.None? || d.None? then None
    else
      var n := a.value * 0x1000 + b.value * 0x100 + c.value * 0x10 + d.value;
      if 0xD800 <= n < 0xE000 then None else Some(n as char)
  }

  /** The rest of a string literal whose decoded beginning is `acc`. */
  function ParseChars(acc: string, s: string): (r: Parsed<string>)
    ensures r.Some? ==> |r.value.1| < |s|
    decreases |s|
  {
    if s == [] || s[0] < ' ' then None
    else if s[0] == '"' then Some((acc, s[1..]))
    else if s[0] != '\\' then ParseChars(acc + [s[0]], s[1..])
    else if |s| >= 6 && s[1] == 'u' then
      (match CodePoint(s[2..6])
       case Some(c) => ParseChars(acc + [c], s[6..])
       case None => None)
    else if |s| >= 2 then
      (match Unescape(s[1])
       case Some(c) => ParseChars(acc + [c], s[2..])
       case None => None)
    else None
  }

  predicate Starts(s: string, c: char) { |s| > 0 && s[0] == c }

  function ParseTree(s: string): (r: Parsed<Tree>)
    ensures r.Some? ==> |r.value.1| < |s|
    decreases |s|, 1
  {
    if |s| == 0 then None
    else match s[0]
      case '"' =>
        (match ParseChars([], s[1..])
         case Some((text, rest)) => Some((Str(text), rest))
         case None => None)
      case '[' =>
        if Starts(s[1..], ']') then Some((Arr(NoItems), s[2..]))
        else
          (match ParseItems(NoItems, s[1..])
           case Some((items, rest)) => Some((Arr(items), rest))
           case None => None)
      case '{' =>
        if Starts(s[1..], '}') then Some((Obj(NoMembers), s[2..]))
        else
          (match ParseMembers(NoMembers, s[1..])
           case Some((members, rest)) => Some((Obj(members), rest))
           case None => None)
      case _ =>
        if "null" <= s then Some((Null, s[4..]))
        else if "true" <= s then Some((Bool(true), s[4..]))
        else if "false" <= s then Some((Bool(false), s[5..]))
        else
          (match ParseNumber(s)
           case Some((n, rest)) => Some((Num(n), rest))
           case None => None)
  }

  /** One or more further elements, then the closing bracket. */
  function ParseItems(acc: Items, s: string): (r: Parsed<Items>)
    ensures r.Some? ==> |r.value.1| < |s|
    decreases |s|, 3
  {
    match ParseTree(s)
    case None => None
    case Some((t, rest)) => AfterItem(Item(acc, t), rest)
  }

  function AfterItem(acc: Items, s: string): (r: Parsed<Items>)
    ensures r.Some? ==> |r.value.1| < |s|
    decreases |s|, 2
  {
    if Starts(s, ',') then ParseItems(acc, s[1..])
    else if Starts(s, ']') then Some((acc, s[1..]))
    else None
  }

  function ParseMembers(acc: Members, s: string): (r: Parsed<Members>)
    ensures r.Some? ==> |r.value.1| < |s|
    decreases |s|, 3
  {
    if !Starts(s, '"') then None
    else match ParseChars([], s[1..])
      case None => None
      case Some((key, rest)) =>
        if !Starts(rest, ':') || exists i :: 0 <= i < |key| && !Plain(key[i]) then None
        else match ParseTree(rest[1..])
          case None => None
          case Some((value, more)) => AfterMember(Member(acc, key, value), more)
  }

  function AfterMember(acc: Members, s: string): (r: Parsed<Members>)
    ensures r.Some? ==> |r.value.1| < |s|
    decreases |s|, 2
  {
    if Starts(s, ',') then ParseMembers(acc, s[1..])
    else if Starts(s, '}') then Some((acc, s[1..]))
    else None
  }

  // ---- reading a parsed document ----

  /** The document that is all of `text`. */
  function Document(text: string): Option<Tree> {
    match ParseTree(text)
    case Some((t, rest)) => if rest == "" then Some(t) else None
    case None => None
  }

  /** The members of an object by name. */
  function Fields(t: Tree): map<string, Tree> { if t.Obj? then FieldsOf(t.members) else map[] }

  function FieldsOf(members: Members): map<string, Tree> {
    match members
    case NoMembers => map[]
    case Member(init, key, value) => FieldsOf(init)[key := value]
  }

  /** The elements of an array. */
  function Elements(t: Tree): seq<Tree> { if t.Arr? then ElementsOf(t.items) else [] }

  function ElementsOf(items: Items): seq<Tree> {
    match items
    case NoItems => []
    case Item(init, last) => ElementsOf(init) + [last]
  }

  lemma FieldsGrow()
    ensures FieldsOf(NoMembers) == map[]
    ensures forall init, key, value :: FieldsOf(Member(init, key, value)) == FieldsOf(init)[key := value]
  {
  }
}
