/** The pushing helpers of the snapshot printers in src/c_api.rs: each appends
    to the text so far, and each is specified by the tree it prints. */
module JsonPrinting {
  import opened Prelude
  import opened Numerals
  import opened Json

  /** `json_push_escaped`. */
  method PushEscaped(out: string, s: string) returns (r: string)
    ensures r == out + Quoted(s)
  {
    hide Escape;
    r := out + ['"'];
    for i := 0 to |s|
      invariant r == out + ['"'] + Escaped(s[..i])
    {
      var piece := EscapeChar(s[i]);
      r := r + piece;
      assert s[..i + 1][..i] == s[..i];
    }
    r := r + ['"'];
    assert s[..|s|] == s;
  }

  method EscapeChar(ch: char) returns (piece: string)
    ensures piece == Escape(ch)
  {
    match ch {
      case '"' => piece := ['\\', '"'];
      case '\\' => piece := ['\\', '\\'];
      case '\n' => piece := ['\\', 'n'];
      case '\r' => piece := ['\\', 'r'];
      case '\t' => piece := ['\\', 't'];
      case _ =>
        if IsControl(ch) {
          piece := ['\\', 'u', '0', '0', HexDigit(ch as int / 16), HexDigit(ch as int % 16)];
        } else {
          piece := [ch];
        }
    }
  }

  // ---- where a printer stands ----

  // Each helper below appends a literal piece, written at the call as the
  // source writes it around the member's name, or a value; what it requires
  // of the piece is the punctuation that the position needs.

  /** The text of an object opened after `base` and holding `ms` so far. */
  ghost function Opened(base: string, ms: Members): string { base + "{" + MembersText(ms) }

  /** The same with the name of its next member printed. */
  ghost function Awaiting(base: string, ms: Members, key: Key): string {
    Opened(base, ms) + (if ms.NoMembers? then "" else ",") + KeyText(key)
  }

  /** What must come before the name of the next member. */
  ghost function Lead(ms: Members): string { if ms.NoMembers? then "\"" else ",\"" }

  lemma Filled(base: string, ms: Members, key: Key, value: Tree)
    ensures Awaiting(base, ms, key) + Text(value) == Opened(base, Member(ms, key, value))
  {
    hide Text, KeyText;
  }

  lemma KeyPushed(base: string, ms: Members, key: Key)
    ensures Opened(base, ms) + (Lead(ms) + key + "\":") == Awaiting(base, ms, key)
  {
  }

  method OpenObject(out: string, piece: string) returns (r: string)
    requires piece == "{"
    ensures r == Opened(out, NoMembers)
  {
    r := out + piece;
  }

  method CloseObject(out: string, piece: string, ghost base: string, ghost ms: Members) returns (r: string)
    requires out == Opened(base, ms) && piece == "}"
    ensures r == base + Text(Obj(ms))
  {
    hide Opened, Text;
    ObjectCloses(base, ms);
    r := out + piece;
  }

  lemma ObjectCloses(base: string, ms: Members)
    ensures Opened(base, ms) + "}" == base + Text(Obj(ms))
  {
    hide MembersText;
  }

  method PushKey(out: string, piece: string, key: Key, ghost base: string, ghost ms: Members) returns (r: string)
    requires out == Opened(base, ms) && piece == Lead(ms) + key + "\":"
    ensures r == Awaiting(base, ms, key)
  {
    r := out + piece;
  }

  /** A piece that ends by opening an object. */
  method PushKeyObject(out: string, piece: string, key: Key, ghost base: string, ghost ms: Members)
    returns (r: string)
    requires out == Opened(base, ms) && piece == Lead(ms) + key + "\":{"
    ensures r == Opened(Awaiting(base, ms, key), NoMembers)
  {
    r := out + piece;
  }

  method EndObject(
      out: string, piece: string, ghost key: Key, ghost inner: Members, ghost base: string, ghost ms: Members)
    returns (r: string, ghost now: Members)
    requires out == Opened(Awaiting(base, ms, key), inner) && piece == "}"
    ensures now == Member(ms, key, Obj(inner))
    ensures r == Opened(base, Member(ms, key, Obj(inner)))
  {
    hide Opened, Awaiting, Text;
    ObjectCloses(Awaiting(base, ms, key), inner);
    Filled(base, ms, key, Obj(inner));
    r := out + piece;
    now := Member(ms, key, Obj(inner));
  }

  method NumField(out: string, piece: string, key: Key, n: nat, ghost base: string, ghost ms: Members)
    returns (r: string, ghost now: Members)
    requires out == Opened(base, ms) && piece == Lead(ms) + key + "\":"
    ensures now == Member(ms, key, Num(n))
    ensures r == Opened(base, Member(ms, key, Num(n)))
  {
    hide Opened, Awaiting, Decimal;
    r := PushKey(out, piece, key, base, ms);
    Filled(base, ms, key, Num(n));
    r := r + Decimal(n);
    now := Member(ms, key, Num(n));
  }

  method BoolField(out: string, piece: string, key: Key, b: bool, ghost base: string, ghost ms: Members)
    returns (r: string, ghost now: Members)
    requires out == Opened(base, ms) && piece == Lead(ms) + key + "\":"
    ensures now == Member(ms, key, Bool(b))
    ensures r == Opened(base, Member(ms, key, Bool(b)))
  {
    hide Opened, Awaiting;
    r := PushKey(out, piece, key, base, ms);
    Filled(base, ms, key, Bool(b));
    r := r + (if b then "true" else "false");
    now := Member(ms, key, Bool(b));
  }

  method StrField(out: string, piece: string, key: Key, s: string, ghost base: string, ghost ms: Members)
    returns (r: string, ghost now: Members)
    requires out == Opened(base, ms) && piece == Lead(ms) + key + "\":"
    ensures now == Member(ms, key, Str(s))
    ensures r == Opened(base, Member(ms, key, Str(s)))
  {
    hide Opened, Awaiting, Quoted;
    r := PushKey(out, piece, key, base, ms);
    Filled(base, ms, key, Str(s));
    r := PushEscaped(r, s);
    now := Member(ms, key, Str(s));
  }

  function OptionTree(o: Option<nat>): Tree { if o.Some? then Num(o.value) else Null }

  method OptionField(out: string, piece: string, key: Key, o: Option<nat>, ghost base: string, ghost ms: Members)
    returns (r: string, ghost now: Members)
    requires out == Opened(base, ms) && piece == Lead(ms) + key + "\":"
    ensures now == Member(ms, key, OptionTree(o))
    ensures r == Opened(base, Member(ms, key, OptionTree(o)))
  {
    hide Opened, Awaiting, Decimal;
    r := PushKey(out, piece, key, base, ms);
    Filled(base, ms, key, OptionTree(o));
    match o {
      case Some(v) => r := r + Decimal(v);
      case None => r := r + "null";
    }
    now := Member(ms, key, OptionTree(o));
  }

  // ---- arrays ----

  /** The elements `f(s[0])`, `f(s[1])`, ... of an array. */
  function Listed<T>(f: T -> Tree, s: seq<T>): Items {
    if s == [] then NoItems else Item(Listed(f, s[..|s| - 1]), f(s[|s| - 1]))
  }

  function Array<T>(f: T -> Tree, s: seq<T>): Tree { Arr(Listed(f, s)) }

  /** The text of an array opened after `base` and holding the first `i` elements. */
  ghost function Listing<T>(base: string, f: T -> Tree, s: seq<T>, i: nat): string
    requires i <= |s|
  {
    base + "[" + ItemsText(Listed(f, s[..i]))
  }

  lemma ListingStep<T>(base: string, f: T -> Tree, s: seq<T>, i: nat)
    requires i < |s|
    ensures Listing(base, f, s, i + 1) == Listing(base, f, s, i) + (if i == 0 then "" else ",") + Text(f(s[i]))
  {
    hide Text;
    assert s[..i + 1][..i] == s[..i];
  }

  lemma ListingEnds<T>(base: string, f: T -> Tree, s: seq<T>)
    ensures Listing(base, f, s, |s|) + "]" == base + Text(Array(f, s))
  {
    assert s[..|s|] == s;
  }

  /** A bracket pushed on its own. */
  method Bracket<T>(out: string, ghost f: T -> Tree, ghost s: seq<T>) returns (r: string)
    ensures r == Listing(out, f, s, 0)
  {
    r := out + "[";
  }

  /** A piece that ends by opening an array. */
  method PushKeyArray<T>(
      out: string, piece: string, key: Key, ghost f: T -> Tree, ghost s: seq<T>, ghost base: string, ghost ms: Members)
    returns (r: string)
    requires out == Opened(base, ms) && piece == Lead(ms) + key + "\":["
    ensures r == Listing(Awaiting(base, ms, key), f, s, 0)
  {
    r := out + piece;
  }

  method EndArray<T>(
      out: string, piece: string, ghost key: Key, ghost f: T -> Tree, ghost s: seq<T>, ghost base: string,
      ghost ms: Members)
    returns (r: string, ghost now: Members)
    requires out == Listing(Awaiting(base, ms, key), f, s, |s|) && piece == "]"
    ensures now == Member(ms, key, Array(f, s))
    ensures r == Opened(base, Member(ms, key, Array(f, s)))
  {
    hide Opened, Awaiting, Listing, Text;
    r := out + piece;
    ListingEnds(Awaiting(base, ms, key), f, s);
    Filled(base, ms, key, Array(f, s));
    now := Member(ms, key, Array(f, s));
  }

  /** A piece that closes an array and names the number after it. */
  method EndArrayNum<T>(
      out: string, piece: string, ghost key: Key, ghost f: T -> Tree, ghost s: seq<T>, next: Key, n: nat,
      ghost base: string, ghost ms: Members)
    returns (r: string, ghost now: Members)
    requires out == Listing(Awaiting(base, ms, key), f, s, |s|) && piece == "],\"" + next + "\":"
    ensures now == Member(Member(ms, key, Array(f, s)), next, Num(n))
    ensures r == Opened(base, Member(Member(ms, key, Array(f, s)), next, Num(n)))
  {
    hide Opened, Awaiting, Listing, MembersText, Decimal;
    ghost var listed := Member(ms, key, Array(f, s));
    ListingEnds(Awaiting(base, ms, key), f, s);
    Filled(base, ms, key, Array(f, s));
    KeyPushed(base, listed, next);
    Filled(base, listed, next, Num(n));
    r := out + piece + Decimal(n);
    EndThenName(out, piece, next);
    now := Member(listed, next, Num(n));
  }

  lemma EndThenName(out: string, piece: string, next: Key)
    requires piece == "],\"" + next + "\":"
    ensures out + piece == out + "]" + (",\"" + next + "\":")
  {
  }

  function NumTree(n: nat): Tree { Num(n) }

  function StrTree(s: string): Tree { Str(s) }

  /** The numbers of an array that is open. */
  method PushNumberItems(out: string, vals: seq<nat>, ghost base: string) returns (r: string)
    requires out == Listing(base, NumTree, vals, 0)
    ensures r == Listing(base, NumTree, vals, |vals|)
  {
    hide Listing;
    r := out;
    for i := 0 to |vals|
      invariant r == Listing(base, NumTree, vals, i)
    {
      ListingStep(base, NumTree, vals, i);
      if i != 0 {
        r := r + ",";
      }
      r := r + Decimal(vals[i]);
    }
  }

  method PushNumbers(out: string, vals: seq<nat>) returns (r: string)
    ensures r == out + Text(Array(NumTree, vals))
  {
    hide Listing;
    r := Bracket(out, NumTree, vals);
    r := PushNumberItems(r, vals, out);
    ListingEnds(out, NumTree, vals);
    r := r + "]";
  }

  method PushStrings(out: string, vals: seq<string>) returns (r: string)
    ensures r == out + Text(Array(StrTree, vals))
  {
    hide Listing;
    r := Bracket(out, StrTree, vals);
    for i := 0 to |vals|
      invariant r == Listing(out, StrTree, vals, i)
    {
      ListingStep(out, StrTree, vals, i);
      if i != 0 {
        r := r + ",";
      }
      r := PushEscaped(r, vals[i]);
    }
    ListingEnds(out, StrTree, vals);
    r := r + "]";
  }

  // ---- endpoint names ----

  type Names = map<nat, string>

  function EndpointName(names: Names, endpoint: nat): string {
    if endpoint in names then names[endpoint] else "endpoint_" + Decimal(endpoint)
  }

  function NameTree(names: Names): nat -> Tree { (endpoint: nat) => Str(EndpointName(names, endpoint)) }

  method PushName(out: string, names: Names, endpoint: nat) returns (r: string)
    ensures r == out + Text(NameTree(names)(endpoint))
  {
    hide Quoted, Decimal;
    if endpoint in names {
      r := PushEscaped(out, names[endpoint]);
    } else {
      r := PushEscaped(out, "endpoint_" + Decimal(endpoint));
    }
  }

  method PushNames(out: string, names: Names, vals: seq<nat>) returns (r: string)
    ensures r == out + Text(Array(NameTree(names), vals))
  {
    hide Listing, NameTree, Text;
    r := Bracket(out, NameTree(names), vals);
    for i := 0 to |vals|
      invariant r == Listing(out, NameTree(names), vals, i)
    {
      ListingStep(out, NameTree(names), vals, i);
      if i != 0 {
        r := r + ",";
      }
      r := PushName(r, names, vals[i]);
    }
    ListingEnds(out, NameTree(names), vals);
    r := r + "]";
  }

  // ---- arrays as fields ----

  method NumbersField(out: string, piece: string, key: Key, vals: seq<nat>, ghost base: string, ghost ms: Members)
    returns (r: string, ghost now: Members)
    requires out == Opened(base, ms) && piece == Lead(ms) + key + "\":"
    ensures now == Member(ms, key, Array(NumTree, vals))
    ensures r == Opened(base, Member(ms, key, Array(NumTree, vals)))
  {
    hide Opened, Awaiting, Text;
    r := PushKey(out, piece, key, base, ms);
    Filled(base, ms, key, Array(NumTree, vals));
    r := PushNumbers(r, vals);
    now := Member(ms, key, Array(NumTree, vals));
  }

  method StringsField(out: string, piece: string, key: Key, vals: seq<string>, ghost base: string, ghost ms: Members)
    returns (r: string, ghost now: Members)
    requires out == Opened(base, ms) && piece == Lead(ms) + key + "\":"
    ensures now == Member(ms, key, Array(StrTree, vals))
    ensures r == Opened(base, Member(ms, key, Array(StrTree, vals)))
  {
    hide Opened, Awaiting, Text;
    r := PushKey(out, piece, key, base, ms);
    Filled(base, ms, key, Array(StrTree, vals));
    r := PushStrings(r, vals);
    now := Member(ms, key, Array(StrTree, vals));
  }

  method NamesField(
      out: string, piece: string, key: Key, names: Names, vals: seq<nat>, ghost base: string, ghost ms: Members)
    returns (r: string, ghost now: Members)
    requires out == Opened(base, ms) && piece == Lead(ms) + key + "\":"
    ensures now == Member(ms, key, Array(NameTree(names), vals))
    ensures r == Opened(base, Member(ms, key, Array(NameTree(names), vals)))
  {
    hide Opened, Awaiting, Text;
    r := PushKey(out, piece, key, base, ms);
    Filled(base, ms, key, Array(NameTree(names), vals));
    r := PushNames(r, names, vals);
    now := Member(ms, key, Array(NameTree(names), vals));
  }

  // ---- what a printed array determines ----

  ghost predicate Injective<T(!new)>(f: T -> Tree) { forall a, b :: f(a) == f(b) ==> a == b }

  lemma LeavesInjective()
    ensures Injective(NumTree) && Injective(StrTree)
  {
  }

  lemma {:induction false} ListedInjective<T(!new)>(f: T -> Tree, a: seq<T>, b: seq<T>)
    requires Injective(f) && Listed(f, a) == Listed(f, b)
    ensures a == b
  {
    if a != [] {
      ListedInjective(f, a[..|a| - 1], b[..|b| - 1]);
      assert a == a[..|a| - 1] + [a[|a| - 1]] && b == b[..|b| - 1] + [b[|b| - 1]];
    }
  }
}
