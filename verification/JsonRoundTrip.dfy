/** Parsing the canonical text of a tree gives the tree back, whatever follows. */
module JsonRoundTrip {
  import opened Prelude
  import opened Numerals
  import opened Json

  // ---- string literals ----

  /** The escapes, spelled out: two characters for the five common ones, lower-case
      hexadecimal for the other control characters, nothing for the rest. */
  lemma EscapesAreMinimal(c: char)
    ensures c == '"' ==> Escape(c) == "\\\""
    ensures c == '\\' ==> Escape(c) == "\\\\"
    ensures c == '\n' ==> Escape(c) == "\\n"
    ensures c == '\r' ==> Escape(c) == "\\r"
    ensures c == '\t' ==> Escape(c) == "\\t"
    ensures (c < ' ' && c !in "\n\r\t") || 0x7F as char <= c <= 0x9F as char ==>
      Escape(c) == "\\u00" + ["0123456789abcdef"[c as int / 16], "0123456789abcdef"[c as int % 16]]
    ensures !(c < ' ' || c in "\"\\" || 0x7F as char <= c <= 0x9F as char) ==> Escape(c) == [c]
  {
  }

  lemma CharRoundTrip(acc: string, c: char, rest: string)
    ensures ParseChars(acc, Escape(c) + rest) == ParseChars(acc + [c], rest)
  {
    var s := Escape(c) + rest;
    if |Escape(c)| == 1 {
      assert s[1..] == rest;
    } else if |Escape(c)| == 2 {
      assert s[2..] == rest;
    } else {
      assert s[2..6] == ['0', '0', HexDigit(c as int / 16), HexDigit(c as int % 16)];
      assert s[6..] == rest;
    }
  }

  /** An escaped string decodes to the original and stops at its own quote. */
  lemma {:induction false} CharsRoundTrip(acc: string, s: string, rest: string)
    ensures ParseChars(acc, Escaped(s) + rest) == ParseChars(acc + s, rest)
  {
    hide Escape, ParseChars;
    if s == [] {
      assert acc + s == acc && Escaped(s) + rest == rest;
    } else {
      var init, last := s[..|s| - 1], s[|s| - 1];
      assert Escaped(s) + rest == Escaped(init) + (Escape(last) + rest);
      CharsRoundTrip(acc, init, Escape(last) + rest);
      CharRoundTrip(acc + init, last, rest);
      assert acc + init + [last] == acc + s;
    }
  }

  lemma StringRoundTrip(s: string, rest: string)
    ensures Starts(Quoted(s) + rest, '"')
    ensures ParseChars([], (Quoted(s) + rest)[1..]) == Some((s, rest))
  {
    hide Escape, Escaped;
    assert (Quoted(s) + rest)[1..] == Escaped(s) + (['"'] + rest);
    CharsRoundTrip([], s, ['"'] + rest);
    assert [] + s == s && (['"'] + rest)[1..] == rest;
  }

  lemma {:induction false} PlainIsItself(k: Key)
    ensures Escaped(k) == k
  {
    if k != [] {
      var init := k[..|k| - 1];
      PlainIsItself(init);
      assert Plain(k[|k| - 1]);
      assert k == init + [k[|k| - 1]];
    }
  }

  lemma KeyRoundTrip(k: Key, rest: string)
    ensures var s := KeyText(k) + rest;
            && Starts(s, '"')
            && ParseChars([], s[1..]) == Some((k, [':'] + rest))
  {
    hide Plain, ParseChars;
    PlainIsItself(k);
    assert KeyText(k) + rest == Quoted(k) + ([':'] + rest);
    StringRoundTrip(k, [':'] + rest);
  }

  // ---- trees ----

  /** What may follow a value inside a document. */
  predicate Ends(rest: string) { rest == [] || !IsDigit(rest[0]) }

  lemma {:induction false} RoundTrip(t: Tree, rest: string)
    requires Ends(rest)
    ensures ParseTree(Text(t) + rest) == Some((t, rest))
    decreases t, 1
  {
    match t
    case Null => LiteralRoundTrip(t, rest);
    case Bool(_) => LiteralRoundTrip(t, rest);
    case Num(n) => NumRoundTrip(n, rest);
    case Str(s) => StrRoundTrip(s, rest);
    case Arr(items) => ArrRoundTrip(items, rest);
    case Obj(members) => ObjRoundTrip(members, rest);
  }

  lemma LiteralRoundTrip(t: Tree, rest: string)
    requires t.Null? || t.Bool?
    ensures ParseTree(Text(t) + rest) == Some((t, rest))
  {
  }

  lemma NumRoundTrip(n: nat, rest: string)
    requires Ends(rest)
    ensures ParseTree(Text(Num(n)) + rest) == Some((Num(n), rest))
  {
    var s := Decimal(n) + rest;
    assert IsDigit(s[0]);
    NumberRoundTrip(n, rest);
    hide Decimal, ParseNumber, ParseChars;
    assert s[0] != 'n' && s[0] != 't' && s[0] != 'f';
    assert !("null" <= s) && !("true" <= s) && !("false" <= s);
  }

  lemma StrRoundTrip(s: string, rest: string)
    ensures ParseTree(Text(Str(s)) + rest) == Some((Str(s), rest))
  {
    StringRoundTrip(s, rest);
    hide Quoted, ParseChars;
  }

  lemma {:induction false} ArrRoundTrip(items: Items, rest: string)
    ensures ParseTree(Text(Arr(items)) + rest) == Some((Arr(items), rest))
    decreases items, 2
  {
    var s := Text(Arr(items)) + rest;
    if items.NoItems? {
      assert s == "[]" + rest;
      assert s[2..] == rest;
    } else {
      assert s[1..] == ItemsText(items) + ([']'] + rest);
      ItemsRoundTrip(items, [']'] + rest);
      ItemsTextStart(items);
      assert ([']'] + rest)[1..] == rest;
    }
  }

  /** Text of one tree never starts with a closing bracket. */
  lemma TextStart(t: Tree)
    ensures |Text(t)| > 0 && Text(t)[0] != ']'
  {
  }

  lemma {:induction false} ItemsTextStart(items: Items)
    requires items.Item?
    ensures |ItemsText(items)| > 0 && ItemsText(items)[0] != ']'
  {
    hide Text;
    if items.init.NoItems? {
      TextStart(items.last);
    } else {
      ItemsTextStart(items.init);
    }
  }

  /** Parsing the text of the elements reaches the state after the last one. */
  lemma {:induction false} ItemsRoundTrip(items: Items, rest: string)
    requires items.Item? && rest != [] && !IsDigit(rest[0])
    ensures ParseItems(NoItems, ItemsText(items) + rest) == AfterItem(items, rest)
    decreases items, 1
  {
    hide Text, ParseTree;
    var init, last := items.init, items.last;
    RoundTrip(last, rest);
    if init.NoItems? {
      assert ItemsText(items) + rest == Text(last) + rest;
    } else {
      var more := [','] + (Text(last) + rest);
      assert ItemsText(items) + rest == ItemsText(init) + more;
      ItemsRoundTrip(init, more);
      assert more[1..] == Text(last) + rest;
    }
  }

  lemma {:induction false} ObjRoundTrip(members: Members, rest: string)
    ensures ParseTree(Text(Obj(members)) + rest) == Some((Obj(members), rest))
    decreases members, 2
  {
    var s := Text(Obj(members)) + rest;
    if members.NoMembers? {
      assert s == "{}" + rest;
      assert s[2..] == rest;
    } else {
      assert s[1..] == MembersText(members) + (['}'] + rest);
      MembersRoundTrip(members, ['}'] + rest);
      MembersTextStart(members);
      assert (['}'] + rest)[1..] == rest;
    }
  }

  lemma {:induction false} MembersTextStart(members: Members)
    requires members.Member?
    ensures |MembersText(members)| > 0 && MembersText(members)[0] == '"'
  {
    hide Text;
    if !members.init.NoMembers? {
      MembersTextStart(members.init);
    }
  }

  lemma {:induction false} MembersRoundTrip(members: Members, rest: string)
    requires members.Member? && rest != [] && !IsDigit(rest[0])
    ensures ParseMembers(NoMembers, MembersText(members) + rest) == AfterMember(members, rest)
    decreases members, 1
  {
    hide Text, ParseTree, KeyText, ParseChars;
    var init, key, value := members.init, members.key, members.value;
    var tail := KeyText(key) + (Text(value) + rest);
    RoundTrip(value, rest);
    OneMember(init, key, value, rest);
    if init.NoMembers? {
      assert MembersText(members) + rest == tail;
    } else {
      var more := [','] + tail;
      assert MembersText(members) + rest == MembersText(init) + more;
      MembersRoundTrip(init, more);
      assert more[1..] == tail;
    }
  }

  lemma OneMember(acc: Members, key: Key, value: Tree, rest: string)
    requires ParseTree(Text(value) + rest) == Some((value, rest))
    ensures ParseMembers(acc, KeyText(key) + (Text(value) + rest)) == AfterMember(Member(acc, key, value), rest)
  {
    hide Text, ParseTree, AfterMember, KeyText, ParseChars;
    var after := Text(value) + rest;
    KeyRoundTrip(key, after);
    assert ([':'] + after)[1..] == after;
  }

  /** Canonical text determines the tree it came from. */
  lemma TextDeterminesTree(a: Tree, b: Tree)
    requires Text(a) == Text(b)
    ensures a == b
  {
    hide Text, ParseTree;
    RoundTrip(a, []);
    RoundTrip(b, []);
  }

  // ---- no control character is printed raw ----

  predicate Clean(s: string) {
    forall i :: 0 <= i < |s| ==> ' ' <= s[i] && !(0x7F as char <= s[i] <= 0x9F as char)
  }

  lemma EscapeIsClean(c: char)
    ensures Clean(Escape(c))
  {
  }

  lemma {:induction false} EscapedIsClean(s: string)
    ensures Clean(Escaped(s))
  {
    hide Escape;
    if s != [] {
      EscapedIsClean(s[..|s| - 1]);
      EscapeIsClean(s[|s| - 1]);
    }
  }

  lemma DecimalIsClean(n: nat)
    ensures Clean(Decimal(n))
  {
  }

  lemma EnclosedIsClean(s: string, open: char, close: char)
    requires Clean(s) && !IsControl(open) && !IsControl(close)
    ensures Clean([open] + s + [close])
  {
  }

  /** No control character, U+0000 included, appears in a document. */
  lemma {:induction false} TextIsClean(t: Tree)
    ensures Clean(Text(t))
    decreases t, 1
  {
    hide Clean;
    match t
    case Null => WordsAreClean();
    case Bool(_) => WordsAreClean();
    case Num(n) => DecimalIsClean(n);
    case Str(s) =>
      EscapedIsClean(s);
      EnclosedIsClean(Escaped(s), '"', '"');
    case Arr(items) =>
      ItemsAreClean(items);
      EnclosedIsClean(ItemsText(items), '[', ']');
    case Obj(members) =>
      MembersAreClean(members);
      EnclosedIsClean(MembersText(members), '{', '}');
  }

  lemma WordsAreClean()
    ensures Clean("null") && Clean("true") && Clean("false")
  {
  }

  lemma {:induction false} ItemsAreClean(items: Items)
    ensures Clean(ItemsText(items))
  {
    hide Text;
    if items.Item? {
      ItemsAreClean(items.init);
      TextIsClean(items.last);
    }
  }

  lemma {:induction false} MembersAreClean(members: Members)
    ensures Clean(MembersText(members))
  {
    hide Text;
    if members.Member? {
      MembersAreClean(members.init);
      TextIsClean(members.value);
      KeyIsClean(members.key);
    }
  }

  lemma KeyIsClean(k: Key)
    ensures Clean(KeyText(k))
  {
    assert forall i :: 0 <= i < |k| ==> Plain(k[i]);
  }
}
