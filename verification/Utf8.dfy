/** UTF-8, the byte form of the strings that cross the C interface and of the
    names that schema identities are computed from. */
module Utf8 {
  import opened Prelude

  /** The bytes of one scalar value. */
  function Bytes(c: char): (b: seq<u8>)
    ensures 1 <= |b| <= 4
  {
    var n := c as int;
    if n < 0x80 then [n]
    else if n < 0x800 then [0xC0 + n / 0x40, 0x80 + n % 0x40]
    else if n < 0x1_0000 then [0xE0 + n / 0x1000, 0x80 + n / 0x40 % 0x40, 0x80 + n % 0x40]
    else [0xF0 + n / 0x4_0000, 0x80 + n / 0x1000 % 0x40, 0x80 + n / 0x40 % 0x40, 0x80 + n % 0x40]
  }

  function Encode(s: string): seq<u8> {
    if s == [] then [] else Bytes(s[0]) + Encode(s[1..])
  }

  /** How many bytes the character with this lead byte takes. */
  function Width(lead: u8): nat {
    if lead < 0x80 then 1 else if lead < 0xE0 then 2 else if lead < 0xF0 then 3 else 4
  }

  function At(b: seq<u8>, i: nat): int
    requires i < |b|
  {
    b[i]
  }

  /** The scalar value spelled by the first `Width` bytes. */
  function Scalar(b: seq<u8>): int
    requires b != [] && Width(b[0]) <= |b|
  {
    match Width(b[0])
    case 1 => b[0]
    case 2 => (At(b, 0) - 0xC0) * 0x40 + (At(b, 1) - 0x80)
    case 3 => (At(b, 0) - 0xE0) * 0x1000 + (At(b, 1) - 0x80) * 0x40 + (At(b, 2) - 0x80)
    case _ => (At(b, 0) - 0xF0) * 0x4_0000 + (At(b, 1) - 0x80) * 0x1000 + (At(b, 2) - 0x80) * 0x40 + (At(b, 3) - 0x80)
  }

  predicate IsScalar(n: int) { 0 <= n < 0xD800 || 0xE000 <= n < 0x11_0000 }

  /** A decoder that knows nothing of the encoder; it stops at the first bytes
      that spell no character. */
  function Decode(b: seq<u8>): string {
    if b == [] || Width(b[0]) > |b| || !IsScalar(Scalar(b)) then []
    else [Scalar(b) as char] + Decode(b[Width(b[0])..])
  }

  lemma Digits64(n: nat)
    ensures n == n / 0x40 * 0x40 + n % 0x40
    ensures n / 0x40 == n / 0x1000 * 0x40 + n / 0x40 % 0x40
    ensures n / 0x1000 == n / 0x4_0000 * 0x40 + n / 0x1000 % 0x40
  {
  }

  lemma BytesSpell(c: char, rest: seq<u8>)
    ensures var b := Bytes(c) + rest;
            && Width(b[0]) == |Bytes(c)|
            && Scalar(b) == c as int
  {
    Digits64(c as int);
  }

  lemma {:induction false} DecodeUndoesEncode(s: string)
    ensures Decode(Encode(s)) == s
  {
    hide Bytes, Scalar, Width;
    if s != [] {
      var rest := Encode(s[1..]);
      BytesSpell(s[0], rest);
      assert (Bytes(s[0]) + rest)[|Bytes(s[0])|..] == rest;
      DecodeUndoesEncode(s[1..]);
    }
  }

  lemma ZeroByteIsNul(c: char)
    ensures 0 in Bytes(c) <==> c as int == 0
  {
  }

  /** A zero byte appears exactly when the string holds U+0000. */
  lemma {:induction false} ZeroByteIffNul(s: string)
    ensures 0 in Encode(s) <==> exists i :: 0 <= i < |s| && s[i] as int == 0
  {
    hide Bytes;
    if s != [] {
      ZeroByteIsNul(s[0]);
      ZeroByteIffNul(s[1..]);
      assert forall i :: 0 < i < |s| ==> s[i] == s[1..][i - 1];
    }
  }
}
