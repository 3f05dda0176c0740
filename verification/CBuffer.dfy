/** Handing a document to C (`write_str_to_buf` and the export calls of
    src/c_api.rs): a size query, then a fill of a caller's buffer. */
module CBuffer {
  import opened Prelude
  import opened Utf8
  import opened Json
  import JsonRoundTrip
  import JsonPrinting
  import opened TopologyJson

  /** The size a C caller needs for `s`, terminator included. */
  function Needed(s: string): nat { |Encode(s)| + 1 }

  /** What the call answers. */
  function Status(s: string, isNull: bool, size: nat): int {
    if isNull && size != 0 then BAD_ARG
    else if isNull || size < Needed(s) then AsI32(Needed(s))
    else 0
  }

  /** A buffer's contents after a fill: as much of the document as leaves room
      for a NUL, the NUL, and everything else as it was. */
  function Written(before: seq<u8>, bytes: seq<u8>, size: nat): seq<u8>
    requires 0 < size <= |before|
  {
    var n := Min(|bytes|, size - 1);
    bytes[..n] + [0] + before[n + 1..]
  }

  method WriteStrToBuf(s: string, buf: array?<u8>, size: nat) returns (status: int)
    requires buf != null ==> size <= buf.Length
    modifies if buf == null then {} else {buf}
    ensures status == Status(s, buf == null, size)
    ensures buf != null && size == 0 ==> buf[..] == old(buf[..])
    ensures buf != null && size > 0 ==> buf[..] == Written(old(buf[..]), Encode(s), size)
  {
    hide AsI32, Encode;
    if buf == null && size != 0 {
      return BAD_ARG;
    }
    var bytes := Encode(s);
    var needed := |bytes| + 1;
    if buf == null || size == 0 {
      return AsI32(needed);
    }
    ghost var before := buf[..];
    var ncopy := Min(|bytes|, size - 1);
    forall i | 0 <= i < ncopy {
      buf[i] := bytes[i];
    }
    buf[ncopy] := 0;
    assert buf[..] == Written(before, bytes, size);
    if size < needed {
      return AsI32(needed);
    }
    return 0;
  }

  // ---- reading the buffer from C ----

  /** The bytes before the first NUL. */
  function CString(memory: seq<u8>): seq<u8> {
    if memory == [] || memory[0] == 0 then [] else [memory[0]] + CString(memory[1..])
  }

  lemma {:induction false} CStringStops(bytes: seq<u8>, rest: seq<u8>)
    ensures 0 !in bytes ==> CString(bytes + [0] + rest) == bytes
    ensures 0 in bytes ==> CString(bytes + [0] + rest) != bytes
  {
    var memory := bytes + [0] + rest;
    if bytes != [] {
      assert memory[1..] == bytes[1..] + [0] + rest;
      assert bytes == [bytes[0]] + bytes[1..];
      CStringStops(bytes[1..], rest);
    }
  }

  /** In a buffer that is large enough a C reader finds the whole string exactly
      when the string holds no U+0000. */
  lemma ReaderGetsAllIffNoNul(s: string, before: seq<u8>, size: nat)
    requires Needed(s) <= size <= |before|
    ensures CString(Written(before, Encode(s), size)) == Encode(s)
       <==> !exists i :: 0 <= i < |s| && s[i] as int == 0
  {
    hide Encode, CString;
    ZeroByteIffNul(s);
    var bytes := Encode(s);
    assert bytes[..|bytes|] == bytes;
    CStringStops(bytes, before[|bytes| + 1..]);
  }

  /** The protocol on a document: a null query answers the size, a fill of that
      size answers 0, and what a C reader finds decodes and parses back to the
      document, with the rest of the buffer untouched. */
  lemma QueryThenFill(t: Tree, before: seq<u8>, size: nat)
    requires Needed(Text(t)) <= size <= |before|
    ensures Needed(Text(t)) <= I32_MAX ==> Status(Text(t), true, 0) == Needed(Text(t))
    ensures Status(Text(t), false, size) == 0
    ensures var memory := Written(before, Encode(Text(t)), size);
            && |memory| == |before| && memory[Needed(Text(t))..] == before[Needed(Text(t))..]
            && CString(memory) == Encode(Text(t))
            && ParseTree(Decode(CString(memory))) == Some((t, []))
  {
    hide Encode, Decode, CString, Text, ParseTree;
    var doc := Text(t);
    JsonRoundTrip.TextIsClean(t);
    ReaderGetsAllIffNoNul(doc, before, size);
    DecodeUndoesEncode(doc);
    JsonRoundTrip.RoundTrip(t, []);
    assert doc + [] == doc;
    var bytes := Encode(doc);
    assert bytes[..|bytes|] == bytes;
  }

  /** A smaller buffer gets a terminated prefix and nothing beyond it changes. */
  lemma ShortBuffer(t: Tree, before: seq<u8>, size: nat)
    requires 0 < size < Needed(Text(t)) && size <= |before|
    ensures Status(Text(t), false, size) == AsI32(Needed(Text(t)))
    ensures var memory := Written(before, Encode(Text(t)), size);
            && |memory| == |before| && memory[size..] == before[size..]
            && CString(memory) == Encode(Text(t))[..size - 1]
  {
    hide Encode, CString, Text, AsI32;
    var doc := Text(t);
    JsonRoundTrip.TextIsClean(t);
    ZeroByteIffNul(doc);
    var bytes := Encode(doc);
    CStringStops(bytes[..size - 1], before[size..]);
  }

  /** The answer to a short buffer is the exact size just when that fits 31 bits,
      and it looks like success just when the size is a multiple of 2^32. */
  lemma AnswerIsExactIff(s: string, size: nat)
    requires size < Needed(s)
    ensures Status(s, false, size) == Needed(s) <==> Needed(s) <= I32_MAX
    ensures Status(s, false, size) == 0 <==> Needed(s) % 0x1_0000_0000 == 0
  {
    hide Encode;
  }

  /** A null buffer answers the size if and only if the length given with it is
      zero, or the size happens to wrap to the error code. */
  lemma NullBufferAnswersIff(s: string, size: nat)
    ensures Status(s, true, size) == AsI32(Needed(s))
       <==> size == 0 || Needed(s) % 0x1_0000_0000 == 0x1_0000_0000 - 10
  {
    hide Encode;
  }

  /** An input on which it does not: the empty string and a length of one. */
  lemma NullBufferRefused()
    ensures Status("", true, 1) == BAD_ARG != AsI32(Needed(""))
  {
  }

  // ---- the topology export ----

  /** `seds_router_export_topology_len`; None is a null router handle. */
  method ExportTopologyLen(router: Option<Topology>, names: JsonPrinting.Names) returns (status: int)
    ensures status == if router.None? then BAD_ARG else AsI32(Needed(Text(TopologyTree(names, router.value))))
  {
    if router.None? {
      return BAD_ARG;
    }
    var json := TopologyToJson(names, router.value);
    return AsI32(|Encode(json)| + 1);
  }

  /** `seds_router_export_topology`. */
  method ExportTopology(router: Option<Topology>, names: JsonPrinting.Names, buf: array?<u8>, size: nat)
    returns (status: int)
    requires buf != null ==> size <= buf.Length
    modifies if buf == null then {} else {buf}
    ensures router.None? ==> status == BAD_ARG && (buf != null ==> buf[..] == old(buf[..]))
    ensures router.Some? ==> status == Status(Text(TopologyTree(names, router.value)), buf == null, size)
    ensures router.Some? && buf != null && size == 0 ==> buf[..] == old(buf[..])
    ensures router.Some? && buf != null && size > 0 ==>
              buf[..] == Written(old(buf[..]), Encode(Text(TopologyTree(names, router.value))), size)
  {
    if router.None? {
      return BAD_ARG;
    }
    hide Text, TopologyTree, Encode, Written, Status;
    var json := TopologyToJson(names, router.value);
    status := WriteStrToBuf(json, buf, size);
  }
}
