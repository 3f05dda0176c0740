/** Typed logging and extraction across the C ABI (src/c_api.rs, src/macros.rs,
    and the encoder of src/router.rs). Values are bit patterns, so signed and
    floating elements are the unsigned integers of their memory image. */
module TypedLog {
  import opened Prelude

  datatype Endian = Little | Big
  datatype Kind = Unsigned | Signed | Float

  /** A schema's payload rule: fixed size, no data at all, or variable. */
  datatype Element = Static(size: nat) | NoData | Dynamic

  /** `Logged` carries the payload handed to packet construction. `Abort` is a
      capacity panic of the allocating path. */
  datatype Outcome = Logged(payload: seq<u8>) | BadArg | IoError | SizeMismatch | Abort

  predicate Supported(kind: Kind, w: nat) {
    if kind.Float? then w == 4 || w == 8 else w == 1 || w == 2 || w == 4 || w == 8 || w == 16
  }

  // ---- byte images ----

  function Power256(w: nat): nat { if w == 0 then 1 else 256 * Power256(w - 1) }

  function LeBytes(v: nat, w: nat): (b: seq<u8>)
    ensures |b| == w
  {
    if w == 0 then [] else [v % 256] + LeBytes(v / 256, w - 1)
  }

  function LeValue(b: seq<u8>): nat {
    if b == [] then 0 else b[0] + 256 * LeValue(b[1..])
  }

  function Reversed(b: seq<u8>): (r: seq<u8>)
    ensures |r| == |b|
    ensures forall i :: 0 <= i < |b| ==> r[i] == b[|b| - 1 - i]
  {
    if b == [] then [] else Reversed(b[1..]) + [b[0]]
  }

  /** How a host stores a value, and how it reads one back. */
  function Image(e: Endian, v: nat, w: nat): (b: seq<u8>)
    ensures |b| == w
  {
    if e.Little? then LeBytes(v, w) else Reversed(LeBytes(v, w))
  }

  function Value(e: Endian, b: seq<u8>): nat {
    if e.Little? then LeValue(b) else LeValue(Reversed(b))
  }

  /** A host's memory image of an array of values. */
  function Memory(e: Endian, values: seq<nat>, w: nat): seq<u8> {
    if values == [] then [] else Image(e, values[0], w) + Memory(e, values[1..], w)
  }

  /** Reading elements of width `w` until the bytes run out. */
  function Elements(e: Endian, b: seq<u8>, w: nat): seq<nat>
    requires w > 0
  {
    if |b| < w then [] else [Value(e, b[..w])] + Elements(e, b[w..], w)
  }

  ghost predicate Fits(values: seq<nat>, w: nat) {
    forall i :: 0 <= i < |values| ==> values[i] < Power256(w)
  }

  function Zeros(n: nat): (z: seq<u8>)
    ensures |z| == n && forall i :: 0 <= i < n ==> z[i] == 0
  {
    seq(n, _ => 0)
  }

  /** `src` cut or zero-filled to `size` bytes. */
  function Padded(src: seq<u8>, size: nat): (r: seq<u8>)
    ensures |r| == size
    ensures forall i :: 0 <= i < size ==> r[i] == if i < |src| then src[i] else 0
  {
    if |src| >= size then src[..size] else src + Zeros(size - |src|)
  }

  function ZeroValues(n: nat): (z: seq<nat>)
    ensures |z| == n && forall i :: 0 <= i < n ==> z[i] == 0
  {
    if n == 0 then [] else [0] + ZeroValues(n - 1)
  }

  /** `values` cut or zero-filled to `n` elements. */
  function Resized(values: seq<nat>, n: nat): (r: seq<nat>)
    ensures |r| == n
    ensures forall i :: 0 <= i < n ==> r[i] == if i < |values| then values[i] else 0
  {
    if |values| >= n then values[..n] else values + ZeroValues(n - |values|)
  }

  // ---- the loops of the source ----

  /** Zeroed buffer, then a bounded copy. */
  method PadBytes(src: seq<u8>, size: nat) returns (out: seq<u8>)
    ensures out == Padded(src, size)
  {
    var tmp := new u8[size](_ => 0);
    var n := Min(|src|, size);
    for i := 0 to n
      invariant tmp[..i] == src[..i]
      invariant forall j :: i <= j < size ==> tmp[j] == 0
    {
      tmp[i] := src[i];
    }
    out := tmp[..];
    assert out[..n] == src[..n];
    assert out == out[..n] + out[n..];
    assert out[n..] == Zeros(size - n);
  }

  /** `vectorize_data`: unaligned native reads, one element at a time. */
  method Vectorize(e: Endian, base: seq<u8>, count: nat, w: nat) returns (ok: bool, values: seq<nat>)
    requires w > 0 && |base| == count * w
    ensures ok <==> count > 0
    ensures ok ==> values == Elements(e, base, w)
  {
    if count == 0 {
      return false, [];
    }
    SpanIsProduct(count, w);
    values := ReadElements(e, base, count, w);
    ok := true;
  }

  /** The element loop. */
  method ReadElements(e: Endian, base: seq<u8>, count: nat, w: nat) returns (values: seq<nat>)
    requires w > 0 && |base| == Span(count, w)
    ensures values == Elements(e, base, w)
  {
    hide Elements, Value;
    values := [];
    var p := 0;
    assert base[p..] == base;
    for i := 0 to count
      invariant 0 <= p <= |base| && |base| - p == Span(count - i, w)
      invariant values + Elements(e, base[p..], w) == Elements(e, base, w)
    {
      NextElement(e, base, p, w, values);
      values := values + [Value(e, base[p..p + w])];
      p := p + w;
    }
    NoElements(e, base[p..], w);
  }

  /** Bytes left when `n` elements are left. */
  ghost function Span(n: nat, w: nat): nat { if n == 0 then 0 else w + Span(n - 1, w) }

  lemma {:induction false} SpanIsProduct(n: nat, w: nat)
    ensures Span(n, w) == n * w
  {
    if n > 0 {
      SpanIsProduct(n - 1, w);
      Times(n - 1, w);
    }
  }

  lemma NextElement(e: Endian, base: seq<u8>, p: nat, w: nat, values: seq<nat>)
    requires 0 < w && p + w <= |base|
    ensures values + [Value(e, base[p..p + w])] + Elements(e, base[p + w..], w) == values + Elements(e, base[p..], w)
  {
    hide Value;
    assert base[p..][..w] == base[p..p + w] && base[p..][w..] == base[p + w..];
  }

  lemma NoElements(e: Endian, b: seq<u8>, w: nat)
    requires w > 0 && |b| == 0
    ensures Elements(e, b, w) == []
  {
  }

  lemma Times(n: int, w: nat)
    ensures (n + 1) * w == n * w + w
    ensures n >= 0 ==> n * w >= 0
  {
  }

  /** `encode_slice_le`: write each value little-endian into its own slot. */
  method EncodeSlice(values: seq<nat>, w: nat) returns (out: seq<u8>)
    ensures out == Memory(Little, values, w)
  {
    hide Memory, Image;
    MemorySize(Little, values, w);
    var buf := new u8[|values| * w](_ => 0);
    var start := 0;
    assert buf[..0] == [] && values[..0] == [];
    MemoryOfNone(Little, w);
    for i := 0 to |values|
      invariant 0 <= start <= buf.Length && buf.Length - start == (|values| - i) * w
      invariant buf[..start] == Memory(Little, values[..i], w)
    {
      Times(|values| - i - 1, w);
      var image := Image(Little, values[i], w);
      ghost var done := buf[..start];
      for j := 0 to w
        invariant buf[..start] == done && buf[start..start + j] == image[..j]
      {
        buf[start + j] := image[j];
      }
      assert buf[..start + w] == done + buf[start..start + w];
      MemoryAppend(Little, values[..i], values[i], w);
      assert values[..i + 1] == values[..i] + [values[i]];
      start := start + w;
    }
    assert values[..|values|] == values;
    out := buf[..];
    assert out == buf[..start];
  }

  lemma MemoryOfNone(e: Endian, w: nat)
    ensures Memory(e, [], w) == []
  {
  }

  lemma MemoryAppend(e: Endian, values: seq<nat>, v: nat, w: nat)
    ensures Memory(e, values + [v], w) == Memory(e, values, w) + Image(e, v, w)
  {
    MemoryConcat(e, values, [v], w);
  }

  /** The schema's size check on an encoded payload. */
  function LogRaw(elem: Element, payload: seq<u8>): Outcome {
    match elem
    case Static(size) => if |payload| == size then Logged(payload) else SizeMismatch
    case NoData => if |payload| == 0 then Logged(payload) else SizeMismatch
    case Dynamic => Logged(payload)
  }

  function FixedSize(elem: Element): Option<nat> {
    match elem
    case Static(size) => Some(size)
    case NoData => Some(0)
    case Dynamic => None
  }

  /** `seds_router_log_bytes_ex`. */
  method LogBytes(elem: Element, src: seq<u8>) returns (r: Outcome)
    ensures r == BytesOutcome(elem, src)
  {
    if |src| > ISIZE_MAX {
      return BadArg;
    }
    var fixed := FixedSize(elem);
    if fixed.Some? {
      if |src| == fixed.value {
        return LogRaw(elem, src);
      }
      var tmp := PadBytes(src, fixed.value);
      return LogRaw(elem, tmp);
    }
    return LogRaw(elem, src);
  }

  function BytesOutcome(elem: Element, src: seq<u8>): Outcome {
    if |src| > ISIZE_MAX then BadArg
    else if elem.Dynamic? then Logged(src)
    else Logged(Padded(src, FixedSize(elem).value))
  }

  /** `seds_router_log_typed_ex` on a little-endian host: the native bytes are
      already the wire bytes. */
  method LogTypedLittle(elem: Element, kind: Kind, w: nat, values: seq<nat>) returns (r: Outcome)
    ensures r == LittleOutcome(elem, kind, w, values)
  {
    if !Supported(kind, w) {
      return BadArg;
    }
    MemorySize(Little, values, w);
    if |values| * w > ISIZE_MAX {
      return BadArg;
    }
    var fixed := FixedSize(elem);
    if fixed.Some? && fixed.value % w != 0 {
      return BadArg;
    }
    if |values| == 0 && fixed.None? {
      return IoError;
    }
    r := LogBytes(elem, Memory(Little, values, w));
  }

  function LittleOutcome(elem: Element, kind: Kind, w: nat, values: seq<nat>): Outcome {
    if !Supported(kind, w) || |values| * w > ISIZE_MAX then BadArg
    else if elem.Dynamic? then
      if values == [] then IoError else Logged(Memory(Little, values, w))
    else if FixedSize(elem).value % w != 0 then BadArg
    else Logged(Padded(Memory(Little, values, w), FixedSize(elem).value))
  }

  /** The same entry point on a big-endian host: pad the native bytes, read the
      elements back, encode each little-endian. */
  method LogTypedBig(elem: Element, kind: Kind, w: nat, values: seq<nat>) returns (r: Outcome)
    ensures r == BigOutcome(elem, kind, w, values)
  {
    hide Memory, Elements, Padded;
    if !Supported(kind, w) {
      return BadArg;
    }
    MemorySize(Big, values, w);
    var fixed := FixedSize(elem);
    if fixed.Some? {
      var required := fixed.value;
      if required % w != 0 {
        return BadArg;
      }
      if |values| * w > ISIZE_MAX {
        return BadArg;
      }
      var padded := PadBytes(Memory(Big, values, w), required);
      if elem.NoData? {
        return LogRaw(elem, []);
      }
      WholeElements(required, w);
      var ok, tmp := Vectorize(Big, padded, required / w, w);
      if !ok {
        return IoError;
      }
      ElementsSize(Big, padded, w, required / w);
      MemorySize(Little, tmp, w);
      var payload := EncodeSlice(tmp, w);
      return LogRaw(elem, payload);
    }
    if |values| * w > ISIZE_MAX {
      return Abort;
    }
    var ok, tmp := Vectorize(Big, Memory(Big, values, w), |values|, w);
    if !ok {
      return IoError;
    }
    var payload := EncodeSlice(tmp, w);
    r := LogRaw(elem, payload);
  }

  function BigOutcome(elem: Element, kind: Kind, w: nat, values: seq<nat>): Outcome {
    if !Supported(kind, w) then BadArg
    else if elem.Dynamic? then
      if |values| * w > ISIZE_MAX then Abort
      else if values == [] then IoError
      else Logged(Memory(Little, Elements(Big, Memory(Big, values, w), w), w))
    else if FixedSize(elem).value % w != 0 || |values| * w > ISIZE_MAX then BadArg
    else if elem.NoData? then Logged([])
    else if elem.size == 0 then IoError
    else Logged(Memory(Little, Elements(Big, Padded(Memory(Big, values, w), elem.size), w), w))
  }

  // ---- images round-trip ----

  lemma {:induction false} LeRoundTrip(v: nat, w: nat)
    requires v < Power256(w)
    ensures LeValue(LeBytes(v, w)) == v
  {
    if w > 0 {
      LeRoundTrip(v / 256, w - 1);
      assert LeBytes(v, w)[1..] == LeBytes(v / 256, w - 1);
    }
  }

  lemma ReversedTwice(b: seq<u8>)
    ensures Reversed(Reversed(b)) == b
  {
  }

  lemma ImageRoundTrip(e: Endian, v: nat, w: nat)
    requires v < Power256(w)
    ensures Value(e, Image(e, v, w)) == v
  {
    LeRoundTrip(v, w);
    ReversedTwice(LeBytes(v, w));
  }

  lemma {:induction false} MemorySize(e: Endian, values: seq<nat>, w: nat)
    ensures |Memory(e, values, w)| == |values| * w
  {
    if values != [] {
      MemorySize(e, values[1..], w);
      Times(|values| - 1, w);
    }
  }

  lemma WholeElements(size: nat, w: nat)
    requires w > 0 && size % w == 0
    ensures size == (size / w) * w
  {
  }

  lemma {:induction false} ElementsSize(e: Endian, b: seq<u8>, w: nat, n: nat)
    requires w > 0 && |b| == n * w
    ensures |Elements(e, b, w)| == n
  {
    if n > 0 {
      Times(n - 1, w);
      ElementsSize(e, b[w..], w, n - 1);
    }
  }

  /** Reading a host's memory natively gives back the values it stores. */
  lemma {:induction false} MemoryRoundTrip(e: Endian, values: seq<nat>, w: nat)
    requires w > 0 && Fits(values, w)
    ensures Elements(e, Memory(e, values, w), w) == values
  {
    hide Image, Value, Power256;
    if values != [] {
      ImageRoundTrip(e, values[0], w);
      MemoryRoundTrip(e, values[1..], w);
      var m := Memory(e, values, w);
      assert m[..w] == Image(e, values[0], w) && m[w..] == Memory(e, values[1..], w);
      assert values == [values[0]] + values[1..];
    }
  }

  // ---- padding bytes is resizing the value list ----

  lemma {:induction false} ZeroImage(w: nat)
    ensures LeBytes(0, w) == Zeros(w)
  {
    if w > 0 {
      ZeroImage(w - 1);
    }
  }

  lemma ZeroImageOf(e: Endian, w: nat)
    ensures Image(e, 0, w) == Zeros(w)
  {
    ZeroImage(w);
    assert Reversed(Zeros(w)) == Zeros(w);
  }

  lemma ZerosAdd(a: nat, b: nat)
    ensures Zeros(a) + Zeros(b) == Zeros(a + b)
  {
  }

  lemma {:induction false} ZeroMemory(e: Endian, n: nat, w: nat)
    ensures Memory(e, ZeroValues(n), w) == Zeros(n * w)
  {
    hide Image, Zeros;
    if n > 0 {
      ZeroImageOf(e, w);
      ZeroMemory(e, n - 1, w);
      assert ZeroValues(n)[1..] == ZeroValues(n - 1);
      Times(n - 1, w);
      ZerosAdd(w, (n - 1) * w);
    }
  }

  lemma {:induction false} MemoryConcat(e: Endian, a: seq<nat>, b: seq<nat>, w: nat)
    ensures Memory(e, a + b, w) == Memory(e, a, w) + Memory(e, b, w)
  {
    if a == [] {
      assert a + b == b;
    } else {
      assert (a + b)[1..] == a[1..] + b;
      MemoryConcat(e, a[1..], b, w);
    }
  }

  lemma CutMemory(e: Endian, values: seq<nat>, w: nat, n: nat)
    requires n <= |values|
    ensures n * w <= |Memory(e, values, w)| && Memory(e, values, w)[..n * w] == Memory(e, values[..n], w)
  {
    hide Memory;
    MemorySize(e, values[..n], w);
    assert values == values[..n] + values[n..];
    MemoryConcat(e, values[..n], values[n..], w);
  }

  lemma PaddedMemory(e: Endian, values: seq<nat>, w: nat, n: nat)
    ensures Padded(Memory(e, values, w), n * w) == Memory(e, Resized(values, n), w)
  {
    hide Memory, ZeroValues;
    MemorySize(e, values, w);
    if |values| >= n {
      CutMemory(e, values, w, n);
    } else {
      var more := n - |values|;
      MemoryConcat(e, values, ZeroValues(more), w);
      ZeroMemory(e, more, w);
      SplitTimes(|values|, more, w);
      if more * w == 0 {
        assert Memory(e, values, w) + Zeros(0) == Memory(e, values, w);
      }
    }
  }

  lemma SplitTimes(a: nat, b: nat, w: nat)
    ensures (a + b) * w == a * w + b * w && b * w >= 0
  {
  }

  lemma ResizedFits(values: seq<nat>, w: nat, n: nat)
    requires Fits(values, w)
    ensures Fits(Resized(values, n), w)
  {
    PowerPositive(w);
  }

  lemma {:induction false} PowerPositive(w: nat)
    ensures Power256(w) > 0
  {
    if w > 0 {
      PowerPositive(w - 1);
    }
  }

  // ---- endianness independence ----

  /** What both hosts log for a fixed-size type: the little-endian images of the
      values, cut or zero-filled to the type's element count. */
  lemma StaticPayload(size: nat, kind: Kind, w: nat, values: seq<nat>)
    requires Supported(kind, w) && size > 0 && size % w == 0
    requires Fits(values, w) && |values| * w <= ISIZE_MAX
    ensures LittleOutcome(Static(size), kind, w, values) == Logged(Memory(Little, Resized(values, size / w), w))
    ensures BigOutcome(Static(size), kind, w, values) == Logged(Memory(Little, Resized(values, size / w), w))
  {
    hide Memory, Elements, Padded;
    var n := size / w;
    WholeElements(size, w);
    PaddedMemory(Little, values, w, n);
    PaddedMemory(Big, values, w, n);
    ResizedFits(values, w, n);
    MemoryRoundTrip(Big, Resized(values, n), w);
  }

  /** What both hosts log for a variable-size type: every value, in order. */
  lemma DynamicPayload(kind: Kind, w: nat, values: seq<nat>)
    requires Supported(kind, w) && values != [] && Fits(values, w) && |values| * w <= ISIZE_MAX
    ensures LittleOutcome(Dynamic, kind, w, values) == Logged(Memory(Little, values, w))
    ensures BigOutcome(Dynamic, kind, w, values) == Logged(Memory(Little, values, w))
  {
    MemoryRoundTrip(Big, values, w);
  }

  // ---- the wire, byte by byte ----

  lemma {:induction false} LeByteAt(v: nat, w: nat, j: nat)
    requires j < w
    ensures Power256(j) > 0 && LeBytes(v, w)[j] == v / Power256(j) % 256
  {
    PowerPositive(j);
    if j > 0 {
      LeByteAt(v / 256, w - 1, j - 1);
      QuotientOfQuotient(v, Power256(j - 1));
    }
  }

  lemma QuotientOfQuotient(v: nat, p: nat)
    requires p > 0
    ensures v / (256 * p) == (v / 256) / p
  {
    var h := v / 256;
    var q := h / p;
    assert h == p * q + h % p;
    assert 256 * p * q == 256 * (p * q);
    assert 256 * (h % p) + v % 256 < 256 * p;
    Quotient(v, 256 * p, q);
  }

  lemma {:induction false} MemoryAt(e: Endian, values: seq<nat>, w: nat, i: nat, j: nat)
    requires i < |values| && j < w
    ensures 0 <= i * w + j < |Memory(e, values, w)|
    ensures Memory(e, values, w)[i * w + j] == Image(e, values[i], w)[j]
  {
    hide Image;
    if i > 0 {
      MemoryAt(e, values[1..], w, i - 1, j);
      Times(i - 1, w);
    }
  }

  /** The kinds and widths the C interface lists. */
  const LISTED: set<(Kind, nat)> := {
    (Unsigned, 1), (Unsigned, 2), (Unsigned, 4), (Unsigned, 8), (Unsigned, 16),
    (Signed, 1), (Signed, 2), (Signed, 4), (Signed, 8), (Signed, 16),
    (Float, 4), (Float, 8)
  }

  /** A request is logged exactly when its kind and width are listed, it is
      addressable, and it suits the type: a variable type wants at least one
      value, a fixed size a whole number of elements. */
  lemma LoggedIff(elem: Element, kind: Kind, w: nat, values: seq<nat>)
    ensures LittleOutcome(elem, kind, w, values).Logged?
       <==> && (kind, w) in LISTED && |values| * w <= 0x7FFF_FFFF_FFFF_FFFF
            && (elem.Dynamic? ==> values != []) && (elem.Static? ==> elem.size % w == 0)
    ensures BigOutcome(elem, kind, w, values).Logged?
       <==> && (kind, w) in LISTED && |values| * w <= 0x7FFF_FFFF_FFFF_FFFF
            && (elem.Dynamic? ==> values != []) && (elem.Static? ==> elem.size > 0 && elem.size % w == 0)
  {
    hide Memory, Elements, Padded;
  }

  /** Byte `j` of element `i` on the wire, from either host: the value's base-256
      digit `j`, and zero past the values given. */
  lemma LoggedByte(size: nat, kind: Kind, w: nat, values: seq<nat>, i: nat, j: nat)
    requires (kind, w) in LISTED && size > 0 && size % w == 0
    requires Fits(values, w) && |values| * w <= ISIZE_MAX
    requires i < size / w && j < w
    ensures Power256(j) > 0 && LittleOutcome(Static(size), kind, w, values).Logged?
    ensures BigOutcome(Static(size), kind, w, values) == LittleOutcome(Static(size), kind, w, values)
    ensures var payload := LittleOutcome(Static(size), kind, w, values).payload;
      && |payload| == size && i * w + j < size
      && payload[i * w + j] == if i < |values| then values[i] / Power256(j) % 256 else 0
  {
    hide Memory, Elements, Padded, LittleOutcome, BigOutcome, LeBytes, Power256;
    StaticPayload(size, kind, w, values);
    var stored := Resized(values, size / w);
    WholeElements(size, w);
    MemorySize(Little, stored, w);
    MemoryAt(Little, stored, w, i, j);
    LeByteAt(stored[i], w, j);
    ZeroQuotient(Power256(j));
  }

  lemma ZeroQuotient(p: nat)
    requires p > 0
    ensures 0 / p % 256 == 0
  {
  }

  /** The cases in which the two hosts part: a fixed size of zero that is not
      the no-data type, and a variable-size request too large for memory. */
  predicate Divergent(elem: Element, kind: Kind, w: nat, count: nat) {
    && Supported(kind, w)
    && (if elem.Dynamic? then count * w > ISIZE_MAX
        else elem.Static? && elem.size == 0 && count * w <= ISIZE_MAX)
  }

  /** Endianness independence, exactly: little- and big-endian hosts have the
      same outcome for the same values if and only if the request is not one of
      the divergent cases. */
  lemma HostsAgreeIff(elem: Element, kind: Kind, w: nat, values: seq<nat>)
    requires Fits(values, w)
    ensures LittleOutcome(elem, kind, w, values) == BigOutcome(elem, kind, w, values)
       <==> !Divergent(elem, kind, w, |values|)
  {
    if Supported(kind, w) && |values| * w <= ISIZE_MAX {
      match elem {
        case Dynamic =>
          MemoryRoundTrip(Big, values, w);
        case NoData =>
          assert Padded(Memory(Little, values, w), 0) == [];
        case Static(size) =>
          if size > 0 && size % w == 0 {
            StaticPayload(size, kind, w, values);
          }
      }
    }
  }

  // ---- extraction ----

  /** One divergent request: a fixed size of zero and no values. */
  lemma ZeroSizeDiverges()
    ensures LittleOutcome(Static(0), Unsigned, 1, []) == Logged([])
    ensures BigOutcome(Static(0), Unsigned, 1, []) == IoError
  {
  }

  /** The other: a variable-size request of one byte too many. */
  lemma OversizedDiverges()
    ensures var values := ZeroValues(ISIZE_MAX + 1);
      && LittleOutcome(Dynamic, Unsigned, 1, values) == BadArg
      && BigOutcome(Dynamic, Unsigned, 1, values) == Abort
  {
    hide ZeroValues, Memory;
  }

  datatype Extraction = Extraction(status: int, written: Option<seq<nat>>)

  /** `seds_pkt_get_typed` with room for `room` elements (0: no output buffer). */
  method GetTyped(e: Endian, payload: seq<u8>, room: nat, kind: Kind, w: nat) returns (r: Extraction)
    ensures r == Extracted(e, payload, room, kind, w)
  {
    if !(w == 0 || w == 1 || w == 2 || w == 4 || w == 8 || w == 16) {
      return Extraction(BAD_ARG, None);
    }
    if |payload| == 0 {
      return Extraction(0, None);
    }
    if w == 0 || |payload| % w != 0 {
      return Extraction(BAD_ARG, None);
    }
    var needed := |payload| / w;
    if room == 0 || room < needed {
      return Extraction(AsI32(needed), None);
    }
    if !Supported(kind, w) {
      return Extraction(BAD_ARG, None);
    }
    WholeElements(|payload|, w);
    var ok, values := Vectorize(e, payload, needed, w);
    if !ok {
      return Extraction(BAD_ARG, None);
    }
    return Extraction(AsI32(needed), Some(values));
  }

  function Extracted(e: Endian, payload: seq<u8>, room: nat, kind: Kind, w: nat): Extraction {
    if !(w == 0 || w == 1 || w == 2 || w == 4 || w == 8 || w == 16) then Extraction(BAD_ARG, None)
    else if payload == [] then Extraction(0, None)
    else if w == 0 || |payload| % w != 0 then Extraction(BAD_ARG, None)
    else if room < |payload| / w || room == 0 then Extraction(AsI32(|payload| / w), None)
    else if !Supported(kind, w) then Extraction(BAD_ARG, None)
    else Extraction(AsI32(|payload| / w), Some(Elements(e, payload, w)))
  }

  lemma ExactDivision(n: nat, w: nat)
    requires w > 0
    ensures (n * w) % w == 0 && (n * w) / w == n
  {
    Quotient(n * w, w, n);
    Remainder(n * w, w, n);
  }

  /** Extraction on a host of endianness `e` of any logged value list. */
  lemma ExtractedFromLog(e: Endian, values: seq<nat>, room: nat, kind: Kind, w: nat)
    requires Supported(kind, w) && values != [] && room >= |values|
    ensures Extracted(e, Memory(Little, values, w), room, kind, w)
         == Extraction(AsI32(|values|), Some(Elements(e, Memory(Little, values, w), w)))
  {
    MemorySize(Little, values, w);
    ExactDivision(|values|, w);
    Times(|values| - 1, w);
  }

  /** On a little-endian host extraction undoes logging: it returns the logged
      list, cut or zero-filled to the type's element count. */
  lemma ExtractionUndoesLogging(size: nat, kind: Kind, w: nat, values: seq<nat>, room: nat)
    requires Supported(kind, w) && size > 0 && size % w == 0
    requires Fits(values, w) && |values| * w <= ISIZE_MAX && room >= size / w
    ensures LittleOutcome(Static(size), kind, w, values).Logged?
    ensures Extracted(Little, LittleOutcome(Static(size), kind, w, values).payload, room, kind, w)
         == Extraction(AsI32(size / w), Some(Resized(values, size / w)))
  {
    var n := size / w;
    StaticPayload(size, kind, w, values);
    WholeElements(size, w);
    ResizedFits(values, w, n);
    MemoryRoundTrip(Little, Resized(values, n), w);
    ExtractedFromLog(Little, Resized(values, n), room, kind, w);
  }

  /** For a variable-size type it returns exactly the logged list. */
  lemma DynamicExtraction(kind: Kind, w: nat, values: seq<nat>, room: nat)
    requires Supported(kind, w) && values != [] && Fits(values, w) && |values| * w <= ISIZE_MAX && room >= |values|
    ensures LittleOutcome(Dynamic, kind, w, values).Logged?
    ensures Extracted(Little, LittleOutcome(Dynamic, kind, w, values).payload, room, kind, w)
         == Extraction(AsI32(|values|), Some(values))
  {
    hide Memory, Elements, Extracted;
    DynamicPayload(kind, w, values);
    MemoryRoundTrip(Little, values, w);
    ExtractedFromLog(Little, values, room, kind, w);
  }

  /** With too little room extraction reports the count it needs and writes nothing. */
  lemma ShortRoomWritesNothing(e: Endian, values: seq<nat>, kind: Kind, w: nat, room: nat)
    requires Supported(kind, w) && values != [] && room < |values|
    ensures Extracted(e, Memory(Little, values, w), room, kind, w) == Extraction(AsI32(|values|), None)
  {
    MemorySize(Little, values, w);
    ExactDivision(|values|, w);
    Times(|values| - 1, w);
  }

  // ---- extraction on a big-endian host ----

  predicate Palindrome(v: nat, w: nat) { LeBytes(v, w) == Reversed(LeBytes(v, w)) }

  lemma {:induction false} LeBytesOfValue(b: seq<u8>)
    ensures LeBytes(LeValue(b), |b|) == b
  {
    if b != [] {
      LeBytesOfValue(b[1..]);
      assert LeValue(b) == b[0] + 256 * LeValue(b[1..]);
      assert LeValue(b) % 256 == b[0] && LeValue(b) / 256 == LeValue(b[1..]);
    }
  }

  lemma SwappedIffPalindrome(v: nat, w: nat)
    requires v < Power256(w)
    ensures Value(Big, LeBytes(v, w)) == v <==> Palindrome(v, w)
  {
    LeRoundTrip(v, w);
    var r := Reversed(LeBytes(v, w));
    LeBytesOfValue(r);
  }

  lemma {:induction false} BigHostReadsIffPalindromes(values: seq<nat>, w: nat)
    requires w > 0 && Fits(values, w)
    ensures Elements(Big, Memory(Little, values, w), w) == values
       <==> forall i :: 0 <= i < |values| ==> Palindrome(values[i], w)
  {
    hide Palindrome, Value, LeBytes;
    if values != [] {
      var rest := values[1..];
      BigHostReadsIffPalindromes(rest, w);
      SwappedIffPalindrome(values[0], w);
      BigHostFirst(values, w);
      assert values == [values[0]] + rest;
      assert (forall i :: 0 <= i < |values| ==> Palindrome(values[i], w))
        <==> Palindrome(values[0], w) && (forall i :: 0 <= i < |rest| ==> Palindrome(rest[i], w));
    }
  }

  lemma BigHostFirst(values: seq<nat>, w: nat)
    requires w > 0 && values != []
    ensures Elements(Big, Memory(Little, values, w), w)
         == [Value(Big, LeBytes(values[0], w))] + Elements(Big, Memory(Little, values[1..], w), w)
  {
  }

  /** A big-endian host reads logged payloads back natively, without the byte
      swap that logging did: extraction returns the logged list if and only if
      every value is a byte palindrome. */
  lemma BigHostRecoversIffPalindromes(values: seq<nat>, room: nat, kind: Kind, w: nat)
    requires Supported(kind, w) && values != [] && room >= |values| && Fits(values, w)
    ensures Extracted(Big, Memory(Little, values, w), room, kind, w) == Extraction(AsI32(|values|), Some(values))
       <==> forall i :: 0 <= i < |values| ==> Palindrome(values[i], w)
  {
    hide Palindrome, Extracted, Elements, Memory;
    ExtractedFromLog(Big, values, room, kind, w);
    BigHostReadsIffPalindromes(values, w);
  }

  /** The smallest failing case: the 16-bit value 1 comes back as 256. */
  lemma BigHostSwapsOne()
    ensures Extracted(Big, Memory(Little, [1], 2), 1, Unsigned, 2) == Extraction(1, Some([256]))
  {
    BytesOfOne();
    var m := Memory(Little, [1], 2);
    assert m == [1, 0] && m[..2] == [1, 0] && m[2..] == [];
    assert Elements(Big, m, 2) == [256];
  }

  lemma BytesOfOne()
    ensures LeBytes(1, 2) == [1, 0] && Value(Big, [1, 0]) == 256
  {
  }
}
