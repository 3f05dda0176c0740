/** Schema identities (schema_identity.py and src/schema_identity.rs): a
    namespaced 32-bit hash of a name's UTF-8 bytes, with reserved identities
    for the protocol's own names. */
module SchemaIdentity {
  import opened Prelude

  /** A name, as its UTF-8 bytes. */
  type Name = seq<bv8>

  const PRIME: bv32 := 0x01000193
  const BASIS: bv32 := 0x811C9DC5
  const MASK: bv32 := 0x0FFF_FFFF

  /** One namespace: its tag, and its protocol names with the generated id each
      one hashes to. Name `k` owns the reserved identity `low + k`. */
  datatype Namespace = Namespace(tag: bv32, low: nat, names: seq<Name>, hashes: seq<int>)

  function Mix(h: bv32, b: bv8): bv32 { (h ^ (b as bv32)) * PRIME }

  /** The hash of the first `n` bytes. */
  function Hash(name: Name, seed: bv32, n: nat): bv32
    requires n <= |name|
  {
    if n == 0 then seed else Mix(Hash(name, seed, n - 1), name[n - 1])
  }

  function NameHash(name: Name, tag: bv32): bv32 { Hash(name, Seed(tag), |name|) }

  function Seed(tag: bv32): bv32 { BASIS ^ tag }

  /** The identity generated for an application name. */
  function Generated(name: Name, tag: bv32): int { Folded(NameHash(name, tag)) as int }

  function Folded(h: bv32): bv32 { 0x10000 | (h & MASK) }

  function Find<T(==)>(s: seq<T>, x: T): (r: Option<nat>)
    ensures r.Some? ==> r.value < |s| && s[r.value] == x
    ensures r.None? <==> x !in s
  {
    if s == [] then None
    else if s[0] == x then Some(0)
    else match Find(s[1..], x)
      case Some(i) => Some(i + 1)
      case None => None
  }

  predicate Reserved(ns: Namespace, id: int) {
    ns.low <= id < ns.low + |ns.names|
  }

  /** What makes a namespace table coherent. */
  ghost predicate Coherent(ns: Namespace) {
    && |ns.hashes| == |ns.names| && ns.low + |ns.names| <= 0x10000
    && (forall k :: 0 <= k < |ns.names| ==> Generated(ns.names[k], ns.tag) == ns.hashes[k])
    && (forall i, j :: 0 <= i < j < |ns.hashes| ==> ns.hashes[i] != ns.hashes[j])
    && (forall k :: 0 <= k < |ns.names| ==> ns.names[k] != [])
  }

  datatype Resolved = Id(value: int) | Rejected

  // ---- the Python side: a table keyed by name ----

  function TableDefault(ns: Namespace, name: Name): int {
    match Find(ns.names, name)
    case Some(k) => ns.low + k
    case None => Generated(name, ns.tag)
  }

  /** The byte loop. */
  method HashBytes(name: Name, tag: bv32) returns (value: bv32)
    ensures value == NameHash(name, tag)
  {
    hide Mix;
    value := Seed(tag);
    for i := 0 to |name|
      invariant value == Hash(name, Seed(tag), i)
    {
      value := Mix(value, name[i]);
    }
  }

  /** `resolve_id`: the byte loop, then the range and ownership checks. */
  method ResolveId(ns: Namespace, name: Name, explicit: Option<int>) returns (r: Resolved)
    ensures r == TableResolve(ns, name, explicit)
  {
    if |name| == 0 {
      return Rejected;
    }
    hide Find, Folded, NameHash;
    var value := HashBytes(name, ns.tag);
    var owned := Find(ns.names, name);
    var default := if owned.Some? then ns.low + owned.value else Folded(value) as int;
    if explicit.Some? && !(0 <= explicit.value <= 0xFFFF_FFFF) {
      return Rejected;
    }
    var id := if explicit.None? then default else explicit.value;
    var reserved := Reserved(ns, id);
    if (owned.Some? && id != default) || (reserved && (owned.None? || ns.low + owned.value != id)) {
      return Rejected;
    }
    return Id(id);
  }

  function TableResolve(ns: Namespace, name: Name, explicit: Option<int>): Resolved {
    if name == [] || (explicit.Some? && !(0 <= explicit.value <= 0xFFFF_FFFF)) then Rejected
    else
      var default := TableDefault(ns, name);
      var value := if explicit.None? then default else explicit.value;
      if (name in ns.names || Reserved(ns, value)) && !(name in ns.names && value == default)
      then Rejected
      else Id(value)
  }

  // ---- the Rust side: a dispatch on the hash, then a byte comparison ----

  function DispatchDefault(ns: Namespace, name: Name): int
    requires |ns.hashes| == |ns.names|
  {
    var hashed := Generated(name, ns.tag);
    match Find(ns.hashes, hashed)
    case Some(k) => if SameBytes(name, ns.names[k]) then ns.low + k else hashed
    case None => hashed
  }

  /** Byte-by-byte comparison after a length check. */
  predicate SameBytes(a: Name, b: Name) {
    |a| == |b| && forall i :: 0 <= i < |a| ==> a[i] == b[i]
  }

  function DispatchResolve(ns: Namespace, name: Name, explicit: Option<u32>): Resolved
    requires |ns.hashes| == |ns.names|
  {
    var default := DispatchDefault(ns, name);
    var protocolName := Reserved(ns, default);
    if name == [] then Rejected
    else
      var id := if explicit.Some? then explicit.value else default;
      if (protocolName && id != default) || (Reserved(ns, id) && (!protocolName || id != default))
      then Rejected
      else Id(id)
  }

  // ---- the two sides agree ----

  lemma FindDistinct<T>(s: seq<T>, k: nat)
    requires k < |s| && forall i, j :: 0 <= i < j < |s| ==> s[i] != s[j]
    ensures Find(s, s[k]) == Some(k)
  {
  }

  /** Coherent names are pairwise different, because their hashes are. */
  lemma NamesDistinct(ns: Namespace)
    requires Coherent(ns)
    ensures forall i, j :: 0 <= i < j < |ns.names| ==> ns.names[i] != ns.names[j]
  {
  }

  lemma DefaultsAgree(ns: Namespace, name: Name)
    requires Coherent(ns)
    ensures DispatchDefault(ns, name) == TableDefault(ns, name)
  {
    hide Generated;
    NamesDistinct(ns);
    if name in ns.names {
      FindDistinct(ns.hashes, Find(ns.names, name).value);
    }
    assert forall k :: 0 <= k < |ns.names| ==> (SameBytes(name, ns.names[k]) <==> name == ns.names[k]);
  }

  /** Application identities stay above the protocol range and below 2^28. */
  lemma GeneratedRange(name: Name, tag: bv32)
    ensures 0x10000 <= Generated(name, tag) <= 0x0FFF_FFFF
  {
    hide NameHash;
    var h := NameHash(name, tag);
    FoldedAtLeast(h);
    FoldedAtMost(h);
    hide Folded;
  }

  lemma FoldedAtLeast(h: bv32)
    ensures 0x10000 <= (Folded(h) as int)
  {
  }

  lemma FoldedAtMost(h: bv32)
    ensures (Folded(h) as int) <= 0x0FFF_FFFF
  {
    BitsAtMost(h);
  }

  lemma BitsAtMost(h: bv32)
    ensures ((0x10000 | (h & MASK)) as int) <= 0x0FFF_FFFF
  {
  }

  lemma ProtocolNameIffReservedDefault(ns: Namespace, name: Name)
    requires Coherent(ns)
    ensures Reserved(ns, TableDefault(ns, name)) <==> name in ns.names
  {
  }

  /** The runtime's hash dispatch and the tool's name table resolve every name
      and every explicit identity alike. */
  lemma ResolversAgree(ns: Namespace, name: Name, explicit: Option<u32>)
    requires Coherent(ns)
    ensures DispatchResolve(ns, name, explicit) == TableResolve(ns, name, explicit)
  {
    hide TableDefault, DispatchDefault;
    DefaultsAgree(ns, name);
    ProtocolNameIffReservedDefault(ns, name);
  }

  // ---- what resolution promises ----

  /** Without an explicit identity every non-empty name resolves: a protocol
      name to its reserved identity, any other to its generated one. */
  lemma DefaultAlwaysResolves(ns: Namespace, name: Name)
    requires Coherent(ns) && name != []
    ensures TableResolve(ns, name, None) == Id(TableDefault(ns, name))
    ensures name !in ns.names ==> 0x10000 <= TableDefault(ns, name) <= 0x0FFF_FFFF
  {
  }

  /** A reserved identity is only ever given to the one name that owns it. */
  lemma ReservedHasOneOwner(ns: Namespace, a: Name, ea: Option<int>, b: Name, eb: Option<int>, v: int)
    requires Coherent(ns) && Reserved(ns, v)
    requires TableResolve(ns, a, ea) == Id(v) && TableResolve(ns, b, eb) == Id(v)
    ensures a == b && a == ns.names[v - ns.low]
  {
    hide Generated;
  }

  /** An identity that was returned is accepted when passed back explicitly. */
  lemma ResolvedIdIsAccepted(ns: Namespace, name: Name, explicit: Option<int>)
    requires Coherent(ns) && TableResolve(ns, name, explicit).Id?
    ensures TableResolve(ns, name, Some(TableResolve(ns, name, explicit).value))
         == TableResolve(ns, name, explicit)
  {
  }

  // ---- collisions ----

  /** Two hashes generate one identity exactly when they agree on the low 28
      bits, bit 16 aside. */
  lemma SharedIdentityIff(h: bv32, g: bv32)
    ensures Folded(h) == Folded(g) <==> (h ^ g) & 0x0FFE_FFFF == 0
  {
    if Folded(h) == Folded(g) {
      SharedIdentityOnlyIf(h, g);
    } else {
      SharedIdentityFrom(h, g);
    }
  }

  lemma SharedIdentityOnlyIf(h: bv32, g: bv32)
    requires Folded(h) == Folded(g)
    ensures (h ^ g) & 0x0FFE_FFFF == 0
  {
  }

  lemma SharedIdentityFrom(h: bv32, g: bv32)
    ensures (h ^ g) & 0x0FFE_FFFF == 0 ==> Folded(h) == Folded(g)
  {
  }

  lemma MixKeepsLowByteApart(h: bv32, g: bv32, b: bv8)
    requires h & 0xFF != g & 0xFF
    ensures Mix(h, b) & 0xFF != Mix(g, b) & 0xFF
  {
  }

  lemma MixSeparatesBytes(h: bv32, b: bv8, c: bv8)
    requires b != c
    ensures Mix(h, b) & 0xFF != Mix(h, c) & 0xFF
  {
  }

  /** `a` and `b` have the same length and differ in exactly one byte. */
  ghost predicate DifferAt(a: Name, b: Name, at: nat) {
    && |a| == |b| && at < |a| && a[at] != b[at]
    && forall i :: 0 <= i < |a| && i != at ==> a[i] == b[i]
  }

  lemma {:induction false} HashesPartAt(a: Name, b: Name, seed: bv32, at: nat, n: nat)
    requires DifferAt(a, b, at) && n <= |a|
    ensures n <= at ==> Hash(a, seed, n) == Hash(b, seed, n)
    ensures n > at ==> Hash(a, seed, n) & 0xFF != Hash(b, seed, n) & 0xFF
  {
    hide Mix;
    if n > 0 {
      HashesPartAt(a, b, seed, at, n - 1);
      var h, g := Hash(a, seed, n - 1), Hash(b, seed, n - 1);
      if n - 1 == at {
        MixSeparatesBytes(h, a[at], b[at]);
      } else if n - 1 > at {
        MixKeepsLowByteApart(h, g, a[n - 1]);
      }
    }
  }

  lemma LowByteSurvivesMask(h: bv32, g: bv32)
    requires h & 0xFF != g & 0xFF
    ensures (Folded(h) as int) != (Folded(g) as int)
  {
    LowByteShows(h, g);
    CastBack(Folded(h));
    CastBack(Folded(g));
  }

  lemma LowByteShows(h: bv32, g: bv32)
    requires h & 0xFF != g & 0xFF
    ensures Folded(h) != Folded(g)
  {
  }

  lemma CastBack(x: bv32)
    ensures ((x as int) as bv32) == x
  {
  }

  /** A one-byte slip never lands on the same identity: xor with a byte and
      multiplication by an odd number are bijections on the low byte. */
  lemma OneByteApartNeverCollide(ns: Namespace, a: Name, b: Name, at: nat)
    requires Coherent(ns) && DifferAt(a, b, at)
    ensures TableDefault(ns, a) != TableDefault(ns, b)
  {
    GeneratedPart(ns.tag, a, b, at);
    GeneratedRange(a, ns.tag);
    GeneratedRange(b, ns.tag);
    hide Generated;
  }

  lemma GeneratedPart(tag: bv32, a: Name, b: Name, at: nat)
    requires DifferAt(a, b, at)
    ensures Generated(a, tag) != Generated(b, tag)
  {
    HashesPartAt(a, b, Seed(tag), at, |a|);
    LowByteSurvivesMask(NameHash(a, tag), NameHash(b, tag));
  }
}
