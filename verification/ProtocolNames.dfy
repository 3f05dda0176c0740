/** The protocol's own names (the tables of schema_identity.py and
    src/schema_identity.rs), and that the identities both sides assume for
    them are the ones their bytes hash to. */
module ProtocolNames {
  import opened Prelude
  import opened SchemaIdentity

  const TYPE_TAG: bv32 := 0x5459
  const ENDPOINT_TAG: bv32 := 0x4550

  // ---- hashing a name word by word ----

  /** Up to five words, one after another. */
  function Spelled(a: Name, b: Name, c: Name, d: Name, e: Name): Name { a + (b + (c + (d + e))) }

  /** `h` after one byte, if the word has that byte. */
  function Next(h: bv32, word: Name, i: nat): bv32 { if i < |word| then Mix(h, word[i]) else h }

  /** `h` after a word of at most nine bytes. */
  function Absorb(h: bv32, word: Name): bv32 {
    var h3 := Next(Next(Next(h, word, 0), word, 1), word, 2);
    var h6 := Next(Next(Next(h3, word, 3), word, 4), word, 5);
    Next(Next(Next(h6, word, 6), word, 7), word, 8)
  }

  lemma {:induction false} HashConcat(a: Name, b: Name, seed: bv32, n: nat)
    requires n <= |b|
    ensures Hash(a + b, seed, |a| + n) == Hash(b, Hash(a, seed, |a|), n)
  {
    hide Mix;
    if n == 0 {
      HashPrefix(a, b, seed, |a|);
    } else {
      HashConcat(a, b, seed, n - 1);
    }
  }

  lemma {:induction false} HashPrefix(a: Name, b: Name, seed: bv32, n: nat)
    requires n <= |a|
    ensures Hash(a + b, seed, n) == Hash(a, seed, n)
  {
    hide Mix;
    if n > 0 {
      HashPrefix(a, b, seed, n - 1);
    }
  }

  lemma WordHash(word: Name, h: bv32)
    requires |word| <= 9
    ensures Hash(word, h, |word|) == Absorb(h, word)
  {
    hide Mix;
    HashUpTo(word, h, Min(3, |word|));
    HashUpTo(word, h, Min(6, |word|));
    HashUpTo(word, h, |word|);
  }

  lemma HashUpTo(word: Name, h: bv32, n: nat)
    requires n <= |word|
    ensures n >= 3 ==> Hash(word, h, n) == Mix(Mix(Mix(Hash(word, h, n - 3), word[n - 3]), word[n - 2]), word[n - 1])
    ensures n == 2 ==> Hash(word, h, n) == Mix(Mix(h, word[0]), word[1])
    ensures n == 1 ==> Hash(word, h, n) == Mix(h, word[0])
  {
    hide Mix;
    if n >= 2 {
      assert Hash(word, h, n - 1) == Mix(Hash(word, h, n - 2), word[n - 2]);
    }
    if n >= 3 {
      assert Hash(word, h, n - 2) == Mix(Hash(word, h, n - 3), word[n - 3]);
    }
  }

  lemma WordThenRest(word: Name, rest: Name, seed: bv32)
    requires |word| <= 9
    ensures Hash(word + rest, seed, |word + rest|) == Hash(rest, Absorb(seed, word), |rest|)
  {
    hide Hash, Absorb;
    WordHash(word, seed);
    HashConcat(word, rest, seed, |rest|);
  }

  lemma SpelledHash(a: Name, b: Name, c: Name, d: Name, e: Name, seed: bv32)
    requires |a| <= 9 && |b| <= 9 && |c| <= 9 && |d| <= 9 && |e| <= 9
    ensures var name := Spelled(a, b, c, d, e);
            Hash(name, seed, |name|) == Absorb(Absorb(Absorb(Absorb(Absorb(seed, a), b), c), d), e)
  {
    hide Hash, Absorb;
    var h := Absorb(seed, a);
    WordThenRest(a, b + (c + (d + e)), seed);
    WordThenRest(b, c + (d + e), h);
    WordThenRest(c, d + e, Absorb(h, b));
    WordThenRest(d, e, Absorb(Absorb(h, b), c));
    WordHash(e, Absorb(Absorb(Absorb(h, b), c), d));
  }

  // ---- the words and the names ----

  const SEDSNET: Name := [0x53, 0x45, 0x44, 0x53, 0x4e, 0x45, 0x54, 0x5f]  // SEDSNET_
  const ERROR: Name := [0x45, 0x52, 0x52, 0x4f, 0x52]  // ERROR
  const RELIABLE: Name := [0x52, 0x45, 0x4c, 0x49, 0x41, 0x42, 0x4c, 0x45]  // RELIABLE
  const TIME_SYNC: Name := [0x54, 0x49, 0x4d, 0x45, 0x5f, 0x53, 0x59, 0x4e, 0x43]  // TIME_SYNC
  const DISCOVERY: Name := [0x44, 0x49, 0x53, 0x43, 0x4f, 0x56, 0x45, 0x52, 0x59]  // DISCOVERY
  const MANAGED: Name := [0x4d, 0x41, 0x4e, 0x41, 0x47, 0x45, 0x44]  // MANAGED
  const P2P: Name := [0x50, 0x32, 0x50]  // P2P
  const ACK: Name := [0x5f, 0x41, 0x43, 0x4b]  // _ACK
  const PACKET: Name := [0x5f, 0x50, 0x41, 0x43, 0x4b, 0x45, 0x54]  // _PACKET
  const REQUEST: Name := [0x5f, 0x52, 0x45, 0x51, 0x55, 0x45, 0x53, 0x54]  // _REQUEST
  const PARTIAL: Name := [0x5f, 0x50, 0x41, 0x52, 0x54, 0x49, 0x41, 0x4c]  // _PARTIAL
  const ANNOUNCE: Name := [0x5f, 0x41, 0x4e, 0x4e, 0x4f, 0x55, 0x4e, 0x43, 0x45]  // _ANNOUNCE
  const RESPONSE: Name := [0x5f, 0x52, 0x45, 0x53, 0x50, 0x4f, 0x4e, 0x53, 0x45]  // _RESPONSE
  const TIMESYNC: Name := [0x5f, 0x54, 0x49, 0x4d, 0x45, 0x53, 0x59, 0x4e, 0x43]  // _TIMESYNC
  const SOURCES: Name := [0x5f, 0x53, 0x4f, 0x55, 0x52, 0x43, 0x45, 0x53]  // _SOURCES
  const TOPOLOGY: Name := [0x5f, 0x54, 0x4f, 0x50, 0x4f, 0x4c, 0x4f, 0x47, 0x59]  // _TOPOLOGY
  const SCHEMA: Name := [0x5f, 0x53, 0x43, 0x48, 0x45, 0x4d, 0x41]  // _SCHEMA
  const VARIABLE: Name := [0x5f, 0x56, 0x41, 0x52, 0x49, 0x41, 0x42, 0x4c, 0x45]  // _VARIABLE
  const VALUE: Name := [0x5f, 0x56, 0x41, 0x4c, 0x55, 0x45]  // _VALUE
  const LEAVE: Name := [0x5f, 0x4c, 0x45, 0x41, 0x56, 0x45]  // _LEAVE
  const LINK: Name := [0x5f, 0x4c, 0x49, 0x4e, 0x4b]  // _LINK
  const CAPABIL: Name := [0x5f, 0x43, 0x41, 0x50, 0x41, 0x42, 0x49, 0x4c]  // _CAPABIL
  const ITIES: Name := [0x49, 0x54, 0x49, 0x45, 0x53]  // ITIES
  const ADDRESS: Name := [0x5f, 0x41, 0x44, 0x44, 0x52, 0x45, 0x53, 0x53]  // _ADDRESS
  const MESSAGE: Name := [0x5f, 0x4d, 0x45, 0x53, 0x53, 0x41, 0x47, 0x45]  // _MESSAGE

  function Error(): Name { Spelled(SEDSNET, ERROR, [], [], []) }
  function ReliableAck(): Name { Spelled(SEDSNET, RELIABLE, ACK, [], []) }
  function ReliablePacketRequest(): Name { Spelled(SEDSNET, RELIABLE, PACKET, REQUEST, []) }
  function ReliablePartialAck(): Name { Spelled(SEDSNET, RELIABLE, PARTIAL, ACK, []) }
  function TimeSyncAnnounce(): Name { Spelled(SEDSNET, TIME_SYNC, ANNOUNCE, [], []) }
  function TimeSyncRequest(): Name { Spelled(SEDSNET, TIME_SYNC, REQUEST, [], []) }
  function TimeSyncResponse(): Name { Spelled(SEDSNET, TIME_SYNC, RESPONSE, [], []) }
  function DiscoveryAnnounce(): Name { Spelled(SEDSNET, DISCOVERY, ANNOUNCE, [], []) }
  function DiscoveryTimesyncSources(): Name { Spelled(SEDSNET, DISCOVERY, TIMESYNC, SOURCES, []) }
  function DiscoveryTopology(): Name { Spelled(SEDSNET, DISCOVERY, TOPOLOGY, [], []) }
  function DiscoverySchema(): Name { Spelled(SEDSNET, DISCOVERY, SCHEMA, [], []) }
  function DiscoveryTopologyRequest(): Name { Spelled(SEDSNET, DISCOVERY, TOPOLOGY, REQUEST, []) }
  function DiscoverySchemaRequest(): Name { Spelled(SEDSNET, DISCOVERY, SCHEMA, REQUEST, []) }
  function ManagedVariableRequest(): Name { Spelled(SEDSNET, MANAGED, VARIABLE, REQUEST, []) }
  function ManagedVariableValue(): Name { Spelled(SEDSNET, MANAGED, VARIABLE, VALUE, []) }
  function DiscoveryLeave(): Name { Spelled(SEDSNET, DISCOVERY, LEAVE, [], []) }
  function DiscoveryLinkCapabilities(): Name { Spelled(SEDSNET, DISCOVERY, LINK, CAPABIL, ITIES) }
  function DiscoveryAddress(): Name { Spelled(SEDSNET, DISCOVERY, ADDRESS, [], []) }
  function P2pMessage(): Name { Spelled(SEDSNET, P2P, MESSAGE, [], []) }
  function TimeSync(): Name { Spelled(SEDSNET, TIME_SYNC, [], [], []) }
  function Discovery(): Name { Spelled(SEDSNET, DISCOVERY, [], [], []) }

  lemma TypeError()
    ensures Generated(Error(), TYPE_TAG) == 58436129
  {
    hide Hash;
    SpelledHash(SEDSNET, ERROR, [], [], [], Seed(TYPE_TAG));
  }

  lemma TypeReliableAck()
    ensures Generated(ReliableAck(), TYPE_TAG) == 106117325
  {
    hide Hash;
    SpelledHash(SEDSNET, RELIABLE, ACK, [], [], Seed(TYPE_TAG));
  }

  lemma TypeReliablePacketRequest()
    ensures Generated(ReliablePacketRequest(), TYPE_TAG) == 196062750
  {
    hide Hash;
    SpelledHash(SEDSNET, RELIABLE, PACKET, REQUEST, [], Seed(TYPE_TAG));
  }

  lemma TypeReliablePartialAck()
    ensures Generated(ReliablePartialAck(), TYPE_TAG) == 148884243
  {
    hide Hash;
    SpelledHash(SEDSNET, RELIABLE, PARTIAL, ACK, [], Seed(TYPE_TAG));
  }

  lemma TypeTimeSyncAnnounce()
    ensures Generated(TimeSyncAnnounce(), TYPE_TAG) == 109685708
  {
    hide Hash;
    SpelledHash(SEDSNET, TIME_SYNC, ANNOUNCE, [], [], Seed(TYPE_TAG));
  }

  lemma TypeTimeSyncRequest()
    ensures Generated(TimeSyncRequest(), TYPE_TAG) == 170500828
  {
    hide Hash;
    SpelledHash(SEDSNET, TIME_SYNC, REQUEST, [], [], Seed(TYPE_TAG));
  }

  lemma TypeTimeSyncResponse()
    ensures Generated(TimeSyncResponse(), TYPE_TAG) == 205765904
  {
    hide Hash;
    SpelledHash(SEDSNET, TIME_SYNC, RESPONSE, [], [], Seed(TYPE_TAG));
  }

  lemma TypeDiscoveryAnnounce()
    ensures Generated(DiscoveryAnnounce(), TYPE_TAG) == 30659965
  {
    hide Hash;
    SpelledHash(SEDSNET, DISCOVERY, ANNOUNCE, [], [], Seed(TYPE_TAG));
  }

  lemma TypeDiscoveryTimesyncSources()
    ensures Generated(DiscoveryTimesyncSources(), TYPE_TAG) == 235996729
  {
    hide Hash;
    SpelledHash(SEDSNET, DISCOVERY, TIMESYNC, SOURCES, [], Seed(TYPE_TAG));
  }

  lemma TypeDiscoveryTopology()
    ensures Generated(DiscoveryTopology(), TYPE_TAG) == 240880835
  {
    hide Hash;
    SpelledHash(SEDSNET, DISCOVERY, TOPOLOGY, [], [], Seed(TYPE_TAG));
  }

  lemma TypeDiscoverySchema()
    ensures Generated(DiscoverySchema(), TYPE_TAG) == 180082409
  {
    hide Hash;
    SpelledHash(SEDSNET, DISCOVERY, SCHEMA, [], [], Seed(TYPE_TAG));
  }

  lemma TypeDiscoveryTopologyRequest()
    ensures Generated(DiscoveryTopologyRequest(), TYPE_TAG) == 9124173
  {
    hide Hash;
    SpelledHash(SEDSNET, DISCOVERY, TOPOLOGY, REQUEST, [], Seed(TYPE_TAG));
  }

  lemma TypeDiscoverySchemaRequest()
    ensures Generated(DiscoverySchemaRequest(), TYPE_TAG) == 259220559
  {
    hide Hash;
    SpelledHash(SEDSNET, DISCOVERY, SCHEMA, REQUEST, [], Seed(TYPE_TAG));
  }

  lemma TypeManagedVariableRequest()
    ensures Generated(ManagedVariableRequest(), TYPE_TAG) == 190130393
  {
    hide Hash;
    SpelledHash(SEDSNET, MANAGED, VARIABLE, REQUEST, [], Seed(TYPE_TAG));
  }

  lemma TypeManagedVariableValue()
    ensures Generated(ManagedVariableValue(), TYPE_TAG) == 148495321
  {
    hide Hash;
    SpelledHash(SEDSNET, MANAGED, VARIABLE, VALUE, [], Seed(TYPE_TAG));
  }

  lemma TypeDiscoveryLeave()
    ensures Generated(DiscoveryLeave(), TYPE_TAG) == 79804237
  {
    hide Hash;
    SpelledHash(SEDSNET, DISCOVERY, LEAVE, [], [], Seed(TYPE_TAG));
  }

  lemma TypeDiscoveryLinkCapabilities()
    ensures Generated(DiscoveryLinkCapabilities(), TYPE_TAG) == 155796665
  {
    hide Hash;
    SpelledHash(SEDSNET, DISCOVERY, LINK, CAPABIL, ITIES, Seed(TYPE_TAG));
  }

  lemma TypeDiscoveryAddress()
    ensures Generated(DiscoveryAddress(), TYPE_TAG) == 133165958
  {
    hide Hash;
    SpelledHash(SEDSNET, DISCOVERY, ADDRESS, [], [], Seed(TYPE_TAG));
  }

  lemma TypeP2pMessage()
    ensures Generated(P2pMessage(), TYPE_TAG) == 32457485
  {
    hide Hash;
    SpelledHash(SEDSNET, P2P, MESSAGE, [], [], Seed(TYPE_TAG));
  }

  lemma EndpointTimeSync()
    ensures Generated(TimeSync(), ENDPOINT_TAG) == 108886069
  {
    hide Hash;
    SpelledHash(SEDSNET, TIME_SYNC, [], [], [], Seed(ENDPOINT_TAG));
  }

  lemma EndpointDiscovery()
    ensures Generated(Discovery(), ENDPOINT_TAG) == 216355494
  {
    hide Hash;
    SpelledHash(SEDSNET, DISCOVERY, [], [], [], Seed(ENDPOINT_TAG));
  }

  lemma EndpointError()
    ensures Generated(Error(), ENDPOINT_TAG) == 179412986
  {
    hide Hash;
    SpelledHash(SEDSNET, ERROR, [], [], [], Seed(ENDPOINT_TAG));
  }

  // ---- the tables ----

  /** Data types: name `k` owns identity `k`. */
  function Types(): Namespace {
    Namespace(TYPE_TAG, 0,
              [Error(), ReliableAck(), ReliablePacketRequest(), ReliablePartialAck(), TimeSyncAnnounce(),
               TimeSyncRequest(), TimeSyncResponse(), DiscoveryAnnounce(), DiscoveryTimesyncSources(),
               DiscoveryTopology(), DiscoverySchema(), DiscoveryTopologyRequest(), DiscoverySchemaRequest(),
               ManagedVariableRequest(), ManagedVariableValue(), DiscoveryLeave(), DiscoveryLinkCapabilities(),
               DiscoveryAddress(), P2pMessage()],
              [58436129, 106117325, 196062750, 148884243, 109685708, 170500828, 205765904, 30659965, 235996729,
               240880835, 180082409, 9124173, 259220559, 190130393, 148495321, 79804237, 155796665, 133165958,
               32457485])
  }

  /** Endpoints: name `k` owns identity `200 + k`. */
  function Endpoints(): Namespace {
    Namespace(ENDPOINT_TAG, 200, [TimeSync(), Discovery(), Error()], [108886069, 216355494, 179412986])
  }

  function Table(endpoint: bool): (ns: Namespace)
    ensures |ns.hashes| == |ns.names| && ns.low + |ns.names| <= 0x10000
  {
    if endpoint then Endpoints() else Types()
  }

  lemma TypeHashesDiffer()
    ensures forall i, j :: 0 <= i < j < |Types().hashes| ==> Types().hashes[i] != Types().hashes[j]
  {
    hide Spelled;
  }

  lemma TypesHash(k: nat)
    requires k < |Types().names|
    ensures Generated(Types().names[k], TYPE_TAG) == Types().hashes[k]
  {
    hide Generated, Spelled;
    if k == 0 {
      TypeError();
    } else if k == 1 {
      TypeReliableAck();
    } else if k == 2 {
      TypeReliablePacketRequest();
    } else if k == 3 {
      TypeReliablePartialAck();
    } else if k == 4 {
      TypeTimeSyncAnnounce();
    } else if k == 5 {
      TypeTimeSyncRequest();
    } else if k == 6 {
      TypeTimeSyncResponse();
    } else if k == 7 {
      TypeDiscoveryAnnounce();
    } else if k == 8 {
      TypeDiscoveryTimesyncSources();
    } else if k == 9 {
      TypeDiscoveryTopology();
    } else if k == 10 {
      TypeDiscoverySchema();
    } else if k == 11 {
      TypeDiscoveryTopologyRequest();
    } else if k == 12 {
      TypeDiscoverySchemaRequest();
    } else if k == 13 {
      TypeManagedVariableRequest();
    } else if k == 14 {
      TypeManagedVariableValue();
    } else if k == 15 {
      TypeDiscoveryLeave();
    } else if k == 16 {
      TypeDiscoveryLinkCapabilities();
    } else if k == 17 {
      TypeDiscoveryAddress();
    } else {
      TypeP2pMessage();
    }
  }

  lemma EndpointsHash(k: nat)
    requires k < |Endpoints().names|
    ensures Generated(Endpoints().names[k], ENDPOINT_TAG) == Endpoints().hashes[k]
  {
    hide Generated, Spelled;
    EndpointTimeSync();
    EndpointDiscovery();
    EndpointError();
  }

  lemma EndpointHashesDiffer()
    ensures forall i, j :: 0 <= i < j < |Endpoints().hashes| ==> Endpoints().hashes[i] != Endpoints().hashes[j]
  {
    hide Spelled;
  }

  lemma TableHashes(endpoint: bool)
    ensures forall k :: 0 <= k < |Table(endpoint).names| && k < |Table(endpoint).hashes| ==>
              Generated(Table(endpoint).names[k], Table(endpoint).tag) == Table(endpoint).hashes[k]
  {
    var ns := Table(endpoint);
    assert ns.tag == if endpoint then ENDPOINT_TAG else TYPE_TAG;
    hide Generated, Types, Endpoints;
    forall k | 0 <= k < |ns.names| && k < |ns.hashes|
      ensures Generated(ns.names[k], ns.tag) == ns.hashes[k]
    {
      if endpoint {
        EndpointsHash(k);
      } else {
        TypesHash(k);
      }
    }
  }

  lemma HashesDiffer(endpoint: bool)
    ensures var ns := Table(endpoint);
            forall i, j :: 0 <= i < j < |ns.hashes| ==> ns.hashes[i] != ns.hashes[j]
  {
    hide Types, Endpoints;
    if endpoint {
      EndpointHashesDiffer();
    } else {
      TypeHashesDiffer();
    }
  }

  /** The dispatch constants of both namespaces are the hashes of the names they
      stand for, no two alike, and every reserved identity lies below the
      generated ones. */
  lemma TablesAreCoherent(endpoint: bool)
    ensures Coherent(Table(endpoint))
  {
    hide Generated, Table;
    TableHashes(endpoint);
    HashesDiffer(endpoint);
    NamesAreNotEmpty(endpoint);
  }

  lemma NamesAreNotEmpty(endpoint: bool)
    ensures forall k :: 0 <= k < |Table(endpoint).names| ==> Table(endpoint).names[k] != []
  {
  }

  /** For every name and every explicit identity, in either namespace, the
      generator's resolution and the firmware's are the same. */
  lemma EveryNameResolvesAlike(endpoint: bool, name: Name, explicit: Option<u32>)
    ensures DispatchResolve(Table(endpoint), name, explicit) == TableResolve(Table(endpoint), name, explicit)
  {
    hide DispatchResolve, TableResolve, Table, Coherent;
    TablesAreCoherent(endpoint);
    ResolversAgree(Table(endpoint), name, explicit);
  }

  // ---- the identities themselves ----

  function TypeId(name: Name): int { DispatchDefault(Types(), name) }

  function EndpointId(name: Name): int { DispatchDefault(Endpoints(), name) }

  lemma OwnsIdentity(endpoint: bool, k: nat)
    requires k < |Table(endpoint).names|
    ensures DispatchDefault(Table(endpoint), Table(endpoint).names[k]) == Table(endpoint).low + k
  {
    hide Generated, Table, DispatchDefault;
    TablesAreCoherent(endpoint);
    NamesDistinct(Table(endpoint));
    FindDistinct(Table(endpoint).names, k);
    DefaultsAgree(Table(endpoint), Table(endpoint).names[k]);
  }

  lemma OwnsType(name: Name, k: nat)
    requires k < 19 && Types().names[k] == name
    ensures TypeId(name) == k
  {
    hide DispatchDefault, Spelled;
    OwnsIdentity(false, k);
  }

  /** Every protocol data type, by name. */
  lemma TypeIdentities()
    ensures TypeId(Error()) == 0 && TypeId(ReliableAck()) == 1
    ensures TypeId(ReliablePacketRequest()) == 2 && TypeId(ReliablePartialAck()) == 3
    ensures TypeId(TimeSyncAnnounce()) == 4 && TypeId(TimeSyncRequest()) == 5
    ensures TypeId(TimeSyncResponse()) == 6 && TypeId(DiscoveryAnnounce()) == 7
    ensures TypeId(DiscoveryTimesyncSources()) == 8 && TypeId(DiscoveryTopology()) == 9
    ensures TypeId(DiscoverySchema()) == 10 && TypeId(DiscoveryTopologyRequest()) == 11
    ensures TypeId(DiscoverySchemaRequest()) == 12 && TypeId(ManagedVariableRequest()) == 13
    ensures TypeId(ManagedVariableValue()) == 14 && TypeId(DiscoveryLeave()) == 15
    ensures TypeId(DiscoveryLinkCapabilities()) == 16 && TypeId(DiscoveryAddress()) == 17
    ensures TypeId(P2pMessage()) == 18
  {
    hide TypeId, Spelled;
    OwnsType(Error(), 0);
    OwnsType(ReliableAck(), 1);
    OwnsType(ReliablePacketRequest(), 2);
    OwnsType(ReliablePartialAck(), 3);
    OwnsType(TimeSyncAnnounce(), 4);
    OwnsType(TimeSyncRequest(), 5);
    OwnsType(TimeSyncResponse(), 6);
    OwnsType(DiscoveryAnnounce(), 7);
    OwnsType(DiscoveryTimesyncSources(), 8);
    OwnsType(DiscoveryTopology(), 9);
    OwnsType(DiscoverySchema(), 10);
    OwnsType(DiscoveryTopologyRequest(), 11);
    OwnsType(DiscoverySchemaRequest(), 12);
    OwnsType(ManagedVariableRequest(), 13);
    OwnsType(ManagedVariableValue(), 14);
    OwnsType(DiscoveryLeave(), 15);
    OwnsType(DiscoveryLinkCapabilities(), 16);
    OwnsType(DiscoveryAddress(), 17);
    OwnsType(P2pMessage(), 18);
  }

  /** Every protocol endpoint, by name. */
  lemma EndpointIdentities()
    ensures EndpointId(TimeSync()) == 200 && EndpointId(Discovery()) == 201 && EndpointId(Error()) == 202
  {
    hide DispatchDefault, Spelled;
    OwnsIdentity(true, 0);
    OwnsIdentity(true, 1);
    OwnsIdentity(true, 2);
  }

  /** The identities set aside for the protocol. */
  predicate ProtocolId(endpoint: bool, id: int) { if endpoint then 200 <= id <= 202 else 0 <= id <= 18 }

  /** An application name may have any identity of its own outside the protocol's,
      and a protocol name only the one it has anyway. */
  lemma ExplicitIsHonouredIff(endpoint: bool, name: Name, id: u32)
    requires name != []
    ensures DispatchResolve(Table(endpoint), name, Some(id)) ==
      if name in Table(endpoint).names
      then (if id == DispatchDefault(Table(endpoint), name) then Id(id) else Rejected)
      else (if ProtocolId(endpoint, id) then Rejected else Id(id))
  {
    ReservedAreProtocolIds(endpoint, id);
    hide Generated, Table, Reserved;
    TablesAreCoherent(endpoint);
    EveryNameResolvesAlike(endpoint, name, Some(id));
    DefaultsAgree(Table(endpoint), name);
    hide DispatchResolve, DispatchDefault, TableDefault, Coherent;
  }

  lemma ReservedAreProtocolIds(endpoint: bool, id: int)
    ensures Reserved(Table(endpoint), id) <==> ProtocolId(endpoint, id)
  {
    hide Spelled;
  }
}
