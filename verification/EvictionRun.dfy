/** Whole eviction runs: what any number of selector calls that share one
    `selected` cell, each followed by removing the returned index, do to the
    queue. */
module EvictionRun {
  import opened Prelude
  import opened LoadTable
  import opened LoadHistory
  import opened AdmissionFairness

  datatype Pressure = Pressure(queue: seq<Item>, selected: Option<u32>, evicted: seq<Item>)

  /** The admission loop's own priority guard on the item it is told to evict. */
  predicate Outranks(queued: Item, incoming: Item) {
    queued.priority > incoming.priority || (incoming.priority == 254 && queued.priority == incoming.priority)
  }

  /** One turn of the admission loop: select, check, remove. */
  function Evict(p: Pressure, incoming: Item): Option<Pressure> {
    var (index, chosen) := Victim(p.queue, incoming, p.selected);
    if index.None? || Outranks(p.queue[index.value], incoming) then None
    else Some(Pressure(Without(p.queue, index.value), chosen, p.evicted + [p.queue[index.value]]))
  }

  /** The state after exactly `n` evictions for `incoming`, if the selector
      yields that many. */
  function Run(queue: seq<Item>, incoming: Item, n: nat): Option<Pressure> {
    if n == 0 then Some(Pressure(queue, None, []))
    else
      var p := Run(queue, incoming, n - 1);
      if p.Some? then Evict(p.value, incoming) else None
  }

  lemma RunStart(queue: seq<Item>, incoming: Item)
    ensures Run(queue, incoming, 0) == Some(Pressure(queue, None, []))
  {
  }

  lemma {:induction false} RunUnfolds(queue: seq<Item>, incoming: Item, n: nat)
    requires n > 0 && Run(queue, incoming, n).Some?
    ensures Run(queue, incoming, n - 1).Some?
    ensures Evict(Run(queue, incoming, n - 1).value, incoming) == Run(queue, incoming, n)
  {
  }

  function OfOwner(limit: u8, owner: u32): Item -> bool {
    (it: Item) => Evictable(it, limit, owner)
  }

  /** Everything a run against `owner` must leave alone. */
  function Spared(limit: u8, owner: u32): Item -> bool {
    (it: Item) => !Evictable(it, limit, owner)
  }

  function OfStream(limit: u8, owner: u32, stream: Option<u32>): Item -> bool {
    (it: Item) => Evictable(it, limit, owner) && it.stream == stream
  }

  function Held(queue: seq<Item>, limit: u8, owner: u32): nat {
    |Filter(OfOwner(limit, owner), queue)|
  }

  // ---- the scratch tables count what the filters keep ----

  lemma {:induction false} FilterLast<T>(keep: T -> bool, s: seq<T>)
    requires s != []
    ensures Filter(keep, s)
         == if keep(s[|s| - 1]) then Filter(keep, s[..|s| - 1]) + [s[|s| - 1]] else Filter(keep, s[..|s| - 1])
  {
    FilterSplit(keep, s, |s| - 1);
    assert Filter(keep, s[|s|..]) == [];
  }

  lemma {:induction false} OwnerLogCounts(queue: seq<Item>, limit: u8, owner: u32)
    ensures Count(OwnerLog(queue, limit), owner) == Held(queue, limit, owner)
  {
    if queue != [] {
      var n := |queue| - 1;
      OwnerLogCounts(queue[..n], limit, owner);
      FilterLast(OfOwner(limit, owner), queue);
      assert OwnerLog(queue, limit)[..|OwnerLog(queue[..n], limit)|] == OwnerLog(queue[..n], limit);
    }
  }

  lemma {:induction false} StreamLogCounts(queue: seq<Item>, limit: u8, owner: u32, stream: u32)
    ensures Count(StreamLog(queue, limit, owner), stream) == |Filter(OfStream(limit, owner, Some(stream)), queue)|
  {
    if queue != [] {
      var n := |queue| - 1;
      StreamLogCounts(queue[..n], limit, owner, stream);
      FilterLast(OfStream(limit, owner, Some(stream)), queue);
      var log := StreamLog(queue[..n], limit, owner);
      assert StreamLog(queue, limit, owner)[..|log|] == log;
    }
  }

  lemma BytesLast(s: seq<Item>, x: Item)
    ensures Bytes(s + [x]) == Bytes(s) + x.cost
  {
    BytesConcat(s, [x]);
  }

  lemma BytesOfNone()
    ensures Bytes([]) == 0
  {
  }

  lemma TotalLast(log: seq<Entry>, e: Entry, sender: u32)
    ensures Total(log + [e], sender) == Total(log, sender) + if e.sender == sender then e.bytes else 0
  {
    assert (log + [e])[..|log|] == log;
  }

  lemma {:induction false} OwnerLogTotals(queue: seq<Item>, limit: u8, owner: u32)
    ensures Total(OwnerLog(queue, limit), owner) == Bytes(Filter(OfOwner(limit, owner), queue))
  {
    if queue == [] {
      BytesOfNone();
    } else {
      hide Bytes, Total, Filter;
      var n := |queue| - 1;
      var it := queue[n];
      OwnerLogTotals(queue[..n], limit, owner);
      FilterLast(OfOwner(limit, owner), queue);
      BytesLast(Filter(OfOwner(limit, owner), queue[..n]), it);
      if it.owner.Some? {
        TotalLast(OwnerLog(queue[..n], limit), Entry(it.owner.value, it.cost), owner);
      }
    }
  }

  lemma {:induction false} StreamLogTotals(queue: seq<Item>, limit: u8, owner: u32, stream: u32)
    ensures Total(StreamLog(queue, limit, owner), stream)
         == Bytes(Filter(OfStream(limit, owner, Some(stream)), queue))
  {
    if queue == [] {
      BytesOfNone();
    } else {
      hide Bytes, Total, Filter;
      var n, keep := |queue| - 1, OfStream(limit, owner, Some(stream));
      var it := queue[n];
      StreamLogTotals(queue[..n], limit, owner, stream);
      FilterLast(keep, queue);
      BytesLast(Filter(keep, queue[..n]), it);
      if it.stream.Some? {
        TotalLast(StreamLog(queue[..n], limit, owner), Entry(it.stream.value, it.cost), stream);
      }
    }
  }

  lemma {:induction false} FilterWitness<T>(keep: T -> bool, s: seq<T>)
    requires Filter(keep, s) != []
    ensures exists i :: 0 <= i < |s| && keep(s[i])
  {
    FilterMember(keep, s, Filter(keep, s)[0]);
  }

  // ---- one call ----

  /** A fresh choice names a sender with at least two evictable items, or the
      incoming sender with at least one. */
  lemma {:induction false} FreshChoice(queue: seq<Item>, incoming: Item)
    requires incoming.owner.Some? && ChooseOwner(queue, incoming, None).Some?
    ensures var owner := ChooseOwner(queue, incoming, None).value;
      && Held(queue, incoming.priority, owner) >= 1
      && (Held(queue, incoming.priority, owner) >= 2 || Some(owner) == incoming.owner)
  {
    var log := OwnerLog(queue, incoming.priority);
    CatalogRefinesMap(log);
    QueueVictimOfHistory(log, incoming.owner);
    OwnerLogCounts(queue, incoming.priority, ChooseOwner(queue, incoming, None).value);
  }

  /** The owner's queued bytes at or below `limit`, as the table caps them. */
  function Weight(queue: seq<Item>, limit: u8, owner: u32): nat {
    Capped(Bytes(Filter(OfOwner(limit, owner), queue)))
  }

  /** Told from the queue: the owner a fresh choice sheds holds at least two
      evictable items if any owner does, and then no such owner holds more bytes. */
  lemma {:induction false} ShedOwnerIsHeaviest(queue: seq<Item>, incoming: Item, other: u32)
    requires incoming.owner.Some? && ChooseOwner(queue, incoming, None).Some?
    requires Held(queue, incoming.priority, other) >= 2
    ensures var owner := ChooseOwner(queue, incoming, None).value;
      && Held(queue, incoming.priority, owner) >= 2
      && Weight(queue, incoming.priority, other) <= Weight(queue, incoming.priority, owner)
  {
    hide Catalog, QueueVictim, Bytes, Filter;
    var log := OwnerLog(queue, incoming.priority);
    var owner := ChooseOwner(queue, incoming, None).value;
    NamedWithinTable(log, incoming.owner);
    QueueVictimOfHistory(log, incoming.owner);
    OwnerLogCounts(queue, incoming.priority, owner);
    OwnerLogCounts(queue, incoming.priority, other);
    OwnerLogTotals(queue, incoming.priority, owner);
    OwnerLogTotals(queue, incoming.priority, other);
  }

  lemma NamedWithinTable(log: seq<Entry>, incoming: Option<u32>)
    requires QueueVictim(Catalog(log), incoming).Some?
    ensures |Seen(log)| <= SLOTS
  {
    hide Catalog;
    if |Seen(log)| > SLOTS {
      SelectorsRefuseBeyondCatalogue(log, incoming, 0);
    }
  }

  /** The same of the stream it sheds within that owner. */
  lemma {:induction false} ShedStreamIsHeaviest(queue: seq<Item>, incoming: Item, owner: u32, other: u32)
    requires incoming.owner.Some? && ChooseStream(queue, incoming, owner).Some?
    requires |Filter(OfStream(incoming.priority, owner, Some(other)), queue)| >= 2
    ensures var shed, rest := OfStream(incoming.priority, owner, ChooseStream(queue, incoming, owner)),
                              OfStream(incoming.priority, owner, Some(other));
      && |Filter(shed, queue)| >= 2
      && Capped(Bytes(Filter(rest, queue))) <= Capped(Bytes(Filter(shed, queue)))
  {
    hide Catalog, QueueVictim, Bytes, Filter;
    var log := StreamLog(queue, incoming.priority, owner);
    var own := if owner == incoming.owner.value then incoming.stream else None;
    var shed := ChooseStream(queue, incoming, owner).value;
    NamedWithinTable(log, own);
    QueueVictimOfHistory(log, own);
    StreamLogCounts(queue, incoming.priority, owner, shed);
    StreamLogCounts(queue, incoming.priority, owner, other);
    StreamLogTotals(queue, incoming.priority, owner, shed);
    StreamLogTotals(queue, incoming.priority, owner, other);
  }

  /** The chosen stream, when there is one, has an evictable item. */
  lemma {:induction false} StreamHasCandidate(queue: seq<Item>, incoming: Item, owner: u32)
    requires incoming.owner.Some? && ChooseStream(queue, incoming, owner).Some?
    ensures Filter(OfStream(incoming.priority, owner, ChooseStream(queue, incoming, owner)), queue) != []
  {
    var log := StreamLog(queue, incoming.priority, owner);
    CatalogRefinesMap(log);
    QueueVictimOfHistory(log, if owner == incoming.owner.value then incoming.stream else None);
    StreamLogCounts(queue, incoming.priority, owner, ChooseStream(queue, incoming, owner).value);
  }

  /** The selector finds an index exactly while the owner has evictable items. */
  lemma {:induction false} IndexExistsIffHeld(queue: seq<Item>, incoming: Item, owner: u32)
    requires incoming.owner.Some?
    ensures ChooseIndex(queue, incoming, owner).Some? <==> Held(queue, incoming.priority, owner) > 0
  {
    var limit := incoming.priority;
    var stream := ChooseStream(queue, incoming, owner);
    var keep := Candidates(limit, owner, stream);
    if Held(queue, limit, owner) > 0 {
      if stream.Some? {
        StreamHasCandidate(queue, incoming, owner);
        FilterWitness(OfStream(limit, owner, stream), queue);
        var i :| 0 <= i < |queue| && OfStream(limit, owner, stream)(queue[i]);
        assert keep(queue[i]);
      } else {
        FilterWitness(OfOwner(limit, owner), queue);
        var i :| 0 <= i < |queue| && OfOwner(limit, owner)(queue[i]);
        assert keep(queue[i]);
      }
    } else if Lowest(queue, keep).Some? {
      var i := Lowest(queue, keep).value;
      FilterMember(OfOwner(limit, owner), queue, queue[i]);
    }
  }

  // ---- whole runs ----

  /** What holds after `n` evictions against `owner`. */
  ghost predicate Shed(queue: seq<Item>, limit: u8, owner: u32, p: Pressure, n: nat) {
    && |p.evicted| == n
    && (forall e :: e in p.evicted ==> Evictable(e, limit, owner))
    && Filter(Spared(limit, owner), p.queue) == Filter(Spared(limit, owner), queue)
    && Held(p.queue, limit, owner) + n == Held(queue, limit, owner)
  }

  lemma {:induction false} EvictSheds(queue: seq<Item>, incoming: Item, owner: u32, p: Pressure, n: nat)
    requires incoming.owner.Some? && Classified(incoming)
    requires ChooseOwner(p.queue, incoming, p.selected) == Some(owner)
    requires Shed(queue, incoming.priority, owner, p, n)
    ensures Evict(p, incoming).Some? <==> Held(p.queue, incoming.priority, owner) > 0
    ensures Evict(p, incoming).Some? ==>
      var q := Evict(p, incoming).value;
      q.selected == Some(owner) && Shed(queue, incoming.priority, owner, q, n + 1)
  {
    var limit := incoming.priority;
    IndexExistsIffHeld(p.queue, incoming, owner);
    if Evict(p, incoming).Some? {
      var i := ChooseIndex(p.queue, incoming, owner).value;
      FilterWithoutRejected(Spared(limit, owner), p.queue, i);
      FilterWithoutKept(OfOwner(limit, owner), p.queue, i);
    }
  }

  /** A run has room for exactly as many evictions as the first chosen owner
      has evictable items, and never looks at another owner. */
  lemma {:induction false} RunSheds(queue: seq<Item>, incoming: Item, n: nat)
    requires incoming.owner.Some? && Classified(incoming)
    ensures var owner := ChooseOwner(queue, incoming, None);
      match owner
      case None => (Run(queue, incoming, n).Some? <==> n == 0)
      case Some(o) =>
        && (Run(queue, incoming, n).Some? <==> n <= Held(queue, incoming.priority, o))
        && (Run(queue, incoming, n).Some? ==>
              var p := Run(queue, incoming, n).value;
              && p.selected == (if n == 0 then None else Some(o))
              && Shed(queue, incoming.priority, o, p, n))
  {
    var owner := ChooseOwner(queue, incoming, None);
    if n > 0 {
      RunSheds(queue, incoming, n - 1);
      if owner.Some? && Run(queue, incoming, n - 1).Some? {
        var p := Run(queue, incoming, n - 1).value;
        assert n == 1 ==> p.queue == queue;
        EvictSheds(queue, incoming, owner.value, p, n - 1);
      }
    }
  }

  /** The last turn of a run, with the owner it works against. */
  lemma {:induction false} LastTurn(queue: seq<Item>, incoming: Item, n: nat, owner: u32)
    requires incoming.owner.Some? && Classified(incoming)
    requires ChooseOwner(queue, incoming, None) == Some(owner)
    requires n > 0 && Run(queue, incoming, n).Some?
    ensures Run(queue, incoming, n - 1).Some?
    ensures var p := Run(queue, incoming, n - 1).value;
      && ChooseOwner(p.queue, incoming, p.selected) == Some(owner)
      && Evict(p, incoming) == Run(queue, incoming, n)
      && Held(p.queue, incoming.priority, owner) + n - 1 == Held(queue, incoming.priority, owner)
  {
    hide QueueVictim, Evict, Filter;
    RunUnfolds(queue, incoming, n);
    RunSheds(queue, incoming, n - 1);
  }

  /** Pressure from an owned item sheds one owner only: every evicted item
      belongs to it and ranks no higher than the incoming item, that owner was
      repeated or is the incoming owner itself, and all other items (other
      owners, higher priorities, protected ones) survive in order. */
  lemma {:induction false} PressureShedsOneOwner(queue: seq<Item>, incoming: Item, n: nat)
    requires incoming.owner.Some? && Classified(incoming)
    requires n > 0 && Run(queue, incoming, n).Some?
    ensures var p := Run(queue, incoming, n).value;
      && p.selected.Some? && |p.evicted| == n
      && (forall e :: e in p.evicted ==> e.owner == p.selected && e.priority <= incoming.priority)
      && (p.selected == incoming.owner || Held(queue, incoming.priority, p.selected.value) >= 2)
      && Filter(Spared(incoming.priority, p.selected.value), p.queue)
      == Filter(Spared(incoming.priority, p.selected.value), queue)
      && (Evict(p, incoming).Some? <==> Held(p.queue, incoming.priority, p.selected.value) > 0)
  {
    RunSheds(queue, incoming, n);
    var p := Run(queue, incoming, n).value;
    FreshChoice(queue, incoming);
    EvictSheds(queue, incoming, p.selected.value, p, n);
  }

  /** No frame that the protection filter rejects is ever bulk-evicted. */
  lemma {:induction false} ProtectedFramesSurvive(queue: seq<Item>, incoming: Item, n: nat, it: Item, f: Frame)
    requires incoming.owner.Some? && Classified(incoming)
    requires Run(queue, incoming, n).Some?
    requires it in queue && it.owner == OwnerOf(f, it.priority)
    requires !f.known || it.priority >= 200 || f.transportPriority >= 200 || f.p2p || f.reliable || f.frozen
    ensures it in Run(queue, incoming, n).value.queue
    ensures it !in Run(queue, incoming, n).value.evicted
  {
    RunSheds(queue, incoming, n);
    if n > 0 {
      var p := Run(queue, incoming, n).value;
      var keep := Spared(incoming.priority, p.selected.value);
      FilterMember(keep, queue, it);
      FilterMember(keep, p.queue, it);
    }
  }

  // ---- order within a message stream ----

  /** Stable insertion of an earlier arrival into a priority-sorted list. */
  function InsertEarlier(x: Item, s: seq<Item>): seq<Item> {
    if s == [] || x.priority <= s[0].priority then [x] + s
    else [s[0]] + InsertEarlier(x, s[1..])
  }

  /** `s` sorted by (priority, arrival position). */
  function ByPriority(s: seq<Item>): seq<Item> {
    if s == [] then [] else InsertEarlier(s[0], ByPriority(s[1..]))
  }

  ghost predicate Ascending(s: seq<Item>) {
    forall i, j :: 0 <= i < j < |s| ==> s[i].priority <= s[j].priority
  }

  function AtPriority(level: u8): Item -> bool { (it: Item) => it.priority == level }

  lemma {:induction false} InsertEarlierSorts(x: Item, s: seq<Item>)
    requires Ascending(s)
    ensures Ascending(InsertEarlier(x, s))
  {
    if !(s == [] || x.priority <= s[0].priority) {
      var r := InsertEarlier(x, s[1..]);
      InsertEarlierSorts(x, s[1..]);
      InsertEarlierHolds(x, s[1..]);
      forall i | 0 <= i < |r| ensures s[0].priority <= r[i].priority {
        assert r[i] in multiset(r);
        assert r[i] == x || r[i] in multiset(s[1..]);
      }
    }
  }

  lemma {:induction false} InsertEarlierHolds(x: Item, s: seq<Item>)
    ensures multiset(InsertEarlier(x, s)) == multiset(s) + multiset{x}
  {
    if !(s == [] || x.priority <= s[0].priority) {
      InsertEarlierHolds(x, s[1..]);
      assert s == [s[0]] + s[1..];
    }
  }

  lemma {:induction false} InsertEarlierIsStable(x: Item, s: seq<Item>, level: u8)
    ensures Filter(AtPriority(level), InsertEarlier(x, s))
         == (if x.priority == level then [x] else []) + Filter(AtPriority(level), s)
  {
    if s == [] || x.priority <= s[0].priority {
      assert ([x] + s)[1..] == s;
    } else {
      InsertEarlierIsStable(x, s[1..], level);
      var r := InsertEarlier(x, s[1..]);
      assert ([s[0]] + r)[1..] == r;
    }
  }

  /** `ByPriority` is the stable sort: ascending, a permutation, and arrivals of
      equal priority keep their order. */
  lemma {:induction false} ByPriorityIsStableSort(s: seq<Item>)
    ensures Ascending(ByPriority(s))
    ensures multiset(ByPriority(s)) == multiset(s)
    ensures forall level: u8 :: Filter(AtPriority(level), ByPriority(s)) == Filter(AtPriority(level), s)
  {
    if s != [] {
      ByPriorityIsStableSort(s[1..]);
      InsertEarlierSorts(s[0], ByPriority(s[1..]));
      InsertEarlierHolds(s[0], ByPriority(s[1..]));
      assert s == [s[0]] + s[1..];
      forall level: u8 ensures Filter(AtPriority(level), ByPriority(s)) == Filter(AtPriority(level), s) {
        InsertEarlierIsStable(s[0], ByPriority(s[1..]), level);
      }
    }
  }

  /** Taking out the first lowest item takes the head of the sorted list. */
  lemma {:induction false} RemoveFirstLowest(s: seq<Item>, k: nat)
    requires k < |s|
    requires forall j :: 0 <= j < |s| ==> s[k].priority <= s[j].priority
    requires forall j :: 0 <= j < k ==> s[k].priority < s[j].priority
    ensures ByPriority(s) == [s[k]] + ByPriority(Without(s, k))
  {
    if k == 0 {
      assert Without(s, 0) == s[1..];
      var r := ByPriority(s[1..]);
      if r != [] {
        ByPriorityIsStableSort(s[1..]);
        assert r[0] in multiset(r);
        assert r[0] in s[1..];
      }
    } else {
      RemoveFirstLowest(s[1..], k - 1);
      assert Without(s, k)[1..] == Without(s[1..], k - 1);
      assert Without(s, k)[0] == s[0];
    }
  }

  /** Among the items a filter keeps, the first lowest leads the sorted list. */
  lemma {:induction false} FirstLowestLeads(queue: seq<Item>, keep: Item -> bool, i: nat)
    requires i < |queue| && keep(queue[i])
    requires forall j :: 0 <= j < |queue| && keep(queue[j]) ==> queue[i].priority <= queue[j].priority
    requires forall j :: 0 <= j < i && keep(queue[j]) ==> queue[i].priority < queue[j].priority
    ensures ByPriority(Filter(keep, queue)) == [queue[i]] + ByPriority(Filter(keep, Without(queue, i)))
  {
    hide ByPriority;
    var kept := Filter(keep, queue);
    FilterWithoutKept(keep, queue, i);
    var k := |Filter(keep, queue[..i])|;
    forall j | 0 <= j < |kept| ensures queue[i].priority <= kept[j].priority {
      FilterMember(keep, queue, kept[j]);
    }
    FilterSplit(keep, queue, i);
    forall j | 0 <= j < k ensures queue[i].priority < kept[j].priority {
      assert kept[j] == Filter(keep, queue[..i])[j];
      FilterMember(keep, queue[..i], kept[j]);
    }
    RemoveFirstLowest(kept, k);
  }

  /** The chosen item is the first lowest of its own stream. */
  lemma {:induction false} ChosenIsLowestOfStream(queue: seq<Item>, incoming: Item, owner: u32)
    requires incoming.owner.Some? && ChooseIndex(queue, incoming, owner).Some?
    ensures var i := ChooseIndex(queue, incoming, owner).value;
      var keep := OfStream(incoming.priority, owner, queue[i].stream);
      && keep(queue[i])
      && ByPriority(Filter(keep, queue)) == [queue[i]] + ByPriority(Filter(keep, Without(queue, i)))
  {
    hide ChooseStream, Lowest, ByPriority, Filter;
    var i := ChooseIndex(queue, incoming, owner).value;
    FirstLowestLeads(queue, OfStream(incoming.priority, owner, queue[i].stream), i);
  }

  /** One item moves from the queue to the evicted ones. */
  lemma {:induction false} OrderStep(queue: seq<Item>, evicted: seq<Item>, i: nat, keep: Item -> bool)
    requires i < |queue|
    requires keep(queue[i]) ==>
      ByPriority(Filter(keep, queue)) == [queue[i]] + ByPriority(Filter(keep, Without(queue, i)))
    ensures Filter(keep, evicted + [queue[i]]) + ByPriority(Filter(keep, Without(queue, i)))
         == Filter(keep, evicted) + ByPriority(Filter(keep, queue))
  {
    hide ByPriority, Filter;
    FilterLast(keep, evicted + [queue[i]]);
    assert (evicted + [queue[i]])[..|evicted|] == evicted;
    if !keep(queue[i]) {
      FilterWithoutRejected(keep, queue, i);
    }
  }

  lemma {:induction false} EvictionOrderStep(p: Pressure, incoming: Item, owner: u32, stream: Option<u32>)
    requires incoming.owner.Some? && ChooseOwner(p.queue, incoming, p.selected) == Some(owner)
    requires Evict(p, incoming).Some?
    ensures var q, keep := Evict(p, incoming).value, OfStream(incoming.priority, owner, stream);
      Filter(keep, q.evicted) + ByPriority(Filter(keep, q.queue))
      == Filter(keep, p.evicted) + ByPriority(Filter(keep, p.queue))
  {
    hide ChooseOwner, ChooseIndex, Filter, ByPriority;
    var i := ChooseIndex(p.queue, incoming, owner).value;
    ChosenIsLowestOfStream(p.queue, incoming, owner);
    OrderStep(p.queue, p.evicted, i, OfStream(incoming.priority, owner, stream));
  }

  /** Over a whole run, what is evicted from each message stream of the owner,
      followed by what is left of it, is that stream sorted by (priority,
      arrival): the evicted part is a prefix of the sorted stream although the
      stream to shed is recomputed on every call. */
  lemma {:induction false} StreamsYieldInOrder(
      queue: seq<Item>, incoming: Item, n: nat, owner: u32, stream: Option<u32>)
    requires incoming.owner.Some? && Classified(incoming)
    requires ChooseOwner(queue, incoming, None) == Some(owner)
    requires Run(queue, incoming, n).Some?
    ensures var p, keep := Run(queue, incoming, n).value, OfStream(incoming.priority, owner, stream);
      && Filter(keep, p.evicted) + ByPriority(Filter(keep, p.queue)) == ByPriority(Filter(keep, queue))
      && Filter(keep, p.evicted) <= ByPriority(Filter(keep, queue))
  {
    hide ChooseOwner, Evict, ByPriority;
    if n > 0 {
      LastTurn(queue, incoming, n, owner);
      StreamsYieldInOrder(queue, incoming, n - 1, owner, stream);
      EvictionOrderStep(Run(queue, incoming, n - 1).value, incoming, owner, stream);
    }
  }
}
