/** What eviction runs do to the message types of the owner they shed: which
    types survive, for how long, and what is left of each. */
module MessageTypes {
  import opened Prelude
  import opened LoadTable
  import opened LoadHistory
  import opened AdmissionFairness
  import opened EvictionRun

  // ---- message types are kept while another is repeated ----

  /** The message types an owner has queued at or below `limit`. */
  ghost function Streams(queue: seq<Item>, limit: u8, owner: u32): set<u32> {
    Seen(StreamLog(queue, limit, owner))
  }

  ghost predicate EveryItemTyped(queue: seq<Item>, limit: u8, owner: u32) {
    forall it :: it in queue && Evictable(it, limit, owner) ==> it.stream.Some?
  }

  lemma {:induction false} TypedItemsAreLogged(queue: seq<Item>, limit: u8, owner: u32)
    requires EveryItemTyped(queue, limit, owner)
    ensures |StreamLog(queue, limit, owner)| == Held(queue, limit, owner)
  {
    if queue != [] {
      var n := |queue| - 1;
      TypedItemsAreLogged(queue[..n], limit, owner);
      FilterLast(OfOwner(limit, owner), queue);
      assert queue[n] in queue;
    }
  }

  /** Pigeonhole: more records than senders means a repeated sender. */
  lemma {:induction false} RepeatedSenderExists(log: seq<Entry>)
    requires |log| > |Senders(log)|
    ensures exists s: u32 :: Count(log, s) > 1
  {
    var n := |log| - 1;
    if log[n].sender in Senders(log[..n]) {
      SendersCounted(log[..n]);
      assert Count(log, log[n].sender) > 1;
    } else {
      RepeatedSenderExists(log[..n]);
      var s: u32 :| Count(log[..n], s) > 1;
      assert Count(log, s) > 1;
    }
  }

  lemma {:induction false} StreamIffHeld(queue: seq<Item>, limit: u8, owner: u32, stream: u32)
    ensures stream in Streams(queue, limit, owner) <==> Filter(OfStream(limit, owner, Some(stream)), queue) != []
  {
    SendersListSeen(StreamLog(queue, limit, owner));
    SendersCounted(StreamLog(queue, limit, owner));
    StreamLogCounts(queue, limit, owner, stream);
  }

  lemma EvictShape(p: Pressure, incoming: Item, owner: u32)
    requires incoming.owner.Some? && ChooseOwner(p.queue, incoming, p.selected) == Some(owner)
    requires Evict(p, incoming).Some?
    ensures ChooseIndex(p.queue, incoming, owner).Some?
    ensures ChooseIndex(p.queue, incoming, owner).value < |p.queue|
    ensures Evict(p, incoming).value.queue == Without(p.queue, ChooseIndex(p.queue, incoming, owner).value)
  {
  }

  lemma {:induction false} RemovalCounts(queue: seq<Item>, i: nat, limit: u8, owner: u32, s: u32)
    requires i < |queue| && Evictable(queue[i], limit, owner)
    ensures s in Streams(queue, limit, owner) <==> Filter(OfStream(limit, owner, Some(s)), queue) != []
    ensures s in Streams(Without(queue, i), limit, owner) <==>
              |Filter(OfStream(limit, owner, Some(s)), queue)| > if queue[i].stream == Some(s) then 1 else 0
  {
    hide Streams, Filter;
    var keep := OfStream(limit, owner, Some(s));
    StreamIffHeld(queue, limit, owner, s);
    StreamIffHeld(Without(queue, i), limit, owner, s);
    if keep(queue[i]) {
      FilterWithoutKept(keep, queue, i);
    } else {
      FilterWithoutRejected(keep, queue, i);
    }
  }

  /** Removing an item keeps its owner's types unless it is the only one of its own. */
  lemma {:induction false} RemovalKeepsTypesIff(queue: seq<Item>, i: nat, limit: u8, owner: u32)
    requires i < |queue| && Evictable(queue[i], limit, owner)
    ensures Streams(Without(queue, i), limit, owner) <= Streams(queue, limit, owner)
    ensures Streams(Without(queue, i), limit, owner) == Streams(queue, limit, owner)
       <==> queue[i].stream.None? || |Filter(OfStream(limit, owner, queue[i].stream), queue)| > 1
  {
    hide Streams, Filter;
    forall s: u32
      ensures s in Streams(queue, limit, owner) <==> Filter(OfStream(limit, owner, Some(s)), queue) != []
      ensures s in Streams(Without(queue, i), limit, owner) <==>
                |Filter(OfStream(limit, owner, Some(s)), queue)| > if queue[i].stream == Some(s) then 1 else 0
    {
      RemovalCounts(queue, i, limit, owner, s);
    }
    if queue[i].stream.Some? {
      FilterMember(OfStream(limit, owner, queue[i].stream), queue, queue[i]);
    }
  }

  /** While some type is repeated, one eviction removes no type. */
  lemma {:induction false} RepeatedTypeYields(p: Pressure, incoming: Item, owner: u32)
    requires incoming.owner.Some? && ChooseOwner(p.queue, incoming, p.selected) == Some(owner)
    requires Evict(p, incoming).Some?
    requires |Streams(p.queue, incoming.priority, owner)| <= SLOTS
    requires |StreamLog(p.queue, incoming.priority, owner)| > |Streams(p.queue, incoming.priority, owner)|
    ensures Streams(Evict(p, incoming).value.queue, incoming.priority, owner)
         == Streams(p.queue, incoming.priority, owner)
  {
    var limit, queue := incoming.priority, p.queue;
    var log := StreamLog(queue, limit, owner);
    SendersListSeen(log);
    RepeatedSenderExists(log);
    QueueVictimOfHistory(log, if owner == incoming.owner.value then incoming.stream else None);
    var ty := ChooseStream(queue, incoming, owner).value;
    StreamLogCounts(queue, limit, owner, ty);
    RemovalKeepsTypesIff(queue, ChooseIndex(queue, incoming, owner).value, limit, owner);
  }

  lemma {:induction false} TypedAfterEviction(queue: seq<Item>, i: nat, limit: u8, owner: u32)
    requires i < |queue| && EveryItemTyped(queue, limit, owner)
    ensures EveryItemTyped(Without(queue, i), limit, owner)
  {
  }

  /** If the chosen owner has `h` evictable items of `d <= 32` message types,
      the first `h - d` evictions keep all `d` types represented. */
  lemma {:induction false} TypesSurviveWhileAnyRepeats(queue: seq<Item>, incoming: Item, n: nat, owner: u32)
    requires incoming.owner.Some? && Classified(incoming)
    requires ChooseOwner(queue, incoming, None) == Some(owner)
    requires EveryItemTyped(queue, incoming.priority, owner)
    requires |Streams(queue, incoming.priority, owner)| <= SLOTS
    requires n + |Streams(queue, incoming.priority, owner)| <= Held(queue, incoming.priority, owner)
    ensures Run(queue, incoming, n).Some?
    ensures var p := Run(queue, incoming, n).value;
      && Streams(p.queue, incoming.priority, owner) == Streams(queue, incoming.priority, owner)
      && EveryItemTyped(p.queue, incoming.priority, owner)
  {
    hide ChooseOwner, ChooseIndex, Evict, Run, Held, Streams;
    RunSheds(queue, incoming, n);
    if n > 0 {
      LastTurn(queue, incoming, n, owner);
      TypesSurviveWhileAnyRepeats(queue, incoming, n - 1, owner);
      var p := Run(queue, incoming, n - 1).value;
      TypedItemsAreLogged(p.queue, incoming.priority, owner);
      RepeatedTypeYields(p, incoming, owner);
      EvictShape(p, incoming, owner);
      TypedAfterEviction(p.queue, ChooseIndex(p.queue, incoming, owner).value, incoming.priority, owner);
    } else {
      RunStart(queue, incoming);
    }
  }

  /** After those evictions exactly one item of each type is left, and it is
      the one its stream sorts last: the highest-priority, latest arrival. */
  lemma {:induction false} ThinnedToBestOfEachType(queue: seq<Item>, incoming: Item, owner: u32, stream: u32)
    requires incoming.owner.Some? && Classified(incoming)
    requires ChooseOwner(queue, incoming, None) == Some(owner)
    requires EveryItemTyped(queue, incoming.priority, owner)
    requires |Streams(queue, incoming.priority, owner)| <= SLOTS
    requires stream in Streams(queue, incoming.priority, owner)
    ensures |Streams(queue, incoming.priority, owner)| <= Held(queue, incoming.priority, owner)
    ensures var n := Held(queue, incoming.priority, owner) - |Streams(queue, incoming.priority, owner)|;
      var keep := OfStream(incoming.priority, owner, Some(stream));
      var sorted := ByPriority(Filter(keep, queue));
      && Run(queue, incoming, n).Some?
      && sorted != []
      && Filter(keep, Run(queue, incoming, n).value.queue) == [sorted[|sorted| - 1]]
  {
    hide ChooseOwner, Evict, Run, Held, Streams, ByPriority, Filter;
    var limit := incoming.priority;
    TypesFitItems(queue, limit, owner);
    var n := Held(queue, limit, owner) - |Streams(queue, limit, owner)|;
    TypesSurviveWhileAnyRepeats(queue, incoming, n, owner);
    RunSheds(queue, incoming, n);
    var p := Run(queue, incoming, n).value;
    OneItemPerType(p.queue, limit, owner, stream);
    StreamsYieldInOrder(queue, incoming, n, owner, Some(stream));
  }

  lemma {:induction false} TypesFitItems(queue: seq<Item>, limit: u8, owner: u32)
    requires EveryItemTyped(queue, limit, owner)
    ensures |Streams(queue, limit, owner)| <= Held(queue, limit, owner)
  {
    TypedItemsAreLogged(queue, limit, owner);
    SendersListSeen(StreamLog(queue, limit, owner));
    SendersShorter(StreamLog(queue, limit, owner));
  }

  lemma {:induction false} OneItemPerType(queue: seq<Item>, limit: u8, owner: u32, stream: u32)
    requires EveryItemTyped(queue, limit, owner)
    requires |Streams(queue, limit, owner)| == Held(queue, limit, owner)
    requires stream in Streams(queue, limit, owner)
    ensures var kept := Filter(OfStream(limit, owner, Some(stream)), queue);
      |kept| == 1 && ByPriority(kept) == kept
  {
    var log := StreamLog(queue, limit, owner);
    TypedItemsAreLogged(queue, limit, owner);
    SendersListSeen(log);
    AllDifferent(log, stream);
    StreamIffHeld(queue, limit, owner, stream);
    StreamLogCounts(queue, limit, owner, stream);
    var kept := Filter(OfStream(limit, owner, Some(stream)), queue);
    assert ByPriority(kept[1..]) == [];
  }

  lemma {:induction false} SendersShorter(log: seq<Entry>)
    ensures |Senders(log)| <= |log|
  {
    if log != [] {
      SendersShorter(log[..|log| - 1]);
    }
  }

  lemma {:induction false} AllDifferent(log: seq<Entry>, s: u32)
    requires |log| == |Senders(log)|
    ensures Count(log, s) <= 1
  {
    if log != [] {
      var n := |log| - 1;
      SendersShorter(log[..n]);
      SendersCounted(log[..n]);
      AllDifferent(log[..n], s);
    }
  }

  // ---- more types than the scratch table holds ----

  /** With more than 32 types the stream table refuses, and the plain priority
      order decides among all of the owner's items. */
  lemma BeyondTableIgnoresTypes(queue: seq<Item>, incoming: Item, owner: u32)
    requires incoming.owner.Some? && |Streams(queue, incoming.priority, owner)| > SLOTS
    ensures ChooseIndex(queue, incoming, owner) == Lowest(queue, Candidates(incoming.priority, owner, None))
  {
    hide Catalog, QueueVictim;
    SelectorsRefuseBeyondCatalogue(StreamLog(queue, incoming.priority, owner),
                                   if owner == incoming.owner.value then incoming.stream else None, 0);
  }

  // ---- exactly when the types survive ----

  /** Whether one turn against `owner` keeps all of its types, told from the queue.
      Within the table: some type repeats, or the turn falls on an untyped item.
      Beyond it: the owner's first lowest item is not the only one of its type. */
  ghost predicate TurnKeepsTypes(queue: seq<Item>, incoming: Item, owner: u32)
    requires incoming.owner.Some? && Lowest(queue, Candidates(incoming.priority, owner, None)).Some?
  {
    var limit := incoming.priority;
    var types := Streams(queue, limit, owner);
    var first := queue[Lowest(queue, Candidates(limit, owner, None)).value];
    if |types| > SLOTS then
      first.stream.None? || |Filter(OfStream(limit, owner, first.stream), queue)| > 1
    else
      || |StreamLog(queue, limit, owner)| > |types|
      || (first.stream.None?
          && !(owner == incoming.owner.value && incoming.stream.Some? && incoming.stream.value in types))
  }

  lemma HeldHasLowest(queue: seq<Item>, limit: u8, owner: u32)
    requires Held(queue, limit, owner) > 0
    ensures Lowest(queue, Candidates(limit, owner, None)).Some?
  {
    FilterWitness(OfOwner(limit, owner), queue);
    var i :| 0 <= i < |queue| && OfOwner(limit, owner)(queue[i]);
    assert Candidates(limit, owner, None)(queue[i]);
  }

  /** One turn keeps every type of its owner if and only if the queue says so. */
  lemma {:induction false} TurnKeepsTypesIff(p: Pressure, incoming: Item, owner: u32)
    requires incoming.owner.Some? && ChooseOwner(p.queue, incoming, p.selected) == Some(owner)
    requires Evict(p, incoming).Some?
    ensures Lowest(p.queue, Candidates(incoming.priority, owner, None)).Some?
    ensures Streams(Evict(p, incoming).value.queue, incoming.priority, owner)
         == Streams(p.queue, incoming.priority, owner)
       <==> TurnKeepsTypes(p.queue, incoming, owner)
  {
    hide ChooseOwner, Evict, Streams, Filter, Lowest, ChooseStream;
    var queue, limit := p.queue, incoming.priority;
    var types := Streams(queue, limit, owner);
    EvictShape(p, incoming, owner);
    var i := ChooseIndex(queue, incoming, owner).value;
    IndexExistsIffHeld(queue, incoming, owner);
    HeldHasLowest(queue, limit, owner);
    RemovalKeepsTypesIff(queue, i, limit, owner);
    if |types| > SLOTS {
      BeyondTableIgnoresTypes(queue, incoming, owner);
    } else if |StreamLog(queue, limit, owner)| > |types| {
      RepeatedTypeYields(p, incoming, owner);
    } else {
      UnrepeatedChoice(queue, incoming, owner);
    }
  }

  /** Where no type repeats, the turn takes the incoming type's only item if the
      owner has one, and otherwise its first lowest item. */
  lemma UnrepeatedChoice(queue: seq<Item>, incoming: Item, owner: u32)
    requires incoming.owner.Some?
    requires |StreamLog(queue, incoming.priority, owner)| <= |Streams(queue, incoming.priority, owner)| <= SLOTS
    ensures var types := Streams(queue, incoming.priority, owner);
      ChooseStream(queue, incoming, owner)
      == if owner == incoming.owner.value && incoming.stream.Some? && incoming.stream.value in types
         then incoming.stream else None
    ensures forall s: u32 :: |Filter(OfStream(incoming.priority, owner, Some(s)), queue)| <= 1
  {
    hide Catalog, QueueVictim, Filter;
    var log := StreamLog(queue, incoming.priority, owner);
    SendersListSeen(log);
    SendersCounted(log);
    SendersShorter(log);
    forall s: u32
      ensures Count(log, s) <= 1 && Count(log, s) == |Filter(OfStream(incoming.priority, owner, Some(s)), queue)|
    {
      AllDifferent(log, s);
      StreamLogCounts(queue, incoming.priority, owner, s);
    }
    QueueVictimOfHistory(log, if owner == incoming.owner.value then incoming.stream else None);
  }

  predicate HasType(s: seq<Item>, ty: u32) { exists i :: 0 <= i < |s| && s[i].stream == Some(ty) }

  /** The owner's evictable items in (priority, arrival) order. */
  function Ranking(queue: seq<Item>, limit: u8, owner: u32): seq<Item> {
    ByPriority(Filter(OfOwner(limit, owner), queue))
  }

  lemma {:induction false} TypeIsRanked(queue: seq<Item>, limit: u8, owner: u32, ty: u32)
    ensures ty in Streams(queue, limit, owner) <==> HasType(Ranking(queue, limit, owner), ty)
  {
    hide Streams, Filter, ByPriority;
    var kept, sorted := Filter(OfOwner(limit, owner), queue), Ranking(queue, limit, owner);
    ByPriorityIsStableSort(kept);
    StreamIffHeld(queue, limit, owner, ty);
    var keep := OfStream(limit, owner, Some(ty));
    if ty in Streams(queue, limit, owner) {
      FilterWitness(keep, queue);
      var i :| 0 <= i < |queue| && keep(queue[i]);
      FilterMember(OfOwner(limit, owner), queue, queue[i]);
      assert queue[i] in multiset(sorted);
    } else if HasType(sorted, ty) {
      var i :| 0 <= i < |sorted| && sorted[i].stream == Some(ty);
      assert sorted[i] in multiset(kept);
      FilterMember(OfOwner(limit, owner), queue, sorted[i]);
      FilterMember(keep, queue, sorted[i]);
    }
  }

  ghost predicate AllTypesIn(types: set<u32>, s: seq<Item>) { forall ty :: ty in types ==> HasType(s, ty) }

  lemma RankedTypes(queue: seq<Item>, limit: u8, owner: u32, types: set<u32>)
    ensures types <= Streams(queue, limit, owner) <==> AllTypesIn(types, Ranking(queue, limit, owner))
  {
    hide Streams, Ranking, HasType;
    forall ty: u32
      ensures ty in Streams(queue, limit, owner) <==> HasType(Ranking(queue, limit, owner), ty)
    {
      TypeIsRanked(queue, limit, owner, ty);
    }
  }

  /** Beyond the table a turn takes the head of the ranking. */
  lemma RankingStep(p: Pressure, incoming: Item, owner: u32)
    requires incoming.owner.Some? && ChooseOwner(p.queue, incoming, p.selected) == Some(owner)
    requires Evict(p, incoming).Some? && |Streams(p.queue, incoming.priority, owner)| > SLOTS
    ensures var before := Ranking(p.queue, incoming.priority, owner);
      before != [] && Ranking(Evict(p, incoming).value.queue, incoming.priority, owner) == before[1..]
  {
    hide ChooseOwner, Evict, Streams, Filter, Lowest, ByPriority;
    EvictShape(p, incoming, owner);
    BeyondTableIgnoresTypes(p.queue, incoming, owner);
    var i := ChooseIndex(p.queue, incoming, owner).value;
    FirstLowestLeads(p.queue, OfOwner(incoming.priority, owner), i);
  }

  /** A run keeps every type of its owner if and only if: within the table, at
      least as many items are left as there are types; beyond it, every type
      occurs in the ranking after its first `n` items, which is then what is left. */
  lemma {:induction false} RunKeepsTypesIff(queue: seq<Item>, incoming: Item, n: nat, owner: u32)
    requires incoming.owner.Some? && Classified(incoming)
    requires ChooseOwner(queue, incoming, None) == Some(owner)
    requires n <= Held(queue, incoming.priority, owner)
    requires |Streams(queue, incoming.priority, owner)| <= SLOTS ==> EveryItemTyped(queue, incoming.priority, owner)
    ensures Run(queue, incoming, n).Some? && n <= |Ranking(queue, incoming.priority, owner)|
    ensures var types, ranking := Streams(queue, incoming.priority, owner), Ranking(queue, incoming.priority, owner);
      Streams(Run(queue, incoming, n).value.queue, incoming.priority, owner) == types
      <==> if |types| <= SLOTS then n + |types| <= Held(queue, incoming.priority, owner)
           else AllTypesIn(types, ranking[n..])
    ensures var types, ranking := Streams(queue, incoming.priority, owner), Ranking(queue, incoming.priority, owner);
      |types| > SLOTS && AllTypesIn(types, ranking[n..]) ==>
        Ranking(Run(queue, incoming, n).value.queue, incoming.priority, owner) == ranking[n..]
  {
    hide ChooseOwner, Evict, Run, Held, Streams, Ranking, AllTypesIn;
    RunSheds(queue, incoming, n);
    RankingSize(queue, incoming.priority, owner);
    if |Streams(queue, incoming.priority, owner)| <= SLOTS {
      WithinTable(queue, incoming, n, owner);
    } else {
      BeyondTable(queue, incoming, n, owner);
    }
  }

  lemma RankingSize(queue: seq<Item>, limit: u8, owner: u32)
    ensures |Ranking(queue, limit, owner)| == Held(queue, limit, owner)
  {
    hide ByPriority, Filter;
    var kept := Filter(OfOwner(limit, owner), queue);
    ByPriorityIsStableSort(kept);
    assert |multiset(ByPriority(kept))| == |multiset(kept)|;
  }

  lemma WithinTable(queue: seq<Item>, incoming: Item, n: nat, owner: u32)
    requires incoming.owner.Some? && Classified(incoming)
    requires ChooseOwner(queue, incoming, None) == Some(owner) && Run(queue, incoming, n).Some?
    requires |Streams(queue, incoming.priority, owner)| <= SLOTS && EveryItemTyped(queue, incoming.priority, owner)
    ensures Streams(Run(queue, incoming, n).value.queue, incoming.priority, owner)
         == Streams(queue, incoming.priority, owner)
       <==> n + |Streams(queue, incoming.priority, owner)| <= Held(queue, incoming.priority, owner)
  {
    hide ChooseOwner, Evict, Run, Held, Streams;
    RunSheds(queue, incoming, n);
    if n + |Streams(queue, incoming.priority, owner)| <= Held(queue, incoming.priority, owner) {
      TypesSurviveWhileAnyRepeats(queue, incoming, n, owner);
    } else {
      var left := Run(queue, incoming, n).value.queue;
      RunOnlyRemoves(queue, incoming, n, owner);
      TypesFitItems(left, incoming.priority, owner);
    }
  }

  lemma {:induction false} RunOnlyRemoves(queue: seq<Item>, incoming: Item, n: nat, owner: u32)
    requires incoming.owner.Some? && Classified(incoming)
    requires ChooseOwner(queue, incoming, None) == Some(owner) && Run(queue, incoming, n).Some?
    ensures forall it :: it in Run(queue, incoming, n).value.queue ==> it in queue
  {
    hide ChooseOwner, Evict, Run, ChooseIndex;
    if n > 0 {
      LastTurn(queue, incoming, n, owner);
      RunOnlyRemoves(queue, incoming, n - 1, owner);
      EvictShape(Run(queue, incoming, n - 1).value, incoming, owner);
    } else {
      RunStart(queue, incoming);
    }
  }

  lemma {:induction false} BeyondTable(queue: seq<Item>, incoming: Item, n: nat, owner: u32)
    requires incoming.owner.Some? && Classified(incoming)
    requires ChooseOwner(queue, incoming, None) == Some(owner) && Run(queue, incoming, n).Some?
    requires n <= |Ranking(queue, incoming.priority, owner)|
    requires |Streams(queue, incoming.priority, owner)| > SLOTS
    ensures var left := Run(queue, incoming, n).value.queue;
      var types, tail := Streams(queue, incoming.priority, owner), Ranking(queue, incoming.priority, owner)[n..];
      && Streams(left, incoming.priority, owner) <= types
      && (Streams(left, incoming.priority, owner) == types <==> AllTypesIn(types, tail))
      && (AllTypesIn(types, tail) ==> Ranking(left, incoming.priority, owner) == tail)
  {
    hide ChooseOwner, Evict, Run, Streams, Ranking, HasType, ChooseIndex;
    var limit := incoming.priority;
    var types, ranking := Streams(queue, limit, owner), Ranking(queue, limit, owner);
    if n == 0 {
      RunStart(queue, incoming);
      RankedTypes(queue, limit, owner, types);
      assert ranking[0..] == ranking;
    } else {
      LastTurn(queue, incoming, n, owner);
      BeyondTable(queue, incoming, n - 1, owner);
      var p, left := Run(queue, incoming, n - 1).value, Run(queue, incoming, n).value.queue;
      EvictShape(p, incoming, owner);
      var i := ChooseIndex(p.queue, incoming, owner).value;
      ChosenIsLowestOfStream(p.queue, incoming, owner);
      RemovalKeepsTypesIff(p.queue, i, limit, owner);
      TailKeepsTypes(types, ranking, n);
      if Streams(p.queue, limit, owner) == types {
        RankingStep(p, incoming, owner);
        assert ranking[n - 1..][1..] == ranking[n..];
        RankedTypes(left, limit, owner, types);
      }
    }
  }

  lemma TailKeepsTypes(types: set<u32>, s: seq<Item>, n: nat)
    requires 0 < n <= |s|
    ensures AllTypesIn(types, s[n..]) ==> AllTypesIn(types, s[n - 1..])
  {
    assert forall i :: 0 <= i < |s[n..]| ==> s[n..][i] == s[n - 1..][i + 1];
  }

  /** One sender with 33 types, the last of them queued twice. */
  ghost const MANY_TYPES: seq<Item> := seq(34, (i: nat) => Item(i, 1, 5, Some(1), Some(Min(i, 32))))
  ghost const ASKER: Item := Item(34, 1, 5, Some(2), None)

  lemma ManyTypesListed()
    ensures |Streams(MANY_TYPES, 5, 1)| > SLOTS
    ensures Filter(OfStream(5, 1, Some(0)), MANY_TYPES) == [MANY_TYPES[0]]
    ensures |Filter(OfStream(5, 1, Some(32)), MANY_TYPES)| > 1
  {
    hide Streams, Filter, UpTo;
    var queue := MANY_TYPES;
    forall s: u32 | s in UpTo(33)
      ensures s in Streams(queue, 5, 1)
    {
      StreamIffHeld(queue, 5, 1, s);
      FilterMember(OfStream(5, 1, Some(s)), queue, queue[s]);
    }
    Contained(UpTo(33), Streams(queue, 5, 1));
    FilterSplit(OfStream(5, 1, Some(0)), queue, 0);
    NoneKept(OfStream(5, 1, Some(0)), queue[1..]);
    NoneKept(OfStream(5, 1, Some(0)), queue[..0]);
    FilterSplit(OfStream(5, 1, Some(32)), queue, 32);
    FilterMember(OfStream(5, 1, Some(32)), queue[33..], queue[33]);
    assert queue[33] == queue[33..][0];
  }

  ghost function UpTo(n: nat): (s: set<u32>)
    requires n <= 33
    ensures |s| == n && forall k :: k in s ==> k < n
  {
    if n == 0 then {} else UpTo(n - 1) + {n - 1}
  }

  lemma ManyTypesOwner()
    ensures ChooseOwner(MANY_TYPES, ASKER, None) == Some(1)
  {
    hide Catalog, QueueVictim, Filter;
    var queue, log := MANY_TYPES, OwnerLog(MANY_TYPES, 5);
    AllKept(OfOwner(5, 1), queue);
    OwnerLogCounts(queue, 5, 1);
    forall owner: u32 | owner != 1
      ensures Count(log, owner) == 0
    {
      OwnerLogCounts(queue, 5, owner);
      NoneKept(OfOwner(5, owner), queue);
    }
    SendersListSeen(log);
    SendersCounted(log);
    assert Seen(log) <= {1};
    Contained(Seen(log), {1});
    QueueVictimOfHistory(log, ASKER.owner);
  }

  /** Beyond 32 types the promise fails: the first turn removes a type entirely
      although another one is repeated. */
  lemma TypeCanVanishBeyondTable()
    ensures Run(MANY_TYPES, ASKER, 1).Some?
    ensures var after := Run(MANY_TYPES, ASKER, 1).value.queue;
      && 0 in Streams(MANY_TYPES, 5, 1) && 0 !in Streams(after, 5, 1)
      && |Filter(OfStream(5, 1, Some(32)), after)| > 1
  {
    var queue := MANY_TYPES;
    ManyTypesOwner();
    ManyTypesListed();
    BeyondTableIgnoresTypes(queue, ASKER, 1);
    hide ChooseOwner, ChooseIndex, Filter, Streams;
    assert Candidates(5, 1, None)(queue[0]);
    assert Lowest(queue, Candidates(5, 1, None)) == Some(0);
    RunStart(queue, ASKER);
    assert Run(queue, ASKER, 1) == Evict(Pressure(queue, None, []), ASKER);
    var after := Without(queue, 0);
    StreamIffHeld(queue, 5, 1, 0);
    StreamIffHeld(after, 5, 1, 0);
    FilterWithoutKept(OfStream(5, 1, Some(0)), queue, 0);
    FilterWithoutRejected(OfStream(5, 1, Some(32)), queue, 0);
  }
}
