/** What an admission loop (`push_back_prioritized_select` in src/queue.rs,
    driven by `queue_victim`) can and cannot achieve: when it can make room, and
    what it has cost when it cannot. */
module Admission {
  import opened Prelude
  import opened LoadTable
  import opened LoadHistory
  import opened AdmissionFairness
  import opened EvictionRun

  datatype Limits = Limits(maxBytes: nat, maxElems: nat, capacity: nat)

  /** Some admission limit refuses `v` as things stand; the byte sum saturates. */
  predicate Limited(q: seq<Item>, v: Item, lim: Limits) {
    Min(Bytes(q) + v.cost, USIZE_MAX) > lim.maxBytes || |q| >= lim.maxElems || |q| >= lim.capacity
  }

  lemma {:induction false} BytesWithout(q: seq<Item>, i: nat)
    requires i < |q|
    ensures Bytes(Without(q, i)) == Bytes(q) - q[i].cost
  {
    assert q == q[..i] + ([q[i]] + q[i + 1..]);
    BytesConcat(q[..i], [q[i]] + q[i + 1..]);
    BytesConcat(q[..i], q[i + 1..]);
  }

  // ---- runs for an item without an owner ----

  /** What is left of the queue when items leave from its end until one outranks `v`. */
  function Steadfast(queue: seq<Item>, v: Item): (r: seq<Item>)
    ensures r <= queue
    ensures r != [] ==> Outranks(r[|r| - 1], v)
    ensures forall i :: |r| <= i < |queue| ==> !Outranks(queue[i], v)
  {
    if queue == [] || Outranks(queue[|queue| - 1], v) then queue else Steadfast(queue[..|queue| - 1], v)
  }

  /** Control traffic and other unowned items evict from the end of the queue,
      as far as nothing there outranks them. */
  lemma {:induction false} UnownedRunSheds(queue: seq<Item>, v: Item, n: nat)
    requires v.owner.None?
    ensures Run(queue, v, n).Some? <==> n <= |queue| - |Steadfast(queue, v)|
    ensures Run(queue, v, n).Some? ==>
      var p := Run(queue, v, n).value;
      && p.selected == None && p.queue == queue[..|queue| - n] && |p.evicted| == n
      && forall i :: 0 <= i < n ==> p.evicted[i] == queue[|queue| - 1 - i]
  {
    if n > 0 {
      UnownedRunSheds(queue, v, n - 1);
      hide Steadfast;
      if Run(queue, v, n - 1).Some? {
        var p, at := Run(queue, v, n - 1).value, |queue| - n;
        assert p.queue == [] <==> at < 0;
        if p.queue != [] {
          assert p.queue[|p.queue| - 1] == queue[at] && Without(p.queue, at) == queue[..at];
          assert Outranks(queue[at], v) <==> at < |Steadfast(queue, v)| by {
            EndOutranks(queue, v, at);
          }
        }
      }
    }
  }

  /** Such a run takes nothing of a higher priority, and for an update of priority
      254 nothing of its own. */
  lemma {:induction false} UnownedVictimsRankLower(queue: seq<Item>, v: Item, n: nat, e: Item)
    requires v.owner.None? && Run(queue, v, n).Some? && e in Run(queue, v, n).value.evicted
    ensures e.priority <= v.priority && (v.priority == 254 ==> e.priority < 254)
  {
    UnownedRunSheds(queue, v, n);
    hide Run, Steadfast;
    var i :| 0 <= i < n && Run(queue, v, n).value.evicted[i] == e;
    assert !Outranks(queue[|queue| - 1 - i], v);
  }

  /** Behind the steadfast part nothing outranks `v`; its own last item does. */
  lemma EndOutranks(queue: seq<Item>, v: Item, at: nat)
    requires at < |queue| && |Steadfast(queue, v)| <= at + 1
    ensures Outranks(queue[at], v) <==> at < |Steadfast(queue, v)|
  {
    hide Outranks;
    assert at < |Steadfast(queue, v)| ==> Steadfast(queue, v)[at] == queue[at];
  }

  // ---- what admission can and cannot achieve ----

  /** Enough evictions exist to bring the queue under its limits. */
  ghost predicate Admits(queue: seq<Item>, v: Item, lim: Limits) {
    exists n: nat :: Run(queue, v, n).Some? && !Limited(Run(queue, v, n).value.queue, v, lim)
  }

  /** A run that can go no further has taken every evictable item of its owner. */
  lemma {:induction false} ExhaustedRunDrainsOwner(queue: seq<Item>, v: Item, n: nat, owner: u32)
    requires v.owner.Some? && Classified(v)
    requires ChooseOwner(queue, v, None) == Some(owner)
    requires Run(queue, v, n).Some? && Run(queue, v, n + 1).None?
    ensures n == Held(queue, v.priority, owner)
    ensures Run(queue, v, n).value.queue == Filter(Spared(v.priority, owner), queue)
  {
    hide ChooseOwner, Evict, Run, Filter;
    RunSheds(queue, v, n);
    RunSheds(queue, v, n + 1);
    var left := Run(queue, v, n).value.queue;
    forall i | 0 <= i < |left| ensures Spared(v.priority, owner)(left[i]) {
      FilterMember(OfOwner(v.priority, owner), left, left[i]);
    }
    AllKept(Spared(v.priority, owner), left);
  }

  lemma {:induction false} RunShrinks(queue: seq<Item>, v: Item, n: nat, m: nat)
    requires n <= m && Run(queue, v, m).Some?
    ensures Run(queue, v, n).Some?
    ensures |Run(queue, v, m).value.queue| <= |Run(queue, v, n).value.queue|
    ensures Bytes(Run(queue, v, m).value.queue) <= Bytes(Run(queue, v, n).value.queue)
    decreases m
  {
    if n < m {
      RunUnfolds(queue, v, m);
      RunShrinks(queue, v, n, m - 1);
      var p := Run(queue, v, m - 1).value;
      var (index, chosen) := Victim(p.queue, v, p.selected);
      BytesWithout(p.queue, index.value);
    }
  }

  // ---- exactly when room can be made, and at what cost ----

  /** What a run that can go no further leaves of the queue. */
  ghost function Residue(queue: seq<Item>, v: Item): seq<Item> {
    if v.owner.None? then Steadfast(queue, v)
    else
      match ChooseOwner(queue, v, None)
      case None => queue
      case Some(owner) => Filter(Spared(v.priority, owner), queue)
  }

  ghost predicate Exhausted(queue: seq<Item>, v: Item, n: nat) {
    Run(queue, v, n).Some? && Run(queue, v, n + 1).None?
  }

  /** Every run ends, and what it leaves depends on the queue and the item alone. */
  lemma {:induction false} ExhaustedRunLeaves(queue: seq<Item>, v: Item)
    requires Classified(v)
    ensures exists n: nat :: Exhausted(queue, v, n)
    ensures forall n: nat :: Exhausted(queue, v, n) ==> Run(queue, v, n).value.queue == Residue(queue, v)
  {
    hide ChooseOwner, Evict, Run, Filter, Steadfast;
    var last := LastTurnCount(queue, v);
    forall n: nat
      ensures Run(queue, v, n).Some? <==> n <= last
      ensures Exhausted(queue, v, n) ==> Run(queue, v, n).value.queue == Residue(queue, v)
    {
      TurnsAvailable(queue, v, n);
      TurnsAvailable(queue, v, n + 1);
      if Exhausted(queue, v, n) {
        ExhaustedAtLast(queue, v, n);
      }
    }
    assert Exhausted(queue, v, last);
  }

  ghost function LastTurnCount(queue: seq<Item>, v: Item): nat {
    if v.owner.None? then |queue| - |Steadfast(queue, v)|
    else
      match ChooseOwner(queue, v, None)
      case None => 0
      case Some(owner) => Held(queue, v.priority, owner)
  }

  lemma TurnsAvailable(queue: seq<Item>, v: Item, n: nat)
    requires Classified(v)
    ensures Run(queue, v, n).Some? <==> n <= LastTurnCount(queue, v)
  {
    hide ChooseOwner, Evict, Run, Held, Steadfast;
    if v.owner.None? {
      UnownedRunSheds(queue, v, n);
    } else {
      RunSheds(queue, v, n);
    }
  }

  lemma ExhaustedAtLast(queue: seq<Item>, v: Item, n: nat)
    requires Classified(v) && Exhausted(queue, v, n)
    ensures Run(queue, v, n).value.queue == Residue(queue, v)
  {
    hide ChooseOwner, Evict, Run, Filter, Steadfast;
    TurnsAvailable(queue, v, n);
    TurnsAvailable(queue, v, n + 1);
    if v.owner.None? {
      UnownedRunSheds(queue, v, n);
    } else if ChooseOwner(queue, v, None).Some? {
      ExhaustedRunDrainsOwner(queue, v, n, ChooseOwner(queue, v, None).value);
    } else {
      RunStart(queue, v);
    }
  }

  lemma TurnConserves(p: Pressure, v: Item)
    requires Evict(p, v).Some?
    ensures var next := Evict(p, v).value;
      multiset(next.queue) + multiset(next.evicted) == multiset(p.queue) + multiset(p.evicted)
  {
    hide Victim, Outranks;
    var (index, _) := Victim(p.queue, v, p.selected);
    WithoutMultiset(p.queue, index.value);
  }

  /** Whatever leaves the queue in a run is among the evicted, and nothing else is. */
  lemma {:induction false} RunConserves(queue: seq<Item>, v: Item, n: nat)
    requires Run(queue, v, n).Some?
    ensures var p := Run(queue, v, n).value; multiset(p.queue) + multiset(p.evicted) == multiset(queue)
  {
    hide Evict;
    if n == 0 {
      RunStart(queue, v);
    } else {
      RunUnfolds(queue, v, n);
      hide Run;
      RunConserves(queue, v, n - 1);
      TurnConserves(Run(queue, v, n - 1).value, v);
    }
  }

  /** The other side of the protection filter: a frame with none of the six marks
      is evicted by a full run against its sender. */
  lemma {:induction false} UnprotectedFramesLeave(queue: seq<Item>, v: Item, n: nat, it: Item, f: Frame)
    requires v.owner.Some? && Classified(v) && Exhausted(queue, v, n)
    requires ChooseOwner(queue, v, None) == Some(f.source)
    requires it in queue && it.priority <= v.priority && it.owner == OwnerOf(f, it.priority)
    requires f.known && it.priority < 200 && f.transportPriority < 200 && !f.p2p && !f.reliable && !f.frozen
    ensures it !in Run(queue, v, n).value.queue && it in Run(queue, v, n).value.evicted
  {
    hide ChooseOwner, Run, Filter;
    ExhaustedRunDrainsOwner(queue, v, n, f.source);
    FilterMember(Spared(v.priority, f.source), queue, it);
    RunConserves(queue, v, n);
    assert it in multiset(queue);
  }

  /** Room can be made if and only if there is room now, or there is room in what
      a full run leaves: for an owned item the queue without every evictable
      item of the one owner the table names, otherwise the queue up to the last
      item that outranks the newcomer. A caller can check both before the call. */
  lemma {:induction false} AdmitsIffResidueSuffices(queue: seq<Item>, v: Item, lim: Limits)
    requires Classified(v)
    ensures Admits(queue, v, lim) <==> !Limited(queue, v, lim) || !Limited(Residue(queue, v), v, lim)
  {
    hide Evict, Run, Residue;
    RunStart(queue, v);
    ExhaustedRunLeaves(queue, v);
    var last: nat :| Exhausted(queue, v, last);
    TurnsAvailable(queue, v, last);
    TurnsAvailable(queue, v, last + 1);
    forall n: nat | Run(queue, v, n).Some? && !Limited(Run(queue, v, n).value.queue, v, lim)
      ensures !Limited(Residue(queue, v), v, lim)
    {
      TurnsAvailable(queue, v, n);
      RunShrinks(queue, v, n, last);
    }
  }

  /** The owners of items at or below `limit`. */
  ghost function Owners(queue: seq<Item>, limit: u8): set<u32> {
    set it | it in queue && it.owner.Some? && it.priority <= limit :: it.owner.value
  }

  /** Nothing in the queue yields to `v`. For an owned item: more than 32 senders
      have items at or below its priority, or none of them has two and its own
      sender has none. Otherwise: the last item outranks it. */
  ghost predicate NothingYields(queue: seq<Item>, v: Item) {
    if v.owner.None? then queue == [] || Outranks(queue[|queue| - 1], v)
    else
      || |Owners(queue, v.priority)| > SLOTS
      || (Held(queue, v.priority, v.owner.value) == 0
          && forall owner: u32 :: Held(queue, v.priority, owner) <= 1)
  }

  lemma OwnersAreSeen(queue: seq<Item>, limit: u8)
    ensures Seen(OwnerLog(queue, limit)) == Owners(queue, limit)
    ensures forall owner: u32 :: owner in Owners(queue, limit) <==> Held(queue, limit, owner) > 0
  {
    var log := OwnerLog(queue, limit);
    SendersListSeen(log);
    SendersCounted(log);
    forall owner: u32
      ensures owner in Owners(queue, limit) <==> Held(queue, limit, owner) > 0
      ensures owner in Seen(log) <==> Held(queue, limit, owner) > 0
    {
      OwnerLogCounts(queue, limit, owner);
      var keep := OfOwner(limit, owner);
      if owner in Owners(queue, limit) {
        var it :| it in queue && it.owner == Some(owner) && it.priority <= limit;
        FilterMember(keep, queue, it);
      } else if Held(queue, limit, owner) > 0 {
        FilterWitness(keep, queue);
      }
    }
  }

  lemma OwnerNamedIff(queue: seq<Item>, v: Item)
    requires v.owner.Some?
    ensures ChooseOwner(queue, v, None).None? <==> NothingYields(queue, v)
  {
    hide Catalog, QueueVictim, Held, Seen, Owners;
    var log := OwnerLog(queue, v.priority);
    OwnersAreSeen(queue, v.priority);
    forall owner: u32
      ensures Count(log, owner) == Held(queue, v.priority, owner)
    {
      OwnerLogCounts(queue, v.priority, owner);
    }
    if |Seen(log)| > SLOTS {
      SelectorsRefuseBeyondCatalogue(log, v.owner, 0);
    } else {
      QueueVictimOfHistory(log, v.owner);
    }
  }

  /** A run for `v` leaves the queue as it was if and only if nothing yields. */
  lemma {:induction false} ResidueIsWholeIff(queue: seq<Item>, v: Item)
    requires Classified(v)
    ensures Residue(queue, v) == queue <==> NothingYields(queue, v)
  {
    if v.owner.Some? {
      hide ChooseOwner, Run, Evict, NothingYields;
      OwnerNamedIff(queue, v);
      var owner := ChooseOwner(queue, v, None);
      if owner.Some? {
        FreshChoice(queue, v);
        FilterWitness(OfOwner(v.priority, owner.value), queue);
        var i :| 0 <= i < |queue| && OfOwner(v.priority, owner.value)(queue[i]);
        FilterMember(Spared(v.priority, owner.value), queue, queue[i]);
      }
    }
  }

  /** A refusal is harmless if and only if nothing in the queue yields to the
      item; otherwise everything that yields is gone. */
  lemma RefusalIsHarmlessIff(queue: seq<Item>, v: Item, n: nat)
    requires Classified(v) && Exhausted(queue, v, n)
    ensures Run(queue, v, n).value.queue == Residue(queue, v)
    ensures Run(queue, v, n).value.queue == queue <==> NothingYields(queue, v)
  {
    hide Residue, NothingYields, Run;
    ExhaustedRunLeaves(queue, v);
    ResidueIsWholeIff(queue, v);
  }

  /** Every one of the first `n` evictions was made while a limit still refused `v`. */
  ghost predicate Squeezed(queue: seq<Item>, v: Item, lim: Limits, n: nat) {
    forall k: nat :: k < n ==> Run(queue, v, k).Some? && Limited(Run(queue, v, k).value.queue, v, lim)
  }

  lemma SqueezedNever(queue: seq<Item>, v: Item, lim: Limits)
    ensures Squeezed(queue, v, lim, 0)
  {
  }

  lemma SqueezedOnce(queue: seq<Item>, v: Item, lim: Limits, n: nat)
    requires Squeezed(queue, v, lim, n)
    requires Run(queue, v, n).Some? && Limited(Run(queue, v, n).value.queue, v, lim)
    ensures Squeezed(queue, v, lim, n + 1)
  {
  }

  /** A loop that stops as soon as there is room, or when it can go no further,
      evicts nothing if and only if there was room or nothing yields. */
  lemma EvictsNothingIff(queue: seq<Item>, v: Item, lim: Limits, n: nat)
    requires Classified(v) && Run(queue, v, n).Some? && Squeezed(queue, v, lim, n)
    requires !Limited(Run(queue, v, n).value.queue, v, lim) || Exhausted(queue, v, n)
    ensures n == 0 <==> !Limited(queue, v, lim) || NothingYields(queue, v)
  {
    hide Evict, Limited, NothingYields, Residue, Run;
    RunStart(queue, v);
    RunBalances(queue, v, n);
    ExhaustedRunLeaves(queue, v);
    var last: nat :| Exhausted(queue, v, last);
    RunBalances(queue, v, last);
    TurnsAvailable(queue, v, n);
    TurnsAvailable(queue, v, last);
    TurnsAvailable(queue, v, last + 1);
    ResidueIsWholeIff(queue, v);
  }

  lemma {:induction false} RunBalances(queue: seq<Item>, v: Item, n: nat)
    requires Run(queue, v, n).Some?
    ensures |Run(queue, v, n).value.queue| + n == |queue|
  {
    if n > 0 {
      RunBalances(queue, v, n - 1);
    }
  }

  /** One turn of the admission loop, as `Run` counts it. */
  lemma TurnExtendsRun(queue: seq<Item>, v: Item, n: nat, p: Pressure)
    requires Run(queue, v, n) == Some(p)
    ensures var (index, chosen) := Victim(p.queue, v, p.selected);
      && (index.None? || Outranks(p.queue[index.value], v) ==> Evict(p, v).None? && Run(queue, v, n + 1).None?)
      && (index.Some? && !Outranks(p.queue[index.value], v) ==>
            Run(queue, v, n + 1)
            == Some(Pressure(Without(p.queue, index.value), chosen, p.evicted + [p.queue[index.value]])))
  {
    hide Victim;
  }

  /** A run that was limited throughout and can go no further admits nothing. */
  lemma {:induction false} StuckMeansNotAdmitted(queue: seq<Item>, v: Item, lim: Limits, n: nat)
    requires Run(queue, v, n).Some? && Evict(Run(queue, v, n).value, v).None?
    requires Squeezed(queue, v, lim, n) && Limited(Run(queue, v, n).value.queue, v, lim)
    ensures !Admits(queue, v, lim)
  {
    hide Evict, Limited;
    assert Run(queue, v, n + 1).None?;
    forall m: nat | Run(queue, v, m).Some? ensures m <= n {
      if m > n {
        RunShrinks(queue, v, n + 1, m);
      }
    }
  }

  // A crowded queue: sender 1 holds two small items, sender 2 one large one.
  ghost const FIRST: Item := Item(0, 10, 5, Some(1), Some(7))
  ghost const SECOND: Item := Item(1, 10, 5, Some(1), Some(7))
  ghost const LARGE: Item := Item(2, 80, 5, Some(2), Some(7))
  ghost const NEWCOMER: Item := Item(3, 50, 5, Some(3), Some(7))

  lemma CrowdedOwner()
    ensures ChooseOwner([FIRST, SECOND, LARGE], NEWCOMER, None) == Some(1)
  {
    var queue, log := [FIRST, SECOND, LARGE], [Entry(1, 10), Entry(1, 10), Entry(2, 80)];
    assert queue[..2] == [FIRST, SECOND] && queue[..2][..1] == [FIRST] && queue[..2][..1][..0] == [];
    assert OwnerLog(queue[..2][..1], 5) == [Entry(1, 10)];
    assert OwnerLog(queue[..2], 5) == [Entry(1, 10), Entry(1, 10)];
    assert OwnerLog(queue, 5) == log;
    CrowdedTable();
    assert Heaviest([Load(1, 20, 2), Load(2, 80, 1)], Repeated()) == Some(0);
  }

  lemma CrowdedTable()
    ensures Catalog([Entry(1, 10), Entry(1, 10), Entry(2, 80)]) == Table([Load(1, 20, 2), Load(2, 80, 1)], false)
  {
    CatalogExtends([], Entry(1, 10));
    CatalogExtends([Entry(1, 10)], Entry(1, 10));
    CatalogExtends([Entry(1, 10), Entry(1, 10)], Entry(2, 80));
    assert [Load(1, 20, 2)][1..] == [];
  }

  lemma CrowdedShares()
    ensures var queue := [FIRST, SECOND, LARGE];
      && Filter(Spared(5, 1), queue) == [LARGE] && Held(queue, 5, 1) == 2
      && Bytes(queue) == 100 && Bytes([LARGE]) == 80
  {
    var queue := [FIRST, SECOND, LARGE];
    assert queue[1..] == [SECOND, LARGE] && queue[1..][1..] == [LARGE] && queue[1..][1..][1..] == [];
    assert Filter(Spared(5, 1), queue[1..][1..]) == [LARGE] && Filter(OfOwner(5, 1), queue[1..][1..]) == [];
    assert Filter(Spared(5, 1), queue[1..]) == [LARGE] && Filter(OfOwner(5, 1), queue[1..]) == [SECOND];
    assert Bytes(queue[1..][1..]) == 80 && Bytes(queue[1..]) == 90;
  }

  /** A refused admission is not harmless. The newcomer would fit only without
      sender 2's large item, so it is refused, yet both items of sender 1, the
      owner the table names, are gone. */
  lemma RefusedPushStillEvicts()
    ensures var queue := [FIRST, SECOND, LARGE];
      && !Admits(queue, NEWCOMER, Limits(100, 8, 8))
      && Run(queue, NEWCOMER, 2).Some?
      && Evict(Run(queue, NEWCOMER, 2).value, NEWCOMER).None?
      && Run(queue, NEWCOMER, 2).value.queue == [LARGE]
  {
    hide ChooseOwner, Run, Evict, Filter, Bytes;
    var queue, v := [FIRST, SECOND, LARGE], NEWCOMER;
    CrowdedOwner();
    CrowdedShares();
    RunSheds(queue, v, 2);
    RunSheds(queue, v, 3);
    ExhaustedRunDrainsOwner(queue, v, 2, 1);
    AdmitsIffResidueSuffices(queue, v, Limits(100, 8, 8));
    TurnStops(queue, v, 2);
  }

  lemma {:induction false} TurnStops(queue: seq<Item>, v: Item, n: nat)
    requires Run(queue, v, n).Some? && Run(queue, v, n + 1).None?
    ensures Evict(Run(queue, v, n).value, v).None?
  {
    hide Evict;
  }
}
