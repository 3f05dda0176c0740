/** What the load table means after any history of `record` calls: it refines
    a plain map from senders to counts and byte totals, its two selectors
    cannot be played off against each other, and it says exactly when the
    order of arrival can change an answer. */
module LoadHistory {
  import opened Prelude
  import opened LoadTable

  /** The table after recording `log` from the empty table. */
  function Catalog(log: seq<Entry>): Table {
    if log == [] then Table([], false)
    else
      var n := |log| - 1;
      Recorded(Catalog(log[..n]), log[n].sender, log[n].bytes)
  }

  lemma CatalogExtends(log: seq<Entry>, e: Entry)
    ensures Catalog(log + [e]) == Recorded(Catalog(log), e.sender, e.bytes)
  {
    assert (log + [e])[..|log|] == log;
  }

  /** The distinct senders of a history, in the order they were first seen. */
  ghost function Senders(log: seq<Entry>): seq<u32> {
    if log == [] then []
    else
      var n := |log| - 1;
      var before := Senders(log[..n]);
      if log[n].sender in before then before else before + [log[n].sender]
  }

  ghost function Count(log: seq<Entry>, sender: u32): nat {
    if log == [] then 0
    else
      var n := |log| - 1;
      Count(log[..n], sender) + if log[n].sender == sender then 1 else 0
  }

  ghost function Total(log: seq<Entry>, sender: u32): nat {
    if log == [] then 0
    else
      var n := |log| - 1;
      Total(log[..n], sender) + if log[n].sender == sender then log[n].bytes else 0
  }

  /** The slot a sender must have after a history. */
  ghost function Summary(log: seq<Entry>, sender: u32): Load {
    Load(sender, Capped(Total(log, sender)), Count(log, sender))
  }

  ghost predicate Distinct(s: seq<u32>) {
    forall i, j :: 0 <= i < j < |s| ==> s[i] != s[j]
  }

  // ---- refinement of the map ----

  /** The senders a history mentions. */
  ghost function Seen(log: seq<Entry>): set<u32> {
    set e | e in log :: e.sender
  }

  lemma SeenExtends(log: seq<Entry>)
    requires log != []
    ensures Seen(log) == Seen(log[..|log| - 1]) + {log[|log| - 1].sender}
  {
  }

  lemma {:induction false} SendersCounted(log: seq<Entry>)
    ensures forall s: u32 :: s in Senders(log) <==> Count(log, s) > 0
    ensures forall s: u32 :: s !in Senders(log) ==> Total(log, s) == 0
  {
    if log != [] {
      SendersCounted(log[..|log| - 1]);
    }
  }

  /** First-seen order lists every sender of the history exactly once. */
  lemma {:induction false} SendersListSeen(log: seq<Entry>)
    ensures Distinct(Senders(log))
    ensures forall s :: s in Senders(log) <==> s in Seen(log)
    ensures |Senders(log)| == |Seen(log)|
  {
    if log != [] {
      SendersListSeen(log[..|log| - 1]);
      SeenExtends(log);
    }
  }

  ghost predicate Refines(t: Table, log: seq<Entry>) {
    && |t.slots| == Min(SLOTS, |Senders(log)|)
    && (forall i :: 0 <= i < |t.slots| ==> t.slots[i] == Summary(log, Senders(log)[i]))
    && (t.overflow <==> |Senders(log)| > SLOTS)
  }

  lemma UnseenHasNoSlot(t: Table, log: seq<Entry>, s: u32)
    requires Refines(t, log) && Position(t.slots, s).None?
    ensures s !in Senders(log)[..|t.slots|]
  {
  }

  lemma RecordKnown(t: Table, log: seq<Entry>, e: Entry)
    requires Refines(t, log) && Position(t.slots, e.sender).Some?
    ensures Refines(Recorded(t, e.sender, e.bytes), log + [e])
  {
    var i := Position(t.slots, e.sender).value;
    assert (log + [e])[..|log|] == log;
    assert t.slots[i] == Summary(log, Senders(log)[i]);
    SendersListSeen(log);
    assert Senders(log + [e]) == Senders(log);
    forall j | 0 <= j < |t.slots| && j != i ensures t.slots[j] == Summary(log + [e], Senders(log)[j]) {
      assert t.slots[j] == Summary(log, Senders(log)[j]);
    }
  }

  lemma RecordNew(t: Table, log: seq<Entry>, e: Entry)
    requires Refines(t, log) && Position(t.slots, e.sender).None?
    ensures Refines(Recorded(t, e.sender, e.bytes), log + [e])
  {
    assert (log + [e])[..|log|] == log;
    UnseenHasNoSlot(t, log, e.sender);
    SendersCounted(log);
    var after := Recorded(t, e.sender, e.bytes);
    forall j | 0 <= j < |t.slots| ensures t.slots[j] == Summary(log + [e], Senders(log + [e])[j]) {
      assert t.slots[j] == Summary(log, Senders(log)[j]);
      assert Senders(log + [e])[j] == Senders(log)[j];
      assert Senders(log)[j] in Senders(log)[..|t.slots|];
    }
    if |t.slots| < SLOTS {
      assert Senders(log)[..|t.slots|] == Senders(log);
      assert after.slots[|t.slots|] == Summary(log + [e], e.sender);
    }
  }

  /** The main refinement: slots are the first (up to 32) distinct senders in
      first-seen order, each with its exact count and its byte total capped at
      `usize::MAX`, and the overflow mark is set exactly beyond 32 senders. */
  lemma {:induction false} CatalogRefinesMap(log: seq<Entry>)
    ensures Refines(Catalog(log), log)
    ensures |Catalog(log).slots| == Min(32, |Seen(log)|)
    ensures forall i :: 0 <= i < |Catalog(log).slots| ==> Catalog(log).slots[i] == Summary(log, Senders(log)[i])
    ensures Catalog(log).overflow <==> |Seen(log)| > 32
  {
    SendersListSeen(log);
    if log != [] {
      var n := |log| - 1;
      CatalogRefinesMap(log[..n]);
      var t := Catalog(log[..n]);
      assert log == log[..n] + [log[n]];
      if Position(t.slots, log[n].sender).Some? {
        RecordKnown(t, log[..n], log[n]);
      } else {
        RecordNew(t, log[..n], log[n]);
      }
    }
  }

  /** Beyond the catalogue both selectors refuse, whoever asks. */
  lemma SelectorsRefuseBeyondCatalogue(log: seq<Entry>, incoming: Option<u32>, a: u32)
    requires |Seen(log)| > 32
    ensures QueueVictim(Catalog(log), incoming) == None
    ensures DominantOther(Catalog(log), a) == None
  {
    CatalogRefinesMap(log);
  }

  // ---- what the selectors answer ----

  ghost predicate SlotsDistinct(t: Table) {
    forall i, j :: 0 <= i < j < |t.slots| ==> t.slots[i].sender != t.slots[j].sender
  }

  lemma CatalogSlotsDistinct(log: seq<Entry>)
    ensures SlotsDistinct(Catalog(log))
  {
  }

  lemma SlotOfSeen(log: seq<Entry>, s: u32)
    requires !Catalog(log).overflow && Count(log, s) > 0
    ensures Summary(log, s) in Catalog(log).slots
    ensures Position(Catalog(log).slots, s).Some?
    ensures Catalog(log).slots[Position(Catalog(log).slots, s).value] == Summary(log, s)
  {
    CatalogRefinesMap(log);
    SendersListSeen(log);
    SendersCounted(log);
    CatalogSlotsDistinct(log);
    hide Catalog, Senders, Count, Total, Seen, Refines;
    var i :| 0 <= i < |Senders(log)| && Senders(log)[i] == s;
    var slots := Catalog(log).slots;
    assert slots[i] == Summary(log, s);
    assert Position(slots, s) == Some(i);
  }

  lemma SlotIsSeen(log: seq<Entry>, i: nat)
    requires i < |Catalog(log).slots|
    ensures Catalog(log).slots[i] == Summary(log, Catalog(log).slots[i].sender)
    ensures Count(log, Catalog(log).slots[i].sender) > 0
  {
    CatalogRefinesMap(log);
    SendersListSeen(log);
    SendersCounted(log);
    assert Catalog(log).slots[i] == Summary(log, Senders(log)[i]);
    assert Senders(log)[i] in Senders(log);
  }

  lemma SlotsAreSummaries(log: seq<Entry>)
    requires !Catalog(log).overflow
    ensures forall l: Load :: l in Catalog(log).slots <==> Count(log, l.sender) > 0 && l == Summary(log, l.sender)
    ensures forall s: u32 :: Position(Catalog(log).slots, s).Some? <==> Count(log, s) > 0
    ensures forall s: u32 :: BytesOf(Catalog(log), s) == Capped(Total(log, s))
  {
    var slots := Catalog(log).slots;
    forall i | 0 <= i < |slots|
      ensures slots[i] == Summary(log, slots[i].sender) && Count(log, slots[i].sender) > 0
    {
      SlotIsSeen(log, i);
    }
    forall s: u32 | Count(log, s) > 0
      ensures Summary(log, s) in slots && Position(slots, s).Some? && slots[Position(slots, s).value] == Summary(log, s)
    {
      SlotOfSeen(log, s);
    }
    forall s: u32 | Count(log, s) == 0 ensures Total(log, s) == 0 {
      SendersCounted(log);
    }
  }

  /** In terms of the history alone: the victim is a sender that sent at least
      twice and whose capped total no other such sender exceeds; failing that,
      the asking sender if it has sent at all. */
  lemma QueueVictimOfHistory(log: seq<Entry>, incoming: Option<u32>)
    requires |Seen(log)| <= SLOTS
    ensures var v := QueueVictim(Catalog(log), incoming);
      if exists s: u32 :: Count(log, s) > 1 then
        v.Some? && Count(log, v.value) > 1
        && forall s: u32 :: Count(log, s) > 1 ==> Capped(Total(log, s)) <= Capped(Total(log, v.value))
      else
        v == if incoming.Some? && Count(log, incoming.value) > 0 then incoming else None
  {
    CatalogRefinesMap(log);
    SlotsAreSummaries(log);
    var slots := Catalog(log).slots;
    var at := Heaviest(slots, Repeated());
    forall s: u32 | Count(log, s) > 1
      ensures at.Some? && Capped(Total(log, s)) <= slots[at.value].bytes
    {
      var i :| 0 <= i < |slots| && slots[i] == Summary(log, s);
    }
    if at.Some? {
      assert slots[at.value] in slots;
    }
  }

  /** In terms of the history alone: the dominant sender is another one that sent
      at least twice, outweighs the asker, and is outweighed by no such sender. */
  lemma DominantOtherOfHistory(log: seq<Entry>, a: u32)
    requires |Seen(log)| <= SLOTS
    ensures var v := DominantOther(Catalog(log), a);
      if exists s: u32 :: Dominates(log, s, a) then
        v.Some? && Dominates(log, v.value, a)
        && forall s: u32 :: Dominates(log, s, a) ==> Capped(Total(log, s)) <= Capped(Total(log, v.value))
      else
        v == None
  {
    CatalogRefinesMap(log);
    SlotsAreSummaries(log);
    hide Catalog, Count, Total, Seen, Refines, BytesOf, Senders;
    var slots := Catalog(log).slots;
    var at := Heaviest(slots, Outweighs(a, BytesOf(Catalog(log), a)));
    forall s: u32 | Dominates(log, s, a)
      ensures at.Some? && Capped(Total(log, s)) <= slots[at.value].bytes
    {
      assert Summary(log, s) in slots;
      var i :| 0 <= i < |slots| && slots[i] == Summary(log, s);
    }
    if at.Some? {
      assert slots[at.value] in slots;
    }
  }

  ghost predicate Dominates(log: seq<Entry>, s: u32, a: u32) {
    s != a && Count(log, s) > 1 && Capped(Total(log, s)) > Capped(Total(log, a))
  }

  /** Pressure cannot ping-pong: the sender that outweighs `a` is outweighed by nobody. */
  lemma DominanceIsOneWay(t: Table, a: u32)
    requires SlotsDistinct(t) && DominantOther(t, a).Some?
    ensures DominantOther(t, DominantOther(t, a).value) == None
  {
    var b := DominantOther(t, a).value;
    var i := Heaviest(t.slots, Outweighs(a, BytesOf(t, a))).value;
    assert Position(t.slots, b) == Some(i);
    forall j | 0 <= j < |t.slots| ensures !Outweighs(b, BytesOf(t, b))(t.slots[j]) {
      if t.slots[j].sender == a {
        assert Position(t.slots, a) == Some(j);
      }
    }
  }

  /** When the queue-limit selector names someone heavier than the asker, the
      shared-budget selector names the same sender. */
  lemma SelectorsAgree(t: Table, a: u32)
    requires SlotsDistinct(t)
    requires QueueVictim(t, Some(a)).Some?
    requires QueueVictim(t, Some(a)).value != a
    requires BytesOf(t, QueueVictim(t, Some(a)).value) > BytesOf(t, a)
    ensures DominantOther(t, a) == QueueVictim(t, Some(a))
  {
    var i := Heaviest(t.slots, Repeated()).value;
    assert Position(t.slots, t.slots[i].sender) == Some(i);
    assert Outweighs(a, BytesOf(t, a))(t.slots[i]);
    var k := Heaviest(t.slots, Outweighs(a, BytesOf(t, a))).value;
    assert Repeated()(t.slots[k]);
    assert k == i;
  }

  // ---- order of arrival ----

  ghost predicate SameRecords(a: seq<Entry>, b: seq<Entry>) {
    multiset(a) == multiset(b)
  }

  lemma {:induction false} CountWithout(log: seq<Entry>, i: nat, s: u32)
    requires i < |log|
    ensures Count(log, s) == Count(Without(log, i), s) + if log[i].sender == s then 1 else 0
    ensures Total(log, s) == Total(Without(log, i), s) + if log[i].sender == s then log[i].bytes else 0
  {
    var n := |log| - 1;
    if i == n {
      assert Without(log, i) == log[..n];
    } else {
      CountWithout(log[..n], i, s);
      assert Without(log, i)[..n - 1] == Without(log[..n], i);
    }
  }

  lemma {:induction false} PermutedTotals(a: seq<Entry>, b: seq<Entry>, s: u32)
    requires SameRecords(a, b)
    ensures Count(a, s) == Count(b, s) && Total(a, s) == Total(b, s)
  {
    if a == [] {
      assert |multiset(b)| == 0;
    } else {
      var n := |a| - 1;
      assert a[n] in multiset(b);
      var i :| 0 <= i < |b| && b[i] == a[n];
      WithoutPermuted(a, b, n, i);
      assert Without(a, n) == a[..n];
      PermutedTotals(a[..n], Without(b, i), s);
      CountWithout(b, i, s);
    }
  }

  /** Two catalogues of the same records, without overflow, hold the same slots. */
  lemma PermutedCatalogs(a: seq<Entry>, b: seq<Entry>)
    requires SameRecords(a, b) && !Catalog(a).overflow
    ensures !Catalog(b).overflow
    ensures forall l :: l in Catalog(a).slots <==> l in Catalog(b).slots
    ensures forall s: u32 :: BytesOf(Catalog(a), s) == BytesOf(Catalog(b), s)
    ensures forall s: u32 :: Position(Catalog(a).slots, s).Some? <==> Position(Catalog(b).slots, s).Some?
  {
    forall e ensures e in a <==> e in b {
      assert e in a <==> e in multiset(a);
      assert e in b <==> e in multiset(b);
    }
    assert Seen(a) == Seen(b);
    CatalogRefinesMap(a);
    CatalogRefinesMap(b);
    SlotsAreSummaries(a);
    SlotsAreSummaries(b);
    forall l: Load ensures l in Catalog(a).slots <==> l in Catalog(b).slots {
      PermutedTotals(a, b, l.sender);
    }
    forall s: u32
      ensures BytesOf(Catalog(a), s) == BytesOf(Catalog(b), s)
      ensures Position(Catalog(a).slots, s).Some? <==> Position(Catalog(b).slots, s).Some?
    {
      PermutedTotals(a, b, s);
    }
  }

  /** At most one sender carries the largest load that `keep` admits. */
  ghost predicate UniqueHeaviest(t: Table, keep: Load -> bool) {
    forall a, b :: a in t.slots && b in t.slots && IsHeaviest(t, keep, a) && IsHeaviest(t, keep, b) ==> a == b
  }

  ghost predicate IsHeaviest(t: Table, keep: Load -> bool, l: Load) {
    l in t.slots && keep(l) && forall m :: m in t.slots && keep(m) ==> m.bytes <= l.bytes
  }

  ghost function Choice(log: seq<Entry>, keep: Load -> bool): Option<u32> {
    SenderAt(Catalog(log).slots, Heaviest(Catalog(log).slots, keep))
  }

  lemma ChoiceIsHeaviest(log: seq<Entry>, keep: Load -> bool)
    ensures Choice(log, keep).Some? <==> exists l :: l in Catalog(log).slots && keep(l)
    ensures Choice(log, keep).Some? ==>
      var i := Heaviest(Catalog(log).slots, keep).value;
      IsHeaviest(Catalog(log), keep, Catalog(log).slots[i])
  {
  }

  lemma UniqueChoiceIgnoresOrder(a: seq<Entry>, b: seq<Entry>, keep: Load -> bool)
    requires SameRecords(a, b) && !Catalog(a).overflow
    requires UniqueHeaviest(Catalog(a), keep)
    ensures Choice(a, keep) == Choice(b, keep)
  {
    PermutedCatalogs(a, b);
    ChoiceIsHeaviest(a, keep);
    ChoiceIsHeaviest(b, keep);
    if Choice(a, keep).Some? && Choice(b, keep).Some? {
      var x := Catalog(a).slots[Heaviest(Catalog(a).slots, keep).value];
      var y := Catalog(b).slots[Heaviest(Catalog(b).slots, keep).value];
      assert IsHeaviest(Catalog(a), keep, x);
      assert IsHeaviest(Catalog(b), keep, y);
      assert y in Catalog(a).slots;
      assert IsHeaviest(Catalog(a), keep, y);
    }
  }

  ghost function From(s: u32): Entry -> bool { (e: Entry) => e.sender == s }
  ghost function NotFrom(s: u32): Entry -> bool { (e: Entry) => e.sender != s }

  /** The same records with those of `s` recorded last. */
  ghost function Last(log: seq<Entry>, s: u32): seq<Entry> {
    Filter(NotFrom(s), log) + Filter(From(s), log)
  }

  lemma {:induction false} LastIsPermutation(log: seq<Entry>, s: u32)
    ensures SameRecords(Last(log, s), log)
  {
    if log != [] {
      LastIsPermutation(log[1..], s);
      assert log == [log[0]] + log[1..];
    }
  }

  lemma {:induction false} SendersOfTail(front: seq<Entry>, tail: seq<Entry>, s: u32)
    requires s !in Senders(front) && tail != []
    requires forall i :: 0 <= i < |tail| ==> tail[i].sender == s
    ensures Senders(front + tail) == Senders(front) + [s]
  {
    var n := |tail| - 1;
    assert (front + tail)[..|front| + n] == front + tail[..n];
    if n == 0 {
      assert front + tail[..n] == front;
    } else {
      SendersOfTail(front, tail[..n], s);
    }
  }

  lemma LastSenderIsLast(log: seq<Entry>, s: u32)
    requires Count(log, s) > 0
    ensures Senders(Last(log, s)) == Senders(Filter(NotFrom(s), log)) + [s]
  {
    var front, tail := Filter(NotFrom(s), log), Filter(From(s), log);
    forall i | 0 <= i < |tail| ensures tail[i].sender == s {
      FilterMember(From(s), log, tail[i]);
    }
    SendersListSeen(front);
    SendersListSeen(log);
    SendersCounted(log);
    if s in Seen(front) {
      var e :| e in front && e.sender == s;
      FilterMember(NotFrom(s), log, e);
    }
    assert s in Seen(log);
    var e :| e in log && e.sender == s;
    FilterMember(From(s), log, e);
    SendersOfTail(front, tail, s);
  }

  /** Recorded last, a sender has the last of the same slots. */
  lemma LastHasLastSlot(log: seq<Entry>, l: Load)
    requires !Catalog(log).overflow && l in Catalog(log).slots
    ensures var moved := Catalog(Last(log, l.sender));
      && !moved.overflow && moved.slots != [] && moved.slots[|moved.slots| - 1] == l
      && forall x :: x in moved.slots <==> x in Catalog(log).slots
  {
    var s := l.sender;
    var moved := Last(log, s);
    SlotsAreSummaries(log);
    LastIsPermutation(log, s);
    PermutedCatalogs(log, moved);
    LastSenderIsLast(log, s);
    CatalogRefinesMap(moved);
    PermutedTotals(log, moved, s);
    hide Catalog, Last, Count, Total, Senders, Seen;
    var slots := Catalog(moved).slots;
    assert slots[|slots| - 1] == Summary(moved, s);
  }

  /** Recorded last, a tied heaviest sender is the one chosen. */
  lemma TiedLastIsChosen(log: seq<Entry>, keep: Load -> bool, l: Load)
    requires !Catalog(log).overflow && IsHeaviest(Catalog(log), keep, l)
    ensures Choice(Last(log, l.sender), keep) == Some(l.sender)
  {
    hide Catalog, Last, Heaviest;
    LastHasLastSlot(log, l);
    var slots := Catalog(Last(log, l.sender)).slots;
    assert forall j :: 0 <= j < |slots| ==> slots[j] in slots;
    assert Heaviest(slots, keep) == Some(|slots| - 1);
  }

  /** Exactly when a choice is independent of arrival order: no two senders tie
      for the largest admitted load. */
  lemma ChoiceIgnoresOrderIffUnique(log: seq<Entry>, keep: Load -> bool)
    requires !Catalog(log).overflow
    ensures (forall b :: SameRecords(log, b) ==> Choice(b, keep) == Choice(log, keep))
       <==> UniqueHeaviest(Catalog(log), keep)
  {
    if UniqueHeaviest(Catalog(log), keep) {
      forall b | SameRecords(log, b) ensures Choice(b, keep) == Choice(log, keep) {
        UniqueChoiceIgnoresOrder(log, b, keep);
      }
    } else {
      var x, y :| x in Catalog(log).slots && y in Catalog(log).slots
        && IsHeaviest(Catalog(log), keep, x) && IsHeaviest(Catalog(log), keep, y) && x != y;
      SlotsAreSummaries(log);
      TiedLastIsChosen(log, keep, x);
      TiedLastIsChosen(log, keep, y);
      LastIsPermutation(log, x.sender);
      LastIsPermutation(log, y.sender);
      assert SameRecords(log, Last(log, x.sender)) && SameRecords(log, Last(log, y.sender));
    }
  }

  /** The queue-limit selector's answer survives every reordering of the
      records exactly when no two repeated senders tie for the heaviest. */
  lemma QueueVictimIgnoresOrderIffUnique(log: seq<Entry>, incoming: Option<u32>)
    requires !Catalog(log).overflow
    ensures (forall b :: SameRecords(log, b) ==>
              QueueVictim(Catalog(b), incoming) == QueueVictim(Catalog(log), incoming))
       <==> UniqueHeaviest(Catalog(log), Repeated())
  {
    ChoiceIgnoresOrderIffUnique(log, Repeated());
    forall b | SameRecords(log, b)
      ensures QueueVictim(Catalog(b), incoming) == QueueVictim(Catalog(log), incoming)
         <==> Choice(b, Repeated()) == Choice(log, Repeated())
    {
      PermutedCatalogs(log, b);
      ChoiceIsHeaviest(log, Repeated());
      ChoiceIsHeaviest(b, Repeated());
    }
  }

  /** Likewise for the shared-budget selector, among the senders that outweigh
      the asker. */
  lemma DominantOtherIgnoresOrderIffUnique(log: seq<Entry>, a: u32)
    requires !Catalog(log).overflow
    ensures (forall b :: SameRecords(log, b) ==> DominantOther(Catalog(b), a) == DominantOther(Catalog(log), a))
       <==> UniqueHeaviest(Catalog(log), Outweighs(a, BytesOf(Catalog(log), a)))
  {
    var keep := Outweighs(a, BytesOf(Catalog(log), a));
    ChoiceIgnoresOrderIffUnique(log, keep);
    forall b | SameRecords(log, b)
      ensures DominantOther(Catalog(b), a) == Choice(b, keep)
    {
      PermutedCatalogs(log, b);
    }
    assert DominantOther(Catalog(log), a) == Choice(log, keep);
  }
}
