/** Victim selection under queue pressure (src/admission_fairness.rs): the
    protection filter, the owner-then-stream selector, and the loop that fills
    its two scratch tables. */
module AdmissionFairness {
  import opened Prelude
  import opened LoadTable
  import opened LoadHistory

  /** What the classifiers read off a frame. */
  datatype Frame = Frame(known: bool, transportPriority: u8, p2p: bool, reliable: bool, frozen: bool, source: u32)

  predicate Eligible(f: Frame, priority: u8) {
    f.known && priority < 200 && f.transportPriority < 200 && !f.p2p && !f.reliable && !f.frozen
  }

  /** Protected frames have no owner. */
  function OwnerOf(f: Frame, priority: u8): Option<u32> {
    if Eligible(f, priority) then Some(f.source) else None
  }

  /** A queued item with the values of the selector's four callbacks on it. */
  datatype Item = Item(tag: nat, cost: usize, priority: u8, owner: Option<u32>, stream: Option<u32>)

  /** Owned items are bulk traffic: the filter only gives an owner below 200. */
  predicate Classified(it: Item) { it.owner.Some? ==> it.priority < 200 }

  /** What a list of items costs together. */
  function Bytes(q: seq<Item>): nat {
    if q == [] then 0 else q[0].cost + Bytes(q[1..])
  }

  lemma {:induction false} BytesConcat(a: seq<Item>, b: seq<Item>)
    ensures Bytes(a + b) == Bytes(a) + Bytes(b)
  {
    if a == [] {
      assert a + b == b;
    } else {
      assert (a + b)[1..] == a[1..] + b;
      BytesConcat(a[1..], b);
    }
  }

  predicate Evictable(it: Item, limit: u8, owner: u32) {
    it.priority <= limit && it.owner == Some(owner)
  }

  function OwnerLog(queue: seq<Item>, limit: u8): seq<Entry> {
    if queue == [] then []
    else
      var n := |queue| - 1;
      var it := queue[n];
      if it.priority <= limit && it.owner.Some?
      then OwnerLog(queue[..n], limit) + [Entry(it.owner.value, it.cost)]
      else OwnerLog(queue[..n], limit)
  }

  function StreamLog(queue: seq<Item>, limit: u8, owner: u32): seq<Entry> {
    if queue == [] then []
    else
      var n := |queue| - 1;
      var it := queue[n];
      if Evictable(it, limit, owner) && it.stream.Some?
      then StreamLog(queue[..n], limit, owner) + [Entry(it.stream.value, it.cost)]
      else StreamLog(queue[..n], limit, owner)
  }

  /** The first of the lowest-priority items that `keep` admits. */
  function Lowest(queue: seq<Item>, keep: Item -> bool): (r: Option<nat>)
    ensures r.Some? ==> r.value < |queue| && keep(queue[r.value])
    ensures r.Some? ==> forall j :: 0 <= j < |queue| && keep(queue[j]) ==> queue[r.value].priority <= queue[j].priority
    ensures r.Some? ==> forall j :: 0 <= j < r.value && keep(queue[j]) ==> queue[r.value].priority < queue[j].priority
    ensures r.None? <==> forall j :: 0 <= j < |queue| ==> !keep(queue[j])
  {
    if queue == [] then None
    else
      var n := |queue| - 1;
      var best := Lowest(queue[..n], keep);
      if keep(queue[n]) && (best.None? || queue[n].priority < queue[best.value].priority)
      then Some(n)
      else best
  }

  function Candidates(limit: u8, owner: u32, stream: Option<u32>): Item -> bool {
    (it: Item) => Evictable(it, limit, owner) && (stream.Some? ==> it.stream == stream)
  }

  /** The owner to shed: an earlier choice stands, otherwise the table decides. */
  function ChooseOwner(queue: seq<Item>, incoming: Item, selected: Option<u32>): Option<u32>
    requires incoming.owner.Some?
  {
    if selected.Some? then selected
    else QueueVictim(Catalog(OwnerLog(queue, incoming.priority)), incoming.owner)
  }

  function ChooseStream(queue: seq<Item>, incoming: Item, owner: u32): Option<u32>
    requires incoming.owner.Some?
  {
    QueueVictim(Catalog(StreamLog(queue, incoming.priority, owner)),
                if owner == incoming.owner.value then incoming.stream else None)
  }

  /** The index to evict for an owned incoming item once its victim owner is known. */
  function ChooseIndex(queue: seq<Item>, incoming: Item, owner: u32): Option<nat>
    requires incoming.owner.Some?
  {
    Lowest(queue, Candidates(incoming.priority, owner, ChooseStream(queue, incoming, owner)))
  }

  /** `queue_victim`: the index to evict and the updated `selected` cell. */
  function Victim(queue: seq<Item>, incoming: Item, selected: Option<u32>): (r: (Option<nat>, Option<u32>))
    ensures r.0.Some? ==> r.0.value < |queue|
  {
    if incoming.owner.None? then (if queue == [] then None else Some(|queue| - 1), selected)
    else
      match ChooseOwner(queue, incoming, selected)
      case None => (None, selected)
      case Some(owner) => (ChooseIndex(queue, incoming, owner), Some(owner))
  }

  /** The source's two passes over the queue, filling fresh tables in place. */
  method SelectVictim(queue: seq<Item>, incoming: Item, selected: Option<u32>)
    returns (index: Option<nat>, chosen: Option<u32>)
    ensures (index, chosen) == Victim(queue, incoming, selected)
  {
    chosen := selected;
    if incoming.owner.None? {
      index := if |queue| == 0 then None else Some(|queue| - 1);
      return;
    }
    var limit := incoming.priority;
    if chosen.None? {
      var loads := new Loads();
      for i := 0 to |queue|
        invariant fresh(loads) && fresh(loads.peers) && loads.Valid()
        invariant loads.View() == Catalog(OwnerLog(queue[..i], limit))
      {
        assert queue[..i + 1][..i] == queue[..i];
        if queue[i].priority <= limit && queue[i].owner.Some? {
          var e := Entry(queue[i].owner.value, queue[i].cost);
          loads.Record(e.sender, e.bytes);
          CatalogExtends(OwnerLog(queue[..i], limit), e);
        }
      }
      assert queue[..|queue|] == queue;
      var victim := QueueVictim(loads.View(), incoming.owner);
      if victim.None? {
        index := None;
        return;
      }
      chosen := victim;
    }
    var owner := chosen.value;
    var streams := new Loads();
    for i := 0 to |queue|
      invariant fresh(streams) && fresh(streams.peers) && streams.Valid()
      invariant streams.View() == Catalog(StreamLog(queue[..i], limit, owner))
    {
      assert queue[..i + 1][..i] == queue[..i];
      if Evictable(queue[i], limit, owner) && queue[i].stream.Some? {
        var e := Entry(queue[i].stream.value, queue[i].cost);
        streams.Record(e.sender, e.bytes);
        CatalogExtends(StreamLog(queue[..i], limit, owner), e);
      }
    }
    assert queue[..|queue|] == queue;
    var stream := QueueVictim(streams.View(), if owner == incoming.owner.value then incoming.stream else None);
    index := Lowest(queue, Candidates(limit, owner, stream));
  }
}
