/** The bounded load table of src/admission_fairness.rs: 32 slots that
    aggregate queued bytes and counts per sender, and the two selectors that
    read it. */
module LoadTable {
  import opened Prelude

  const SLOTS: nat := 32

  datatype Load = Load(sender: u32, bytes: usize, count: nat)

  /** The table's abstract value: the used slots and the overflow mark. */
  datatype Table = Table(slots: seq<Load>, overflow: bool)

  /** One `record` call. */
  datatype Entry = Entry(sender: u32, bytes: usize)

  function Capped(n: nat): usize { Min(n, USIZE_MAX) }

  function Position(slots: seq<Load>, sender: u32): (r: Option<nat>)
    ensures r.Some? ==> r.value < |slots| && slots[r.value].sender == sender
    ensures r.Some? ==> forall j :: 0 <= j < r.value ==> slots[j].sender != sender
    ensures r.None? ==> forall j :: 0 <= j < |slots| ==> slots[j].sender != sender
  {
    if slots == [] then None
    else if slots[0].sender == sender then Some(0)
    else match Position(slots[1..], sender)
      case Some(i) => Some(i + 1)
      case None => None
  }

  function Recorded(t: Table, sender: u32, bytes: usize): Table {
    match Position(t.slots, sender)
    case Some(i) =>
      var was := t.slots[i];
      t.(slots := t.slots[i := Load(sender, Capped(was.bytes + bytes), was.count + 1)])
    case None =>
      if |t.slots| >= SLOTS then t.(overflow := true)
      else t.(slots := t.slots + [Load(sender, bytes, 1)])
  }

  /** The last of the heaviest slots that `keep` admits. */
  function Heaviest(slots: seq<Load>, keep: Load -> bool): (r: Option<nat>)
    ensures r.Some? ==> r.value < |slots| && keep(slots[r.value])
    ensures r.Some? ==> forall j :: 0 <= j < |slots| && keep(slots[j]) ==> slots[j].bytes <= slots[r.value].bytes
    ensures r.Some? ==> forall j :: r.value < j < |slots| && keep(slots[j]) ==> slots[j].bytes < slots[r.value].bytes
    ensures r.None? <==> forall j :: 0 <= j < |slots| ==> !keep(slots[j])
  {
    if slots == [] then None
    else
      var n := |slots| - 1;
      var best := Heaviest(slots[..n], keep);
      if keep(slots[n]) && (best.None? || slots[best.value].bytes <= slots[n].bytes)
      then Some(n)
      else best
  }

  function SenderAt(slots: seq<Load>, at: Option<nat>): (r: Option<u32>)
    requires at.Some? ==> at.value < |slots|
  {
    match at
    case Some(i) => Some(slots[i].sender)
    case None => None
  }

  function Repeated(): Load -> bool { (p: Load) => p.count > 1 }

  function Outweighs(incoming: u32, floor: nat): Load -> bool {
    (p: Load) => p.sender != incoming && p.count > 1 && p.bytes > floor
  }

  /** Bytes the table holds against a sender, zero when it has no slot. */
  function BytesOf(t: Table, sender: u32): usize {
    match Position(t.slots, sender)
    case Some(i) => t.slots[i].bytes
    case None => 0
  }

  function QueueVictim(t: Table, incoming: Option<u32>): Option<u32> {
    if t.overflow then None
    else match SenderAt(t.slots, Heaviest(t.slots, Repeated()))
      case Some(s) => Some(s)
      case None =>
        if incoming.Some? && Position(t.slots, incoming.value).Some? then incoming else None
  }

  function DominantOther(t: Table, incoming: u32): Option<u32> {
    if t.overflow then None
    else SenderAt(t.slots, Heaviest(t.slots, Outweighs(incoming, BytesOf(t, incoming))))
  }

  /** The table itself: a fixed array, a fill length and the overflow mark,
      all updated in place. */
  class Loads {
    const peers: array<Load>
    var len: nat
    var overflow: bool

    ghost predicate Valid()
      reads this, peers
    {
      && peers.Length == SLOTS
      && len <= SLOTS
      && forall i :: len <= i < SLOTS ==> peers[i].bytes == 0 && peers[i].count == 0
    }

    function View(): Table
      reads this, peers
      requires Valid()
    {
      Table(peers[..len], overflow)
    }

    constructor ()
      ensures Valid() && fresh(peers)
      ensures View() == Table([], false)
    {
      peers := new Load[SLOTS](_ => Load(0, 0, 0));
      len := 0;
      overflow := false;
    }

    method Record(sender: u32, bytes: usize)
      requires Valid()
      modifies this, peers
      ensures Valid()
      ensures View() == Recorded(old(View()), sender, bytes)
    {
      var slot := 0;
      while slot < len && peers[slot].sender != sender
        invariant 0 <= slot <= len
        invariant forall j :: 0 <= j < slot ==> peers[j].sender != sender
      {
        slot := slot + 1;
      }
      if slot == len {
        if len == SLOTS {
          overflow := true;
          return;
        }
        peers[len] := peers[len].(sender := sender);
        len := len + 1;
      }
      var peer := peers[slot];
      peers[slot] := peer.(bytes := Capped(peer.bytes + bytes), count := peer.count + 1);
    }
  }
}
