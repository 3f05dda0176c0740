/** The priority-ordered bounded queue of src/queue.rs and its fair admission
    (`push_back_prioritized_select` driven by `queue_victim`, as the receive
    path uses it). */
module BoundedQueue {
  import opened Prelude
  import opened AdmissionFairness
  import opened EvictionRun
  import opened Admission

  /** Descending priority; equal priorities are in arrival order. */
  ghost predicate Ordered(q: seq<Item>) {
    forall i, j :: 0 <= i < j < |q| ==> q[i].priority >= q[j].priority
  }

  /** Where an item of priority `level` belongs: behind its own band. */
  function Slot(q: seq<Item>, level: u8): (k: nat)
    ensures k <= |q|
    ensures forall i :: 0 <= i < k ==> q[i].priority >= level
    ensures k < |q| ==> q[k].priority < level
  {
    if q == [] || q[0].priority < level then 0 else 1 + Slot(q[1..], level)
  }

  function Inserted(q: seq<Item>, v: Item): seq<Item> {
    var k := Slot(q, v.priority);
    q[..k] + [v] + q[k..]
  }

  datatype Outcome = Admitted | TooLarge | Unavailable | Saturated

  // ---- bytes, order and bands ----

  lemma {:induction false} BytesInserted(q: seq<Item>, v: Item)
    ensures Bytes(Inserted(q, v)) == Bytes(q) + v.cost
  {
    var k := Slot(q, v.priority);
    assert Inserted(q, v) == q[..k] + ([v] + q[k..]);
    BytesConcat(q[..k], [v] + q[k..]);
    BytesConcat(q[..k], q[k..]);
    assert q == q[..k] + q[k..];
  }

  lemma {:induction false} InsertedKeepsOrder(q: seq<Item>, v: Item)
    requires Ordered(q)
    ensures Ordered(Inserted(q, v))
  {
  }

  lemma {:induction false} InsertedAtEnd(q: seq<Item>, v: Item)
    requires Ordered(q) && (q == [] || q[|q| - 1].priority >= v.priority)
    ensures Inserted(q, v) == q + [v]
  {
    assert Slot(q, v.priority) == |q|;
  }

  lemma {:induction false} InsertedAtFront(q: seq<Item>, v: Item)
    requires q != [] && q[0].priority < v.priority
    ensures Inserted(q, v) == [v] + q
  {
    assert Slot(q, v.priority) == 0;
  }

  /** Insertion appends the item to its own priority band and leaves every
      other band as it was. */
  lemma {:induction false} InsertedAppendsToBand(q: seq<Item>, v: Item, level: u8)
    requires Ordered(q)
    ensures Filter(AtPriority(level), Inserted(q, v))
         == Filter(AtPriority(level), q) + (if v.priority == level then [v] else [])
  {
    hide Filter, Slot;
    var k, keep := Slot(q, v.priority), AtPriority(level);
    var r := Inserted(q, v);
    FilterSplit(keep, r, k);
    assert r[..k] == q[..k] && r[k + 1..] == q[k..];
    assert q == q[..k] + q[k..];
    FilterConcat(keep, q[..k], q[k..]);
    if v.priority == level {
      NoneKept(keep, q[k..]);
    }
  }

  /** The capacity multiplicative growth asks for. */
  function Grown(capacity: nat, num: nat, den: nat, maxElems: nat): (target: nat)
    requires 1 <= den
    ensures capacity < maxElems ==> capacity < target <= maxElems
  {
    var scaled := Min(Min(capacity * num, USIZE_MAX) + (den - 1), USIZE_MAX) / den;
    Min(if scaled < capacity + 1 then capacity + 1 else scaled, maxElems)
  }

  /** It is the smallest capacity that is more than the present one and at least
      `num / den` times it, as far as the element limit lets it be. */
  lemma GrownIsLeast(capacity: nat, num: nat, den: nat, maxElems: nat, t: nat)
    requires 1 <= den && capacity * num + den <= USIZE_MAX && capacity < maxElems
    ensures t >= Grown(capacity, num, den, maxElems)
       <==> t >= maxElems || (t > capacity && t * den >= capacity * num)
  {
    var n := capacity * num;
    var scaled := (n + (den - 1)) / den;
    CeilingIsLeast(n, den, t);
  }

  lemma CeilingIsLeast(n: nat, den: nat, t: nat)
    requires 1 <= den
    ensures t >= (n + (den - 1)) / den <==> t * den >= n
  {
    var q, r := (n + (den - 1)) / den, (n + (den - 1)) % den;
    assert n + (den - 1) == den * q + r;
    if t >= q {
      Scale(q, t, den);
      assert q * den == den * q;
    } else {
      Scale(t + 1, q, den);
      assert (t + 1) * den == t * den + den;
      assert q * den == den * q;
    }
  }

  class BoundedDeque {
    var q: seq<Item>
    var curBytes: nat
    var capacity: nat
    const maxBytes: nat
    const maxElems: nat
    const growNum: nat
    const growDen: nat
    const fixedCapacity: bool

    ghost predicate Valid()
      reads this
    {
      && Ordered(q)
      && maxBytes <= USIZE_MAX && curBytes <= USIZE_MAX
      && (maxBytes < USIZE_MAX ==> curBytes == Bytes(q) <= maxBytes)
      && |q| <= maxElems && |q| <= capacity
      && 1 <= maxElems && 1 <= growDen
    }

    constructor (maxBytes: nat, maxElems: nat, capacity: nat, growNum: nat, growDen: nat, fixedCapacity: bool)
      requires maxBytes <= USIZE_MAX && 1 <= maxElems && 1 <= growDen
      ensures Valid() && q == []
      ensures this.maxBytes == maxBytes && this.maxElems == maxElems && this.capacity == capacity
      ensures this.growNum == growNum && this.growDen == growDen && this.fixedCapacity == fixedCapacity
    {
      q := [];
      curBytes := 0;
      this.capacity := capacity;
      this.maxBytes, this.maxElems := maxBytes, maxElems;
      this.growNum, this.growDen, this.fixedCapacity := growNum, growDen, fixedCapacity;
    }

    method RemovePos(index: nat) returns (removed: Item)
      requires Valid() && index < |q|
      modifies this`q, this`curBytes
      ensures Valid()
      ensures removed == old(q)[index] && q == Without(old(q), index)
    {
      removed := q[index];
      BytesWithout(q, index);
      q := Without(q, index);
      curBytes := SaturatingSub(curBytes, removed.cost);
    }

    function GrowthTarget(): nat
      requires 1 <= growDen
      reads this
    {
      Grown(capacity, growNum, growDen, maxElems)
    }

    /** Make a free slot: keep one that is there, drop the oldest item where the
        queue may not grow, else ask the allocator, which may refuse or round up. */
    method EnsureRoomForOne() returns (ok: bool)
      requires Valid() && 0 < capacity
      modifies this
      ensures Valid()
      ensures var mayGrow := !fixedCapacity && old(|q|) < maxElems && old(capacity) < maxElems;
        if old(|q|) < old(capacity) then ok && q == old(q) && capacity == old(capacity)
        else if !mayGrow then ok && q == Without(old(q), 0) && capacity == old(capacity)
        else q == old(q) && if ok then capacity >= old(GrowthTarget()) else capacity == old(capacity)
      ensures ok ==> |q| < capacity
    {
      if |q| < capacity {
        return true;
      }
      if fixedCapacity || |q| >= maxElems || capacity >= maxElems {
        var _ := RemovePos(0);
        return true;
      }
      var granted: bool := *;
      if !granted {
        return false;
      }
      var target := GrowthTarget();
      var got: nat :| got >= target;
      capacity := got;
      ok := true;
    }

    /** Binary search for the end of a band, as `partition_point` finds it. */
    method PartitionPoint(level: u8) returns (k: nat)
      requires Valid()
      ensures k == Slot(q, level)
    {
      var lo, hi := 0, |q|;
      while lo < hi
        invariant 0 <= lo <= hi <= |q|
        invariant lo <= Slot(q, level) <= hi
      {
        var mid := (lo + hi) / 2;
        if q[mid].priority >= level {
          lo := mid + 1;
        } else {
          hi := mid;
        }
      }
      k := lo;
    }

    method InsertPrioritized(v: Item)
      requires Valid()
      requires (maxBytes < USIZE_MAX ==> Bytes(q) + v.cost <= maxBytes) && |q| < maxElems && |q| < capacity
      modifies this`q, this`curBytes
      ensures Valid()
      ensures q == Inserted(old(q), v)
    {
      hide Slot, Bytes;
      BytesInserted(q, v);
      InsertedKeepsOrder(q, v);
      if |q| == 0 || q[|q| - 1].priority >= v.priority {
        InsertedAtEnd(q, v);
        q := q + [v];
      } else if q[0].priority < v.priority {
        InsertedAtFront(q, v);
        q := [v] + q;
      } else {
        var k := PartitionPoint(v.priority);
        q := q[..k] + [v] + q[k..];
      }
      curBytes := Min(curBytes + v.cost, USIZE_MAX);
    }

    /** The limits in force: a queue that may grow is bound by its element count only. */
    function InForce(): Limits
      reads this
    {
      Limits(maxBytes, maxElems, if fixedCapacity then capacity else maxElems)
    }

    /** Fair admission: evict what the selector names until `v` fits, then
        insert it in priority order. `evicted` is what the callback is told;
        `denied` says that the allocator refused to grow the queue. */
    method PushSelect(v: Item) returns (r: Outcome, evicted: seq<Item>, ghost denied: bool)
      requires Valid()
      modifies this
      ensures Valid()
      ensures Run(old(q), v, |evicted|).Some?
      ensures var p := Run(old(q), v, |evicted|).value;
        && p.evicted == evicted
        && match r
           case Admitted => q == Inserted(p.queue, v)
           case TooLarge => v.cost > maxBytes && evicted == [] && q == old(q)
           case Unavailable => old(capacity) == 0 && evicted == [] && q == old(q)
           case Saturated => Exhausted(old(q), v, |evicted|) && q == p.queue
      ensures r.Unavailable? <==> old(capacity) == 0
      ensures r.TooLarge? <==> old(capacity) != 0 && v.cost > maxBytes
      ensures
        (&& old(capacity) != 0 && Bytes(old(q)) + v.cost <= maxBytes && |old(q)| + 1 <= maxElems
         && (|old(q)| + 1 <= old(capacity) || (!fixedCapacity && !denied)))
        ==> r.Admitted? && evicted == []
      ensures r.Saturated? && Classified(v) ==>
        q == Residue(old(q), v) && (q == old(q) <==> NothingYields(old(q), v))
      ensures fixedCapacity ==> !denied
      ensures !denied ==> Squeezed(old(q), v, old(InForce()), |evicted|)
      ensures !denied && r.Admitted? ==>
        !Limited(Run(old(q), v, |evicted|).value.queue, v, old(InForce()))
      ensures !denied && (r.Admitted? || r.Saturated?) ==> (r.Admitted? <==> Admits(old(q), v, old(InForce())))
      ensures !denied && (r.Admitted? || r.Saturated?) && Classified(v) ==>
        (evicted == [] <==> !Limited(old(q), v, old(InForce())) || NothingYields(old(q), v))
    {
      evicted, denied := [], false;
      ghost var lim := InForce();
      RunStart(q, v);
      hide Victim, Evict, Run, Squeezed, Bytes, Inserted, Residue, NothingYields;
      SqueezedNever(q, v, lim);
      if capacity == 0 {
        return Unavailable, [], false;
      }
      if v.cost > maxBytes {
        return TooLarge, [], false;
      }
      ghost var fits := Bytes(q) + v.cost <= maxBytes && |q| + 1 <= maxElems
        && (|q| + 1 <= capacity || !fixedCapacity);
      var selected: Option<u32> := None;
      while true
        invariant Valid() && 0 < capacity
        invariant fits ==> evicted == [] || denied
        invariant fits && |old(q)| + 1 <= old(capacity) ==> !denied && capacity == old(capacity)
        invariant fixedCapacity ==> capacity == old(capacity) && !denied
        invariant Run(old(q), v, |evicted|) == Some(Pressure(q, selected, evicted))
        invariant !denied ==> Squeezed(old(q), v, lim, |evicted|)
        decreases |q|
      {
        var limit := Min(curBytes + v.cost, USIZE_MAX) > maxBytes
          || |q| >= maxElems
          || (fixedCapacity && |q| >= capacity);
        assert limit == Limited(q, v, lim);
        if !limit {
          var ok := EnsureRoomForOne();
          if ok {
            break;
          }
          denied := true;
        }
        var index, chosen := SelectVictim(q, v, selected);
        TurnExtendsRun(old(q), v, |evicted|, Pressure(q, selected, evicted));
        if index.None? || Outranks(q[index.value], v) {
          if Classified(v) {
            RefusalIsHarmlessIff(old(q), v, |evicted|);
          }
          if !denied {
            StuckMeansNotAdmitted(old(q), v, lim, |evicted|);
            if Classified(v) {
              EvictsNothingIff(old(q), v, lim, |evicted|);
            }
          }
          return Saturated, evicted, denied;
        }
        if !denied {
          SqueezedOnce(old(q), v, lim, |evicted|);
        }
        selected := chosen;
        var gone := RemovePos(index.value);
        evicted := evicted + [gone];
      }
      if !denied && Classified(v) {
        EvictsNothingIff(old(q), v, lim, |evicted|);
      }
      InsertPrioritized(v);
      r := Admitted;
    }
  }

  /** On a queue in priority order an unowned item can displace exactly the items
      that do not outrank it. */
  lemma {:induction false} SteadfastOfOrdered(q: seq<Item>, v: Item)
    requires Ordered(q)
    ensures Steadfast(q, v) == Filter(Outranking(v), q)
  {
    hide Filter, Steadfast;
    var r := Steadfast(q, v);
    assert q == r + q[|r|..];
    FilterConcat(Outranking(v), r, q[|r|..]);
    forall i | 0 <= i < |r|
      ensures Outranking(v)(r[i])
    {
      OutranksUpward(r[i], r[|r| - 1], v);
    }
    AllKept(Outranking(v), r);
    NoneKept(Outranking(v), q[|r|..]);
  }

  lemma OutranksUpward(higher: Item, lower: Item, v: Item)
    requires higher.priority >= lower.priority && Outranks(lower, v)
    ensures Outranks(higher, v)
  {
  }

  /** A higher priority outranks; among updates of priority 254 an equal one does too. */
  function Outranking(v: Item): Item -> bool {
    (it: Item) => it.priority > v.priority || (v.priority == 254 && it.priority == 254)
  }
}
