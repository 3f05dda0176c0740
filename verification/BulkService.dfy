/** The receive path's service order (`pop_front_bulk_fair` in src/queue.rs):
    the front, except that after a bounded burst of bulk items the first item
    of the lowest band gets a turn. */
module BulkService {
  import opened Prelude

  const CONTROL: int := 200

  function FirstOf(q: seq<u8>, band: u8): (i: nat)
    requires band in q
    ensures i < |q| && q[i] == band && forall j :: 0 <= j < i ==> q[j] != band
  {
    if q[0] == band then 0 else 1 + FirstOf(q[1..], band)
  }

  /** The popped index and the burst it leaves, for a queue of priorities. */
  function Pop(q: seq<u8>, burst: u8, maxBurst: u8): (r: (Option<nat>, u8))
    ensures r.0.Some? ==> r.0.value < |q|
  {
    if q == [] then (None, 0)
    else if q[0] >= CONTROL || q[0] == q[|q| - 1] then (Some(0), 0)
    else if burst < maxBurst then (Some(0), burst + 1)
    else (Some(FirstOf(q, q[|q| - 1])), 0)
  }

  method PopFrontBulkFair(q: seq<u8>, burst: u8, maxBurst: u8) returns (index: Option<nat>, now: u8)
    ensures (index, now) == Pop(q, burst, maxBurst)
  {
    if |q| == 0 {
      return None, 0;
    }
    var front, lowest := q[0], q[|q| - 1];
    if front >= CONTROL || front == lowest {
      return Some(0), 0;
    }
    if burst < maxBurst {
      return Some(0), burst + 1;
    }
    var i := 0;
    while q[i] != lowest
      invariant 0 <= i < |q| && forall j :: 0 <= j < i ==> q[j] != lowest
      decreases |q| - i
    {
      i := i + 1;
    }
    return Some(i), 0;
  }

  ghost predicate Descending(q: seq<u8>) {
    forall i, j :: 0 <= i < j < |q| ==> q[i] >= q[j]
  }

  /** The front yields exactly when it is no protected control, is not itself of
      the lowest band, and the allowance is used up; every pop takes the oldest
      item of its band, and only the first and last bands are ever served. */
  lemma PopServesAnEnd(q: seq<u8>, burst: u8, maxBurst: u8)
    requires q != [] && Descending(q)
    ensures var i := Pop(q, burst, maxBurst).0;
      && i.Some? && (forall j :: 0 <= j < i.value ==> q[j] != q[i.value])
      && (q[i.value] == q[0] || q[i.value] == q[|q| - 1])
      && (i == Some(0) <==> q[0] >= 200 || q[0] == q[|q| - 1] || burst < maxBurst)
  {
  }

  function BurstAt(queues: seq<seq<u8>>, burst: u8, maxBurst: u8, i: nat): u8
    requires i <= |queues|
  {
    if i == 0 then burst else Pop(queues[i - 1], BurstAt(queues, burst, maxBurst, i - 1), maxBurst).1
  }

  /** Every front is bulk and something lower waits behind it. */
  ghost predicate Mixed(queues: seq<seq<u8>>) {
    forall i :: 0 <= i < |queues| ==>
      queues[i] != [] && queues[i][0] < 200 && queues[i][|queues[i]| - 1] != queues[i][0]
  }

  lemma MixedPop(q: seq<u8>, burst: u8, maxBurst: u8)
    requires q != [] && q[0] < 200 && q[|q| - 1] != q[0] && burst <= maxBurst
    ensures Pop(q, burst, maxBurst).0 == Some(0) <==> burst < maxBurst
    ensures Pop(q, burst, maxBurst).1 == if burst == maxBurst then 0 else burst + 1
  {
  }

  /** While bulk waits behind higher bulk, exactly every `maxBurst + 1`st pop
      passes the front by. */
  lemma {:induction false} LowerTurnsRecur(queues: seq<seq<u8>>, maxBurst: u8, i: nat)
    requires Mixed(queues) && i <= |queues|
    ensures BurstAt(queues, 0, maxBurst, i) == i % (maxBurst + 1)
    ensures i < |queues| ==>
      (Pop(queues[i], BurstAt(queues, 0, maxBurst, i), maxBurst).0 == Some(0) <==> i % (maxBurst + 1) < maxBurst)
  {
    hide Pop;
    if i > 0 {
      LowerTurnsRecur(queues, maxBurst, i - 1);
      NextRemainder(i - 1, maxBurst + 1);
      MixedPop(queues[i - 1], BurstAt(queues, 0, maxBurst, i - 1), maxBurst);
    }
    if i < |queues| {
      MixedPop(queues[i], BurstAt(queues, 0, maxBurst, i), maxBurst);
    }
  }

  /** Pop `i` of the history takes an item of the lowest band queued. */
  ghost predicate TakesLowest(queues: seq<seq<u8>>, burst: u8, maxBurst: u8, i: nat) {
    i < |queues| && queues[i] != []
    && queues[i][Pop(queues[i], BurstAt(queues, burst, maxBurst, i), maxBurst).0.value] == queues[i][|queues[i]| - 1]
  }

  ghost predicate BulkOnly(queues: seq<seq<u8>>) {
    forall i :: 0 <= i < |queues| ==> queues[i] != [] && queues[i][0] < CONTROL
  }

  lemma {:induction false} BurstGrows(queues: seq<seq<u8>>, burst: u8, maxBurst: u8, from: nat, n: nat)
    requires BulkOnly(queues) && from + n <= |queues|
    requires forall i :: from <= i < from + n ==> !TakesLowest(queues, burst, maxBurst, i)
    ensures BurstAt(queues, burst, maxBurst, from + n) >= n
    ensures n > 0 ==> n <= maxBurst
  {
    if n > 0 {
      BurstGrows(queues, burst, maxBurst, from, n - 1);
      assert !TakesLowest(queues, burst, maxBurst, from + n - 1);
    }
  }

  /** While no control item is at the front, the lowest band is served in every
      `maxBurst + 1` consecutive pops, whatever arrives in between. */
  lemma LowestIsServedInEveryWindow(queues: seq<seq<u8>>, burst: u8, maxBurst: u8, from: nat)
    requires BulkOnly(queues) && from + maxBurst + 1 <= |queues|
    ensures exists i :: from <= i <= from + maxBurst && TakesLowest(queues, burst, maxBurst, i)
  {
    hide BulkOnly, TakesLowest;
    if forall i :: from <= i < from + maxBurst + 1 ==> !TakesLowest(queues, burst, maxBurst, i) {
      BurstGrows(queues, burst, maxBurst, from, maxBurst + 1);
    }
  }
}
