/** The transmit path's use of the service order (`select_front_fair_deferred`,
    `finish_deferred_turn` and `cancel_deferred_turn` in src/queue.rs): a turn
    given to a lower band is only spent once its item is admitted, and until
    then the band holds a reservation. */
module DeferredService {
  import opened Prelude
  import opened FairService

  /** The turn state and the reservation; the three flags are the bits of
      `fair_owed_flags`. */
  datatype Reservation = Reservation(turn: Turn, owed: u8, pending: bool, active: bool, nested: bool)

  const UNRESERVED: Reservation := Reservation(FRESH, 0, false, false, false)

  predicate NoFlags(r: Reservation) { !r.pending && !r.active && !r.nested }

  /** The first item of a band, ready or in any state. */
  function FirstOf(q: seq<Waiting>, band: u8, mustBeReady: bool): (r: Option<nat>)
    ensures r.Some? ==> r.value < |q| && q[r.value].priority == band && (mustBeReady ==> q[r.value].ready)
    ensures r.Some? ==> forall i :: 0 <= i < r.value ==> !(q[i].priority == band && (mustBeReady ==> q[i].ready))
    ensures r.None? <==> forall i :: 0 <= i < |q| ==> !(q[i].priority == band && (mustBeReady ==> q[i].ready))
  {
    if q == [] then None
    else if q[0].priority == band && (mustBeReady ==> q[0].ready) then Some(0)
    else match FirstOf(q[1..], band, mustBeReady)
      case Some(i) => Some(i + 1)
      case None => None
  }

  predicate AnyAbove(q: seq<Waiting>, band: u8) { exists i :: 0 <= i < |q| && q[i].priority > band }

  /** What a selection returns: an index, and whether it owns the turn. */
  datatype Pick = Pick(index: nat, owns: bool)

  /** The reservation's own claim on a selection, if it has one now. */
  function Claim(q: seq<Waiting>, r: Reservation, maxBurst: u8): (c: Option<(Pick, Reservation)>)
    ensures c.Some? ==> c.value.0.index < |q|
  {
    var control := FirstOf(q, 255, true);
    var own := FirstOf(q, r.owed, true);
    if !r.pending || r.active then None
    else if r.turn.burst < maxBurst && control.Some? then
      Some((Pick(control.value, false), r.(turn := r.turn.(burst := Min(r.turn.burst + 1, 255)))))
    else if own.Some? then Some((Pick(own.value, true), r.(active := true)))
    else None
  }

  /** A reservation lapses when its band has left the queue. */
  function Lapsed(q: seq<Waiting>, r: Reservation): Reservation {
    if r.pending && !r.active && FirstOf(q, r.owed, false).None?
    then r.(pending := false, active := false, nested := false) else r
  }

  /** The ordinary selection below a reservation that makes no claim. */
  function Ordinary(q: seq<Waiting>, r: Reservation, maxBurst: u8): (c: (Option<Pick>, Reservation))
    ensures c.0.Some? ==> c.0.value.index < |q|
  {
    var (index, turn) := Select(q, r.turn, maxBurst);
    if index.None? then (None, r)
    else
      var priority := q[index.value].priority;
      if r.pending then
        (Some(Pick(index.value, false)), r.(turn := turn.(burst := Min(Max(r.turn.burst, turn.burst), maxBurst))))
      else if NoFlags(r) && AnyAbove(q, priority) then
        (Some(Pick(index.value, true)), r.(owed := priority, pending := true, active := true))
      else (Some(Pick(index.value, false)), r.(turn := turn))
  }

  function Max(a: int, b: int): int { if a < b then b else a }

  function SelectDeferred(q: seq<Waiting>, r: Reservation, maxBurst: u8): (c: (Option<Pick>, Reservation))
    ensures c.0.Some? ==> c.0.value.index < |q|
  {
    match Claim(q, r, maxBurst)
    case Some((pick, next)) => (Some(pick), next)
    case None => Ordinary(q, Lapsed(q, r), maxBurst)
  }

  function Finish(r: Reservation, priority: u8, owns: bool, admitted: bool, retained: bool): Reservation {
    var r1 := if !owns && admitted && r.active then r.(nested := true) else r;
    if !owns || !r1.active || r1.owed != priority then r1
    else if admitted || !retained then
      Reservation(if r1.pending then Turn(0, priority) else r1.turn, r1.owed, false, false, false)
    else
      r1.(turn := if r1.nested then r1.turn else r1.turn.(burst := 0), active := false, nested := false)
  }

  function Cancel(r: Reservation): Reservation { r.(pending := false, nested := false) }

  /** The queue's own fields, updated in place. */
  class DeferredQueue {
    var burst: u8
    var cursor: u8
    var owed: u8
    var pending: bool
    var active: bool
    var nested: bool

    function View(): Reservation
      reads this
    {
      Reservation(Turn(burst, cursor), owed, pending, active, nested)
    }

    constructor ()
      ensures View() == Reservation(Turn(0, 255), 0, false, false, false)
    {
      burst, cursor, owed := 0, 255, 0;
      pending, active, nested := false, false, false;
    }

    method SelectFrontDeferred(q: seq<Waiting>, maxBurst: u8) returns (pick: Option<Pick>)
      modifies this
      ensures (pick, View()) == SelectDeferred(q, old(View()), maxBurst)
    {
      hide Select, FirstOf;
      if pending && !active {
        var control := FirstOf(q, 255, true);
        if burst < maxBurst && control.Some? {
          burst := Min(burst + 1, 255);
          return Some(Pick(control.value, false));
        }
        var own := FirstOf(q, owed, true);
        if own.Some? {
          active := true;
          return Some(Pick(own.value, true));
        }
        if FirstOf(q, owed, false).None? {
          pending, active, nested := false, false, false;
        }
      }
      var before := Turn(burst, cursor);
      var (index, turn) := Select(q, before, maxBurst);
      if index.None? {
        return None;
      }
      burst, cursor := turn.burst, turn.cursor;
      var priority := q[index.value].priority;
      if pending {
        burst := Min(Max(before.burst, burst), maxBurst);
      }
      if !pending && !active && !nested && AnyAbove(q, priority) {
        owed, pending, active := priority, true, true;
        burst, cursor := before.burst, before.cursor;
        return Some(Pick(index.value, true));
      }
      return Some(Pick(index.value, false));
    }

    method FinishDeferredTurn(priority: u8, owns: bool, admitted: bool, retained: bool)
      modifies this
      ensures View() == Finish(old(View()), priority, owns, admitted, retained)
    {
      if !owns && admitted && active {
        nested := true;
      }
      if !owns || !active || owed != priority {
        return;
      }
      if admitted || !retained {
        if pending {
          burst, cursor := 0, priority;
        }
        pending, active, nested := false, false, false;
      } else {
        if !nested {
          burst := 0;
        }
        active, nested := false, false;
      }
    }

    method CancelDeferredTurn()
      modifies this
      ensures View() == Cancel(old(View()))
    {
      pending, nested := false, false;
    }
  }

  // ---- what the operations promise, told without the flags ----

  /** Arrival order within a band, reserved or not. */
  lemma PickIsFifo(q: seq<Waiting>, r: Reservation, maxBurst: u8, j: nat)
    requires SelectDeferred(q, r, maxBurst).0.Some? && j < SelectDeferred(q, r, maxBurst).0.value.index
    ensures var i := SelectDeferred(q, r, maxBurst).0.value.index;
      !(q[j].ready && q[j].priority == q[i].priority)
  {
    hide Select, FirstOf;
    if Claim(q, r, maxBurst).None? {
      ServiceIsFifo(q, Lapsed(q, r).turn, maxBurst, j);
    }
  }

  /** A refused attempt opens a new allowance, unless another item was admitted
      while it was under way: that one has used the opportunity. */
  lemma NestedAdmissionUsesTheOpportunity(r: Reservation, other: u8, admitted: bool)
    requires r.pending && r.active && !r.nested
    ensures var inside := Finish(r, other, false, admitted, true);
      Finish(inside, r.owed, true, false, true)
      == Reservation(if admitted then r.turn else Turn(0, r.turn.cursor), r.owed, true, false, false)
  {
  }

  /** Cancelled under way, an attempt neither spends the turn nor leaves a
      reservation, and no other is made until it has finished. */
  lemma CancelledAttemptSpendsNothing(r: Reservation, q: seq<Waiting>, maxBurst: u8, admitted: bool, retained: bool)
    requires r.active
    ensures var off := Cancel(r);
      && !SelectDeferred(q, off, maxBurst).1.pending
      && (admitted || !retained ==>
            Finish(off, r.owed, true, admitted, retained) == Reservation(r.turn, r.owed, false, false, false))
  {
    hide Select;
  }

  /** Fallback work below a reservation never gives back any of the allowance. */
  lemma FallbackKeepsAllowance(q: seq<Waiting>, r: Reservation, maxBurst: u8)
    requires r.pending && Claim(q, r, maxBurst).None? && (r.active || FirstOf(q, r.owed, false).Some?)
    ensures var (pick, next) := SelectDeferred(q, r, maxBurst);
      next.pending && next.owed == r.owed && Min(r.turn.burst, maxBurst) <= next.turn.burst
      && (pick.Some? ==> next.turn.burst <= maxBurst && !pick.value.owns)
  {
    hide Select, FirstOf;
  }

  // ---- a reservation is kept until it is used ----

  datatype Event =
    | Selection(q: seq<Waiting>)
    | Finished(priority: u8, owns: bool, admitted: bool, retained: bool)
    | Cancelled

  function Next(r: Reservation, e: Event, maxBurst: u8): Reservation {
    match e
    case Selection(q) => SelectDeferred(q, r, maxBurst).1
    case Finished(priority, owns, admitted, retained) => Finish(r, priority, owns, admitted, retained)
    case Cancelled => Cancel(r)
  }

  function After(r: Reservation, events: seq<Event>, maxBurst: u8): Reservation {
    if events == [] then r else Next(After(r, events[..|events| - 1], maxBurst), events[|events| - 1], maxBurst)
  }

  /** The events that end a reservation: its own attempt was admitted or its item
      is gone; its band has left the queue and no control item goes first; or
      it was cancelled. */
  predicate Ends(r: Reservation, e: Event, maxBurst: u8) {
    match e
    case Selection(q) => !r.active && FirstOf(q, r.owed, false).None? && Claim(q, r, maxBurst).None?
    case Finished(priority, owns, admitted, retained) =>
      owns && r.active && priority == r.owed && (admitted || !retained)
    case Cancelled => true
  }

  /** Exactly these end it; nothing else takes it away or gives it to another band. */
  lemma ReservationEndsIff(r: Reservation, e: Event, maxBurst: u8)
    requires r.pending
    ensures var n := Next(r, e, maxBurst); n.pending && n.owed == r.owed <==> !Ends(r, e, maxBurst)
  {
  }

  /** An owed band keeps its reservation through any run of events, until it is
      admitted or one of the other endings. */
  lemma {:induction false} ReservationIsKept(r: Reservation, events: seq<Event>, maxBurst: u8)
    requires r.pending
    requires forall i :: 0 <= i < |events| ==> !Ends(After(r, events[..i], maxBurst), events[i], maxBurst)
    ensures After(r, events, maxBurst).pending && After(r, events, maxBurst).owed == r.owed
  {
    hide Next, Ends;
    if events != [] {
      var n := |events| - 1;
      var init := events[..n];
      assert forall i :: 0 <= i < n ==> init[..i] == events[..i];
      ReservationIsKept(r, init, maxBurst);
      ReservationEndsIff(After(r, init, maxBurst), events[n], maxBurst);
    }
  }

  /** A selection without a reservation makes one exactly when something queued,
      eligible or not, ranks above the pick; otherwise it spends the turn at once. */
  lemma TurnIsOwnedIff(q: seq<Waiting>, r: Reservation, maxBurst: u8)
    requires !r.pending && !r.active && !r.nested && SelectDeferred(q, r, maxBurst).0.Some?
    ensures var (pick, next) := SelectDeferred(q, r, maxBurst); var i := pick.value.index;
      && (pick.value.owns <==> exists j :: 0 <= j < |q| && q[j].priority > q[i].priority)
      && (!pick.value.owns ==> (Some(i), next) == (Select(q, r.turn, maxBurst).0,
                                                   r.(turn := Select(q, r.turn, maxBurst).1)))
  {
    hide Select;
  }

  /** A lower turn is reserved, not spent: the selection hands it out with the
      turn state as before, and only admission moves the rotation on. */
  lemma LowerTurnIsReserved(q: seq<Waiting>, r: Reservation, maxBurst: u8, admitted: bool, retained: bool)
    requires NoFlags(r) && SelectDeferred(q, r, maxBurst).0.Some?
    requires var pick := SelectDeferred(q, r, maxBurst).0.value; AnyAbove(q, q[pick.index].priority)
    ensures var (pick, next) := SelectDeferred(q, r, maxBurst); var band := q[pick.value.index].priority;
      && pick.value.owns && next == Reservation(r.turn, band, true, true, false)
      && Finish(next, band, true, admitted, retained)
      == if admitted || !retained then Reservation(Turn(0, band), band, false, false, false)
         else Reservation(Turn(0, r.turn.cursor), band, true, false, false)
  {
    hide Select;
  }

  // ---- an owed band is tried again and again ----

  /** One round of the transmit loop: a selection, then its outcome. */
  datatype Round = Round(q: seq<Waiting>, admitted: bool, retained: bool)

  function PlayRound(r: Reservation, round: Round, maxBurst: u8): Reservation {
    var (pick, next) := SelectDeferred(round.q, r, maxBurst);
    if pick.None? then next
    else Finish(next, round.q[pick.value.index].priority, pick.value.owns, round.admitted, round.retained)
  }

  function StateAt(r: Reservation, rounds: seq<Round>, maxBurst: u8, i: nat): Reservation
    requires i <= |rounds|
  {
    if i == 0 then r else PlayRound(StateAt(r, rounds, maxBurst, i - 1), rounds[i - 1], maxBurst)
  }

  /** The selection gives the owed band its attempt. */
  predicate Tries(r: Reservation, q: seq<Waiting>, maxBurst: u8) {
    var pick := SelectDeferred(q, r, maxBurst).0;
    pick.Some? && pick.value.owns && q[pick.value.index].priority == r.owed
  }

  predicate TriesAt(r: Reservation, rounds: seq<Round>, maxBurst: u8, i: nat) {
    i < |rounds| && Tries(StateAt(r, rounds, maxBurst, i), rounds[i].q, maxBurst)
  }

  predicate Owes(r: Reservation, band: u8) { r.pending && !r.active && !r.nested && r.owed == band }

  /** With an item of the owed band ready, a round either tries it or spends one
      unit of the control allowance; a refused attempt leaves it owed and opens
      a new allowance. */
  lemma OwedRound(r: Reservation, round: Round, maxBurst: u8, band: u8)
    requires Owes(r, band) && BandWaits(round.q, band)
    ensures var n := PlayRound(r, round, maxBurst);
      if Tries(r, round.q, maxBurst) then
        if round.admitted || !round.retained then NoFlags(n) && n.turn == Turn(0, band)
        else Owes(n, band) && n.turn == Turn(0, r.turn.cursor)
      else r.turn.burst < maxBurst && n == r.(turn := r.turn.(burst := r.turn.burst + 1))
  {
    hide Select, Ordinary;
    var w :| 0 <= w < |round.q| && round.q[w].ready && round.q[w].priority == band;
    assert FirstOf(round.q, band, true).Some?;
  }

  /** Histories in which the owed band always has an item ready and its attempts
      are refused but its item retained. */
  ghost predicate Persists(r: Reservation, rounds: seq<Round>, maxBurst: u8, band: u8) {
    && Owes(r, band)
    && (forall i :: 0 <= i < |rounds| ==> BandWaits(rounds[i].q, band))
    && (forall i :: 0 <= i < |rounds| && TriesAt(r, rounds, maxBurst, i) ==>
          !rounds[i].admitted && rounds[i].retained)
  }

  lemma {:induction false} StillOwed(r: Reservation, rounds: seq<Round>, maxBurst: u8, band: u8, i: nat)
    requires Persists(r, rounds, maxBurst, band) && i <= |rounds|
    ensures Owes(StateAt(r, rounds, maxBurst, i), band)
  {
    hide PlayRound, Tries, BandWaits;
    if i > 0 {
      StillOwed(r, rounds, maxBurst, band, i - 1);
      assert TriesAt(r, rounds, maxBurst, i - 1)
        <==> Tries(StateAt(r, rounds, maxBurst, i - 1), rounds[i - 1].q, maxBurst);
      OwedRound(StateAt(r, rounds, maxBurst, i - 1), rounds[i - 1], maxBurst, band);
    }
  }

  lemma {:induction false} AllowanceRunsOut(
      r: Reservation, rounds: seq<Round>, maxBurst: u8, band: u8, from: nat, n: nat)
    requires Persists(r, rounds, maxBurst, band) && from + n <= |rounds|
    requires forall i :: from <= i < from + n ==> !TriesAt(r, rounds, maxBurst, i)
    ensures StateAt(r, rounds, maxBurst, from + n).turn.burst >= n
    ensures n > 0 ==> n <= maxBurst
  {
    hide PlayRound, Tries, BandWaits;
    if n > 0 {
      AllowanceRunsOut(r, rounds, maxBurst, band, from, n - 1);
      var i := from + n - 1;
      StillOwed(r, rounds, maxBurst, band, i);
      assert !TriesAt(r, rounds, maxBurst, i);
      OwedRound(StateAt(r, rounds, maxBurst, i), rounds[i], maxBurst, band);
    }
  }

  /** However often it is refused, a reserved band with work ready is tried in
      every `maxBurst + 1` consecutive rounds, whatever else is queued. */
  lemma OwedBandIsTriedInEveryWindow(r: Reservation, rounds: seq<Round>, maxBurst: u8, band: u8, from: nat)
    requires Persists(r, rounds, maxBurst, band) && from + maxBurst + 1 <= |rounds|
    ensures exists i :: from <= i <= from + maxBurst && TriesAt(r, rounds, maxBurst, i)
  {
    hide Persists, TriesAt;
    if forall i :: from <= i < from + maxBurst + 1 ==> !TriesAt(r, rounds, maxBurst, i) {
      AllowanceRunsOut(r, rounds, maxBurst, band, from, maxBurst + 1);
    }
  }
}
