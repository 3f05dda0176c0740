/** How long a band can wait on the transmit path, where the service order is
    reached through reservations (src/queue.rs, src/router.rs): over rounds of
    a selection and its outcome, from every state the rounds can reach. */
module DeferredWait {
  import opened Prelude
  import opened FairService
  import opened DeferredService

  /** Every queued item is eligible. */
  ghost predicate AllReady(q: seq<Waiting>) { forall i :: 0 <= i < |q| ==> q[i].ready }

  ghost predicate Eligible(rounds: seq<Round>) {
    forall i :: 0 <= i < |rounds| ==> AllReady(rounds[i].q)
  }

  /** A state between rounds of a service that started fresh; with `eligible`,
      one reached while every queued item was eligible. */
  ghost predicate Reachable(r: Reservation, maxBurst: u8, eligible: bool) {
    exists rounds: seq<Round> ::
      (eligible ==> Eligible(rounds)) && StateAt(UNRESERVED, rounds, maxBurst, |rounds|) == r
  }

  ghost predicate Settled(r: Reservation) { !r.active && !r.nested }

  /** Between rounds no attempt is under way. */
  lemma RoundSettles(r: Reservation, round: Round, maxBurst: u8)
    requires Settled(r)
    ensures Settled(PlayRound(r, round, maxBurst))
  {
    hide Select, FirstOf;
  }

  lemma {:induction false} SettledAt(rounds: seq<Round>, maxBurst: u8, i: nat)
    requires i <= |rounds|
    ensures Settled(StateAt(UNRESERVED, rounds, maxBurst, i))
  {
    hide PlayRound;
    if i > 0 {
      SettledAt(rounds, maxBurst, i - 1);
      RoundSettles(StateAt(UNRESERVED, rounds, maxBurst, i - 1), rounds[i - 1], maxBurst);
    }
  }

  lemma {:induction false} PrefixState(r: Reservation, rounds: seq<Round>, round: Round, maxBurst: u8, i: nat)
    requires i <= |rounds|
    ensures StateAt(r, rounds + [round], maxBurst, i) == StateAt(r, rounds, maxBurst, i)
  {
    hide PlayRound;
    if i > 0 {
      PrefixState(r, rounds, round, maxBurst, i - 1);
    }
  }

  lemma ReachableRound(r: Reservation, round: Round, maxBurst: u8, eligible: bool)
    requires Reachable(r, maxBurst, eligible) && (eligible ==> AllReady(round.q))
    ensures Reachable(PlayRound(r, round, maxBurst), maxBurst, eligible)
  {
    hide PlayRound, AllReady;
    var rounds: seq<Round> :|
      (eligible ==> Eligible(rounds)) && StateAt(UNRESERVED, rounds, maxBurst, |rounds|) == r;
    PrefixState(UNRESERVED, rounds, round, maxBurst, |rounds|);
    var longer := rounds + [round];
    assert StateAt(UNRESERVED, longer, maxBurst, |longer|) == PlayRound(r, round, maxBurst);
    assert eligible ==> Eligible(longer);
  }

  lemma StartIsReachable(maxBurst: u8, eligible: bool)
    ensures Reachable(UNRESERVED, maxBurst, eligible)
  {
    assert Eligible([]) && StateAt(UNRESERVED, [], maxBurst, 0) == UNRESERVED;
  }

  // ---- waiting and being picked ----

  ghost predicate RoundsWait(rounds: seq<Round>, band: u8, eligible: bool) {
    && (forall i :: 0 <= i < |rounds| ==> Descending(rounds[i].q) && BandWaits(rounds[i].q, band))
    && (eligible ==> Eligible(rounds))
  }

  predicate Picks(r: Reservation, q: seq<Waiting>, maxBurst: u8, band: u8) {
    var pick := SelectDeferred(q, r, maxBurst).0;
    pick.Some? && q[pick.value.index].priority == band
  }

  ghost predicate PickedAt(r: Reservation, rounds: seq<Round>, maxBurst: u8, band: u8, i: nat) {
    i < |rounds| && Picks(StateAt(r, rounds, maxBurst, i), rounds[i].q, maxBurst, band)
  }

  ghost predicate Picked(r: Reservation, rounds: seq<Round>, maxBurst: u8, band: u8) {
    exists i: nat :: PickedAt(r, rounds, maxBurst, band, i)
  }

  /** From every reachable state, waiting through `n` rounds gets the band picked. */
  ghost predicate PicksWithin(n: nat, maxBurst: u8, band: u8, eligible: bool) {
    forall r: Reservation, rounds: seq<Round> ::
      Reachable(r, maxBurst, eligible) && |rounds| == n && RoundsWait(rounds, band, eligible) ==>
        Picked(r, rounds, maxBurst, band)
  }

  /** A history of one round repeated in a state it does not change. */
  lemma {:induction false} FixedState(r: Reservation, round: Round, n: nat, maxBurst: u8, i: nat)
    requires PlayRound(r, round, maxBurst) == r && i <= n
    ensures StateAt(r, seq(n, _ => round), maxBurst, i) == r
  {
    hide PlayRound;
    if i > 0 {
      FixedState(r, round, n, maxBurst, i - 1);
    }
  }

  /** A reachable state and a round that leave each other unchanged and pass over
      the band: it then has no bounded wait. */
  lemma FixedRoundStarves(r: Reservation, round: Round, maxBurst: u8, band: u8, eligible: bool)
    requires Reachable(r, maxBurst, eligible) && PlayRound(r, round, maxBurst) == r
    requires Descending(round.q) && BandWaits(round.q, band) && (eligible ==> AllReady(round.q))
    requires !Picks(r, round.q, maxBurst, band)
    ensures forall n: nat :: !PicksWithin(n, maxBurst, band, eligible)
  {
    hide PlayRound, Picks, AllReady, Descending, BandWaits, Reachable;
    forall n: nat
      ensures !PicksWithin(n, maxBurst, band, eligible)
    {
      var rounds := seq(n, _ => round);
      assert RoundsWait(rounds, band, eligible);
      forall i: nat | i < n
        ensures !PickedAt(r, rounds, maxBurst, band, i)
      {
        FixedState(r, round, n, maxBurst, i);
      }
      assert !Picked(r, rounds, maxBurst, band);
    }
  }

  // ---- an owed band shuts out the others ----

  /** While an owed band has an item ready, nothing but it and band 255 is picked. */
  lemma OwedShutsOutOthers(r: Reservation, q: seq<Waiting>, maxBurst: u8, band: u8)
    requires r.pending && !r.active && BandWaits(q, r.owed)
    ensures Picks(r, q, maxBurst, band) ==> band == r.owed || band == 255
  {
    var w :| 0 <= w < |q| && q[w].ready && q[w].priority == r.owed;
    assert FirstOf(q, r.owed, true).Some?;
    hide Select, FirstOf;
  }

  function Owing(band: u8): Reservation { Reservation(FRESH, band, true, false, false) }

  /** Any band below 254 can be made to be owed. */
  lemma OwingIsReachable(maxBurst: u8, band: u8)
    requires band < 254
    ensures Reachable(Owing(band), maxBurst, true)
  {
    hide PlayRound, Reachable;
    Building(maxBurst, band, maxBurst);
    var q := [Waiting(254, true), Waiting(band, true)];
    ReachableRound(Built(maxBurst), Round(q, false, true), maxBurst, true);
    LowerRound(maxBurst, band);
  }

  function Built(burst: u8): Reservation { Reservation(Turn(burst, 255), 0, false, false, false) }

  lemma {:induction false} Building(maxBurst: u8, band: u8, k: nat)
    requires band < 254 && k <= maxBurst
    ensures Reachable(Built(k), maxBurst, true)
  {
    hide PlayRound, Reachable;
    if k == 0 {
      StartIsReachable(maxBurst, true);
    } else {
      Building(maxBurst, band, k - 1);
      var q := [Waiting(254, true), Waiting(band, true)];
      ReachableRound(Built(k - 1), Round(q, false, true), maxBurst, true);
      UpperRound(k - 1, maxBurst, band);
    }
  }

  lemma UpperRound(k: u8, maxBurst: u8, band: u8)
    requires band < 254 && k < maxBurst
    ensures PlayRound(Built(k), Round([Waiting(254, true), Waiting(band, true)], false, true), maxBurst) == Built(k + 1)
  {
    var q := [Waiting(254, true), Waiting(band, true)];
    assert Below(q, 0, 1);
    assert Select(q, Turn(k, 255), maxBurst) == (Some(0), Turn(k + 1, 255));
    hide Select;
    assert !AnyAbove(q, 254);
  }

  lemma LowerRound(maxBurst: u8, band: u8)
    requires band < 254
    ensures PlayRound(Built(maxBurst), Round([Waiting(254, true), Waiting(band, true)], false, true), maxBurst)
         == Owing(band)
  {
    var q := [Waiting(254, true), Waiting(band, true)];
    assert Below(q, 0, 1);
    assert Select(q, Turn(maxBurst, 255), maxBurst) == (Some(1), Turn(0, band));
    hide Select;
    assert q[0].priority > band;
    assert AnyAbove(q, band);
  }

  /** With refusals, every band but 255 (and 255 too without an allowance) can be
      passed over forever, every queued item being eligible throughout. */
  lemma RefusalsStarve(maxBurst: u8, band: u8)
    requires band != 255 || maxBurst == 0
    ensures forall n: nat :: !PicksWithin(n, maxBurst, band, true) && !PicksWithin(n, maxBurst, band, false)
  {
    hide Reachable, PicksWithin;
    var owed: u8 := if band == 0 then 1 else 0;
    var q := if band == 0 then [Waiting(1, true), Waiting(0, true)] else [Waiting(band, true), Waiting(0, true)];
    OwingIsReachable(maxBurst, owed);
    EligibleIsReachable(Owing(owed), maxBurst);
    OwedStays(maxBurst, band);
    FixedRoundStarves(Owing(owed), Round(q, false, true), maxBurst, band, true);
    FixedRoundStarves(Owing(owed), Round(q, false, true), maxBurst, band, false);
  }

  lemma EligibleIsReachable(r: Reservation, maxBurst: u8)
    requires Reachable(r, maxBurst, true)
    ensures Reachable(r, maxBurst, false)
  {
  }

  lemma OwedStays(maxBurst: u8, band: u8)
    requires band != 255 || maxBurst == 0
    ensures var owed: u8 := if band == 0 then 1 else 0;
      var q := if band == 0 then [Waiting(1, true), Waiting(0, true)] else [Waiting(band, true), Waiting(0, true)];
      && PlayRound(Owing(owed), Round(q, false, true), maxBurst) == Owing(owed)
      && Descending(q) && BandWaits(q, band) && AllReady(q) && !Picks(Owing(owed), q, maxBurst, band)
  {
    hide Select, Ordinary;
    var owed: u8 := if band == 0 then 1 else 0;
    var q := if band == 0 then [Waiting(1, true), Waiting(0, true)] else [Waiting(band, true), Waiting(0, true)];
    assert q[0].ready && q[1].ready;
    assert Claim(q, Owing(owed), maxBurst).Some?;
  }

  // ---- band 255 ----

  /** With an allowance left, or nothing to yield to, a ready item of band 255 is
      picked; and one other pick opens a new allowance, unless it was fallback
      work while the owed band's items were queued but not eligible. */
  lemma HighestRound(r: Reservation, round: Round, maxBurst: u8)
    requires Settled(r) && maxBurst > 0 && Descending(round.q) && BandWaits(round.q, 255)
    ensures r.turn.burst < maxBurst ==> Picks(r, round.q, maxBurst, 255)
    ensures Picks(r, round.q, maxBurst, 255)
         || PlayRound(r, round, maxBurst).turn.burst == 0
         || Blocked(r, round.q)
  {
    hide Select, FirstOf, PlayRound, Picks, Claim;
    if Claim(round.q, r, maxBurst).Some? {
      HighestClaimed(r, round, maxBurst);
    } else {
      HighestUnclaimed(r, round, maxBurst);
    }
  }

  lemma HighestClaimed(r: Reservation, round: Round, maxBurst: u8)
    requires Settled(r) && BandWaits(round.q, 255) && Claim(round.q, r, maxBurst).Some?
    ensures r.turn.burst < maxBurst ==> Picks(r, round.q, maxBurst, 255)
    ensures Picks(r, round.q, maxBurst, 255) || PlayRound(r, round, maxBurst).turn.burst == 0
  {
    hide Select, Ordinary;
    var w :| 0 <= w < |round.q| && round.q[w].ready && round.q[w].priority == 255;
    assert FirstOf(round.q, 255, true).Some?;
    hide FirstOf;
  }

  lemma HighestUnclaimed(r: Reservation, round: Round, maxBurst: u8)
    requires Settled(r) && Descending(round.q) && BandWaits(round.q, 255) && Claim(round.q, r, maxBurst).None?
    ensures r.turn.burst < maxBurst ==> Picks(r, round.q, maxBurst, 255)
    ensures Picks(r, round.q, maxBurst, 255)
         || PlayRound(r, round, maxBurst).turn.burst == 0
         || Blocked(r, round.q)
  {
    var q, rest := round.q, Lapsed(round.q, r);
    HighestAtFront(q, r.turn, maxBurst);
    HighestIsAbove(q);
    assert Select(q, r.turn, maxBurst).0.Some? by {
      var w :| 0 <= w < |q| && q[w].ready && q[w].priority == 255;
    }
    hide Select, FirstOf, AnyAbove;
    assert rest.turn == r.turn && (rest.pending ==> Blocked(r, q));
    if !rest.pending && !Picks(r, q, maxBurst, 255) {
      FreshTurnSpent(q, rest, round, maxBurst);
    }
  }

  /** A lower turn handed out without a reservation in the way ends, admitted or
      refused, with a new allowance. */
  lemma FreshTurnSpent(q: seq<Waiting>, r: Reservation, round: Round, maxBurst: u8)
    requires NoFlags(r) && Select(q, r.turn, maxBurst).0.Some?
    requires AnyAbove(q, q[Select(q, r.turn, maxBurst).0.value].priority)
    ensures var (pick, next) := Ordinary(q, r, maxBurst);
      && pick.Some?
      && Finish(next, q[pick.value.index].priority, pick.value.owns, round.admitted, round.retained).turn.burst == 0
  {
    hide Select, AnyAbove;
  }

  lemma HighestIsAbove(q: seq<Waiting>)
    requires BandWaits(q, 255)
    ensures forall band: u8 :: band < 255 ==> AnyAbove(q, band)
  {
    var w :| 0 <= w < |q| && q[w].ready && q[w].priority == 255;
  }

  /** The owed band has items queued, none of them eligible. */
  predicate Blocked(r: Reservation, q: seq<Waiting>) {
    r.pending && FirstOf(q, r.owed, true).None? && FirstOf(q, r.owed, false).Some?
  }

  /** A blocked reservation at the end of its allowance keeps band 255 waiting. */
  const BLOCKED: seq<Waiting> := [Waiting(255, true), Waiting(2, true), Waiting(1, false)]

  lemma BlockedStays(maxBurst: u8)
    requires maxBurst > 0
    ensures var r := Reservation(Turn(maxBurst, 2), 1, true, false, false);
      && PlayRound(r, Round(BLOCKED, true, false), maxBurst) == r
      && !Picks(r, BLOCKED, maxBurst, 255) && Descending(BLOCKED) && BandWaits(BLOCKED, 255)
  {
    var r := Reservation(Turn(maxBurst, 2), 1, true, false, false);
    BlockedSelect(maxBurst, 2);
    hide Select;
    assert BLOCKED[0].ready && BLOCKED[0].priority == 255;
    assert BLOCKED[2].priority == 1;
    assert FirstOf(BLOCKED, 1, true).None? && FirstOf(BLOCKED, 1, false).Some?;
    assert Claim(BLOCKED, r, maxBurst).None?;
  }

  lemma BlockedSelect(maxBurst: u8, cursor: u8)
    ensures Select(BLOCKED, Turn(maxBurst, cursor), maxBurst) == (Some(1), Turn(0, 2))
  {
    assert Below(BLOCKED, 0, 1);
  }

  lemma {:induction false} BlockedBuilding(maxBurst: u8, k: nat)
    requires k <= maxBurst
    ensures Reachable(Reservation(Turn(k, 255), 1, true, false, false), maxBurst, false)
  {
    hide PlayRound, Reachable;
    if k == 0 {
      OwingIsReachable(maxBurst, 1);
      EligibleIsReachable(Owing(1), maxBurst);
    } else {
      BlockedBuilding(maxBurst, k - 1);
      var r := Reservation(Turn(k - 1, 255), 1, true, false, false);
      ReachableRound(r, Round(BLOCKED, true, false), maxBurst, false);
      ControlRound(k - 1, maxBurst);
    }
  }

  lemma ControlRound(k: u8, maxBurst: u8)
    requires k < maxBurst
    ensures PlayRound(Reservation(Turn(k, 255), 1, true, false, false), Round(BLOCKED, true, false), maxBurst)
         == Reservation(Turn(k + 1, 255), 1, true, false, false)
  {
    hide Select, Ordinary;
    assert FirstOf(BLOCKED, 255, true) == Some(0);
  }

  /** Band 255 can wait forever when an owed band's items stay ineligible: all of
      the allowance is spent, and the fallback work that goes first renews none. */
  lemma BlockedReservationStarvesControl(maxBurst: u8)
    requires maxBurst > 0
    ensures forall n: nat :: !PicksWithin(n, maxBurst, 255, false)
  {
    hide PlayRound, Reachable, PicksWithin;
    var round := Round(BLOCKED, true, false);
    var r := Reservation(Turn(maxBurst, 2), 1, true, false, false);
    BlockedBuilding(maxBurst, maxBurst);
    ReachableRound(Reservation(Turn(maxBurst, 255), 1, true, false, false), round, maxBurst, false);
    FirstBlocked(maxBurst);
    BlockedStays(maxBurst);
    FixedRoundStarves(r, round, maxBurst, 255, false);
  }

  lemma FirstBlocked(maxBurst: u8)
    requires maxBurst > 0
    ensures PlayRound(Reservation(Turn(maxBurst, 255), 1, true, false, false), Round(BLOCKED, true, false), maxBurst)
         == Reservation(Turn(maxBurst, 2), 1, true, false, false)
  {
    var r := Reservation(Turn(maxBurst, 255), 1, true, false, false);
    BlockedSelect(maxBurst, 255);
    hide Select;
    assert BLOCKED[2].priority == 1;
    assert FirstOf(BLOCKED, 1, true).None? && FirstOf(BLOCKED, 1, false).Some?;
    assert Claim(BLOCKED, r, maxBurst).None?;
  }

  /** While every queued item is eligible, band 255 waits two rounds at most. */
  lemma EligibleHighestIsPicked(maxBurst: u8)
    requires maxBurst > 0
    ensures PicksWithin(2, maxBurst, 255, true)
  {
    hide PlayRound, Picks, Descending, BandWaits;
    forall r: Reservation, rounds: seq<Round> |
        Reachable(r, maxBurst, true) && |rounds| == 2 && RoundsWait(rounds, 255, true)
      ensures Picked(r, rounds, maxBurst, 255)
    {
      var past: seq<Round> :| Eligible(past) && StateAt(UNRESERVED, past, maxBurst, |past|) == r;
      SettledAt(past, maxBurst, |past|);
      RoundSettles(r, rounds[0], maxBurst);
      var next := PlayRound(r, rounds[0], maxBurst);
      HighestRound(r, rounds[0], maxBurst);
      HighestRound(next, rounds[1], maxBurst);
      ReadyIsNotBlocked(r, rounds[0].q);
      assert StateAt(r, rounds, maxBurst, 0) == r && StateAt(r, rounds, maxBurst, 1) == next;
      assert PickedAt(r, rounds, maxBurst, 255, 0) || PickedAt(r, rounds, maxBurst, 255, 1);
    }
  }

  lemma ReadyIsNotBlocked(r: Reservation, q: seq<Waiting>)
    requires AllReady(q)
    ensures !Blocked(r, q)
  {
  }

  /** On the transmit path no band has a bounded wait in general. While every
      queued item is eligible, band 255 has one under an allowance, and no
      other band does. */
  lemma DeferredWaitIff(maxBurst: u8, band: u8)
    ensures (exists n: nat :: PicksWithin(n, maxBurst, band, true)) <==> band == 255 && maxBurst > 0
    ensures !exists n: nat :: PicksWithin(n, maxBurst, band, false)
  {
    hide PicksWithin;
    if band == 255 && maxBurst > 0 {
      EligibleHighestIsPicked(maxBurst);
      BlockedReservationStarvesControl(maxBurst);
    } else {
      RefusalsStarve(maxBurst, band);
    }
  }
}
