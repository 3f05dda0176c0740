/** Bounded-burst service over priority bands (`select_front_fair_with_context`
    in src/queue.rs): who is served next, how long a waiting band can be
    passed over, and exactly which bands have a bounded wait. */
module FairService {
  import opened Prelude

  datatype Waiting = Waiting(priority: u8, ready: bool)

  /** The burst count and the rotating band cursor, kept between selections. */
  datatype Turn = Turn(burst: u8, cursor: u8)

  const FRESH: Turn := Turn(0, 255)

  /** How far below the cursor a band lies, wrapping around the 256 levels. */
  function Distance(cursor: u8, priority: u8): u8 {
    if priority < cursor then cursor - priority - 1 else cursor - priority + 255
  }

  function FirstReady(q: seq<Waiting>): (r: Option<nat>)
    ensures r.Some? ==> r.value < |q| && q[r.value].ready
    ensures r.Some? ==> forall i :: 0 <= i < r.value ==> !q[i].ready
    ensures r.None? ==> forall i :: 0 <= i < |q| ==> !q[i].ready
  {
    if q == [] then None
    else if q[0].ready then Some(0)
    else match FirstReady(q[1..])
      case Some(i) => Some(i + 1)
      case None => None
  }

  predicate Below(q: seq<Waiting>, front: nat, i: nat)
    requires front < |q| && i < |q|
  {
    front < i && q[i].ready && q[i].priority < q[front].priority
  }

  /** Among `q[..n]`, the first ready item of a lower band nearest below the cursor. */
  function NextBelow(q: seq<Waiting>, front: nat, cursor: u8, n: nat): (r: Option<nat>)
    requires front < |q| && n <= |q|
    ensures r.Some? ==> r.value < n && Below(q, front, r.value)
    ensures r.Some? ==> forall i: nat :: i < n && Below(q, front, i) ==>
      Distance(cursor, q[r.value].priority) <= Distance(cursor, q[i].priority)
    ensures r.Some? ==> forall i: nat :: i < r.value && Below(q, front, i) ==>
      Distance(cursor, q[r.value].priority) < Distance(cursor, q[i].priority)
    ensures r.None? <==> forall i: nat :: i < n ==> !Below(q, front, i)
  {
    if n == 0 then None
    else
      var best := NextBelow(q, front, cursor, n - 1);
      if Below(q, front, n - 1)
         && (best.None? || Distance(cursor, q[n - 1].priority) < Distance(cursor, q[best.value].priority))
      then Some(n - 1)
      else best
  }

  /** The selected index and the turn state it leaves. */
  function Select(q: seq<Waiting>, t: Turn, maxBurst: u8): (r: (Option<nat>, Turn))
    ensures r.0.Some? ==> r.0.value < |q| && q[r.0.value].ready
  {
    match FirstReady(q)
    case None => (None, t)
    case Some(front) =>
      var lower := NextBelow(q, front, t.cursor, |q|);
      if lower.Some? && t.burst >= maxBurst
      then (lower, Turn(0, q[lower.value].priority))
      else (Some(front), Turn(if lower.Some? then Min(t.burst + 1, 255) else 0, t.cursor))
  }

  /** The scan behind the front item; `front` itself stands for "none found". */
  method ScanBelow(q: seq<Waiting>, front: nat, cursor: u8) returns (lower: nat)
    requires front < |q|
    ensures front <= lower < |q|
    ensures NextBelow(q, front, cursor, |q|) == (if lower == front then None else Some(lower))
  {
    hide Distance;
    var best: u8 := 255;
    lower := front;
    assert forall j: nat :: j < front + 1 ==> !Below(q, front, j);
    for i := front + 1 to |q|
      invariant front <= lower < i
      invariant NextBelow(q, front, cursor, i) == (if lower == front then None else Some(lower))
      invariant lower != front ==> best == Distance(cursor, q[lower].priority)
    {
      if q[i].ready && q[i].priority < q[front].priority {
        var distance := Distance(cursor, q[i].priority);
        if lower == front || distance < best {
          lower, best := i, distance;
        }
      }
    }
  }

  /** The queue's own turn state, updated in place by each selection. */
  class Service {
    var turn: Turn

    constructor ()
      ensures turn == Turn(0, 255)
    {
      turn := FRESH;
    }

    method SelectFront(q: seq<Waiting>, maxBurst: u8) returns (selected: Option<nat>)
      modifies this
      ensures (selected, turn) == Select(q, old(turn), maxBurst)
    {
      hide FirstReady, NextBelow;
      var front := FirstReady(q);
      if front.None? {
        return None;
      }
      var f := front.value;
      var lower := ScanBelow(q, f, turn.cursor);
      if lower != f && turn.burst >= maxBurst {
        turn := Turn(0, q[lower].priority);
        return Some(lower);
      }
      turn := Turn(if lower != f then Min(turn.burst + 1, 255) else 0, turn.cursor);
      return Some(f);
    }
  }

  // ---- what a selection promises, told without its machinery ----

  /** Arrival order within a band: no ready item of the served band came earlier. */
  lemma ServiceIsFifo(q: seq<Waiting>, t: Turn, maxBurst: u8, j: nat)
    requires Select(q, t, maxBurst).0.Some? && j < Select(q, t, maxBurst).0.value
    ensures var i := Select(q, t, maxBurst).0.value;
      !(q[j].ready && q[j].priority == q[i].priority)
  {
    hide FirstReady, NextBelow;
    var front := FirstReady(q).value;
    if j > front && q[j].ready && q[j].priority < q[front].priority {
      assert Below(q, front, j);
    }
  }

  /** Something ready waits behind the front in a lower band. */
  ghost predicate LowerWaits(q: seq<Waiting>) {
    exists front: nat, i: nat :: Fronts(q, front) && i < |q| && Below(q, front, i)
  }

  /** The first ready item. */
  predicate Fronts(q: seq<Waiting>, front: nat) {
    front < |q| && q[front].ready && forall j :: 0 <= j < front ==> !q[j].ready
  }

  /** The front is served while the burst lasts or nothing waits below it. */
  lemma FrontIsServed(q: seq<Waiting>, t: Turn, maxBurst: u8, front: nat)
    requires Fronts(q, front) && (t.burst < maxBurst || !LowerWaits(q))
    ensures Select(q, t, maxBurst)
         == (Some(front), Turn(if LowerWaits(q) then Min(t.burst + 1, 255) else 0, t.cursor))
  {
    hide FirstReady, NextBelow;
    var f := FirstReady(q).value;
    assert f == front;
    var lower := NextBelow(q, front, t.cursor, |q|);
    if lower.Some? {
      assert Fronts(q, front) && Below(q, front, lower.value);
    }
    if LowerWaits(q) {
      var g: nat, i: nat :| Fronts(q, g) && i < |q| && Below(q, g, i);
      assert g == front;
    }
  }

  /** A lower turn rotates downwards: it serves the highest waiting band below the
      cursor, or, when none is below it, the highest waiting band of all; the
      front's own band and those above it stand aside. */
  lemma LowerTurnRotates(q: seq<Waiting>, t: Turn, maxBurst: u8, front: nat, i: nat)
    requires Fronts(q, front) && t.burst >= maxBurst && i < |q| && Below(q, front, i)
    ensures var (served, next) := Select(q, t, maxBurst);
      && served.Some? && served.value < |q| && Below(q, front, served.value)
      && next == Turn(0, q[served.value].priority)
      && if q[served.value].priority < t.cursor
         then q[i].priority <= q[served.value].priority || q[i].priority >= t.cursor
         else q[i].priority >= t.cursor && q[i].priority <= q[served.value].priority
  {
    hide FirstReady, NextBelow;
    assert FirstReady(q) == Some(front);
  }

  /** Where something always waits below the front, exactly every `maxBurst + 1`st
      selection is a lower turn. */
  lemma {:induction false} LowerTurnsRecur(queues: seq<seq<Waiting>>, cursor: u8, maxBurst: u8, i: nat)
    requires i <= |queues| && forall k :: 0 <= k < |queues| ==> LowerWaits(queues[k])
    ensures TurnAfter(queues, Turn(0, cursor), maxBurst, i).burst == i % (maxBurst + 1)
  {
    hide Select, LowerWaits;
    if i > 0 {
      LowerTurnsRecur(queues, cursor, maxBurst, i - 1);
      var t := TurnAfter(queues, Turn(0, cursor), maxBurst, i - 1);
      BurstStep(queues[i - 1], t, maxBurst);
      NextRemainder(i - 1, maxBurst + 1);
    }
  }

  lemma BurstStep(q: seq<Waiting>, t: Turn, maxBurst: u8)
    requires LowerWaits(q) && t.burst <= maxBurst
    ensures Select(q, t, maxBurst).1.burst == if t.burst < maxBurst then t.burst + 1 else 0
  {
    hide Select;
    var front: nat, i: nat :| Fronts(q, front) && i < |q| && Below(q, front, i);
    if t.burst < maxBurst {
      FrontIsServed(q, t, maxBurst, front);
    } else {
      LowerTurnRotates(q, t, maxBurst, front, i);
    }
  }

  // ---- bounded service ----

  /** Queues populated by priority insertion are in descending order. */
  ghost predicate Descending(q: seq<Waiting>) {
    forall i, j :: 0 <= i < j < |q| ==> q[i].priority >= q[j].priority
  }

  ghost predicate BandWaits(q: seq<Waiting>, band: u8) {
    exists i :: 0 <= i < |q| && q[i].ready && q[i].priority == band
  }

  ghost predicate Serves(q: seq<Waiting>, t: Turn, maxBurst: u8, band: u8) {
    var s := Select(q, t, maxBurst).0;
    s.Some? && q[s.value].priority == band
  }

  /** The one situation that works against a band: a lower turn is due while
      the band itself is at the front, and the turn goes past it to a band that
      does not bring the rotation any nearer. */
  ghost predicate Overtaken(q: seq<Waiting>, t: Turn, maxBurst: u8, band: u8) {
    && t.burst >= maxBurst
    && FirstReady(q).Some? && q[FirstReady(q).value].priority == band
    && var lower := NextBelow(q, FirstReady(q).value, t.cursor, |q|);
      lower.Some? && (t.cursor > band || q[lower.value].priority >= t.cursor)
  }

  /** Selections still possible before the band must be served. */
  ghost function Patience(t: Turn, maxBurst: u8, band: u8): nat {
    Scale(0, Distance(t.cursor, band), maxBurst + 1);
    Distance(t.cursor, band) * (maxBurst + 1) + SaturatingSub(maxBurst, t.burst)
  }

  lemma PatienceBound(t: Turn, maxBurst: u8, band: u8)
    ensures Patience(t, maxBurst, band) < 256 * (maxBurst + 1)
  {
    Scale(Distance(t.cursor, band), 255, maxBurst + 1);
  }

  lemma FullTurnCosts(d: nat, e: nat, maxBurst: nat)
    requires e < d
    ensures e * (maxBurst + 1) + maxBurst < d * (maxBurst + 1)
  {
    Scale(e + 1, d, maxBurst + 1);
    assert (e + 1) * (maxBurst + 1) == e * (maxBurst + 1) + (maxBurst + 1);
  }

  /** A selection that does not serve the waiting band uses up some of its
      patience, exactly unless it overtakes the band. */
  lemma UnservedCostsPatience(q: seq<Waiting>, t: Turn, maxBurst: u8, band: u8)
    requires Descending(q) && BandWaits(q, band) && !Serves(q, t, maxBurst, band)
    ensures Patience(Select(q, t, maxBurst).1, maxBurst, band) < Patience(t, maxBurst, band)
       <==> !Overtaken(q, t, maxBurst, band)
  {
    hide FirstReady, NextBelow, Distance;
    var w :| 0 <= w < |q| && q[w].ready && q[w].priority == band;
    var front := FirstReady(q).value;
    var lower := NextBelow(q, front, t.cursor, |q|);
    if q[front].priority > band {
      assert Below(q, front, w);
    }
    if t.burst >= maxBurst {
      var d, e := Distance(t.cursor, band), Distance(q[lower.value].priority, band);
      if q[front].priority > band {
        RotationAdvances(t.cursor, q[lower.value].priority, band);
      } else {
        FrontIsPassed(t.cursor, q[lower.value].priority, band);
      }
      if e < d {
        FullTurnCosts(d, e, maxBurst);
      } else {
        Scale(d, e, maxBurst + 1);
      }
    }
  }

  lemma FrontIsPassed(cursor: u8, served: u8, band: u8)
    requires served < band
    ensures Distance(served, band) < Distance(cursor, band) <==> cursor <= band && served < cursor
  {
  }

  lemma RotationAdvances(cursor: u8, served: u8, band: u8)
    requires served != band && Distance(cursor, served) <= Distance(cursor, band)
    ensures Distance(served, band) < Distance(cursor, band)
  {
  }

  /** The turn state after `i` selections over a history of queue contents. */
  ghost function TurnAfter(queues: seq<seq<Waiting>>, t: Turn, maxBurst: u8, i: nat): Turn
    requires i <= |queues|
  {
    if i == 0 then t else Select(queues[i - 1], TurnAfter(queues, t, maxBurst, i - 1), maxBurst).1
  }

  /** The band waits, ready, in every queue of the history. */
  ghost predicate Waits(queues: seq<seq<Waiting>>, band: u8) {
    forall i :: 0 <= i < |queues| ==> Descending(queues[i]) && BandWaits(queues[i], band)
  }

  ghost predicate ServedAt(queues: seq<seq<Waiting>>, t: Turn, maxBurst: u8, band: u8, i: nat) {
    i < |queues| && Serves(queues[i], TurnAfter(queues, t, maxBurst, i), maxBurst, band)
  }

  ghost predicate OvertakenAt(queues: seq<seq<Waiting>>, t: Turn, maxBurst: u8, band: u8, i: nat) {
    i < |queues| && Overtaken(queues[i], TurnAfter(queues, t, maxBurst, i), maxBurst, band)
  }

  /** Bounded service: whatever arrives, leaves or becomes unready between
      selections, a band that waits throughout is served, or overtaken, before
      its patience runs out, so within `256 * (maxBurst + 1)` selections. */
  lemma {:induction false} ServedOrOvertaken(queues: seq<seq<Waiting>>, t: Turn, maxBurst: u8, band: u8)
    requires |queues| > Patience(t, maxBurst, band) && Waits(queues, band)
    ensures exists i: nat :: ServedAt(queues, t, maxBurst, band, i) || OvertakenAt(queues, t, maxBurst, band, i)
    decreases |queues|
  {
    hide Overtaken, Serves, Select, Patience, Descending, BandWaits;
    assert TurnAfter(queues, t, maxBurst, 0) == t;
    if Serves(queues[0], t, maxBurst, band) || Overtaken(queues[0], t, maxBurst, band) {
      assert ServedAt(queues, t, maxBurst, band, 0) || OvertakenAt(queues, t, maxBurst, band, 0);
    } else {
      UnservedCostsPatience(queues[0], t, maxBurst, band);
      var rest, next := queues[1..], Select(queues[0], t, maxBurst).1;
      ServedOrOvertaken(rest, next, maxBurst, band);
      var i: nat :| ServedAt(rest, next, maxBurst, band, i) || OvertakenAt(rest, next, maxBurst, band, i);
      TurnShifts(queues, t, maxBurst, i);
      assert ServedAt(queues, t, maxBurst, band, i + 1) || OvertakenAt(queues, t, maxBurst, band, i + 1);
    }
  }

  lemma {:induction false} TurnShifts(queues: seq<seq<Waiting>>, t: Turn, maxBurst: u8, i: nat)
    requires i < |queues|
    ensures TurnAfter(queues[1..], Select(queues[0], t, maxBurst).1, maxBurst, i)
         == TurnAfter(queues, t, maxBurst, i + 1)
  {
    if i > 0 {
      TurnShifts(queues, t, maxBurst, i - 1);
    }
  }

  /** The lowest waiting band can never be overtaken, so it is always served in
      time: the promise made for the lowest queued priority. */
  lemma LowestBandIsServed(queues: seq<seq<Waiting>>, t: Turn, maxBurst: u8, band: u8)
    requires |queues| >= 256 * (maxBurst + 1) && Waits(queues, band)
    requires forall i, j :: 0 <= i < |queues| && 0 <= j < |queues[i]| ==> queues[i][j].priority >= band
    ensures exists i: nat :: ServedAt(queues, t, maxBurst, band, i)
  {
    PatienceBound(t, maxBurst, band);
    ServedOrOvertaken(queues, t, maxBurst, band);
    hide ServedAt, Patience, Waits, Distance;
    assert forall i: nat :: !OvertakenAt(queues, t, maxBurst, band, i);
  }

  /** With a burst allowance the highest band waits for one lower turn at most. */
  lemma HighestBandIsServed(queues: seq<seq<Waiting>>, t: Turn, maxBurst: u8)
    requires |queues| >= 2 && maxBurst > 0 && Waits(queues, 255)
    ensures ServedAt(queues, t, maxBurst, 255, 0) || ServedAt(queues, t, maxBurst, 255, 1)
  {
    hide Select, Serves, Descending, BandWaits;
    HighestAtFront(queues[0], t, maxBurst);
    var next := Select(queues[0], t, maxBurst).1;
    HighestAtFront(queues[1], next, maxBurst);
    assert TurnAfter(queues, t, maxBurst, 0) == t;
    assert TurnAfter(queues, t, maxBurst, 1) == next;
  }

  lemma HighestAtFront(q: seq<Waiting>, t: Turn, maxBurst: u8)
    requires Descending(q) && BandWaits(q, 255)
    ensures t.burst < maxBurst ==> Serves(q, t, maxBurst, 255)
    ensures !Serves(q, t, maxBurst, 255) ==> Select(q, t, maxBurst).1.burst == 0
  {
    hide NextBelow;
    var w :| 0 <= w < |q| && q[w].ready && q[w].priority == 255;
    assert q[FirstReady(q).value].priority == 255;
  }

  // ---- every other band can be passed over forever ----

  /** Queue contents can follow one another: nothing but the served item leaves. */
  ghost predicate Follows(q: seq<Waiting>, served: nat, next: seq<Waiting>)
    requires served < |q|
  {
    multiset(Without(q, served)) <= multiset(next)
  }

  /** Selection `i` of a history serves something and explains the next contents. */
  ghost predicate Explains(queues: seq<seq<Waiting>>, t: Turn, maxBurst: u8, i: nat)
    requires i + 1 < |queues|
  {
    var s := Select(queues[i], TurnAfter(queues, t, maxBurst, i), maxBurst).0;
    s.Some? && Follows(queues[i], s.value, queues[i + 1])
  }

  ghost predicate Realisable(queues: seq<seq<Waiting>>, t: Turn, maxBurst: u8) {
    forall i :: 0 <= i < |queues| - 1 ==> Explains(queues, t, maxBurst, i)
  }

  /** Position within a cycle of `maxBurst` ordinary turns and one lower turn. */
  ghost function Phase(i: nat, maxBurst: u8): (r: nat)
    ensures r <= maxBurst
  {
    if i == 0 then 0
    else if Phase(i - 1, maxBurst) < maxBurst then Phase(i - 1, maxBurst) + 1
    else 0
  }

  /** The band, and one item just below it. */
  ghost function Idle(band: u8): seq<Waiting>
    requires 0 < band
  {
    [Waiting(band, true), Waiting(band - 1, true)]
  }

  /** The same with an item just above. */
  ghost function Busy(band: u8): seq<Waiting>
    requires 0 < band < 255
  {
    [Waiting(band + 1, true)] + Idle(band)
  }

  ghost predicate CanBeContended(maxBurst: u8, band: u8) { 0 < band && (band < 255 || maxBurst == 0) }

  /** Bands around `band` wait, except that on every lower turn the one above is idle. */
  ghost function Contention(i: nat, maxBurst: u8, band: u8): seq<Waiting>
    requires CanBeContended(maxBurst, band)
  {
    if Phase(i, maxBurst) < maxBurst then Busy(band) else Idle(band)
  }

  ghost function Contended(n: nat, maxBurst: u8, band: u8): seq<seq<Waiting>>
    requires CanBeContended(maxBurst, band)
  {
    seq(n, (i: nat) => Contention(i, maxBurst, band))
  }

  /** One step of the cycle passes over the band and leads to the next phase. */
  lemma ContendedStep(i: nat, maxBurst: u8, band: u8, t: Turn)
    requires CanBeContended(maxBurst, band) && t.burst == Phase(i, maxBurst)
    ensures var q := Contention(i, maxBurst, band); var s := Select(q, t, maxBurst);
      && Descending(q) && BandWaits(q, band) && !Serves(q, t, maxBurst, band)
      && s.0.Some? && s.1.burst == Phase(i + 1, maxBurst)
      && Without(q, s.0.value) == if Phase(i, maxBurst) < maxBurst then Idle(band) else [Waiting(band, true)]
  {
    if Phase(i, maxBurst) < maxBurst {
      BusyTurn(t, maxBurst, band);
    } else {
      LowerTurn(t, maxBurst, band);
    }
    hide Select;
    assert Idle(band)[0].ready && Idle(band)[0].priority == band;
    assert Phase(i, maxBurst) < maxBurst ==> Busy(band)[1] == Idle(band)[0];
  }

  lemma BusyTurn(t: Turn, maxBurst: u8, band: u8)
    requires 0 < band < 255 && t.burst < maxBurst
    ensures Select(Busy(band), t, maxBurst) == (Some(0), Turn(t.burst + 1, t.cursor))
  {
    assert Below(Busy(band), 0, 1);
  }

  lemma LowerTurn(t: Turn, maxBurst: u8, band: u8)
    requires 0 < band && t.burst >= maxBurst
    ensures Select(Idle(band), t, maxBurst) == (Some(1), Turn(0, band - 1))
  {
    assert Below(Idle(band), 0, 1);
  }

  lemma ContentionGrows(rest: seq<Waiting>, i: nat, maxBurst: u8, band: u8)
    requires CanBeContended(maxBurst, band) && rest in [Idle(band), [Waiting(band, true)]]
    ensures multiset(rest) <= multiset(Contention(i, maxBurst, band))
  {
    var q := Contention(i, maxBurst, band);
    assert Idle(band) == [Waiting(band, true)] + [Waiting(band - 1, true)];
    assert multiset(Idle(band)) <= multiset(q);
  }

  lemma {:induction false} ContendedTurns(n: nat, maxBurst: u8, band: u8, cursor: u8, i: nat)
    requires CanBeContended(maxBurst, band) && i <= n
    ensures TurnAfter(Contended(n, maxBurst, band), Turn(0, cursor), maxBurst, i).burst == Phase(i, maxBurst)
  {
    hide Select, Contention, Phase;
    if i > 0 {
      ContendedTurns(n, maxBurst, band, cursor, i - 1);
      var t := TurnAfter(Contended(n, maxBurst, band), Turn(0, cursor), maxBurst, i - 1);
      ContendedStep(i - 1, maxBurst, band, t);
    } else {
      PhaseStart(maxBurst);
    }
  }

  lemma PhaseStart(maxBurst: u8)
    ensures Phase(0, maxBurst) == 0
  {
  }

  /** Such a band waits in every queue of an arbitrarily long, realisable history
      and is never served: each time a lower turn falls due it is itself at the
      front, so the turn goes past it. */
  lemma MiddleBandCanStarve(n: nat, maxBurst: u8, band: u8, cursor: u8)
    requires CanBeContended(maxBurst, band)
    ensures var queues, t := Contended(n, maxBurst, band), Turn(0, cursor);
      && |queues| == n && Waits(queues, band) && Realisable(queues, t, maxBurst)
      && forall i: nat :: !ServedAt(queues, t, maxBurst, band, i)
  {
    hide Select, Serves, Descending, BandWaits, Contention, Phase, TurnAfter;
    var queues, t := Contended(n, maxBurst, band), Turn(0, cursor);
    forall i | 0 <= i < n
      ensures Descending(queues[i]) && BandWaits(queues[i], band) && !ServedAt(queues, t, maxBurst, band, i)
      ensures i < n - 1 ==> Explains(queues, t, maxBurst, i)
    {
      ContendedTurns(n, maxBurst, band, cursor, i);
      var now := TurnAfter(queues, t, maxBurst, i);
      ContendedStep(i, maxBurst, band, now);
      ContentionGrows(Without(queues[i], Select(queues[i], now, maxBurst).0.value), i + 1, maxBurst, band);
    }
  }

  // ---- exactly which bands have a bounded wait ----

  /** Waiting through `n` selections always gets the band served. */
  ghost predicate WaitsAtMost(n: nat, maxBurst: u8, band: u8) {
    forall queues, t :: |queues| == n && Waits(queues, band) ==> Served(queues, t, maxBurst, band)
  }

  /** The same, asked of realisable histories of a fresh service only. */
  ghost predicate ReallyWaitsAtMost(n: nat, maxBurst: u8, band: u8) {
    forall queues :: |queues| == n && Waits(queues, band) && Realisable(queues, FRESH, maxBurst) ==>
      Served(queues, FRESH, maxBurst, band)
  }

  ghost predicate Served(queues: seq<seq<Waiting>>, t: Turn, maxBurst: u8, band: u8) {
    exists i: nat :: ServedAt(queues, t, maxBurst, band, i)
  }

  /** A band has a bounded wait if and only if it is the lowest one, or the
      highest one under a burst allowance; realisable histories from the start
      state are no kinder than arbitrary ones. */
  lemma BoundedWaitIff(maxBurst: u8, band: u8)
    ensures (exists n: nat :: WaitsAtMost(n, maxBurst, band)) <==> band == 0 || (band == 255 && maxBurst > 0)
    ensures (exists n: nat :: ReallyWaitsAtMost(n, maxBurst, band)) <==> band == 0 || (band == 255 && maxBurst > 0)
  {
    hide Waits, Realisable, ServedAt;
    if band == 0 || (band == 255 && maxBurst > 0) {
      EndBandsAreBounded(maxBurst, band);
      assert ReallyWaitsAtMost(256 * (maxBurst + 1), maxBurst, band);
    } else {
      forall n: nat
        ensures !WaitsAtMost(n, maxBurst, band) && !ReallyWaitsAtMost(n, maxBurst, band)
      {
        MiddleBandCanStarve(n, maxBurst, band, FRESH.cursor);
        assert !Served(Contended(n, maxBurst, band), FRESH, maxBurst, band);
      }
    }
  }

  lemma EndBandsAreBounded(maxBurst: u8, band: u8)
    requires band == 0 || (band == 255 && maxBurst > 0)
    ensures WaitsAtMost(256 * (maxBurst + 1), maxBurst, band)
  {
    hide Waits, ServedAt;
    forall queues: seq<seq<Waiting>>, t: Turn | |queues| == 256 * (maxBurst + 1) && Waits(queues, band)
      ensures Served(queues, t, maxBurst, band)
    {
      if band == 0 {
        LowestBandIsServed(queues, t, maxBurst, band);
      } else {
        HighestBandIsServed(queues, t, maxBurst);
      }
    }
  }
}
