/** The per-side callback gates and their shared activity counter
    (src/lock.rs). Flag and counter are separate atomics, so entering and
    leaving each take two steps; the model runs any number of guard lifetimes
    of any number of threads, in every interleaving of sequentially consistent
    atomic steps. */
module SideGates {
  import opened Prelude

  /** Where one guard's lifetime stands. Before its compare-exchange succeeds and
      after its decrement a lifetime leaves no trace in the state. */
  datatype Stage =
    | Claimed     // the flag is won, the counter not yet raised
    | InCallback  // the guard is live
    | Released    // the flag is stored false, the counter not yet lowered

  datatype Frame = Frame(thread: nat, side: nat, stage: Stage)

  /** `busy` holds the sides whose flag is true; `activity` is a `usize`. */
  datatype State = State(busy: set<nat>, activity: usize, frames: map<nat, Frame>)

  const WRAP: int := USIZE_MAX + 1

  /** `fetch_add(1)` and `fetch_sub(1)` on a `usize`, wrap-around included. */
  function Up(n: usize): usize { if n == USIZE_MAX then 0 else n + 1 }
  function Down(n: usize): usize { if n == 0 then USIZE_MAX else n - 1 }

  /** What `n` increments from zero leave. */
  ghost function Ups(n: nat): usize {
    if n == 0 then 0 else Up(Ups(n - 1))
  }

  lemma {:induction false} UpsNext(n: nat)
    ensures Ups(n + 1) == Up(Ups(n)) && Down(Ups(n + 1)) == Ups(n)
  {
  }

  lemma {:induction false} UpsSmall(n: nat)
    requires n < WRAP
    ensures Ups(n) == n
  {
    if n > 0 {
      UpsSmall(n - 1);
    }
  }

  const START: State := State({}, 0, map[])

  datatype Action =
    | TryEnter(id: nat, thread: nat, side: nat)  // compare_exchange(false, true)
    | Raise(id: nat)                             // fetch_add(1)
    | Release(id: nat)                           // store(false)
    | Lower(id: nat)                             // fetch_sub(1)

  predicate At(s: State, id: nat, stage: Stage) {
    id in s.frames && s.frames[id].stage == stage
  }

  /** A lifetime may be dropped by any thread at any time, in any order. */
  predicate Enabled(s: State, a: Action) {
    match a
    case TryEnter(id, _, _) => id !in s.frames
    case Raise(id) => At(s, id, Claimed)
    case Release(id) => At(s, id, InCallback)
    case Lower(id) => At(s, id, Released)
  }

  function Moved(s: State, id: nat, stage: Stage): map<nat, Frame>
    requires id in s.frames
  {
    s.frames[id := s.frames[id].(stage := stage)]
  }

  /** One atomic step. A failed compare-exchange changes nothing. */
  function Step(s: State, a: Action): State
    requires Enabled(s, a)
  {
    match a
    case TryEnter(id, thread, side) =>
      if side in s.busy then s
      else s.(busy := s.busy + {side}, frames := s.frames[id := Frame(thread, side, Claimed)])
    case Raise(id) => s.(activity := Up(s.activity), frames := Moved(s, id, InCallback))
    case Release(id) => s.(busy := s.busy - {s.frames[id].side}, frames := Moved(s, id, Released))
    case Lower(id) => s.(activity := Down(s.activity), frames := s.frames - {id})
  }

  /** The state after a schedule, if every action of it was possible in turn. */
  function Execute(s: State, schedule: seq<Action>): Option<State> {
    if schedule == [] then Some(s)
    else
      var n := |schedule| - 1;
      var prior := Execute(s, schedule[..n]);
      if prior.Some? && Enabled(prior.value, schedule[n]) then Some(Step(prior.value, schedule[n])) else None
  }

  ghost predicate Reachable(s: State) {
    exists schedule :: Execute(START, schedule) == Some(s)
  }

  predicate IsActive(s: State) { s.activity != 0 }

  ghost function Stages(s: State, stage: Stage): set<nat> {
    set id | id in s.frames && s.frames[id].stage == stage
  }

  /** Lifetimes between `fetch_add` and `fetch_sub`. */
  ghost function Counted(s: State): set<nat> {
    Stages(s, InCallback) + Stages(s, Released)
  }

  /** Lifetimes between a successful compare-exchange and the releasing store. */
  ghost predicate Holds(s: State, id: nat, side: nat) {
    id in s.frames && s.frames[id].side == side && s.frames[id].stage != Released
  }

  // ---- the invariant of every step ----

  ghost predicate FlagsTell(s: State) {
    && (forall side :: side in s.busy ==> exists id :: Holds(s, id, side))
    && (forall id, side :: Holds(s, id, side) ==> side in s.busy)
    && (forall a, b, side :: Holds(s, a, side) && Holds(s, b, side) ==> a == b)
  }

  ghost predicate CounterTells(s: State) {
    s.activity == Ups(|Counted(s)|)
  }

  lemma StepKeepsFlags(s: State, a: Action)
    requires FlagsTell(s) && Enabled(s, a)
    ensures FlagsTell(Step(s, a))
  {
    var t := Step(s, a);
    match a {
      case TryEnter(id, thread, side) =>
        if side !in s.busy {
          assert Holds(t, id, side);
          assert forall i, x :: Holds(t, i, x) <==> Holds(s, i, x) || (i == id && x == side);
          forall x | x in s.busy ensures exists i :: Holds(t, i, x) {
            var i :| Holds(s, i, x);
            assert Holds(t, i, x);
          }
        }
      case Raise(id) =>
        assert forall i, x :: Holds(t, i, x) <==> Holds(s, i, x);
        forall x | x in t.busy ensures exists i :: Holds(t, i, x) {
          var i :| Holds(s, i, x);
          assert Holds(t, i, x);
        }
      case Release(id) =>
        assert Holds(s, id, s.frames[id].side);
        assert forall i, x :: Holds(t, i, x) <==> Holds(s, i, x) && i != id;
        forall x | x in t.busy ensures exists i :: Holds(t, i, x) {
          var i :| Holds(s, i, x);
          assert Holds(t, i, x);
        }
      case Lower(id) =>
        assert forall i, x :: Holds(t, i, x) <==> Holds(s, i, x);
        forall x | x in t.busy ensures exists i :: Holds(t, i, x) {
          var i :| Holds(s, i, x);
          assert Holds(t, i, x);
        }
    }
  }

  /** How each step moves one lifetime through the stages. */
  lemma StepMovesOne(s: State, a: Action)
    requires Enabled(s, a) && !a.TryEnter?
    ensures var t := Step(s, a);
      && a.id in s.frames
      && Stages(t, Claimed) == (if a.Raise? then Stages(s, Claimed) - {a.id} else Stages(s, Claimed))
      && Stages(t, InCallback) == (if a.Raise? then Stages(s, InCallback) + {a.id}
                                   else if a.Release? then Stages(s, InCallback) - {a.id}
                                   else Stages(s, InCallback))
      && Stages(t, Released) == (if a.Release? then Stages(s, Released) + {a.id}
                                 else if a.Lower? then Stages(s, Released) - {a.id}
                                 else Stages(s, Released))
  {
  }

  lemma CountedSize(s: State)
    ensures |Counted(s)| == |Stages(s, InCallback)| + |Stages(s, Released)|
  {
    assert Stages(s, InCallback) !! Stages(s, Released);
  }

  /** The sizes of the stages before and after a step. */
  lemma StepMovesSizes(s: State, a: Action)
    requires Enabled(s, a) && !a.TryEnter?
    ensures var t := Step(s, a);
      && |Stages(t, Claimed)| == |Stages(s, Claimed)| - (if a.Raise? then 1 else 0)
      && |Stages(t, InCallback)| == |Stages(s, InCallback)| + (if a.Raise? then 1 else if a.Release? then -1 else 0)
      && |Stages(t, Released)| == |Stages(s, Released)| + (if a.Release? then 1 else if a.Lower? then -1 else 0)
  {
    StepMovesOne(s, a);
    assert a.Raise? ==> a.id in Stages(s, Claimed) && a.id !in Stages(s, InCallback);
    assert a.Release? ==> a.id in Stages(s, InCallback) && a.id !in Stages(s, Released);
    assert a.Lower? ==> a.id in Stages(s, Released);
    hide Stages, Step;
  }

  lemma TryEnterCountsNothing(s: State, a: Action)
    requires Enabled(s, a) && a.TryEnter?
    ensures Counted(Step(s, a)) == Counted(s)
  {
  }

  lemma StepKeepsCounter(s: State, a: Action)
    requires CounterTells(s) && Enabled(s, a)
    ensures CounterTells(Step(s, a))
  {
    hide Counted, Stages, Ups;
    if a.TryEnter? {
      TryEnterCountsNothing(s, a);
    } else {
      CountedSize(s);
      CountedSize(Step(s, a));
      StepMovesSizes(s, a);
      var n := |Counted(s)|;
      assert |Counted(Step(s, a))| == n + (if a.Raise? then 1 else if a.Lower? then -1 else 0);
      UpsNext(n);
      if a.Lower? {
        UpsNext(n - 1);
      }
    }
  }

  lemma {:induction false} ScheduleKeeps(schedule: seq<Action>)
    requires Execute(START, schedule).Some?
    ensures FlagsTell(Execute(START, schedule).value) && CounterTells(Execute(START, schedule).value)
  {
    hide FlagsTell, CounterTells, Step;
    if schedule == [] {
      StartIsSound();
    } else {
      var n := |schedule| - 1;
      ScheduleKeeps(schedule[..n]);
      var s := Execute(START, schedule[..n]).value;
      StepKeepsFlags(s, schedule[n]);
      StepKeepsCounter(s, schedule[n]);
    }
  }

  lemma StartIsSound()
    ensures FlagsTell(START) && CounterTells(START)
  {
    assert Counted(START) == {};
  }

  // ---- what every reachable state promises ----

  /** At every point of every interleaving a gate has at most one holder, and
      its flag is true exactly while one lifetime is between its successful
      compare-exchange and its releasing store. */
  lemma GateHasOneHolder(s: State, side: nat)
    requires Reachable(s)
    ensures side in s.busy <==> exists id :: Holds(s, id, side)
    ensures forall a, b :: Holds(s, a, side) && Holds(s, b, side) ==> a == b
  {
    var schedule :| Execute(START, schedule) == Some(s);
    ScheduleKeeps(schedule);
  }

  /** A callback cannot be re-entered: while any thread, its own included, is
      inside a side's callback, entering that side is refused and changes nothing. */
  lemma ReentryIsRefused(s: State, inside: nat, id: nat, thread: nat)
    requires Reachable(s) && At(s, inside, InCallback) && id !in s.frames
    ensures Step(s, TryEnter(id, thread, s.frames[inside].side)) == s
  {
    GateHasOneHolder(s, s.frames[inside].side);
    assert Holds(s, inside, s.frames[inside].side);
  }

  lemma CountedWithinFrames(s: State)
    ensures |Counted(s)| <= |s.frames|
    ensures |Counted(s)| == |Stages(s, InCallback)| + |Stages(s, Released)|
  {
    assert Stages(s, InCallback) !! Stages(s, Released);
    Contained(Counted(s), s.frames.Keys);
    assert |s.frames.Keys| == |s.frames|;
  }

  /** The counter is exact: it equals the lifetimes between `fetch_add` and
      `fetch_sub`, so its excess over live callbacks is the number of threads
      between releasing the flag and lowering the counter. */
  lemma ActivityIsExact(s: State)
    requires Reachable(s) && |s.frames| < WRAP
    ensures s.activity == |Counted(s)|
    ensures s.activity == |Stages(s, InCallback)| + |Stages(s, Released)|
  {
    hide Counted, Execute;
    var schedule :| Execute(START, schedule) == Some(s);
    ScheduleKeeps(schedule);
    CountedWithinFrames(s);
    UpsSmall(|Counted(s)|);
  }

  /** Dispatch stays deferred while any side callback is on any stack. */
  lemma ActiveWhileAnyCallbackRuns(s: State, id: nat)
    requires Reachable(s) && |s.frames| < WRAP && At(s, id, InCallback)
    ensures IsActive(s)
  {
    ActivityIsExact(s);
    assert id in Counted(s);
  }

  /** `fetch_sub` never underflows and `fetch_add` never wraps. */
  lemma CounterNeverWraps(s: State, a: Action)
    requires Reachable(s) && |s.frames| < WRAP && Enabled(s, a)
    ensures a.Lower? ==> Step(s, a).activity == s.activity - 1
    ensures a.Raise? ==> Step(s, a).activity == s.activity + 1
  {
    ActivityIsExact(s);
    if a.Lower? {
      assert a.id in Counted(s);
    }
    if a.Raise? {
      RoomToCount(s, a.id);
    }
  }

  lemma RoomToCount(s: State, id: nat)
    requires At(s, id, Claimed)
    ensures |Counted(s)| < |s.frames|
  {
    Contained(Counted(s), s.frames.Keys - {id});
    assert |s.frames.Keys - {id}| == |s.frames.Keys| - 1;
  }

  /** The sides held by a set of lifetimes that hold different sides. */
  lemma {:induction false} DistinctSides(s: State, ids: set<nat>) returns (sides: set<nat>)
    requires forall id :: id in ids ==> id in s.frames
    requires forall a, b :: a in ids && b in ids && s.frames[a].side == s.frames[b].side ==> a == b
    ensures forall side :: side in sides <==> exists id :: id in ids && s.frames[id].side == side
    ensures |sides| == |ids|
    decreases |ids|
  {
    if ids == {} {
      sides := {};
    } else {
      var id :| id in ids;
      var rest := DistinctSides(s, ids - {id});
      sides := rest + {s.frames[id].side};
    }
  }

  /** Conservation between the two atomics: busy flags and released-but-counted
      lifetimes on one side balance the counter and claimed-but-uncounted
      lifetimes on the other. */
  lemma FlagsAndCounterBalance(s: State)
    requires Reachable(s) && |s.frames| < WRAP
    ensures |s.busy| + |Stages(s, Released)| == s.activity + |Stages(s, Claimed)|
  {
    hide Execute, Counted, Ups;
    ActivityIsExact(s);
    var schedule :| Execute(START, schedule) == Some(s);
    ScheduleKeeps(schedule);
    var holders := Stages(s, Claimed) + Stages(s, InCallback);
    assert Stages(s, Claimed) !! Stages(s, InCallback);
    assert forall id :: id in holders ==> Holds(s, id, s.frames[id].side);
    var sides := DistinctSides(s, holders);
    assert sides == s.busy by {
      forall side ensures side in sides <==> side in s.busy {
        if side in s.busy {
          var id :| Holds(s, id, side);
          assert id in holders;
        }
      }
    }
  }

  // ---- scoped guards ----

  /** Where guards are scoped, a thread's lifetimes nest, the later ones (with
      larger ids) inside the earlier, and only the innermost takes steps. */
  predicate Innermost(s: State, id: nat) {
    id in s.frames
    && forall other :: other in s.frames && s.frames[other].thread == s.frames[id].thread ==> other <= id
  }

  /** The step of a thread with scoped guards; it tries to enter from a callback
      of its own, or from outside any. */
  predicate Nests(s: State, a: Action) {
    match a
    case TryEnter(id, thread, _) =>
      forall other :: other in s.frames && s.frames[other].thread == thread ==>
        other < id && s.frames[other].stage == InCallback
    case Raise(id) => Innermost(s, id)
    case Release(id) => Innermost(s, id)
    case Lower(id) => Innermost(s, id)
  }

  /** Every step of the schedule is one of scoped guards. */
  ghost predicate Scoped(s: State, schedule: seq<Action>) {
    if schedule == [] then true
    else
      var n := |schedule| - 1;
      var prior := Execute(s, schedule[..n]);
      Scoped(s, schedule[..n]) && prior.Some? && Nests(prior.value, schedule[n])
  }

  /** All but the innermost lifetime of a thread are inside their callbacks. */
  ghost predicate Nested(s: State) {
    forall id :: id in s.frames ==> s.frames[id].stage == InCallback || Innermost(s, id)
  }

  lemma StepKeepsNesting(s: State, a: Action)
    requires Nested(s) && Enabled(s, a) && Nests(s, a)
    ensures Nested(Step(s, a))
  {
    var t := Step(s, a);
    forall id | id in t.frames && t.frames[id].stage != InCallback
      ensures Innermost(t, id)
    {
      if id in s.frames && id != a.id {
        assert Innermost(s, id);
        assert a.TryEnter? && a.id in t.frames ==> s.frames[id].thread != a.thread;
      }
    }
  }

  lemma {:induction false} ScopedKeepsNesting(schedule: seq<Action>)
    requires Execute(START, schedule).Some? && Scoped(START, schedule)
    ensures Nested(Execute(START, schedule).value)
  {
    hide Step, Nested;
    if schedule == [] {
      StartIsNested();
    } else {
      var n := |schedule| - 1;
      ScopedKeepsNesting(schedule[..n]);
      StepKeepsNesting(Execute(START, schedule[..n]).value, schedule[n]);
    }
  }

  lemma StartIsNested()
    ensures Nested(START)
  {
  }

  // ---- draining ----

  /** Steps a state still owes before it is quiet. */
  ghost function Owed(s: State): nat {
    3 * |Stages(s, Claimed)| + 2 * |Stages(s, InCallback)| + |Stages(s, Released)|
  }

  lemma StepPays(s: State, a: Action)
    requires Enabled(s, a) && !a.TryEnter?
    ensures Owed(Step(s, a)) == Owed(s) - 1
  {
    StepMovesSizes(s, a);
  }

  ghost function NextStep(s: State, id: nat): Action
    requires id in s.frames
  {
    match s.frames[id].stage
    case Claimed => Raise(id)
    case InCallback => Release(id)
    case Released => Lower(id)
  }

  /** No thread is ever stuck: whatever the others do, one with a live guard can
      take the next step of its innermost one. */
  lemma ThreadCanStep(s: State, id: nat) returns (innermost: nat)
    requires id in s.frames
    ensures innermost in s.frames && s.frames[innermost].thread == s.frames[id].thread
    ensures Enabled(s, NextStep(s, innermost)) && Nests(s, NextStep(s, innermost))
  {
    var own := set other | other in s.frames && s.frames[other].thread == s.frames[id].thread;
    assert id in own;
    innermost := Last(own);
    assert innermost in own;
    assert forall other :: other in s.frames && s.frames[other].thread == s.frames[id].thread ==> other in own;
  }

  lemma {:induction false} Last(ids: set<nat>) returns (last: nat)
    requires ids != {}
    ensures last in ids && forall id :: id in ids ==> id <= last
    decreases ids
  {
    var id :| id in ids;
    last := id;
    if ids != {id} {
      var other := Last(ids - {id});
      last := if other < id then id else other;
      assert forall k :: k in ids ==> k == id || k in ids - {id};
    }
  }

  /** With scoped guards at most one lifetime of a thread is in a window. */
  lemma OneWindowPerThread(schedule: seq<Action>, a: nat, b: nat)
    requires Execute(START, schedule).Some? && Scoped(START, schedule)
    requires var s := Execute(START, schedule).value;
      && a in s.frames && b in s.frames && s.frames[a].thread == s.frames[b].thread
      && s.frames[a].stage != InCallback && s.frames[b].stage != InCallback
    ensures a == b
  {
    hide Execute, Scoped;
    ScopedKeepsNesting(schedule);
    var s := Execute(START, schedule).value;
    assert Innermost(s, a) && Innermost(s, b);
  }

  /** With no new attempts, every schedule from a reachable state is at most
      `Owed` steps long, and one of exactly that length exists, taking each
      thread's guards innermost first; it ends with all gates free and the
      counter at zero. */
  lemma {:induction false} DrainsToQuiet(s: State) returns (schedule: seq<Action>)
    requires Reachable(s)
    ensures |schedule| == Owed(s)
    ensures forall i :: 0 <= i < |schedule| ==> !schedule[i].TryEnter?
    ensures Execute(s, schedule) == Some(START) && Scoped(s, schedule)
    decreases Owed(s)
  {
    if s.frames == map[] {
      QuietIsStart(s);
      schedule := [];
    } else {
      var id := Last(s.frames.Keys);
      var a := NextStep(s, id);
      StepPays(s, a);
      ReachableStep(s, a);
      var rest := DrainsToQuiet(Step(s, a));
      schedule := [a] + rest;
      ExecuteFirst(s, a, rest);
      ScopedFirst(s, a, rest);
    }
  }

  lemma {:induction false} NoLongerThanOwed(s: State, schedule: seq<Action>)
    requires Execute(s, schedule).Some?
    requires forall i :: 0 <= i < |schedule| ==> !schedule[i].TryEnter?
    ensures |schedule| + Owed(Execute(s, schedule).value) == Owed(s)
  {
    if schedule != [] {
      var n := |schedule| - 1;
      NoLongerThanOwed(s, schedule[..n]);
      StepPays(Execute(s, schedule[..n]).value, schedule[n]);
    }
  }

  lemma QuietIsStart(s: State)
    requires Reachable(s) && s.frames == map[]
    ensures s == START && Owed(s) == 0
  {
    ActivityIsExact(s);
    forall side ensures side !in s.busy {
      GateHasOneHolder(s, side);
    }
    assert Counted(s) == {} && Stages(s, Claimed) == {} && Stages(s, InCallback) == {} && Stages(s, Released) == {};
  }

  lemma ReachableStep(s: State, a: Action)
    requires Reachable(s) && Enabled(s, a)
    ensures Reachable(Step(s, a))
  {
    var schedule :| Execute(START, schedule) == Some(s);
    assert (schedule + [a])[..|schedule|] == schedule;
    assert Execute(START, schedule + [a]) == Some(Step(s, a));
  }

  lemma {:induction false} ExecuteFirst(s: State, a: Action, rest: seq<Action>)
    requires Enabled(s, a)
    ensures Execute(s, [a] + rest) == Execute(Step(s, a), rest)
  {
    if rest == [] {
      assert [a] + rest == [a] && [a][..0] == [];
    } else {
      var n := |rest| - 1;
      ExecuteFirst(s, a, rest[..n]);
      assert ([a] + rest)[..n + 1] == [a] + rest[..n];
    }
  }

  lemma {:induction false} ScopedFirst(s: State, a: Action, rest: seq<Action>)
    requires Enabled(s, a) && Nests(s, a) && Scoped(Step(s, a), rest)
    ensures Scoped(s, [a] + rest)
  {
    hide Step, Nests, Enabled;
    if rest == [] {
      assert [a] + rest == [a] && [a][..0] == [];
      assert Scoped(s, [a][..0]);
    } else {
      var n := |rest| - 1;
      ScopedFirst(s, a, rest[..n]);
      ExecuteFirst(s, a, rest[..n]);
      assert ([a] + rest)[..n + 1] == [a] + rest[..n];
    }
  }

  /** The two windows are real: a won gate need not be counted yet, and a
      counted lifetime need not hold a gate any more. */
  lemma WindowsAreObservable()
    ensures exists s :: Reachable(s) && s.busy != {} && !IsActive(s)
    ensures exists s :: Reachable(s) && s.busy == {} && IsActive(s)
  {
    var a, b, c := TryEnter(0, 0, 0), Raise(0), Release(0);
    var s1 := Step(START, a);
    var s2 := Step(s1, b);
    var s3 := Step(s2, c);
    assert Execute(START, []) == Some(START);
    assert Reachable(START);
    ReachableStep(START, a);
    ReachableStep(s1, b);
    ReachableStep(s2, c);
  }
}
