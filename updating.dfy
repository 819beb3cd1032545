/**
 * `update` of src/update.ts as a function of the world: take-off, the
 * per-plane flight loop, removal of arrived planes, the pairwise collision
 * test and the spawn roll.
 */
module Updating {
  import opened Wrappers
  import opened Model
  import opened Flight
  import opened Spawning

  /** The planes of `s` for which `test` is `want`, in their order in `s` (`Array.filter`). */
  function Keep(s: seq<Plane>, test: Plane -> bool, want: bool): (r: seq<Plane>)
    ensures |r| <= |s|
  {
    if s == [] then []
    else (if test(s[0]) == want then [s[0]] else []) + Keep(s[1..], test, want)
  }

  /**
   * `Keep` keeps exactly the planes that pass: each plane kept passes and
   * comes from `s`, and each plane of `s` that passes is kept.
   */
  lemma {:induction false} KeepMembers(s: seq<Plane>, test: Plane -> bool, want: bool)
    ensures forall k :: 0 <= k < |Keep(s, test, want)| ==> test(Keep(s, test, want)[k]) == want
    ensures forall q :: q in Keep(s, test, want) ==> q in s
    ensures forall k :: 0 <= k < |s| && test(s[k]) == want ==> s[k] in Keep(s, test, want)
  {
    if s != [] {
      KeepMembers(s[1..], test, want);
      forall k | 0 <= k < |s| && test(s[k]) == want ensures s[k] in Keep(s, test, want) {
        if k > 0 {
          assert s[1..][k - 1] == s[k];
        }
      }
    }
  }

  /** Filtering a concatenation filters each part: `Keep` preserves order. */
  lemma {:induction false} KeepAppend(s: seq<Plane>, t: seq<Plane>, test: Plane -> bool, want: bool)
    ensures Keep(s + t, test, want) == Keep(s, test, want) + Keep(t, test, want)
  {
    if s == [] {
      assert s + t == t;
    } else {
      var head := if test(s[0]) == want then [s[0]] else [];
      assert (s + t)[0] == s[0];
      assert (s + t)[1..] == s[1..] + t;
      KeepAppend(s[1..], t, test, want);
      calc {
        Keep(s + t, test, want);
        head + Keep(s[1..] + t, test, want);
        head + (Keep(s[1..], test, want) + Keep(t, test, want));
        (head + Keep(s[1..], test, want)) + Keep(t, test, want);
        Keep(s, test, want) + Keep(t, test, want);
      }
    }
  }

  /** The planes kept and the planes dropped make up the whole, as a multiset. */
  lemma {:induction false} KeepPartition(s: seq<Plane>, test: Plane -> bool)
    ensures multiset(Keep(s, test, true)) + multiset(Keep(s, test, false)) == multiset(s)
  {
    if s != [] {
      var kept := Keep(s[1..], test, true);
      var dropped := Keep(s[1..], test, false);
      KeepPartition(s[1..], test);
      assert multiset(s) == multiset{s[0]} + multiset(s[1..]) by {
        assert s == [s[0]] + s[1..];
      }
      if test(s[0]) {
        assert Keep(s, test, true) == [s[0]] + kept;
        assert Keep(s, test, false) == [] + dropped == dropped;
        assert multiset([s[0]] + kept) == multiset{s[0]} + multiset(kept);
      } else {
        assert Keep(s, test, true) == [] + kept == kept;
        assert Keep(s, test, false) == [s[0]] + dropped;
        assert multiset([s[0]] + dropped) == multiset{s[0]} + multiset(dropped);
      }
    }
  }

  /** A plane cleared for take-off. */
  function IsReady(p: Plane): bool {
    p.newAltitude > 0
  }

  /** A plane that has reached its destination. */
  function IsGone(p: Plane): bool {
    p.status == Gone
  }

  /** The slot numbers of the planes of `s`, as a multiset. */
  function Nos(s: seq<Plane>): multiset<int> {
    if s == [] then multiset{} else multiset{s[0].planeNo} + Nos(s[1..])
  }

  lemma {:induction false} NosAppend(s: seq<Plane>, t: seq<Plane>)
    ensures Nos(s + t) == Nos(s) + Nos(t)
  {
    if s == [] {
      assert s + t == t;
    } else {
      assert (s + t)[1..] == s[1..] + t;
      NosAppend(s[1..], t);
    }
  }

  lemma {:induction false} NosMember(s: seq<Plane>, n: int)
    ensures n in Nos(s) <==> exists k :: 0 <= k < |s| && s[k].planeNo == n
  {
    if s != [] {
      NosMember(s[1..], n);
      if exists k :: 0 <= k < |s[1..]| && s[1..][k].planeNo == n {
        var k :| 0 <= k < |s[1..]| && s[1..][k].planeNo == n;
        assert s[k + 1].planeNo == n;
      }
      if exists k :: 0 <= k < |s| && s[k].planeNo == n {
        var k :| 0 <= k < |s| && s[k].planeNo == n;
        if k > 0 {
          assert s[1..][k - 1].planeNo == n;
        }
      }
    }
  }

  lemma {:induction false} NosPointwise(s: seq<Plane>, t: seq<Plane>)
    requires |s| == |t| && forall k :: 0 <= k < |s| ==> s[k].planeNo == t[k].planeNo
    ensures Nos(s) == Nos(t)
  {
    if s != [] {
      NosPointwise(s[1..], t[1..]);
    }
  }

  lemma {:induction false} NosKeep(s: seq<Plane>, test: Plane -> bool)
    ensures Nos(Keep(s, test, true)) + Nos(Keep(s, test, false)) == Nos(s)
  {
    if s != [] {
      NosKeep(s[1..], test);
      var a := if test(s[0]) then [s[0]] else [];
      var b := if test(s[0]) then [] else [s[0]];
      NosAppend(a, Keep(s[1..], test, true));
      NosAppend(b, Keep(s[1..], test, false));
    }
  }

  /** Every plane holds one of the 26 slots. */
  predicate SlotsOk(w: World) {
    && (forall k :: 0 <= k < |w.air| ==> 0 <= w.air[k].planeNo < 26)
    && (forall k :: 0 <= k < |w.ground| ==> 0 <= w.ground[k].planeNo < 26)
  }

  /** No two planes share a slot. */
  predicate UniqueSlots(w: World) {
    forall n :: n in Nos(w.air + w.ground) ==> Nos(w.air + w.ground)[n] == 1
  }

  /** How the flight loop ends: every plane flew on, or one was lost. */
  datatype Sortie = Advanced(air: seq<Plane>) | Halted(air: seq<Plane>, plane: Plane, message: string)

  /** The step `update` gives every airborne plane at tick `clock`. */
  function StepAt(screen: ScreenDefinition, clock: int): Plane -> Step {
    p => StepPlane(screen, p, clock)
  }

  /** A step that never changes which plane it is. */
  ghost predicate KeepsIdentity(step: Plane -> Step) {
    forall p :: SameIdentity(p, step(p).plane)
  }

  /** The step of `update` keeps every plane's identity. */
  lemma StepAtKeepsIdentity(screen: ScreenDefinition, clock: int)
    ensures KeepsIdentity(StepAt(screen, clock))
  {
    forall p ensures SameIdentity(p, StepAt(screen, clock)(p).plane) {
      assert StepAt(screen, clock)(p) == StepPlane(screen, p, clock);
    }
  }

  /**
   * The flight loop of `update` from plane `i` on: each plane is stepped in
   * turn and written back; the first loss stops the loop, leaving the planes
   * after it untouched.
   */
  function Fly(step: Plane -> Step, air: seq<Plane>, i: nat): (r: Sortie)
    requires i <= |air|
    ensures |r.air| == |air|
    decreases |air| - i
  {
    if i == |air| then Advanced(air)
    else
      match step(air[i])
      case Flying(q) => Fly(step, air[i := q], i + 1)
      case Lost(q, m) => Halted(air[i := q], q, m)
  }

  /**
   * The flight loop from plane `i` on leaves the planes before `i` alone and
   * keeps every plane's identity; when no plane is lost every plane after `i`
   * has taken its step, and otherwise the first lost plane `j` is the one
   * reported, written back, with the planes before it stepped and the planes
   * after it untouched.
   */
  lemma FlyOutcome(step: Plane -> Step, air: seq<Plane>, i: nat)
    requires i <= |air| && KeepsIdentity(step)
    ensures var r := Fly(step, air, i);
            && (forall k :: 0 <= k < i ==> r.air[k] == air[k])
            && (forall k :: i <= k < |air| ==> SameIdentity(air[k], r.air[k]))
            && (r.Advanced? ==> forall k :: i <= k < |air| ==> step(air[k]) == Flying(r.air[k]))
            && (r.Halted? ==>
                  exists j :: && i <= j < |air|
                              && (forall k :: i <= k < j ==> step(air[k]) == Flying(r.air[k]))
                              && step(air[j]) == Lost(r.plane, r.message)
                              && r.air[j] == r.plane
                              && (forall k :: j < k < |air| ==> r.air[k] == air[k]))
  {
    FlyFrame(step, air, i);
    FlyAdvanced(step, air, i);
    FlyHalted(step, air, i);
  }

  /** The flight loop from plane `i` on leaves the planes before `i` alone and keeps identities. */
  lemma {:induction false} FlyFrame(step: Plane -> Step, air: seq<Plane>, i: nat)
    requires i <= |air| && KeepsIdentity(step)
    ensures var r := Fly(step, air, i);
            && (forall k :: 0 <= k < i ==> r.air[k] == air[k])
            && (forall k :: i <= k < |air| ==> SameIdentity(air[k], r.air[k]))
    decreases |air| - i
  {
    if i < |air| {
      var s := step(air[i]);
      if s.Flying? {
        FlyFrame(step, air[i := s.plane], i + 1);
      }
    }
  }

  /** The flight loop from plane `i` on leaves the planes before `i` alone. */
  lemma {:induction false} FlyPrefix(step: Plane -> Step, air: seq<Plane>, i: nat)
    requires i <= |air|
    ensures forall k :: 0 <= k < i ==> Fly(step, air, i).air[k] == air[k]
    decreases |air| - i
  {
    if i < |air| {
      var s := step(air[i]);
      if s.Flying? {
        FlyPrefix(step, air[i := s.plane], i + 1);
      }
    }
  }

  /** When no plane is lost, every plane from `i` on has taken its step. */
  lemma {:induction false} FlyAdvanced(step: Plane -> Step, air: seq<Plane>, i: nat)
    requires i <= |air|
    ensures var r := Fly(step, air, i);
            r.Advanced? ==> forall k :: i <= k < |air| ==> step(air[k]) == Flying(r.air[k])
    decreases |air| - i
  {
    if i < |air| {
      var s := step(air[i]);
      if s.Flying? {
        var next := air[i := s.plane];
        FlyAdvanced(step, next, i + 1);
        FlyPrefix(step, next, i + 1);
        forall k | i + 1 <= k < |air| ensures next[k] == air[k] {
        }
      }
    }
  }

  /**
   * When a plane is lost, it is the first plane `j` from `i` on whose step
   * loses it: the planes before it flew on, it is written back and reported,
   * and the planes after it are untouched.
   */
  lemma {:induction false} FlyHalted(step: Plane -> Step, air: seq<Plane>, i: nat)
    requires i <= |air|
    ensures var r := Fly(step, air, i);
            r.Halted? ==>
              exists j :: && i <= j < |air|
                          && (forall k :: i <= k < j ==> step(air[k]) == Flying(r.air[k]))
                          && step(air[j]) == Lost(r.plane, r.message)
                          && r.air[j] == r.plane
                          && (forall k :: j < k < |air| ==> r.air[k] == air[k])
    decreases |air| - i
  {
    if i < |air| {
      var s := step(air[i]);
      if s.Flying? {
        var next := air[i := s.plane];
        var r := Fly(step, next, i + 1);
        FlyHalted(step, next, i + 1);
        FlyPrefix(step, next, i + 1);
        if r.Halted? {
          var j :| && i + 1 <= j < |next|
                   && (forall k :: i + 1 <= k < j ==> step(next[k]) == Flying(r.air[k]))
                   && step(next[j]) == Lost(r.plane, r.message)
                   && r.air[j] == r.plane
                   && (forall k :: j < k < |next| ==> r.air[k] == next[k]);
          assert Fly(step, air, i) == r;
          forall k | i <= k < j ensures step(air[k]) == Flying(r.air[k]) {
            if k == i {
              assert r.air[i] == next[i] == s.plane;
            } else {
              assert next[k] == air[k];
            }
          }
          forall k | j < k < |air| ensures r.air[k] == air[k] {
            assert next[k] == air[k];
          }
          assert step(air[j]) == Lost(r.plane, r.message) by {
            assert next[j] == air[j];
          }
        }
      } else {
        var r := Fly(step, air, i);
        assert r == Halted(air[i := s.plane], s.plane, s.message);
        forall k | i < k < |air| ensures r.air[k] == air[k] {
        }
        assert r.air[i] == r.plane;
      }
    }
  }

  /** Planes `a` and `b` of `air` are within 1 of each other on every axis. */
  predicate Close(air: seq<Plane>, a: int, b: int)
    requires 0 <= a < |air| && 0 <= b < |air|
  {
    TooClose(FixOf(air[a]), FixOf(air[b]), 1)
  }

  /** The inner collision loop: the first plane from `j` on too close to plane `i`. */
  function FirstInRow(air: seq<Plane>, i: nat, j: nat): (r: Option<nat>)
    requires i < |air| && j <= |air|
    ensures r.None? <==> forall b :: j <= b < |air| ==> !Close(air, i, b)
    ensures r.Some? ==> j <= r.value < |air| && Close(air, i, r.value)
                        && forall b :: j <= b < r.value ==> !Close(air, i, b)
    decreases |air| - j
  {
    if j == |air| then None
    else if Close(air, i, j) then Some(j)
    else FirstInRow(air, i, j + 1)
  }

  /**
   * The collision loops from row `i` on: the first pair (a, b), a < b, in order
   * of a then b, of planes too close to each other.
   */
  function FirstCollision(air: seq<Plane>, i: nat): (r: Option<(nat, nat)>)
    requires i <= |air|
    ensures r.None? <==> forall a, b :: i <= a < b < |air| ==> !Close(air, a, b)
    ensures r.Some? ==>
              && i <= r.value.0 < r.value.1 < |air| && Close(air, r.value.0, r.value.1)
              && (forall a, b :: i <= a < r.value.0 && a < b < |air| ==> !Close(air, a, b))
              && (forall b :: r.value.0 < b < r.value.1 ==> !Close(air, r.value.0, b))
    decreases |air| - i
  {
    if i == |air| then None
    else
      match FirstInRow(air, i, i + 1)
      case Some(j) => Some((i, j))
      case None => FirstCollision(air, i + 1)
  }

  /** The flight loop keeps every plane in its slot. */
  lemma FlownSlots(screen: ScreenDefinition, w: World, clock: int)
    requires SlotsOk(w)
    ensures forall k :: 0 <= k < |Flown(screen, w, clock).air| ==> 0 <= Flown(screen, w, clock).air[k].planeNo < 26
  {
    var ready := Keep(w.ground, IsReady, true);
    var input := w.air + ready;
    StepAtKeepsIdentity(screen, clock + 1);
    FlyFrame(StepAt(screen, clock + 1), input, 0);
    KeepMembers(w.ground, IsReady, true);
    forall k | 0 <= k < |input| ensures 0 <= input[k].planeNo < 26 {
      if k >= |w.air| {
        assert input[k] == ready[k - |w.air|];
        assert input[k] in w.ground;
      }
    }
  }

  /** What `update` reports: the new clock and score, or the loss. */
  datatype TickResult = Updated(clock: int, safePlanes: int) | Loss(plane: Plane, message: string)

  function CollisionMessage(other: Plane): string
    requires 0 <= other.planeNo < 26
  {
    "collided with plane '" + PlaneName(other) + "'"
  }

  /** The airborne planes, take-offs appended, once the flight loop has run. */
  function Flown(screen: ScreenDefinition, w: World, clock: int): Sortie {
    Fly(StepAt(screen, clock + 1), w.air + Keep(w.ground, IsReady, true), 0)
  }

  /** The world once the arrived planes are removed, after a flight loop that lost no plane. */
  function Settled(screen: ScreenDefinition, w: World, clock: int): World {
    w.(air := Keep(Flown(screen, w, clock).air, IsGone, false), ground := Keep(w.ground, IsReady, false))
  }

  /**
   * The end of `update`: the first pair of planes too close to each other
   * loses the game; otherwise a roll of 0 in [0, newPlaneTime) tries to spawn
   * a plane, and the tick succeeds.
   */
  function Conclude(screen: ScreenDefinition, w: World, clock: int, safePlanes: int): (r: (TickResult, World))
    requires SlotsOk(w) && CursorOk(w)
  {
    match FirstCollision(w.air, 0)
    case Some((a, b)) => (Loss(w.air[a], CollisionMessage(w.air[b])), w)
    case None =>
      var (roll, entropy) := Draw(w.entropy, 0, screen.newPlaneTime);
      var w1 := w.(entropy := entropy);
      if roll == Some(0) then (Updated(clock, safePlanes), Spawn(screen, w1).world)
      else (Updated(clock, safePlanes), w1)
  }

  /**
   * `update`: advance the clock, move the planes cleared for take-off from
   * `ground` to the end of `air`, fly every airborne plane, remove the arrived
   * ones (each scoring a safe plane), test every pair for a collision, and on a
   * roll of 0 in [0, newPlaneTime) try to spawn a plane. A loss leaves the
   * world as far as the tick got.
   */
  function Tick(screen: ScreenDefinition, w: World, clock: int, safePlanes: int): (r: (TickResult, World))
    requires SlotsOk(w) && CursorOk(w)
  {
    var flown := Flown(screen, w, clock);
    if flown.Halted? then
      (Loss(flown.plane, flown.message), w.(air := flown.air, ground := Keep(w.ground, IsReady, false)))
    else
      FlightKeepsSlots(screen, w, clock);
      Conclude(screen, Settled(screen, w, clock), clock + 1, safePlanes + |Keep(flown.air, IsGone, true)|)
  }

  /** Keeping and dropping split a sequence's length. */
  lemma KeepCount(s: seq<Plane>, test: Plane -> bool)
    ensures |Keep(s, test, true)| + |Keep(s, test, false)| == |s|
  {
    KeepPartition(s, test);
    assert |multiset(Keep(s, test, true)) + multiset(Keep(s, test, false))| == |multiset(s)|;
  }

  /**
   * On success the clock has moved on by one and the score has grown by exactly
   * the number of planes removed from `air`, which are the arrived ones: every
   * other flown plane is still airborne, in order, followed at most by a newly
   * spawned plane, and no airborne plane is left `Gone`.
   */
  lemma TickScores(screen: ScreenDefinition, w: World, clock: int, safePlanes: int)
    requires SlotsOk(w) && CursorOk(w)
    ensures var (res, w') := Tick(screen, w, clock, safePlanes);
            var flown := Flown(screen, w, clock);
            var survivors := Keep(flown.air, IsGone, false);
            res.Updated? ==>
              && flown.Advanced?
              && res.clock == clock + 1
              && res.safePlanes - safePlanes == |flown.air| - |survivors|
              && survivors <= w'.air && |w'.air| <= |survivors| + 1
              && (forall q :: q in flown.air && !IsGone(q) ==> q in w'.air)
              && (forall k :: 0 <= k < |w'.air| ==> !IsGone(w'.air[k]))
  {
    var (res, w') := Tick(screen, w, clock, safePlanes);
    var flown := Flown(screen, w, clock);
    if res.Updated? {
      KeepCount(flown.air, IsGone);
      KeepMembers(flown.air, IsGone, false);
      var survivors := Keep(flown.air, IsGone, false);
      var w2 := w.(air := survivors, ground := Keep(w.ground, IsReady, false),
                   entropy := Draw(w.entropy, 0, screen.newPlaneTime).1);
      var spawn := Spawn(screen, w2);
      SpawnPlaced(screen, w2);
      assert w' == w2 || w' == spawn.world;
    }
  }

  /**
   * Whatever the outcome, no plane cleared for take-off is left on the ground:
   * the ground keeps the others, in order, followed at most by a newly spawned
   * plane, which is not cleared.
   */
  lemma TickClearsRunway(screen: ScreenDefinition, w: World, clock: int, safePlanes: int)
    requires SlotsOk(w) && CursorOk(w)
    ensures var w' := Tick(screen, w, clock, safePlanes).1;
            && Keep(w.ground, IsReady, false) <= w'.ground
            && |w'.ground| <= |Keep(w.ground, IsReady, false)| + 1
            && forall k :: 0 <= k < |w'.ground| ==> !IsReady(w'.ground[k])
  {
    var (res, w') := Tick(screen, w, clock, safePlanes);
    var flown := Flown(screen, w, clock);
    KeepMembers(w.ground, IsReady, false);
    if flown.Advanced? {
      var survivors := Keep(flown.air, IsGone, false);
      var w2 := w.(air := survivors, ground := Keep(w.ground, IsReady, false),
                   entropy := Draw(w.entropy, 0, screen.newPlaneTime).1);
      var spawn := Spawn(screen, w2);
      SpawnPlaced(screen, w2);
      assert w'.ground == w2.ground || w' == spawn.world;
    }
  }

  /**
   * The end of a tick is lost exactly when two airborne planes are within 1 of
   * each other on every axis; the loss names the earlier plane of such a pair
   * and the other one in its message.
   */
  lemma ConcludeCollides(screen: ScreenDefinition, w: World, clock: int, safePlanes: int)
    requires SlotsOk(w) && CursorOk(w)
    ensures var res := Conclude(screen, w, clock, safePlanes).0;
            && (res.Updated? <==> forall a, b :: 0 <= a < b < |w.air| ==> !Close(w.air, a, b))
            && (res.Loss? ==>
                  exists a, b :: && 0 <= a < b < |w.air| && Close(w.air, a, b)
                                 && res.plane == w.air[a]
                                 && res.message == CollisionMessage(w.air[b]))
  {
  }

  /**
   * A tick in two parts: a plane lost in flight ends it where the flight loop
   * stopped; otherwise it concludes, from a world that keeps the slot
   * invariants, with the removed arrivals added to the score.
   */
  lemma TickInParts(screen: ScreenDefinition, w: World, clock: int, safePlanes: int)
    requires SlotsOk(w) && CursorOk(w)
    ensures var flown := Flown(screen, w, clock);
            && (flown.Halted? ==>
                  Tick(screen, w, clock, safePlanes)
                  == (Loss(flown.plane, flown.message), w.(air := flown.air, ground := Keep(w.ground, IsReady, false))))
            && (flown.Advanced? ==>
                  && SlotsOk(Settled(screen, w, clock)) && CursorOk(Settled(screen, w, clock))
                  && Tick(screen, w, clock, safePlanes)
                     == Conclude(screen, Settled(screen, w, clock), clock + 1,
                                 safePlanes + |Keep(flown.air, IsGone, true)|))
  {
    FlightKeepsSlots(screen, w, clock);
  }

  /** Every slot held in `w` is in range exactly when every plane's slot is. */
  lemma SlotsOkByNos(w: World)
    ensures SlotsOk(w) <==> forall n :: n in Nos(w.air + w.ground) ==> 0 <= n < 26
  {
    var all := Nos(w.air + w.ground);
    NosAppend(w.air, w.ground);
    NosInRange(w.air);
    NosInRange(w.ground);
    if SlotsOk(w) {
      forall n | n in all ensures 0 <= n < 26 {
        assert n in Nos(w.air) || n in Nos(w.ground);
      }
    }
    if forall n :: n in all ==> 0 <= n < 26 {
      forall n | n in Nos(w.air) ensures 0 <= n < 26 {
        assert n in all;
      }
      forall n | n in Nos(w.ground) ensures 0 <= n < 26 {
        assert n in all;
      }
    }
  }

  /** Every plane of `s` holds a slot in range exactly when every slot number of `s` is in range. */
  lemma NosInRange(s: seq<Plane>)
    ensures (forall k :: 0 <= k < |s| ==> 0 <= s[k].planeNo < 26) <==> forall n :: n in Nos(s) ==> 0 <= n < 26
  {
    forall n | n in Nos(s) && forall k :: 0 <= k < |s| ==> 0 <= s[k].planeNo < 26
      ensures 0 <= n < 26
    {
      NosMember(s, n);
    }
    forall k | 0 <= k < |s| && forall n :: n in Nos(s) ==> 0 <= n < 26
      ensures 0 <= s[k].planeNo < 26
    {
      NosMember(s, s[k].planeNo);
    }
  }

  /** Worlds whose planes hold no slots beyond those of `w` inherit its slot invariants. */
  lemma FewerSlots(w: World, w': World)
    requires Nos(w'.air + w'.ground) <= Nos(w.air + w.ground)
    ensures SlotsOk(w) ==> SlotsOk(w')
    ensures UniqueSlots(w) ==> UniqueSlots(w')
  {
    SlotsOkByNos(w);
    SlotsOkByNos(w');
  }

  /** Adding one plane in a free slot keeps slots in range and unshared. */
  lemma AddInFreeSlot(w: World, w': World, p: Plane)
    requires 0 <= p.planeNo < 26 && !InUse(w.air, w.ground, p.planeNo)
    requires || (w'.air == w.air + [p] && w'.ground == w.ground)
             || (w'.air == w.air && w'.ground == w.ground + [p])
    ensures SlotsOk(w) ==> SlotsOk(w')
    ensures UniqueSlots(w) ==> UniqueSlots(w')
  {
    AddInRange(w, w', p);
    AddUnshared(w, w', p);
  }

  /** Adding a plane whose slot is in range keeps every slot in range. */
  lemma AddInRange(w: World, w': World, p: Plane)
    requires 0 <= p.planeNo < 26
    requires || (w'.air == w.air + [p] && w'.ground == w.ground)
             || (w'.air == w.air && w'.ground == w.ground + [p])
    ensures SlotsOk(w) ==> SlotsOk(w')
  {
    if SlotsOk(w) {
      forall k | 0 <= k < |w'.air| ensures 0 <= w'.air[k].planeNo < 26 {
        if k < |w.air| {
          assert w'.air[k] == w.air[k];
        }
      }
      forall k | 0 <= k < |w'.ground| ensures 0 <= w'.ground[k].planeNo < 26 {
        if k < |w.ground| {
          assert w'.ground[k] == w.ground[k];
        }
      }
    }
  }

  /** Adding a plane in a slot nobody holds leaves every slot held once at most. */
  lemma AddUnshared(w: World, w': World, p: Plane)
    requires !InUse(w.air, w.ground, p.planeNo)
    requires || (w'.air == w.air + [p] && w'.ground == w.ground)
             || (w'.air == w.air && w'.ground == w.ground + [p])
    ensures UniqueSlots(w) ==> UniqueSlots(w')
  {
    var n := p.planeNo;
    var before := Nos(w.air + w.ground);
    NosMember(w.air, n);
    NosMember(w.ground, n);
    NosAppend(w.air, w.ground);
    assert n !in before;
    NosGrows(w, w', p);
    if UniqueSlots(w) {
      forall m | m in Nos(w'.air + w'.ground) ensures Nos(w'.air + w'.ground)[m] == 1 {
        if m != n {
          assert m in before;
        }
      }
    }
  }

  /** Adding a plane adds its slot to the multiset of slots. */
  lemma NosGrows(w: World, w': World, p: Plane)
    requires || (w'.air == w.air + [p] && w'.ground == w.ground)
             || (w'.air == w.air && w'.ground == w.ground + [p])
    ensures Nos(w'.air + w'.ground) == Nos(w.air + w.ground) + multiset{p.planeNo}
  {
    NosAppend(w.air, w.ground);
    NosAppend(w'.air, w'.ground);
    if w'.air == w.air + [p] && w'.ground == w.ground {
      NosAppend(w.air, [p]);
    } else {
      NosAppend(w.ground, [p]);
    }
  }

  /** A spawn adds one plane in a free slot, so slots stay in range and unshared. */
  lemma SpawnKeepsSlots(screen: ScreenDefinition, w: World)
    requires CursorOk(w) && SlotsOk(w)
    ensures SlotsOk(Spawn(screen, w).world)
    ensures UniqueSlots(w) ==> UniqueSlots(Spawn(screen, w).world)
  {
    var r := Spawn(screen, w);
    SpawnPlaced(screen, w);
    if r.Spawned? {
      AddInFreeSlot(w, r.world, r.plane);
    }
  }

  /** The flight loop keeps every slot: flown and waiting planes hold the slots held before. */
  lemma FlownNos(screen: ScreenDefinition, w: World, clock: int)
    ensures Nos(Flown(screen, w, clock).air) + Nos(Keep(w.ground, IsReady, false)) == Nos(w.air + w.ground)
  {
    var ready, waiting := Keep(w.ground, IsReady, true), Keep(w.ground, IsReady, false);
    var input := w.air + ready;
    var flown := Flown(screen, w, clock).air;
    StepAtKeepsIdentity(screen, clock + 1);
    FlyFrame(StepAt(screen, clock + 1), input, 0);
    NosPointwise(input, flown);
    NosAppend(w.air, ready);
    NosKeep(w.ground, IsReady);
    NosAppend(w.air, w.ground);
    calc {
      Nos(flown) + Nos(waiting);
      Nos(w.air) + Nos(ready) + Nos(waiting);
      Nos(w.air) + (Nos(ready) + Nos(waiting));
      Nos(w.air + w.ground);
    }
  }

  /** The flight loop and the removal of arrived planes keep the slot invariants. */
  lemma FlightKeepsSlots(screen: ScreenDefinition, w: World, clock: int)
    ensures var flown := Flown(screen, w, clock);
            var w1 := if flown.Halted? then w.(air := flown.air, ground := Keep(w.ground, IsReady, false))
                      else Settled(screen, w, clock);
            && (SlotsOk(w) ==> SlotsOk(w1))
            && (UniqueSlots(w) ==> UniqueSlots(w1))
  {
    var waiting := Keep(w.ground, IsReady, false);
    var flown := Flown(screen, w, clock);
    FlownNos(screen, w, clock);
    if flown.Halted? {
      NosAppend(flown.air, waiting);
      FewerSlots(w, w.(air := flown.air, ground := waiting));
    } else {
      var survivors := Keep(flown.air, IsGone, false);
      NosKeep(flown.air, IsGone);
      NosAppend(survivors, waiting);
      FewerSlots(w, w.(air := survivors, ground := waiting));
    }
  }

  /**
   * A tick keeps every plane in one of the 26 slots and never makes two planes
   * share one; the slot cursor stays valid.
   */
  lemma TickKeepsSlots(screen: ScreenDefinition, w: World, clock: int, safePlanes: int)
    requires SlotsOk(w) && CursorOk(w)
    ensures var w' := Tick(screen, w, clock, safePlanes).1;
            && SlotsOk(w') && CursorOk(w')
            && (UniqueSlots(w) ==> UniqueSlots(w'))
  {
    var flown := Flown(screen, w, clock);
    FlightKeepsSlots(screen, w, clock);
    if flown.Advanced? {
      var w1 := Settled(screen, w, clock);
      var score := safePlanes + |Keep(flown.air, IsGone, true)|;
      assert Tick(screen, w, clock, safePlanes) == Conclude(screen, w1, clock + 1, score);
      ConcludeKeepsSlots(screen, w1, clock + 1, score);
    }
  }

  /** The end of a tick keeps every slot in range and unshared, and the cursor valid. */
  lemma ConcludeKeepsSlots(screen: ScreenDefinition, w: World, clock: int, safePlanes: int)
    requires SlotsOk(w) && CursorOk(w)
    ensures var w' := Conclude(screen, w, clock, safePlanes).1;
            && SlotsOk(w') && CursorOk(w')
            && (UniqueSlots(w) ==> UniqueSlots(w'))
  {
    var w' := Conclude(screen, w, clock, safePlanes).1;
    var w1 := w.(entropy := Draw(w.entropy, 0, screen.newPlaneTime).1);
    SpawnKeepsSlots(screen, w1);
    assert w' == w || w' == w1 || w' == Spawn(screen, w1).world;
  }
}
