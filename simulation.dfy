/**
 * The game's mutable state as src/update.ts changes it: the `air` and
 * `ground` arrays, the module-level slot cursor `last_plane`, and the random
 * stream. Each method does in place what the matching function of `Spawning`
 * or `Updating.Tick` states.
 */
module Simulation {
  import opened Wrappers
  import opened Model
  import opened Flight
  import opened Spawning
  import opened Updating

  /** Whether some plane of `s` holds slot `n` (`Array.some` over `planeNo`). */
  method Holds(s: seq<Plane>, n: int) returns (found: bool)
    ensures found <==> exists k :: 0 <= k < |s| && s[k].planeNo == n
  {
    found := false;
    var k := 0;
    while k < |s|
      invariant 0 <= k <= |s|
      invariant found <==> exists m :: 0 <= m < k && s[m].planeNo == n
    {
      if s[k].planeNo == n {
        found := true;
      }
      k := k + 1;
    }
  }

  /** Whether some airborne plane is within 4 of the origin on every axis (`air.some(tooClose)`). */
  method Crowds(air: seq<Plane>, o: Origin) returns (crowded: bool)
    ensures crowded == Crowded(air, o)
  {
    crowded := false;
    var k := 0;
    while k < |air|
      invariant 0 <= k <= |air|
      invariant crowded <==> exists m :: 0 <= m < k && TooClose(FixOf(air[m]), Fix(o.altitude, o.xpos, o.ypos), 4)
    {
      if TooClose(FixOf(air[k]), Fix(o.altitude, o.xpos, o.ypos), 4) {
        crowded := true;
      }
      k := k + 1;
    }
  }

  /**
   * The pairwise collision loops of `update` over `air`: the first pair of
   * planes within 1 of each other, in order of the first plane then the second.
   */
  method FindCollision(air: seq<Plane>) returns (pair: Option<(nat, nat)>)
    ensures pair == FirstCollision(air, 0)
  {
    var i := 0;
    while i < |air|
      invariant 0 <= i <= |air|
      invariant FirstCollision(air, i) == FirstCollision(air, 0)
    {
      var j := ScanRow(air, i);
      if j.Some? {
        return Some((i, j.value));
      }
      i := i + 1;
    }
    return None;
  }

  /** The inner collision loop: the first plane after the `i`th that is within 1 of it. */
  method ScanRow(air: seq<Plane>, i: nat) returns (r: Option<nat>)
    requires i < |air|
    ensures r == FirstInRow(air, i, i + 1)
  {
    var j := i + 1;
    while j < |air|
      invariant i + 1 <= j <= |air|
      invariant FirstInRow(air, i, j) == FirstInRow(air, i, i + 1)
    {
      if TooClose(FixOf(air[i]), FixOf(air[j]), 1) {
        return Some(j);
      }
      j := j + 1;
    }
    return None;
  }

  /** The cyclic scan of `nextPlane` over the 26 slots, starting at `start`. */
  method FirstFree(air: seq<Plane>, ground: seq<Plane>, start: int) returns (slot: int)
    requires start >= 0
    ensures slot == ScanSlots(air, ground, start, 0)
  {
    slot := -1;
    var i := 0;
    while i != 26
      invariant 0 <= i <= 26
      invariant ScanSlots(air, ground, start, i) == ScanSlots(air, ground, start, 0)
    {
      var candidate := (start + i) % 26;
      var inAir := Holds(air, candidate);
      var onGround := Holds(ground, candidate);
      if !(inAir || onGround) {
        assert candidate == Candidate(start, i) && !InUse(air, ground, candidate);
        slot := candidate;
        return;
      }
      assert InUse(air, ground, Candidate(start, i));
      i := i + 1;
    }
  }

  class Simulation {
    var air: seq<Plane>
    var ground: seq<Plane>
    /** `last_plane`: the slot most recently handed out, -1 before the first. */
    var lastPlane: int
    /** What `randomInteger` has still to draw from. */
    var entropy: seq<nat>

    function State(): World
      reads this
    {
      World(air, ground, lastPlane, entropy)
    }

    /** Every plane holds one of the 26 slots and the cursor is at least -1. */
    predicate Valid()
      reads this
    {
      CursorOk(State()) && SlotsOk(State())
    }

    /** An empty sky, the cursor at its initial -1, and the given random stream. */
    constructor(entropy: seq<nat>)
      ensures State() == World([], [], -1, entropy) && Valid()
    {
      air := [];
      ground := [];
      lastPlane := -1;
      this.entropy := entropy;
    }

    /** `randomInteger(lo, hi)`: draw from the stream. */
    method RandomInteger(lo: int, hi: int) returns (v: Option<int>)
      modifies this
      ensures (v, entropy) == Draw(old(entropy), lo, hi)
      ensures air == old(air) && ground == old(ground) && lastPlane == old(lastPlane)
    {
      if entropy == [] || hi <= lo {
        v := None;
      } else {
        v := Some(lo + Wrap(entropy[0], hi - lo));
        entropy := entropy[1..];
      }
    }

    /**
     * `nextPlane`: move the cursor on, then hand out the first free slot
     * scanning cyclically from it, or -1 when all 26 are taken.
     */
    method NextPlane() returns (slot: int)
      requires CursorOk(State())
      modifies this
      ensures (slot, State()) == Spawning.NextPlane(old(State()))
    {
      var start := lastPlane + 1;
      slot := FirstFree(air, ground, start);
      lastPlane := if slot == -1 then start else slot;
    }

    /** The inner loop of `addPlane`: draw start points until one differs from `rnd`. */
    method DrawOrigin(rnd: int, numStarts: int) returns (rnd2: Option<int>)
      modifies this
      ensures (rnd2, entropy) == Redraw(old(entropy), rnd, numStarts)
      ensures air == old(air) && ground == old(ground) && lastPlane == old(lastPlane)
    {
      rnd2 := RandomInteger(0, numStarts);
      while rnd2 == Some(rnd)
        invariant air == old(air) && ground == old(ground) && lastPlane == old(lastPlane)
        invariant Redraw(old(entropy), rnd, numStarts)
                  == if rnd2 == Some(rnd) then Redraw(entropy, rnd, numStarts) else (rnd2, entropy)
        decreases |entropy|, rnd2 == Some(rnd)
      {
        rnd2 := RandomInteger(0, numStarts);
      }
    }

    /**
     * `addPlane`: draw a plane type and a destination, then up to one try per
     * start point, draw an origin other than the destination; skip an exit
     * with traffic nearby, else take a slot and push the new plane onto `air`
     * (exit) or `ground` (airport). Returns the destination kind of the plane
     * added, if any.
     */
    method AddPlane(screen: ScreenDefinition) returns (added: Option<PlaneDest>)
      requires CursorOk(State())
      modifies this
      ensures var r := Spawn(screen, old(State()));
              && State() == r.world
              && added == (if r.Spawned? then Some(r.plane.destType) else None)
    {
      ghost var w := State();
      added := None;
      var planeType := RandomInteger(0, 2);
      if planeType.None? {
        assert State() == w.(entropy := Draw(w.entropy, 0, 2).1);
        return;
      }
      ghost var w1 := State();
      var numStarts := |screen.exits| + |screen.airports|;
      var rnd := RandomInteger(0, numStarts);
      if rnd.None? {
        assert State() == w.(entropy := Draw(w1.entropy, 0, numStarts).1);
        return;
      }
      var destType := if rnd.value < |screen.exits| then ExitDest else AirportDest;
      var destNo := if rnd.value < |screen.exits| then rnd.value else rnd.value - |screen.exits|;
      SpawnStarts(screen, w);
      assert State() == w.(entropy := Draw(w1.entropy, 0, numStarts).1);
      ghost var r := TryOrigins(screen, State(), planeType.value, rnd.value, destType, destNo, 0);
      assert Spawn(screen, w) == r;
      TryOriginsPlaced(screen, State(), planeType.value, rnd.value, destType, destNo, 0);
      added := TryStarts(screen, planeType.value, rnd.value, destType, destNo);
      assert State() == r.world;
    }

    /** The outer loop of `addPlane`, once the plane type and destination are drawn. */
    method TryStarts(screen: ScreenDefinition, planeType: int, rnd: int, destType: PlaneDest, destNo: int)
      returns (added: Option<PlaneDest>)
      requires CursorOk(State())
      requires 0 <= rnd < |screen.exits| + |screen.airports|
      requires destType == (if rnd < |screen.exits| then ExitDest else AirportDest)
      requires destNo == (if rnd < |screen.exits| then rnd else rnd - |screen.exits|)
      modifies this
      ensures var r := TryOrigins(screen, old(State()), planeType, rnd, destType, destNo, 0);
              && State() == r.world
              && added == (if r.Spawned? then Some(destType) else None)
    {
      ghost var target := TryOrigins(screen, State(), planeType, rnd, destType, destNo, 0);
      var numStarts := |screen.exits| + |screen.airports|;
      var i := 0;
      while i < numStarts
        invariant CursorOk(State())
        invariant TryOrigins(screen, State(), planeType, rnd, destType, destNo, i) == target
        decreases numStarts - i
      {
        var done;
        done, added := TryOrigin(screen, planeType, rnd, destType, destNo, i);
        if done {
          return;
        }
        i := i + 1;
      }
      return None;
    }

    /**
     * One pass of the outer loop of `addPlane`: finished when the stream ran
     * dry, a plane was added or no slot was free; otherwise on to the next try.
     */
    method TryOrigin(screen: ScreenDefinition, planeType: int, rnd: int, destType: PlaneDest, destNo: int, i: nat)
      returns (done: bool, added: Option<PlaneDest>)
      requires CursorOk(State())
      requires i < |screen.exits| + |screen.airports|
      requires 0 <= rnd < |screen.exits| + |screen.airports|
      requires destType == (if rnd < |screen.exits| then ExitDest else AirportDest)
      requires destNo == (if rnd < |screen.exits| then rnd else rnd - |screen.exits|)
      modifies this
      ensures CursorOk(State())
      ensures var r := TryOrigins(screen, old(State()), planeType, rnd, destType, destNo, i);
              if done then State() == r.world && added == (if r.Spawned? then Some(destType) else None)
              else TryOrigins(screen, State(), planeType, rnd, destType, destNo, i + 1) == r
    {
      ghost var r := TryOrigins(screen, State(), planeType, rnd, destType, destNo, i);
      var numStarts := |screen.exits| + |screen.airports|;
      var rnd2 := DrawOrigin(rnd, numStarts);
      if rnd2.None? {
        assert r == NotSpawned(State());
        return true, None;
      }
      ghost var w1 := State();
      var origin := OriginOf(screen, rnd2.value);
      var crowded := Crowds(air, origin);
      if origin.originType == ExitDest && crowded {
        assert r == TryOrigins(screen, w1, planeType, rnd, destType, destNo, i + 1);
        return false, None;
      }
      var planeNo := NextPlane();
      assert (planeNo, State()) == Spawning.NextPlane(w1);
      if planeNo < 0 {
        assert r == NotSpawned(State());
        return true, None;
      }
      var plane := NewPlane(screen, planeType, planeNo, destType, destNo, origin);
      if plane.originType == AirportDest {
        ground := ground + [plane];
      } else {
        air := air + [plane];
      }
      assert r == Spawned(plane, State());
      return true, Some(destType);
    }

    /** Move the planes cleared for take-off, in order, from `ground` to the end of `air`. */
    method TakeOff()
      modifies this
      ensures air == old(air) + Keep(old(ground), IsReady, true)
      ensures ground == Keep(old(ground), IsReady, false)
      ensures lastPlane == old(lastPlane) && entropy == old(entropy)
    {
      var planes := ground;
      var ready := [];
      var waiting := [];
      var k := 0;
      while k < |planes|
        invariant 0 <= k <= |planes|
        invariant ready == Keep(planes[..k], IsReady, true)
        invariant unchanged(this)
        invariant waiting == Keep(planes[..k], IsReady, false)
      {
        KeepAppend(planes[..k], [planes[k]], IsReady, true);
        KeepAppend(planes[..k], [planes[k]], IsReady, false);
        assert planes[..k + 1] == planes[..k] + [planes[k]];
        if IsReady(planes[k]) {
          ready := ready + [planes[k]];
        } else {
          waiting := waiting + [planes[k]];
        }
        k := k + 1;
      }
      assert planes[..k] == planes;
      air := air + ready;
      ground := waiting;
    }

    /**
     * The flight loop: step each airborne plane in turn, writing it back,
     * until one is lost.
     */
    method FlyPlanes(screen: ScreenDefinition, clock: int) returns (f: Sortie)
      modifies this
      ensures f == Fly(StepAt(screen, clock), old(air), 0) && air == f.air
      ensures ground == old(ground) && lastPlane == old(lastPlane) && entropy == old(entropy)
    {
      var planes := air;
      var i := 0;
      while i < |planes|
        invariant 0 <= i <= |planes|
        invariant Fly(StepAt(screen, clock), planes, i) == Fly(StepAt(screen, clock), air, 0)
      {
        var step := StepPlane(screen, planes[i], clock);
        assert StepAt(screen, clock)(planes[i]) == step;
        planes := planes[i := step.plane];
        if step.Lost? {
          f := Halted(planes, step.plane, step.message);
          air := planes;
          return;
        }
        i := i + 1;
      }
      f := Advanced(planes);
      air := planes;
    }

    /** Remove the arrived planes from `air`, counting them. */
    method RemoveGone() returns (arrived: nat)
      modifies this
      ensures air == Keep(old(air), IsGone, false)
      ensures arrived == |Keep(old(air), IsGone, true)|
      ensures ground == old(ground) && lastPlane == old(lastPlane) && entropy == old(entropy)
    {
      var planes := air;
      var kept := [];
      arrived := 0;
      var k := 0;
      while k < |planes|
        invariant 0 <= k <= |planes|
        invariant kept == Keep(planes[..k], IsGone, false)
        invariant unchanged(this)
        invariant arrived == |Keep(planes[..k], IsGone, true)|
      {
        KeepAppend(planes[..k], [planes[k]], IsGone, true);
        KeepAppend(planes[..k], [planes[k]], IsGone, false);
        assert planes[..k + 1] == planes[..k] + [planes[k]];
        if IsGone(planes[k]) {
          arrived := arrived + 1;
        } else {
          kept := kept + [planes[k]];
        }
        k := k + 1;
      }
      assert planes[..k] == planes;
      air := kept;
    }

    /**
     * The end of `update`: report the first collision, or roll for a new plane
     * and succeed.
     */
    method Conclude(screen: ScreenDefinition, clock: int, safePlanes: int) returns (r: TickResult)
      requires Valid()
      modifies this
      ensures (r, State()) == Updating.Conclude(screen, old(State()), clock, safePlanes)
    {
      var pair := FindCollision(air);
      if pair.Some? {
        return Loss(air[pair.value.0], CollisionMessage(air[pair.value.1]));
      }
      var roll := RandomInteger(0, screen.newPlaneTime);
      if roll == Some(0) {
        var _ := AddPlane(screen);
      }
      return Updated(clock, safePlanes);
    }

    /** The first half of `update`: take-off, then the flight loop. */
    method Depart(screen: ScreenDefinition, clock: int) returns (f: Sortie)
      modifies this
      ensures f == Flown(screen, old(State()), clock)
      ensures State() == old(State()).(air := f.air, ground := Keep(old(ground), IsReady, false))
    {
      TakeOff();
      f := FlyPlanes(screen, clock + 1);
    }

    /** Take-off, the flight loop and, when no plane was lost, the removal of the arrived planes. */
    method Settle(screen: ScreenDefinition, clock: int) returns (f: Sortie, arrived: nat)
      modifies this
      ensures f == Flown(screen, old(State()), clock)
      ensures f.Halted? ==> State() == old(State()).(air := f.air, ground := Keep(old(ground), IsReady, false))
      ensures f.Advanced? ==>
                State() == Settled(screen, old(State()), clock) && arrived == |Keep(f.air, IsGone, true)|
    {
      ghost var w := State();
      f := Depart(screen, clock);
      arrived := 0;
      if f.Advanced? {
        arrived := RemoveGone();
        assert State() == Settled(screen, w, clock);
      }
    }

    /** The body of `update`, changing the world in place as `Updating.Tick` states. */
    method Advance(screen: ScreenDefinition, clock: int, safePlanes: int) returns (r: TickResult)
      requires Valid()
      modifies this
      ensures (r, State()) == Tick(screen, old(State()), clock, safePlanes)
    {
      ghost var w := State();
      TickInParts(screen, w, clock, safePlanes);
      var f, arrived := Settle(screen, clock);
      if f.Halted? {
        return Loss(f.plane, f.message);
      }
      r := Conclude(screen, clock + 1, safePlanes + arrived);
    }

    /**
     * `update`: one tick of the game as `Updating.Tick` states, keeping every
     * plane in one of the 26 slots and no two planes in the same slot.
     */
    method Update(screen: ScreenDefinition, clock: int, safePlanes: int) returns (r: TickResult)
      requires Valid()
      modifies this
      ensures (r, State()) == Tick(screen, old(State()), clock, safePlanes)
      ensures Valid()
      ensures UniqueSlots(old(State())) ==> UniqueSlots(State())
    {
      TickKeepsSlots(screen, State(), clock, safePlanes);
      r := Advance(screen, clock, safePlanes);
    }
  }
}
