/**
 * The spawner of src/update.ts: `addPlane`, `posAndDirFromDest`, `nextPlane`
 * with its `last_plane` slot cursor, and the `randomInteger` source they draw
 * from, stated as functions of the simulation's state.
 */
module Spawning {
  import opened Wrappers
  import opened Model
  import opened Flight

  /**
   * The state a tick reads and writes: the airborne and grounded planes, the
   * plane-slot cursor `last_plane`, and what remains of the random stream.
   */
  datatype World = World(air: seq<Plane>, ground: seq<Plane>, lastPlane: int, entropy: seq<nat>)

  /**
   * `randomInteger(lo, hi)`, whose body is not part of this model, as an
   * injected oracle: the next number of the stream, reduced into [lo, hi). An
   * exhausted stream or an empty range draws nothing and consumes nothing.
   */
  function Draw(entropy: seq<nat>, lo: int, hi: int): (r: (Option<int>, seq<nat>))
    ensures r.0.Some? ==> lo <= r.0.value < hi && |entropy| > 0 && r.1 == entropy[1..]
    ensures r.0.None? ==> r.1 == entropy
  {
    if entropy == [] || hi <= lo then (None, entropy)
    else (Some(lo + Wrap(entropy[0], hi - lo)), entropy[1..])
  }

  /** `v` reduced into [0, m) by repeated subtraction. */
  function Wrap(v: nat, m: int): (r: nat)
    requires m > 0
    ensures r < m
    decreases v
  {
    if v < m then v else Wrap(v - m, m)
  }

  /** Reduction by repeated subtraction is the remainder of division. */
  lemma {:induction false} WrapIsMod(v: nat, m: int)
    requires m > 0
    ensures Wrap(v, m) == v % m
    decreases v
  {
    if v >= m {
      WrapIsMod(v - m, m);
      var q := (v - m) / m;
      var r := (v - m) % m;
      assert v == (q + 1) * m + r;
      DivisionUnique(v, m, q + 1, r);
    }
  }

  /** The remainder is the `r` of any `v == q * m + r` with `0 <= r < m`. */
  lemma DivisionUnique(v: int, m: int, q: int, r: int)
    requires m > 0 && 0 <= r < m && v == q * m + r
    ensures v % m == r
  {
    var q' := v / m;
    var r' := v % m;
    assert v == q' * m + r';
    var d := q - q';
    assert d * m == r' - r by {
      assert q * m - q' * m == (q - q') * m;
    }
    MulAwayFromZero(d, m);
  }

  /** A non-zero multiple of a positive `m` is at least `m` away from zero. */
  lemma MulAwayFromZero(d: int, m: int)
    requires m > 0
    ensures d >= 1 ==> d * m >= m
    ensures d <= -1 ==> d * m <= -m
  {
    if d >= 1 {
      assert d * m == (d - 1) * m + m;
      assert (d - 1) * m >= 0;
    } else if d <= -1 {
      assert d * m == -((-d - 1) * m) - m;
      assert (-d - 1) * m >= 0;
    }
  }

  /** Some plane in `air` or `ground` holds slot `n`. */
  predicate InUse(air: seq<Plane>, ground: seq<Plane>, n: int) {
    (exists k :: 0 <= k < |air| && air[k].planeNo == n)
    || (exists k :: 0 <= k < |ground| && ground[k].planeNo == n)
  }

  /** The `k`-th slot `nextPlane` tries when its cursor has been moved to `start`. */
  function Candidate(start: int, k: int): int
    requires start >= 0 && k >= 0
  {
    (start + k) % 26
  }

  /**
   * The loop of `nextPlane` from its `i`-th try: the first free slot among the
   * candidates `i` to 25, or -1 when all of them are in use.
   */
  function ScanSlots(air: seq<Plane>, ground: seq<Plane>, start: int, i: nat): (slot: int)
    requires start >= 0 && i <= 26
    ensures slot == -1 || 0 <= slot < 26
    decreases 26 - i
  {
    if i == 26 then -1
    else if InUse(air, ground, Candidate(start, i)) then ScanSlots(air, ground, start, i + 1)
    else Candidate(start, i)
  }

  /** The scan from try `i` gives -1 exactly when every remaining candidate is in use. */
  lemma {:induction false} ScanSlotsExhausted(air: seq<Plane>, ground: seq<Plane>, start: int, i: nat)
    requires start >= 0 && i <= 26
    ensures ScanSlots(air, ground, start, i) == -1
            <==> forall k :: i <= k < 26 ==> InUse(air, ground, Candidate(start, k))
    decreases 26 - i
  {
    if i < 26 && InUse(air, ground, Candidate(start, i)) {
      ScanSlotsExhausted(air, ground, start, i + 1);
    }
  }

  /** A slot the scan gives is free. */
  lemma {:induction false} ScanSlotsFree(air: seq<Plane>, ground: seq<Plane>, start: int, i: nat)
    requires start >= 0 && i <= 26
    ensures var slot := ScanSlots(air, ground, start, i);
            slot != -1 ==> !InUse(air, ground, slot)
    decreases 26 - i
  {
    if i < 26 && InUse(air, ground, Candidate(start, i)) {
      ScanSlotsFree(air, ground, start, i + 1);
    }
  }

  /**
   * Otherwise the scan gives the first free slot among the candidates from
   * try `i` on.
   */
  lemma {:induction false} ScanSlotsFirst(air: seq<Plane>, ground: seq<Plane>, start: int, i: nat)
    requires start >= 0 && i <= 26
    ensures var slot := ScanSlots(air, ground, start, i);
            slot != -1 ==>
              exists k :: i <= k < 26 && slot == Candidate(start, k)
                             && forall m :: i <= m < k ==> InUse(air, ground, Candidate(start, m))
    decreases 26 - i
  {
    if i < 26 {
      var slot := ScanSlots(air, ground, start, i);
      if InUse(air, ground, Candidate(start, i)) {
        ScanSlotsFirst(air, ground, start, i + 1);
        if slot != -1 {
          var k :| i + 1 <= k < 26 && slot == Candidate(start, k)
                   && forall m :: i + 1 <= m < k ==> InUse(air, ground, Candidate(start, m));
          assert forall m :: i <= m < k ==> InUse(air, ground, Candidate(start, m));
        }
      } else {
        assert slot == Candidate(start, i);
      }
    }
  }

  /** The slot cursor never drops below its initial -1. */
  predicate CursorOk(w: World) {
    w.lastPlane >= -1
  }

  /**
   * `nextPlane`: move the cursor on by one, then hand out the first free slot
   * scanning cyclically from there, recording it as the cursor; -1 when all 26
   * slots are taken (the cursor then stays moved on).
   */
  function NextPlane(w: World): (r: (int, World))
    requires CursorOk(w)
    ensures r.1 == w.(lastPlane := r.1.lastPlane) && CursorOk(r.1)
    ensures r.0 == -1 || (0 <= r.0 < 26 && r.1.lastPlane == r.0)
  {
    var start := w.lastPlane + 1;
    var slot := ScanSlots(w.air, w.ground, start, 0);
    if slot == -1 then (-1, w.(lastPlane := start)) else (slot, w.(lastPlane := slot))
  }

  /** `nextPlane` hands out a slot nobody holds. */
  lemma NextPlaneFree(w: World)
    requires CursorOk(w)
    ensures var r := NextPlane(w);
            r.0 != -1 ==> !InUse(w.air, w.ground, r.0)
  {
    var slot := ScanSlots(w.air, w.ground, w.lastPlane + 1, 0);
    ScanSlotsFree(w.air, w.ground, w.lastPlane + 1, 0);
    assert NextPlane(w).0 == slot;
    if slot != -1 {
      assert !InUse(w.air, w.ground, slot);
    }
  }

  /** `nextPlane` gives -1 exactly when all 26 slots are held. */
  lemma NextPlaneFull(w: World)
    requires CursorOk(w)
    ensures NextPlane(w).0 == -1 <==> forall n :: 0 <= n < 26 ==> InUse(w.air, w.ground, n)
  {
    var start := w.lastPlane + 1;
    assert NextPlane(w).0 == -1 <==> ScanSlots(w.air, w.ground, start, 0) == -1;
    ScanSlotsExhausted(w.air, w.ground, start, 0);
    AllSlotsScanned(w.air, w.ground, start);
  }

  /** The 26 candidates are all 26 slots. */
  lemma AllSlotsScanned(air: seq<Plane>, ground: seq<Plane>, start: int)
    requires start >= 0
    ensures (forall k :: 0 <= k < 26 ==> InUse(air, ground, Candidate(start, k)))
            <==> (forall n :: 0 <= n < 26 ==> InUse(air, ground, n))
  {
    if forall k :: 0 <= k < 26 ==> InUse(air, ground, Candidate(start, k)) {
      forall n | 0 <= n < 26 ensures InUse(air, ground, n) {
        var k := (n - start) % 26;
        assert Candidate(start, k) == n;
      }
    }
  }

  /** An entry of the exit or airport list, as `posAndDirFromDest` sees it. */
  datatype Place = Place(kind: PlaneDest, x: int, y: int, dir: int)

  function ExitPlaces(exits: seq<Exit>): (r: seq<Place>)
    ensures |r| == |exits|
    ensures forall k :: 0 <= k < |r| ==> r[k] == Place(ExitDest, exits[k].x, exits[k].y, exits[k].dir)
  {
    seq(|exits|, k requires 0 <= k < |exits| => Place(ExitDest, exits[k].x, exits[k].y, exits[k].dir))
  }

  function AirportPlaces(airports: seq<Airport>): (r: seq<Place>)
    ensures |r| == |airports|
    ensures forall k :: 0 <= k < |r| ==> r[k] == Place(AirportDest, airports[k].x, airports[k].y, airports[k].dir)
  {
    seq(|airports|, k requires 0 <= k < |airports| =>
      Place(AirportDest, airports[k].x, airports[k].y, airports[k].dir))
  }

  /** The part of a new plane `posAndDirFromDest` fills in. */
  datatype Origin = Origin(
    originType: PlaneDest, originNo: int, xpos: int, ypos: int,
    dir: int, newDir: int, altitude: int, newAltitude: int)

  /**
   * `posAndDirFromDest`: a plane starting at entry `index` of `dests` takes its
   * position and heading, at altitude 7 from an exit and 0 from an airport; a
   * missing entry gives an exit origin at (0, 0).
   */
  function PosAndDirFromDest(dests: seq<Place>, index: int): (o: Origin)
    ensures o.originNo == index && o.dir == o.newDir && o.altitude == o.newAltitude
    ensures 0 <= index < |dests| ==>
              && o.originType == dests[index].kind
              && o.xpos == dests[index].x && o.ypos == dests[index].y && o.dir == dests[index].dir
              && o.altitude == (if dests[index].kind == ExitDest then 7 else 0)
    ensures !(0 <= index < |dests|) ==> o == Origin(ExitDest, index, 0, 0, 0, 0, 0, 0)
  {
    if 0 <= index < |dests| then
      var d := dests[index];
      var alt := if d.kind == ExitDest then 7 else 0;
      Origin(d.kind, index, d.x, d.y, d.dir, d.dir, alt, alt)
    else Origin(ExitDest, index, 0, 0, 0, 0, 0, 0)
  }

  /** Start point `rnd2` of the combined exits-then-airports numbering. */
  function OriginOf(screen: ScreenDefinition, rnd2: int): Origin {
    if rnd2 < |screen.exits| then PosAndDirFromDest(ExitPlaces(screen.exits), rnd2)
    else PosAndDirFromDest(AirportPlaces(screen.airports), rnd2 - |screen.exits|)
  }

  /** Position of a destination or origin in the combined exits-then-airports numbering. */
  function StartIndex(screen: ScreenDefinition, kind: PlaneDest, no: int): int {
    if kind == ExitDest then no else |screen.exits| + no
  }

  /** An airborne plane lies within 4 of the origin on every axis. */
  predicate Crowded(air: seq<Plane>, o: Origin) {
    exists k :: 0 <= k < |air| && TooClose(FixOf(air[k]), Fix(o.altitude, o.xpos, o.ypos), 4)
  }

  /** The inner loop of `addPlane`: draw start points until one differs from `rnd`. */
  function Redraw(entropy: seq<nat>, rnd: int, numStarts: int): (r: (Option<int>, seq<nat>))
    ensures r.0.Some? ==> 0 <= r.0.value < numStarts && r.0.value != rnd && |r.1| < |entropy|
    ensures |r.1| <= |entropy|
    decreases |entropy|
  {
    var d := Draw(entropy, 0, numStarts);
    if d.0 == Some(rnd) then Redraw(d.1, rnd, numStarts) else d
  }

  /** What `addPlane` does: a plane was added (and where), or none was. */
  datatype SpawnResult = Spawned(plane: Plane, world: World) | NotSpawned(world: World)

  /** The plane `addPlane` builds. */
  function NewPlane(screen: ScreenDefinition, planeType: int, planeNo: int,
                    destType: PlaneDest, destNo: int, o: Origin): Plane
  {
    Plane(Marked, planeNo, planeType, o.originNo, o.originType, destNo, destType,
          o.altitude, o.newAltitude, o.dir, o.newDir, screen.width + screen.height,
          o.xpos, o.ypos, false, 0)
  }

  /** How a spawned plane relates to the world it was added to. */
  predicate PlacedWell(screen: ScreenDefinition, w: World, r: SpawnResult)
    requires r.Spawned?
  {
    var p := r.plane;
    && p.status == Marked && !p.delayed && p.delayedNo == 0
    && p.fuel == screen.width + screen.height
    && 0 <= p.planeNo < 26 && !InUse(w.air, w.ground, p.planeNo)
    && StartIndex(screen, p.originType, p.originNo) != StartIndex(screen, p.destType, p.destNo)
    && 0 <= StartIndex(screen, p.destType, p.destNo) < |screen.exits| + |screen.airports|
    && (p.destType == ExitDest || p.destType == AirportDest)
    && p.dir == p.newDir && p.altitude == p.newAltitude
    && (p.originType == ExitDest ==>
          && 0 <= p.originNo < |screen.exits|
          && p.xpos == screen.exits[p.originNo].x && p.ypos == screen.exits[p.originNo].y
          && p.dir == screen.exits[p.originNo].dir && p.altitude == 7
          && (forall k :: 0 <= k < |w.air| ==> !TooClose(FixOf(w.air[k]), FixOf(p), 4))
          && r.world.air == w.air + [p] && r.world.ground == w.ground)
    && (p.originType == AirportDest ==>
          && 0 <= p.originNo < |screen.airports|
          && p.xpos == screen.airports[p.originNo].x && p.ypos == screen.airports[p.originNo].y
          && p.dir == screen.airports[p.originNo].dir && p.altitude == 0
          && r.world.ground == w.ground + [p] && r.world.air == w.air)
    && (p.originType == ExitDest || p.originType == AirportDest)
  }

  /**
   * The outer loop of `addPlane` from its `i`-th try: draw a start point other
   * than the destination, skip it when it is an exit with traffic nearby, else
   * take a slot and add the plane to `air` (exit) or `ground` (airport).
   */
  function TryOrigins(screen: ScreenDefinition, w: World, planeType: int, rnd: int,
                      destType: PlaneDest, destNo: int, i: nat): (r: SpawnResult)
    requires CursorOk(w)
    requires 0 <= rnd < |screen.exits| + |screen.airports|
    requires destType == (if rnd < |screen.exits| then ExitDest else AirportDest)
    requires destNo == (if rnd < |screen.exits| then rnd else rnd - |screen.exits|)
    ensures CursorOk(r.world)
    decreases |screen.exits| + |screen.airports| - i
  {
    var numStarts := |screen.exits| + |screen.airports|;
    if i >= numStarts then NotSpawned(w)
    else
      var drawn := Redraw(w.entropy, rnd, numStarts);
      var w1 := w.(entropy := drawn.1);
      if drawn.0.None? then NotSpawned(w1)
      else
        var o := OriginOf(screen, drawn.0.value);
        if o.originType == ExitDest && Crowded(w.air, o) then
          TryOrigins(screen, w1, planeType, rnd, destType, destNo, i + 1)
        else Take(screen, w1, planeType, destType, destNo, o)
  }

  /**
   * The end of a try whose origin is free: take a slot and add the plane to
   * `air` (exit) or `ground` (airport); nothing is added when no slot is free.
   */
  function Take(screen: ScreenDefinition, w: World, planeType: int, destType: PlaneDest, destNo: int,
                o: Origin): (r: SpawnResult)
    requires CursorOk(w)
    ensures CursorOk(r.world)
  {
    var taken := NextPlane(w);
    if taken.0 < 0 then NotSpawned(taken.1)
    else
      var p := NewPlane(screen, planeType, taken.0, destType, destNo, o);
      if o.originType == AirportDest then Spawned(p, taken.1.(ground := taken.1.ground + [p]))
      else Spawned(p, taken.1.(air := taken.1.air + [p]))
  }

  /** A try whose origin is an exit with traffic nearby passes on to the next try. */
  lemma TryOriginsCrowded(screen: ScreenDefinition, w: World, planeType: int, rnd: int,
                          destType: PlaneDest, destNo: int, i: nat)
    requires CursorOk(w)
    requires 0 <= rnd < |screen.exits| + |screen.airports|
    requires destType == (if rnd < |screen.exits| then ExitDest else AirportDest)
    requires destNo == (if rnd < |screen.exits| then rnd else rnd - |screen.exits|)
    requires i < |screen.exits| + |screen.airports|
    requires var drawn := Redraw(w.entropy, rnd, |screen.exits| + |screen.airports|);
             && drawn.0.Some?
             && var o := OriginOf(screen, drawn.0.value);
             && o.originType == ExitDest && Crowded(w.air, o)
    ensures TryOrigins(screen, w, planeType, rnd, destType, destNo, i)
            == TryOrigins(screen, w.(entropy := Redraw(w.entropy, rnd, |screen.exits| + |screen.airports|).1),
                          planeType, rnd, destType, destNo, i + 1)
  {
    var drawn := Redraw(w.entropy, rnd, |screen.exits| + |screen.airports|);
    var o := OriginOf(screen, drawn.0.value);
    assert o.originType == ExitDest && Crowded(w.air, o);
  }

  /** A try whose origin is free ends the loop with what `Take` gives. */
  lemma TryOriginsFree(screen: ScreenDefinition, w: World, planeType: int, rnd: int,
                       destType: PlaneDest, destNo: int, i: nat)
    requires CursorOk(w)
    requires 0 <= rnd < |screen.exits| + |screen.airports|
    requires destType == (if rnd < |screen.exits| then ExitDest else AirportDest)
    requires destNo == (if rnd < |screen.exits| then rnd else rnd - |screen.exits|)
    requires i < |screen.exits| + |screen.airports|
    requires var drawn := Redraw(w.entropy, rnd, |screen.exits| + |screen.airports|);
             && drawn.0.Some?
             && var o := OriginOf(screen, drawn.0.value);
             !(o.originType == ExitDest && Crowded(w.air, o))
    ensures var drawn := Redraw(w.entropy, rnd, |screen.exits| + |screen.airports|);
            TryOrigins(screen, w, planeType, rnd, destType, destNo, i)
            == Take(screen, w.(entropy := drawn.1), planeType, destType, destNo, OriginOf(screen, drawn.0.value))
  {
  }

  /** Whether a plane is placed well depends on `air` and `ground` only. */
  lemma PlacedWellOnSky(screen: ScreenDefinition, w: World, w': World, r: SpawnResult)
    requires r.Spawned? && w'.air == w.air && w'.ground == w.ground
    ensures PlacedWell(screen, w', r) == PlacedWell(screen, w, r)
  {
  }

  /**
   * Whatever start point the outer loop settles on, a plane it adds is placed
   * well and has the drawn type and destination.
   */
  lemma {:induction false} TryOriginsPlaced(screen: ScreenDefinition, w: World, planeType: int, rnd: int,
                                            destType: PlaneDest, destNo: int, i: nat)
    requires CursorOk(w)
    requires 0 <= rnd < |screen.exits| + |screen.airports|
    requires destType == (if rnd < |screen.exits| then ExitDest else AirportDest)
    requires destNo == (if rnd < |screen.exits| then rnd else rnd - |screen.exits|)
    ensures var r := TryOrigins(screen, w, planeType, rnd, destType, destNo, i);
            r.Spawned? ==> PlacedWell(screen, w, r) && r.plane.planeType == planeType
                           && r.plane.destType == destType && r.plane.destNo == destNo
    decreases |screen.exits| + |screen.airports| - i
  {
    var numStarts := |screen.exits| + |screen.airports|;
    if i < numStarts {
      var drawn := Redraw(w.entropy, rnd, numStarts);
      var w1 := w.(entropy := drawn.1);
      if drawn.0.Some? {
        var o := OriginOf(screen, drawn.0.value);
        var r;
        if o.originType == ExitDest && Crowded(w.air, o) {
          TryOriginsCrowded(screen, w, planeType, rnd, destType, destNo, i);
          TryOriginsPlaced(screen, w1, planeType, rnd, destType, destNo, i + 1);
          r := TryOrigins(screen, w1, planeType, rnd, destType, destNo, i + 1);
        } else {
          TryOriginsFree(screen, w, planeType, rnd, destType, destNo, i);
          SpawnedPlacedWell(screen, w1, planeType, rnd, destType, destNo, drawn.0.value);
          r := Take(screen, w1, planeType, destType, destNo, o);
        }
        if r.Spawned? {
          PlacedWellOnSky(screen, w, w1, r);
        }
      }
    }
  }

  /** When the outer loop adds no plane, `air` and `ground` are as they were. */
  lemma {:induction false} TryOriginsKeep(screen: ScreenDefinition, w: World, planeType: int, rnd: int,
                                          destType: PlaneDest, destNo: int, i: nat)
    requires CursorOk(w)
    requires 0 <= rnd < |screen.exits| + |screen.airports|
    requires destType == (if rnd < |screen.exits| then ExitDest else AirportDest)
    requires destNo == (if rnd < |screen.exits| then rnd else rnd - |screen.exits|)
    ensures var r := TryOrigins(screen, w, planeType, rnd, destType, destNo, i);
            r.NotSpawned? ==> r.world.air == w.air && r.world.ground == w.ground
    decreases |screen.exits| + |screen.airports| - i
  {
    var numStarts := |screen.exits| + |screen.airports|;
    if i < numStarts {
      var drawn := Redraw(w.entropy, rnd, numStarts);
      var w1 := w.(entropy := drawn.1);
      if drawn.0.Some? {
        var o := OriginOf(screen, drawn.0.value);
        if o.originType == ExitDest && Crowded(w.air, o) {
          TryOriginsCrowded(screen, w, planeType, rnd, destType, destNo, i);
          TryOriginsKeep(screen, w1, planeType, rnd, destType, destNo, i + 1);
        } else {
          TryOriginsFree(screen, w, planeType, rnd, destType, destNo, i);
        }
      }
    }
  }

  /** The plane a try adds from start point `rnd2` is placed well. */
  lemma SpawnedPlacedWell(screen: ScreenDefinition, w: World, planeType: int, rnd: int,
                          destType: PlaneDest, destNo: int, rnd2: int)
    requires CursorOk(w)
    requires 0 <= rnd < |screen.exits| + |screen.airports|
    requires destType == (if rnd < |screen.exits| then ExitDest else AirportDest)
    requires destNo == (if rnd < |screen.exits| then rnd else rnd - |screen.exits|)
    requires 0 <= rnd2 < |screen.exits| + |screen.airports| && rnd2 != rnd
    requires var o := OriginOf(screen, rnd2);
             !(o.originType == ExitDest && Crowded(w.air, o))
    ensures var r := Take(screen, w, planeType, destType, destNo, OriginOf(screen, rnd2));
            r.Spawned? ==>
              && PlacedWell(screen, w, r) && r.plane.planeType == planeType
              && r.plane.destType == destType && r.plane.destNo == destNo
  {
    var o := OriginOf(screen, rnd2);
    var r := Take(screen, w, planeType, destType, destNo, o);
    if r.Spawned? {
      var p := r.plane;
      NextPlaneFree(w);
      assert FixOf(p) == Fix(o.altitude, o.xpos, o.ypos);
      if o.originType == ExitDest {
        assert !Crowded(w.air, o);
      }
    }
  }

  /**
   * `addPlane`: draw a plane type and a destination, then try start points
   * (what comes of it is stated by `SpawnPlaced`).
   */
  function Spawn(screen: ScreenDefinition, w: World): (r: SpawnResult)
    requires CursorOk(w)
    ensures CursorOk(r.world)
  {
    var first := Draw(w.entropy, 0, 2);
    if first.0.None? then NotSpawned(w.(entropy := first.1))
    else
      var numStarts := |screen.exits| + |screen.airports|;
      var second := Draw(first.1, 0, numStarts);
      if second.0.None? then NotSpawned(w.(entropy := second.1))
      else
        var rnd := second.0.value;
        var destType := if rnd < |screen.exits| then ExitDest else AirportDest;
        var destNo := if rnd < |screen.exits| then rnd else rnd - |screen.exits|;
        TryOrigins(screen, w.(entropy := second.1), first.0.value, rnd, destType, destNo, 0)
  }


  /**
   * A plane `addPlane` adds is placed well (see `PlacedWell`) and of type 0 or
   * 1; when none is added, `air` and `ground` are unchanged.
   */
  lemma SpawnPlaced(screen: ScreenDefinition, w: World)
    requires CursorOk(w)
    ensures var r := Spawn(screen, w);
            && (r.Spawned? ==> PlacedWell(screen, w, r) && 0 <= r.plane.planeType < 2)
            && (r.NotSpawned? ==> r.world.air == w.air && r.world.ground == w.ground)
  {
    var first := Draw(w.entropy, 0, 2);
    var second := Draw(first.1, 0, |screen.exits| + |screen.airports|);
    if first.0.Some? && second.0.Some? {
      var rnd := second.0.value;
      var destType := if rnd < |screen.exits| then ExitDest else AirportDest;
      var destNo := if rnd < |screen.exits| then rnd else rnd - |screen.exits|;
      var w2 := w.(entropy := second.1);
      TryOriginsPlaced(screen, w2, first.0.value, rnd, destType, destNo, 0);
      TryOriginsKeep(screen, w2, first.0.value, rnd, destType, destNo, 0);
      var r := TryOrigins(screen, w2, first.0.value, rnd, destType, destNo, 0);
      SpawnStarts(screen, w);
      if r.Spawned? {
        assert w2.air == w.air && w2.ground == w.ground;
        assert PlacedWell(screen, w, r);
      }
    }
  }

  /** Once both draws of `addPlane` succeed, what is left is the loop over start points. */
  lemma SpawnStarts(screen: ScreenDefinition, w: World)
    requires CursorOk(w)
    requires Draw(w.entropy, 0, 2).0.Some?
    requires Draw(Draw(w.entropy, 0, 2).1, 0, |screen.exits| + |screen.airports|).0.Some?
    ensures var first := Draw(w.entropy, 0, 2);
            var second := Draw(first.1, 0, |screen.exits| + |screen.airports|);
            var rnd := second.0.value;
            Spawn(screen, w)
            == TryOrigins(screen, w.(entropy := second.1), first.0.value, rnd,
                          if rnd < |screen.exits| then ExitDest else AirportDest,
                          if rnd < |screen.exits| then rnd else rnd - |screen.exits|, 0)
  {
  }
}
