/**
 * What one tick does to one airborne plane (the body of the per-plane loop of
 * `update` in src/update.ts), and the pure helpers `tooClose`, `planeName` and
 * `dirDeg` of the same file.
 */
module Flight {
  import opened Wrappers
  import opened Model
  import opened Arith

  /**
   * The heading after one tick of turning from `dir` toward `newDir`: the
   * difference is wrapped into [-4, 4] when `newDir` is an octant (a value
   * outside 0..7 means circling and skips the wrap), clamped to two octants,
   * and the sum is brought back by one turn of the compass.
   */
  function TurnToward(dir: int, newDir: int): int {
    var diff := newDir - dir;
    var wrapped :=
      if 0 <= newDir < 8 then
        (if diff > 4 then diff - 8 else if diff < -4 then diff + 8 else diff)
      else diff;
    var turn := if wrapped > 2 then 2 else if wrapped < -2 then -2 else wrapped;
    var d := dir + turn;
    if d >= 8 then d - 8 else if d < 0 then d + 8 else d
  }

  /** The number of octants between two compass headings, the shorter way round. */
  function CircDist(a: int, b: int): (d: int)
    ensures 0 <= d <= 4
  {
    var m := (a - b) % 8;
    if m > 4 then 8 - m else m
  }

  /**
   * For headings on the compass, one tick turns at most two octants, keeps the
   * heading on the compass, takes the shorter way round (the distance left
   * shrinks by two, or to zero) and arrives whenever the target is within two.
   */
  lemma TurnTowardShortestPath(dir: int, newDir: int)
    requires 0 <= dir < 8 && 0 <= newDir < 8
    ensures 0 <= TurnToward(dir, newDir) < 8
    ensures CircDist(TurnToward(dir, newDir), dir) <= 2
    ensures CircDist(TurnToward(dir, newDir), newDir) ==
            if CircDist(dir, newDir) <= 2 then 0 else CircDist(dir, newDir) - 2
    ensures CircDist(dir, newDir) <= 2 ==> TurnToward(dir, newDir) == newDir
  {
  }

  /** Circling (`newDir == 8`) turns clockwise by two octants, or by one from octant 7. */
  lemma TurnWhileCircling(dir: int)
    requires 0 <= dir < 8
    ensures TurnToward(dir, 8) == if dir < 6 then dir + 2 else 0
  {
  }

  /** The outcome of one tick for one plane: it flies on (possibly `Gone`), or the game is lost. */
  datatype Step = Flying(plane: Plane) | Lost(plane: Plane, message: string)

  /** The fields a tick never changes. */
  predicate SameIdentity(p: Plane, q: Plane) {
    && q.planeNo == p.planeNo && q.planeType == p.planeType
    && q.originNo == p.originNo && q.originType == p.originType
    && q.destNo == p.destNo && q.destType == p.destType
    && q.newAltitude == p.newAltitude && q.newDir == p.newDir && q.delayedNo == p.delayedNo
  }

  /** The plane stands on beacon `delayedNo`, which exists. */
  predicate OnBeacon(screen: ScreenDefinition, p: Plane) {
    && 0 <= p.delayedNo < |screen.beacons|
    && p.xpos == screen.beacons[p.delayedNo].x && p.ypos == screen.beacons[p.delayedNo].y
  }

  /**
   * A delayed plane that has reached its beacon resumes, and an unmarked one
   * becomes marked; any other plane is left as it is.
   */
  function ReachBeacon(screen: ScreenDefinition, p: Plane): (q: Plane)
    ensures q == p || (p.delayed && !q.delayed && q == p.(delayed := false, status := q.status))
    ensures q.status != p.status ==> p.status == Unmarked && q.status == Marked
    ensures p.delayed && OnBeacon(screen, p) ==>
              && !q.delayed
              && q.status == (if p.status == Unmarked then Marked else p.status)
              && q == p.(delayed := false, status := q.status)
    ensures !(p.delayed && OnBeacon(screen, p)) ==> q == p
  {
    if p.delayed && OnBeacon(screen, p)
    then p.(delayed := false, status := if p.status == Unmarked then Marked else p.status)
    else p
  }

  /** Some airport lies at (x, y). */
  predicate AirportAt(screen: ScreenDefinition, x: int, y: int) {
    exists k :: 0 <= k < |screen.airports| && screen.airports[k].x == x && screen.airports[k].y == y
  }

  /** Some exit lies at (x, y). */
  predicate ExitAt(screen: ScreenDefinition, x: int, y: int) {
    exists k :: 0 <= k < |screen.exits| && screen.exits[k].x == x && screen.exits[k].y == y
  }

  /** The plane is inside the flight arena, off its border. */
  predicate InArena(screen: ScreenDefinition, p: Plane) {
    1 <= p.xpos < screen.width - 1 && 1 <= p.ypos < screen.height - 1
  }

  /** The plane stands on its destination airport, on the ground. */
  predicate AtDestAirport(screen: ScreenDefinition, p: Plane) {
    p.destType == AirportDest && 0 <= p.destNo < |screen.airports|
    && p.xpos == screen.airports[p.destNo].x && p.ypos == screen.airports[p.destNo].y
    && p.altitude == 0
  }

  /** The plane stands on its destination exit, at any altitude. */
  predicate AtDestExit(screen: ScreenDefinition, p: Plane) {
    p.destType == ExitDest && 0 <= p.destNo < |screen.exits|
    && p.xpos == screen.exits[p.destNo].x && p.ypos == screen.exits[p.destNo].y
  }

  /**
   * The ceiling, ground and boundary checks, in the source's order: each
   * failed check loses the game with its own message.
   */
  function CheckLimits(screen: ScreenDefinition, p: Plane): (r: Step)
    ensures r.plane == p
    ensures r.Flying? <==> 0 < p.altitude <= 9 && InArena(screen, p)
    ensures p.altitude > 9 ==> r.message == "xceeded flight ceiling."
    ensures p.altitude <= 0 && AirportAt(screen, p.xpos, p.ypos) ==>
              r.message == if p.destType == AirportDest then "landed at the wrong airport." else "landed instead of exiting."
    ensures p.altitude <= 0 && !AirportAt(screen, p.xpos, p.ypos) ==> r.message == "crashed on the ground."
    ensures 0 < p.altitude <= 9 && !InArena(screen, p) && ExitAt(screen, p.xpos, p.ypos) ==>
              r.message == if p.destType == ExitDest then "exited via the wrong exit." else "exited instead of landing."
    ensures 0 < p.altitude <= 9 && !InArena(screen, p) && !ExitAt(screen, p.xpos, p.ypos) ==>
              r.message == "illegally left the flight arena."
  {
    if p.altitude > 9 then Lost(p, "xceeded flight ceiling.")
    else if p.altitude <= 0 then
      if AirportAt(screen, p.xpos, p.ypos) then
        if p.destType == AirportDest then Lost(p, "landed at the wrong airport.")
        else Lost(p, "landed instead of exiting.")
      else Lost(p, "crashed on the ground.")
    else if p.xpos < 1 || p.xpos >= screen.width - 1 || p.ypos < 1 || p.ypos >= screen.height - 1 then
      if ExitAt(screen, p.xpos, p.ypos) then
        if p.destType == ExitDest then Lost(p, "exited via the wrong exit.")
        else Lost(p, "exited instead of landing.")
      else Lost(p, "illegally left the flight arena.")
    else Flying(p)
  }

  /**
   * The destination check and, unless the plane arrived, the limit checks. A
   * plane arrives (becomes `Gone`) exactly when it stands on its destination
   * airport on the ground heading the airport's way, or on its destination exit
   * at altitude 9.
   */
  function CheckArrival(screen: ScreenDefinition, p: Plane): (r: Step)
    ensures r.plane == p || r.plane == p.(status := Gone)
    ensures p.status != Gone ==>
              (r == Flying(p.(status := Gone)) <==>
                 || (AtDestAirport(screen, p) && p.dir == screen.airports[p.destNo].dir)
                 || (AtDestExit(screen, p) && p.altitude == 9))
    ensures AtDestAirport(screen, p) && p.dir != screen.airports[p.destNo].dir ==>
              r == Lost(p, "landed in the wrong direction.")
    ensures AtDestExit(screen, p) && p.altitude != 9 ==> r == Lost(p, "exited at the wrong altitude")
    ensures (p.destType == AirportDest && !AtDestAirport(screen, p)) || (p.destType == ExitDest && !AtDestExit(screen, p)) ==>
              r == CheckLimits(screen, p)
    ensures p.destType != AirportDest && p.destType != ExitDest ==>
              r == Lost(p, "has a bizarre destination, get help!")
  {
    match p.destType
    case AirportDest =>
      if AtDestAirport(screen, p) then
        if p.dir != screen.airports[p.destNo].dir then Lost(p, "landed in the wrong direction.")
        else Flying(p.(status := Gone))
      else CheckLimits(screen, p)
    case ExitDest =>
      if AtDestExit(screen, p) then
        if p.altitude != 9 then Lost(p, "exited at the wrong altitude")
        else Flying(p.(status := Gone))
      else CheckLimits(screen, p)
    case _ => Lost(p, "has a bizarre destination, get help!")
  }

  /** A prop (`planeType` 0) rests on odd ticks; every other plane moves every tick. */
  predicate Rests(p: Plane, clock: int) {
    p.planeType == 0 && clock % 2 == 1
  }

  /** The altitude after one tick: one unit toward `newAltitude`. */
  function Climb(p: Plane): Plane {
    p.(altitude := p.altitude + Sign(p.newAltitude - p.altitude))
  }

  /** The heading after one tick: unchanged while delayed, else turned toward `newDir`. */
  function Steer(p: Plane): Plane {
    if p.delayed then p else p.(dir := TurnToward(p.dir, p.newDir))
  }

  /** One step along the current heading. */
  function Advance(p: Plane): Plane {
    var d := StepOf(p.dir);
    p.(xpos := p.xpos + d.dx, ypos := p.ypos + d.dy)
  }

  /** Climb or descend, turn, move, and test the delay beacon. */
  function Moved(screen: ScreenDefinition, p: Plane): Plane {
    ReachBeacon(screen, Advance(Steer(Climb(p))))
  }

  /**
   * One tick for one airborne plane, `clock` being the already incremented
   * clock: rest, or burn fuel, climb or descend, turn, move, test the delay
   * beacon and run the destination and limit checks. The plane keeps its
   * identity, destination and targets.
   */
  function StepPlane(screen: ScreenDefinition, p: Plane, clock: int): (r: Step)
    ensures SameIdentity(p, r.plane)
  {
    if Rests(p, clock) then Flying(p)
    else
      var burnt := p.(fuel := p.fuel - 1);
      if burnt.fuel < 0 then Lost(burnt, "ran out of fuel.")
      else CheckArrival(screen, Moved(screen, burnt))
  }

  /** A resting prop is left completely unchanged. */
  lemma PropRests(screen: ScreenDefinition, p: Plane, clock: int)
    requires p.planeType == 0 && clock % 2 == 1
    ensures StepPlane(screen, p, clock) == Flying(p)
  {
  }

  /**
   * A plane that moves loses exactly one unit of fuel, and the game is lost
   * with "ran out of fuel." for it exactly when that leaves the fuel negative.
   */
  lemma FuelBurns(screen: ScreenDefinition, p: Plane, clock: int)
    requires !Rests(p, clock)
    ensures StepPlane(screen, p, clock).plane.fuel == p.fuel - 1
    ensures p.fuel <= 0 ==> StepPlane(screen, p, clock) == Lost(p.(fuel := p.fuel - 1), "ran out of fuel.")
    ensures p.fuel > 0 ==> StepPlane(screen, p, clock).Flying? || StepPlane(screen, p, clock).message != "ran out of fuel."
  {
    if p.fuel > 0 {
      var q := Moved(screen, p.(fuel := p.fuel - 1));
      var r := CheckArrival(screen, q);
      assert r.plane == q || r.plane == q.(status := Gone);
    }
  }

  /**
   * A plane that moves and has fuel left is judged where it arrives: a wrong
   * heading on its destination airport, a wrong altitude on its destination
   * exit, a climb above 9, a touch-down elsewhere and a flight off the arena
   * each lose the game with their own message.
   */
  lemma {:induction false} StepPlaneLosses(screen: ScreenDefinition, p: Plane, clock: int)
    requires !Rests(p, clock) && p.fuel > 0
    ensures var q := Moved(screen, p.(fuel := p.fuel - 1));
            var r := StepPlane(screen, p, clock);
            && (AtDestAirport(screen, q) && q.dir != screen.airports[q.destNo].dir ==>
                  r == Lost(q, "landed in the wrong direction."))
            && (AtDestExit(screen, q) && q.altitude != 9 ==> r == Lost(q, "exited at the wrong altitude"))
            && (Judged(screen, q) && q.altitude > 9 ==> r == Lost(q, "xceeded flight ceiling."))
            && (Judged(screen, q) && q.altitude <= 0 && AirportAt(screen, q.xpos, q.ypos) ==>
                  r == Lost(q, if q.destType == AirportDest then "landed at the wrong airport." else "landed instead of exiting."))
            && (Judged(screen, q) && q.altitude <= 0 && !AirportAt(screen, q.xpos, q.ypos) ==>
                  r == Lost(q, "crashed on the ground."))
            && (Judged(screen, q) && 0 < q.altitude <= 9 && !InArena(screen, q) && ExitAt(screen, q.xpos, q.ypos) ==>
                  r == Lost(q, if q.destType == ExitDest then "exited via the wrong exit." else "exited instead of landing."))
            && (Judged(screen, q) && 0 < q.altitude <= 9 && !InArena(screen, q) && !ExitAt(screen, q.xpos, q.ypos) ==>
                  r == Lost(q, "illegally left the flight arena."))
            && (Judged(screen, q) && 0 < q.altitude <= 9 && InArena(screen, q) ==> r == Flying(q))
  {
    var q := Moved(screen, p.(fuel := p.fuel - 1));
    assert StepPlane(screen, p, clock) == CheckArrival(screen, q);
  }

  /**
   * The plane is not on its destination, which is an airport or an exit, so
   * the limit checks decide.
   */
  predicate Judged(screen: ScreenDefinition, q: Plane) {
    (q.destType == AirportDest && !AtDestAirport(screen, q)) || (q.destType == ExitDest && !AtDestExit(screen, q))
  }

  /**
   * The altitude moves one unit toward `newAltitude`: it never overshoots, the
   * distance shrinks by one, and once reached it stays put.
   */
  lemma AltitudeConverges(screen: ScreenDefinition, p: Plane, clock: int)
    requires !Rests(p, clock) && p.fuel > 0
    ensures var a := StepPlane(screen, p, clock).plane.altitude;
            && a == p.altitude + Sign(p.newAltitude - p.altitude)
            && (p.altitude <= p.newAltitude ==> p.altitude <= a <= p.newAltitude)
            && (p.altitude >= p.newAltitude ==> p.newAltitude <= a <= p.altitude)
            && (p.altitude == p.newAltitude ==> a == p.altitude)
  {
    var q := Moved(screen, p.(fuel := p.fuel - 1));
    assert CheckArrival(screen, q).plane.altitude == q.altitude;
  }

  /**
   * The heading after a tick: unchanged for a delayed plane, else one turning
   * step toward `newDir`; and the position moves by that heading's step.
   */
  lemma HeadingAndPosition(screen: ScreenDefinition, p: Plane, clock: int)
    requires !Rests(p, clock) && p.fuel > 0
    ensures var q := StepPlane(screen, p, clock).plane;
            && q.dir == (if p.delayed then p.dir else TurnToward(p.dir, p.newDir))
            && q.xpos == p.xpos + StepOf(q.dir).dx
            && q.ypos == p.ypos + StepOf(q.dir).dy
  {
    var q := Moved(screen, p.(fuel := p.fuel - 1));
    assert CheckArrival(screen, q).plane.dir == q.dir;
  }

  /**
   * The hold after a tick: a delayed plane stays delayed until it stands on
   * beacon `delayedNo` where it arrives; there the hold ends and an unmarked
   * plane becomes marked (unless it has just arrived and is gone). A plane
   * not released keeps its status unless it is gone.
   */
  lemma {:induction false} HoldReleased(screen: ScreenDefinition, p: Plane, clock: int)
    requires !Rests(p, clock) && p.fuel > 0
    ensures var q := StepPlane(screen, p, clock).plane;
            && q.delayed == (p.delayed && !OnBeacon(screen, q))
            && (p.delayed && OnBeacon(screen, q) && q.status != Gone ==>
                  q.status == (if p.status == Unmarked then Marked else p.status))
            && (!(p.delayed && OnBeacon(screen, q)) && q.status != Gone ==> q.status == p.status)
  {
    var m := Advance(Steer(Climb(p.(fuel := p.fuel - 1))));
    var q := Moved(screen, p.(fuel := p.fuel - 1));
    var r := CheckArrival(screen, q);
    assert StepPlane(screen, p, clock) == r;
    assert r.plane == q || r.plane == q.(status := Gone);
    assert OnBeacon(screen, r.plane) == OnBeacon(screen, m);
  }

  /** The three coordinates `tooClose` compares. */
  datatype Fix = Fix(altitude: int, xpos: int, ypos: int)

  function FixOf(p: Plane): Fix {
    Fix(p.altitude, p.xpos, p.ypos)
  }

  /** `tooClose`: within `dist` on each of altitude, x and y. */
  predicate TooClose(a: Fix, b: Fix, dist: int) {
    Abs(a.altitude - b.altitude) <= dist && Abs(a.xpos - b.xpos) <= dist && Abs(a.ypos - b.ypos) <= dist
  }

  /** `tooClose` is symmetric, and a wider distance only admits more pairs. */
  lemma TooCloseSymmetric(a: Fix, b: Fix, dist: int, wider: int)
    requires dist <= wider
    ensures TooClose(a, b, dist) == TooClose(b, a, dist)
    ensures TooClose(a, b, dist) ==> TooClose(a, b, wider)
  {
  }

  /** `planeName`: the slot's letter, upper case for props (`planeType` 0), lower case otherwise. */
  function PlaneName(p: Plane): (name: string)
    requires 0 <= p.planeNo < 26
    ensures |name| == 1
    ensures p.planeType == 0 ==> 'A' <= name[0] <= 'Z' && name[0] as int - 'A' as int == p.planeNo
    ensures p.planeType != 0 ==> 'a' <= name[0] <= 'z' && name[0] as int - 'a' as int == p.planeNo
  {
    if p.planeType == 0 then [(('A' as int) + p.planeNo) as char]
    else [(('a' as int) + p.planeNo) as char]
  }

  /** `dirDeg`: an octant's compass bearing in degrees, or -1 off the compass. */
  function DirDeg(dir: int): (deg: int)
    ensures 0 <= dir < 8 ==> deg == 45 * dir
    ensures !(0 <= dir < 8) ==> deg == -1
  {
    match dir
    case 0 => 0
    case 1 => 45
    case 2 => 90
    case 3 => 135
    case 4 => 180
    case 5 => 225
    case 6 => 270
    case 7 => 315
    case _ => -1
  }
}
