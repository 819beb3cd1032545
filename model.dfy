/**
 * The record types shared by the level parser, the simulation and the command
 * interpreter, and the octant-to-displacement table (src/model.ts).
 */
module Model {
  import opened Wrappers

  /** A point of the level text; `dir` is present only where the syntax carries one. */
  datatype ScreenPos = ScreenPos(x: int, y: int, dir: Option<int>)

  /** A cosmetic segment between two grid points. */
  datatype Line = Line(p1: ScreenPos, p2: ScreenPos)

  datatype Exit = Exit(x: int, y: int, dir: int)
  datatype Beacon = Beacon(x: int, y: int)
  datatype Airport = Airport(x: int, y: int, dir: int)

  datatype ScreenDefinition = ScreenDefinition(
    width: int,
    height: int,
    updateSeconds: int,
    newPlaneTime: int,
    exits: seq<Exit>,
    lines: seq<Line>,
    beacons: seq<Beacon>,
    airports: seq<Airport>)

  datatype PlaneStatus = Marked | Unmarked | Ignored | Gone

  /** Where a plane comes from or goes to; `NoDest` is the source's "nodest". */
  datatype PlaneDest = NoDest | BeaconDest | ExitDest | AirportDest

  /** Fuel level below which the display warns. */
  const LOWFUEL: int := 15

  datatype Plane = Plane(
    status: PlaneStatus,
    planeNo: int,
    planeType: int,
    originNo: int,
    originType: PlaneDest,
    destNo: int,
    destType: PlaneDest,
    altitude: int,
    newAltitude: int,
    dir: int,
    newDir: int,
    fuel: int,
    xpos: int,
    ypos: int,
    delayed: bool,
    delayedNo: int)

  datatype Displacement = Displacement(dx: int, dy: int)

  /**
   * `DISPLACEMENT.get(dir)`: the unit step of each compass octant, with octant 0
   * pointing up the screen (y decreasing) and octants increasing clockwise.
   */
  function DisplacementOf(dir: int): (r: Option<Displacement>)
    ensures r.Some? <==> 0 <= dir < 8
  {
    match dir
    case 0 => Some(Displacement(0, -1))
    case 1 => Some(Displacement(1, -1))
    case 2 => Some(Displacement(1, 0))
    case 3 => Some(Displacement(1, 1))
    case 4 => Some(Displacement(0, 1))
    case 5 => Some(Displacement(-1, 1))
    case 6 => Some(Displacement(-1, 0))
    case 7 => Some(Displacement(-1, -1))
    case _ => None
  }

  /** `DISPLACEMENT.get(dir) ?? { dx: 0, dy: 0 }`. */
  function StepOf(dir: int): (d: Displacement)
    ensures 0 <= dir < 8 ==> Some(d) == DisplacementOf(dir)
    ensures !(0 <= dir < 8) ==> d == Displacement(0, 0)
  {
    match DisplacementOf(dir)
    case Some(d) => d
    case None => Displacement(0, 0)
  }

  /** Every entry of the table is a unit step: each component in {-1, 0, 1}, never (0, 0). */
  lemma DisplacementIsUnit(dir: int)
    requires 0 <= dir < 8
    ensures DisplacementOf(dir).Some?
    ensures var d := DisplacementOf(dir).value;
            -1 <= d.dx <= 1 && -1 <= d.dy <= 1 && (d.dx, d.dy) != (0, 0)
  {
  }

  /** Octants four apart point in opposite directions. */
  lemma DisplacementOpposite(dir: int)
    requires 0 <= dir < 8
    ensures var d := DisplacementOf(dir).value;
            var e := DisplacementOf((dir + 4) % 8).value;
            e.dx == -d.dx && e.dy == -d.dy
  {
  }

  /** Octant 0 is north (up the screen), 2 east, 4 south and 6 west. */
  lemma DisplacementCompass()
    ensures DisplacementOf(0) == Some(Displacement(0, -1))
    ensures DisplacementOf(2) == Some(Displacement(1, 0))
    ensures DisplacementOf(4) == Some(Displacement(0, 1))
    ensures DisplacementOf(6) == Some(Displacement(-1, 0))
  {
  }

  /** Distinct octants have distinct steps. */
  lemma DisplacementDistinct(d1: int, d2: int)
    requires 0 <= d1 < 8 && 0 <= d2 < 8 && d1 != d2
    ensures DisplacementOf(d1) != DisplacementOf(d2)
  {
  }
}
