/**
 * The validators of src/games.ts: `dirNo` and the point, edge, entry-heading
 * and line checks a level's entities must pass. A failed check is the error
 * the loader throws, with its message.
 */
module Checks {
  import opened Wrappers
  import opened Model
  import opened Text
  import opened Arith

  /** The compass letters in octant order: w is 0 (north), e 45 degrees, ... q 315. */
  const COMPASS: string := "wedcxzaq"

  /**
   * `dirNo`: a single compass letter, in either case, is its octant; anything
   * else is rejected.
   */
  function DirNo(input: string): (r: Result<nat, string>)
    ensures r.Success? ==> r.value < 8 && |input| == 1 && COMPASS[r.value] == Lower(input[0])
    ensures r.Failure? ==> r.error == "'" + input + "' is not a valid direction"
  {
    if |input| == 1 && Lower(input[0]) in COMPASS then Success(IndexOf(COMPASS, Lower(input[0])))
    else Failure("'" + input + "' is not a valid direction")
  }

  /** `dirNo` accepts exactly the sixteen compass letters, lower or upper case. */
  lemma DirNoAccepts(input: string)
    ensures DirNo(input).Success? <==> |input| == 1 && input[0] in "wedcxzaqWEDCXZAQ"
  {
  }

  /** The compass letters are lower case and pairwise distinct. */
  lemma CompassDistinct()
    ensures forall i, j :: 0 <= i < j < 8 ==> COMPASS[i] != COMPASS[j]
    ensures forall i :: 0 <= i < 8 ==> 'a' <= COMPASS[i] <= 'z'
  {
  }

  /** `dirNo` maps each compass letter back to its octant. */
  lemma {:induction false} DirNoOfCompass(d: nat)
    requires d < 8
    ensures DirNo([COMPASS[d]]) == Success(d)
  {
    CompassDistinct();
    var c := COMPASS[d];
    assert Lower(c) == c && c in COMPASS;
    assert IndexOf(COMPASS, c) == d;
  }

  /** `dirNo` ignores the case of the letter it accepts. */
  lemma {:induction false} DirNoIgnoresCase(c: char)
    requires DirNo([c]).Success?
    ensures DirNo([c]) == DirNo([Lower(c)])
  {
  }

  /** `checkPoint`: beacons and airports lie strictly inside the border. */
  function CheckPoint(width: int, height: int, x: int, y: int): (r: Outcome<string>)
    ensures r.Pass? <==> 1 <= x <= width - 2 && 1 <= y <= height - 2
    ensures !(1 <= x < width - 1) ==>
              r == Fail("X value(" + IntToString(x) + ") out of range(0-" + IntToString(width) + ").")
    ensures 1 <= x < width - 1 && !(1 <= y < height - 1) ==>
              r == Fail("Y value9" + IntToString(y) + ") out of range(0-" + IntToString(height) + ").")
  {
    if x < 1 || x >= width - 1 then
      Fail("X value(" + IntToString(x) + ") out of range(0-" + IntToString(width) + ").")
    else if y < 1 || y >= height - 1 then
      Fail("Y value9" + IntToString(y) + ") out of range(0-" + IntToString(height) + ").")
    else Pass
  }

  /** `checkEdge`: an exit lies on one of the four borders. */
  function CheckEdge(width: int, height: int, x: int, y: int): (r: Outcome<string>)
    ensures r.Pass? <==> x == 0 || x == width - 1 || y == 0 || y == height - 1
    ensures r.Fail? ==> r.error == "edge is not on an edge."
  {
    if !(x == 0 || x == width - 1 || y == 0 || y == height - 1) then Fail("edge is not on an edge.")
    else Pass
  }

  /** The zone of a coordinate: 0 on the low border, 2 on the high one, 1 between. */
  function Zone(v: int, size: int): nat {
    if v == 0 then 0 else if v == size - 1 then 2 else 1
  }

  /**
   * `checkEdgeDir`: the heading an exit gives entering planes, judged by the
   * nine-zone table; a missing heading is rejected.
   */
  function CheckEdgeDir(width: int, height: int, x: int, y: int, dir: Option<int>): (r: Outcome<string>)
    ensures r.Fail? ==> r.error == "Bad direction for entrace at exit."
    ensures dir.None? ==> r.Fail?
  {
    var ex := Zone(x, width);
    var ey := Zone(y, height);
    var bad :=
      match dir
      case None => true
      case Some(d) =>
        match ex * 16 + ey
        case 0x00 => d != 3
        case 0x01 => d < 1 || d > 3
        case 0x02 => d != 1
        case 0x10 => d < 3 || d > 5
        case 0x11 => false
        case 0x12 => d > 1 && d < 7
        case 0x20 => d != 5
        case 0x21 => d < 5
        case 0x22 => d != 7
        case _ => true;
    if bad then Fail("Bad direction for entrace at exit.") else Pass
  }

  /**
   * Heading `d` moves a plane off every border it stands on: right from the
   * left border, left from the right one, down from the top, up from the bottom.
   */
  predicate Inward(ex: nat, ey: nat, d: int)
    requires 0 <= d < 8
  {
    var step := StepOf(d);
    && (ex == 0 ==> step.dx == 1) && (ex == 2 ==> step.dx == -1)
    && (ey == 0 ==> step.dy == 1) && (ey == 2 ==> step.dy == -1)
  }

  /**
   * For a heading in 0..7, `checkEdgeDir` accepts exactly the headings that
   * point into the arena, so an entering plane's first step is inward.
   */
  lemma EdgeDirIsInward(width: int, height: int, x: int, y: int, d: int)
    requires 0 <= d < 8
    ensures CheckEdgeDir(width, height, x, y, Some(d)).Pass? <==> Inward(Zone(x, width), Zone(y, height), d)
  {
  }

  /** Each corner admits exactly one heading: the diagonal into the arena. */
  lemma CornersAdmitOneHeading(width: int, height: int, d: int)
    requires width >= 3 && height >= 3 && 0 <= d < 8
    ensures CheckEdgeDir(width, height, 0, 0, Some(d)).Pass? <==> d == 3
    ensures CheckEdgeDir(width, height, 0, height - 1, Some(d)).Pass? <==> d == 1
    ensures CheckEdgeDir(width, height, width - 1, 0, Some(d)).Pass? <==> d == 5
    ensures CheckEdgeDir(width, height, width - 1, height - 1, Some(d)).Pass? <==> d == 7
  {
  }

  /** `checkLinePoint`: a line end lies on the screen, border included. */
  function CheckLinePoint(width: int, height: int, x: int, y: int): (r: Outcome<string>)
    ensures r.Pass? <==> 0 <= x < width && 0 <= y < height
    ensures !(0 <= x < width) ==>
              r == Fail("X value(" + IntToString(x) + ") out of range(0-" + IntToString(width) + ")")
    ensures 0 <= x < width && !(0 <= y < height) ==>
              r == Fail("Y value(" + IntToString(y) + ") out of range(0-" + IntToString(height) + ")")
  {
    if x < 0 || x >= width then
      Fail("X value(" + IntToString(x) + ") out of range(0-" + IntToString(width) + ")")
    else if y < 0 || y >= height then
      Fail("Y value(" + IntToString(y) + ") out of range(0-" + IntToString(height) + ")")
    else Pass
  }

  /**
   * `checkLine`: both ends on the screen, and the segment horizontal, vertical
   * or at 45 degrees.
   */
  function CheckLine(width: int, height: int, line: Line): (r: Outcome<string>)
    ensures r.Pass? <==>
              && 0 <= line.p1.x < width && 0 <= line.p1.y < height
              && 0 <= line.p2.x < width && 0 <= line.p2.y < height
              && var dx := Abs(line.p2.x - line.p1.x);
                 var dy := Abs(line.p2.y - line.p1.y);
                 dx == dy || dx == 0 || dy == 0
    ensures (&& CheckLinePoint(width, height, line.p1.x, line.p1.y).Pass?
             && CheckLinePoint(width, height, line.p2.x, line.p2.y).Pass?
             && r.Fail?) ==> r.error == "Bad line endpoints"
    ensures CheckLinePoint(width, height, line.p1.x, line.p1.y).Fail? ==>
              r == CheckLinePoint(width, height, line.p1.x, line.p1.y)
    ensures CheckLinePoint(width, height, line.p1.x, line.p1.y).Pass?
            && CheckLinePoint(width, height, line.p2.x, line.p2.y).Fail? ==>
              r == CheckLinePoint(width, height, line.p2.x, line.p2.y)
  {
    var first := CheckLinePoint(width, height, line.p1.x, line.p1.y);
    var second := CheckLinePoint(width, height, line.p2.x, line.p2.y);
    var dx := Abs(line.p2.x - line.p1.x);
    var dy := Abs(line.p2.y - line.p1.y);
    if first.Fail? then first
    else if second.Fail? then second
    else if dx != dy && dx != 0 && dy != 0 then Fail("Bad line endpoints")
    else Pass
  }
}
