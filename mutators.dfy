/**
 * The rule actions of src/input.ts. Each works on the `Context` record that
 * one `applyCommand` call builds: the level, the planes, a copy of the
 * selected plane and what earlier rules of the command recorded. Each is
 * given as a function from the context before to the context after, with the
 * error message it returns ("" for none).
 */
module Mutators {
  import opened Wrappers
  import opened Model
  import opened Text
  import opened Checks
  import opened Arith

  /** The `dir` field of the context: the way a turn or an altitude change goes. */
  datatype Way = Leftward | Rightward | Upward | Downward

  datatype Context = Context(
    screen: ScreenDefinition,
    air: seq<Plane>,
    ground: seq<Plane>,
    plane: Option<Plane>,
    destType: Option<PlaneDest>,
    destNo: Option<int>,
    dir: Option<Way>)

  /** A context after a rule's action, and the error it reported ("" when none). */
  datatype Applied = Applied(ctx: Context, error: string)

  /** JavaScript's `%` for a positive divisor: the remainder takes the sign of `a`. */
  function JsRem(a: int, n: int): (r: int)
    requires n > 0
    ensures a >= 0 ==> r == a % n
    ensures a < 0 ==> -n < r <= 0 && r == -((-a) % n)
  {
    if a >= 0 then a % n else -((-a) % n)
  }

  /** `planes[k]` is the first plane of `planes` in slot `planeNo`. */
  predicate FirstInSlot(planes: seq<Plane>, planeNo: int, k: int) {
    0 <= k < |planes| && planes[k].planeNo == planeNo && forall j :: 0 <= j < k ==> planes[j].planeNo != planeNo
  }

  /** No plane of `planes` is in slot `planeNo`. */
  predicate NoneInSlot(planes: seq<Plane>, planeNo: int) {
    forall k :: 0 <= k < |planes| ==> planes[k].planeNo != planeNo
  }

  /** `findplane`: the first plane of `air` with that slot, else the first of `ground`. */
  function FindPlane(air: seq<Plane>, ground: seq<Plane>, planeNo: int): (r: Option<Plane>)
    ensures r.None? <==> NoneInSlot(air, planeNo) && NoneInSlot(ground, planeNo)
    ensures r.Some? && !NoneInSlot(air, planeNo) ==> exists k :: FirstInSlot(air, planeNo, k) && r.value == air[k]
    ensures r.Some? && NoneInSlot(air, planeNo) ==> exists k :: FirstInSlot(ground, planeNo, k) && r.value == ground[k]
  {
    if |air| > 0 && air[0].planeNo == planeNo then
      assert FirstInSlot(air, planeNo, 0);
      Some(air[0])
    else if |air| > 0 then
      var r := FindPlane(air[1..], ground, planeNo);
      assert forall k :: 1 <= k < |air| ==> air[k] == air[1..][k - 1];
      assert forall k :: FirstInSlot(air[1..], planeNo, k) ==> FirstInSlot(air, planeNo, k + 1);
      r
    else if |ground| > 0 && ground[0].planeNo == planeNo then
      assert FirstInSlot(ground, planeNo, 0);
      Some(ground[0])
    else if |ground| > 0 then
      var r := FindPlane(air, ground[1..], planeNo);
      assert forall k :: 1 <= k < |ground| ==> ground[k] == ground[1..][k - 1];
      assert forall k :: FirstInSlot(ground[1..], planeNo, k) ==> FirstInSlot(ground, planeNo, k + 1);
      r
    else None
  }

  /**
   * `setplane`: select the plane named by the first letter of `ch`, lower-cased,
   * as a copy; "Unknown Plane" when no plane holds that slot.
   */
  function SetPlane(ctx: Context, ch: string): (r: Applied)
    ensures r.error == "" || r.error == "Unknown Plane"
    ensures r.error == "" <==>
              |ch| > 0 && FindPlane(ctx.air, ctx.ground, Lower(ch[0]) as int - 'a' as int).Some?
    ensures r.error == "" ==>
              r.ctx == ctx.(plane := FindPlane(ctx.air, ctx.ground, Lower(ch[0]) as int - 'a' as int))
    ensures r.error != "" ==> r.ctx == ctx
  {
    if |ch| == 0 then Applied(ctx, "Unknown Plane")
    else
      match FindPlane(ctx.air, ctx.ground, Lower(ch[0]) as int - 'a' as int)
      case None => Applied(ctx, "Unknown Plane")
      case Some(p) => Applied(ctx.(plane := Some(p)), "")
  }

  /** The selected plane stands on the ground. */
  predicate Grounded(ctx: Context) {
    ctx.plane.Some? && ctx.plane.value.altitude == 0
  }

  /** `turn`: planes at airports may not turn; nothing else changes. */
  function Turn(ctx: Context): (r: Applied)
    ensures r.ctx == ctx
    ensures r.error != "" <==> Grounded(ctx)
    ensures r.error != "" ==> r.error == "Planes at airports may not change direction"
  {
    if Grounded(ctx) then Applied(ctx, "Planes at airports may not change direction")
    else Applied(ctx, "")
  }

  /** `circle`: an airborne plane's target heading becomes 8, the circling marker. */
  function Circle(ctx: Context): (r: Applied)
    ensures r.error != "" <==> Grounded(ctx)
    ensures Grounded(ctx) ==> r == Applied(ctx, "Planes cannot circle on the ground")
    ensures !Grounded(ctx) && ctx.plane.Some? ==>
              r.ctx == ctx.(plane := Some(ctx.plane.value.(newDir := 8)))
    ensures ctx.plane.None? ==> r == Applied(ctx, "")
  {
    match ctx.plane
    case None => Applied(ctx, "")
    case Some(p) =>
      if p.altitude == 0 then Applied(ctx, "Planes cannot circle on the ground")
      else Applied(ctx.(plane := Some(p.(newDir := 8))), "")
  }

  /** The heading `octants` octants anticlockwise of `dir`, as `left` and `leftNinety` compute it. */
  function TurnedLeft(dir: int, octants: int): int {
    if dir - octants < 0 then dir - octants + 8 else dir - octants
  }

  /** The heading `octants` octants clockwise of `dir`, as `right` and `rightNinety` compute it. */
  function TurnedRight(dir: int, octants: int): int {
    JsRem(dir + octants, 8)
  }

  /** Replace the selected plane's target heading. */
  function Aim(ctx: Context, newDir: int): Context
    requires ctx.plane.Some?
  {
    ctx.(plane := Some(ctx.plane.value.(newDir := newDir)))
  }

  /** The context with only the selected plane's target heading replaced. */
  predicate Retargeted(ctx: Context, r: Context) {
    ctx.plane.Some? && r.plane.Some? && r == ctx.(plane := Some(ctx.plane.value.(newDir := r.plane.value.newDir)))
  }

  /** `left`: remember a left turn and aim one octant anticlockwise. */
  function Left(ctx: Context): (r: Applied)
    ensures r.error == ""
    ensures ctx.plane.None? ==> r.ctx == ctx
    ensures ctx.plane.Some? ==>
              && Retargeted(ctx.(dir := Some(Leftward)), r.ctx)
              && (0 <= ctx.plane.value.dir < 8 ==>
                    0 <= r.ctx.plane.value.newDir < 8 && (r.ctx.plane.value.newDir + 1) % 8 == ctx.plane.value.dir)
  {
    match ctx.plane
    case None => Applied(ctx, "")
    case Some(p) => Applied(Aim(ctx, TurnedLeft(p.dir, 1)).(dir := Some(Leftward)), "")
  }

  /** `right`: remember a right turn and aim one octant clockwise. */
  function Right(ctx: Context): (r: Applied)
    ensures r.error == ""
    ensures ctx.plane.None? ==> r.ctx == ctx
    ensures ctx.plane.Some? ==>
              && Retargeted(ctx.(dir := Some(Rightward)), r.ctx)
              && (0 <= ctx.plane.value.dir < 8 ==>
                    0 <= r.ctx.plane.value.newDir < 8 && (ctx.plane.value.dir + 1) % 8 == r.ctx.plane.value.newDir)
  {
    match ctx.plane
    case None => Applied(ctx, "")
    case Some(p) => Applied(Aim(ctx, TurnedRight(p.dir, 1)).(dir := Some(Rightward)), "")
  }

  /** `leftNinety`: aim two octants anticlockwise. */
  function LeftNinety(ctx: Context): (r: Applied)
    ensures r.error == ""
    ensures ctx.plane.None? ==> r.ctx == ctx
    ensures ctx.plane.Some? ==>
              && Retargeted(ctx, r.ctx)
              && (0 <= ctx.plane.value.dir < 8 ==>
                    0 <= r.ctx.plane.value.newDir < 8 && (r.ctx.plane.value.newDir + 2) % 8 == ctx.plane.value.dir)
  {
    match ctx.plane
    case None => Applied(ctx, "")
    case Some(p) => Applied(Aim(ctx, TurnedLeft(p.dir, 2)), "")
  }

  /** `rightNinety`: aim two octants clockwise. */
  function RightNinety(ctx: Context): (r: Applied)
    ensures r.error == ""
    ensures ctx.plane.None? ==> r.ctx == ctx
    ensures ctx.plane.Some? ==>
              && Retargeted(ctx, r.ctx)
              && (0 <= ctx.plane.value.dir < 8 ==>
                    0 <= r.ctx.plane.value.newDir < 8 && (ctx.plane.value.dir + 2) % 8 == r.ctx.plane.value.newDir)
  {
    match ctx.plane
    case None => Applied(ctx, "")
    case Some(p) => Applied(Aim(ctx, TurnedRight(p.dir, 2)), "")
  }

  /**
   * Turning left by 0..8 octants and then right by as many, or right then
   * left, restores a heading in 0..7, and every step stays on the compass.
   */
  lemma LeftRightCancel(dir: int, octants: int)
    requires 0 <= dir < 8 && 0 <= octants <= 8
    ensures 0 <= TurnedLeft(dir, octants) < 8 && 0 <= TurnedRight(dir, octants) < 8
    ensures TurnedRight(TurnedLeft(dir, octants), octants) == dir
    ensures TurnedLeft(TurnedRight(dir, octants), octants) == dir
  {
  }

  /**
   * Turns count from the plane's current heading, not from an earlier target:
   * of a `left` and a `right` applied in turn, the last one alone decides.
   */
  lemma LastTurnWins(ctx: Context)
    ensures Right(Left(ctx).ctx).ctx == Right(ctx).ctx
    ensures Left(Right(ctx).ctx).ctx == Left(ctx).ctx
    ensures LeftNinety(RightNinety(ctx).ctx).ctx == LeftNinety(ctx).ctx
  {
  }

  /** `toDir`: aim at the compass heading named by `ch`. */
  function ToDir(ctx: Context, ch: string): (r: Applied)
    requires ctx.plane.Some? ==> DirNo(ch).Success?
    ensures r.error == ""
    ensures ctx.plane.None? ==> r.ctx == ctx
    ensures ctx.plane.Some? ==>
              && Retargeted(ctx, r.ctx)
              && 0 <= r.ctx.plane.value.newDir < 8
              && COMPASS[r.ctx.plane.value.newDir] == Lower(ch[0])
  {
    match ctx.plane
    case None => Applied(ctx, "")
    case Some(p) => Applied(Aim(ctx, DirNo(ch).value), "")
  }

  /**
   * `relDir`: after a left or right turn, aim that many octants away from the
   * current heading; with no turn recorded, nothing changes.
   */
  function RelDir(ctx: Context, ch: string): (r: Applied)
    requires ctx.plane.Some? ==> DirNo(ch).Success?
    ensures r.error == ""
    ensures ctx.plane.None? || ctx.dir == Some(Upward) || ctx.dir == Some(Downward) || ctx.dir.None? ==>
              r.ctx == ctx
    ensures ctx.plane.Some? && (ctx.dir == Some(Leftward) || ctx.dir == Some(Rightward)) ==>
              Retargeted(ctx, r.ctx)
    ensures ctx.plane.Some? && ctx.dir == Some(Leftward) && 0 <= ctx.plane.value.dir < 8 ==>
              && 0 <= r.ctx.plane.value.newDir < 8
              && (r.ctx.plane.value.newDir + DirNo(ch).value) % 8 == ctx.plane.value.dir
    ensures ctx.plane.Some? && ctx.dir == Some(Rightward) && 0 <= ctx.plane.value.dir < 8 ==>
              && 0 <= r.ctx.plane.value.newDir < 8
              && (ctx.plane.value.dir + DirNo(ch).value) % 8 == r.ctx.plane.value.newDir
  {
    match ctx.plane
    case None => Applied(ctx, "")
    case Some(p) =>
      var angle := DirNo(ch).value;
      match ctx.dir
      case Some(Leftward) => Applied(Aim(ctx, TurnedLeft(p.dir, angle)), "")
      case Some(Rightward) => Applied(Aim(ctx, TurnedRight(p.dir, angle)), "")
      case _ => Applied(ctx, "")
  }

  /** `climb`: remember that the altitude change goes up. */
  function Climb(ctx: Context): Applied {
    Applied(ctx.(dir := Some(Upward)), "")
  }

  /** `descend`: remember that the altitude change goes down. */
  function Descend(ctx: Context): Applied {
    Applied(ctx.(dir := Some(Downward)), "")
  }

  /** `beacon`: the target named next is a beacon. */
  function SelectBeacon(ctx: Context): Applied {
    Applied(ctx.(destType := Some(BeaconDest)), "")
  }

  /** `exit`: the target named next is an exit. */
  function SelectExit(ctx: Context): Applied {
    Applied(ctx.(destType := Some(ExitDest)), "")
  }

  /** `airport`: the target named next is an airport. */
  function SelectAirport(ctx: Context): Applied {
    Applied(ctx.(destType := Some(AirportDest)), "")
  }

  /**
   * `setAlt`: set the target altitude; rejected when the plane is already
   * level at that altitude.
   */
  function SetAlt(ctx: Context, ch: string): (r: Applied)
    requires AllDigits(ch)
    ensures ctx.plane.None? ==> r == Applied(ctx, "")
    ensures ctx.plane.Some? ==>
              (r.error != "" <==> ctx.plane.value.altitude == Number(ch) == ctx.plane.value.newAltitude)
    ensures r.error != "" ==> r == Applied(ctx, "Already at that altitude")
    ensures ctx.plane.Some? && r.error == "" ==>
              r.ctx == ctx.(plane := Some(ctx.plane.value.(newAltitude := Number(ch))))
  {
    match ctx.plane
    case None => Applied(ctx, "")
    case Some(p) =>
      var altitude := Number(ch);
      if p.altitude == altitude && p.newAltitude == p.altitude then Applied(ctx, "Already at that altitude")
      else Applied(ctx.(plane := Some(p.(newAltitude := altitude))), "")
  }

  /** The target altitude a relative change aims at: up or down from the current one, else unchanged. */
  function RelativeTarget(p: Plane, dir: Option<Way>, num: int): int {
    match dir
    case Some(Upward) => p.altitude + num
    case Some(Downward) => p.altitude - num
    case _ => p.newAltitude
  }

  /**
   * `setRelAlt`: climb or descend by the digits' value from the current
   * altitude; a change of 0 is rejected, and so is a target outside 0..9
   * (the target is stored even then).
   */
  function SetRelAlt(ctx: Context, ch: string): (r: Applied)
    requires AllDigits(ch)
    ensures ctx.plane.None? ==> r == Applied(ctx, "")
    ensures ctx.plane.Some? && Number(ch) == 0 ==> r == Applied(ctx, "altitude not changed")
    ensures ctx.plane.Some? && Number(ch) != 0 ==>
              && r.ctx.plane.Some?
              && r.ctx == ctx.(plane := Some(ctx.plane.value.(newAltitude := r.ctx.plane.value.newAltitude)))
              && r.ctx.plane.value.newAltitude == RelativeTarget(ctx.plane.value, ctx.dir, Number(ch))
              && (r.error == "" <==> 0 <= r.ctx.plane.value.newAltitude <= 9)
              && (r.ctx.plane.value.newAltitude < 0 ==> r.error == "Altitude would be too low")
              && (r.ctx.plane.value.newAltitude > 9 ==> r.error == "Altitude would be too high")
  {
    match ctx.plane
    case None => Applied(ctx, "")
    case Some(p) =>
      var num := Number(ch);
      if num == 0 then Applied(ctx, "altitude not changed")
      else
        var target := RelativeTarget(p, ctx.dir, num);
        var ctx' := ctx.(plane := Some(p.(newAltitude := target)));
        if target < 0 then Applied(ctx', "Altitude would be too low")
        else if target > 9 then Applied(ctx', "Altitude would be too high")
        else Applied(ctx', "")
  }

  /** The positions of the beacons, exits or airports a target kind names. */
  function Targets(screen: ScreenDefinition, kind: PlaneDest): (r: Option<seq<(int, int)>>)
    ensures r.Some? <==> kind != NoDest
    ensures kind == BeaconDest ==>
              |r.value| == |screen.beacons| &&
              forall k :: 0 <= k < |screen.beacons| ==> r.value[k] == (screen.beacons[k].x, screen.beacons[k].y)
    ensures kind == ExitDest ==>
              |r.value| == |screen.exits| &&
              forall k :: 0 <= k < |screen.exits| ==> r.value[k] == (screen.exits[k].x, screen.exits[k].y)
    ensures kind == AirportDest ==>
              |r.value| == |screen.airports| &&
              forall k :: 0 <= k < |screen.airports| ==> r.value[k] == (screen.airports[k].x, screen.airports[k].y)
  {
    match kind
    case BeaconDest => Some(seq(|screen.beacons|, k requires 0 <= k < |screen.beacons| => (screen.beacons[k].x, screen.beacons[k].y)))
    case ExitDest => Some(seq(|screen.exits|, k requires 0 <= k < |screen.exits| => (screen.exits[k].x, screen.exits[k].y)))
    case AirportDest => Some(seq(|screen.airports|, k requires 0 <= k < |screen.airports| => (screen.airports[k].x, screen.airports[k].y)))
    case NoDest => None
  }

  /** The name of a target kind in messages. */
  function KindName(kind: PlaneDest): string {
    match kind
    case NoDest => "nodest"
    case BeaconDest => "beacon"
    case ExitDest => "exit"
    case AirportDest => "airport"
  }

  /** The position of target `n` of the recorded kind, if the level has one. */
  function TargetAt(screen: ScreenDefinition, destType: Option<PlaneDest>, n: int): Option<(int, int)> {
    if destType.None? then None
    else
      match Targets(screen, destType.value)
      case None => None
      case Some(ts) => if 0 <= n < |ts| then Some(ts[n]) else None
  }

  /**
   * `benum`: record the target number; aim the plane at that beacon, exit or
   * airport with `heading` (the octant of a displacement).
   */
  function Benum(ctx: Context, ch: string, heading: (int, int) -> int): (r: Applied)
    requires AllDigits(ch)
    ensures r.ctx == ctx.(destNo := Some(Number(ch) as int), plane := r.ctx.plane)
    ensures ctx.destType.None? || ctx.destType == Some(NoDest) ==> r.error == "Unknown case in benum! Get help!"
    ensures ctx.destType.Some? && ctx.destType.value != NoDest ==>
              (r.error == "" <==> TargetAt(ctx.screen, ctx.destType, Number(ch)).Some?)
    ensures ctx.destType.Some? && ctx.destType.value != NoDest && r.error != "" ==>
              r.error == "Unknown " + KindName(ctx.destType.value)
    ensures r.error == "" && ctx.plane.Some? ==>
              var p := ctx.plane.value;
              var t := TargetAt(ctx.screen, ctx.destType, Number(ch)).value;
              r.ctx.plane == Some(p.(newDir := heading(t.0 - p.xpos, t.1 - p.ypos)))
    ensures r.error != "" || ctx.plane.None? ==> r.ctx.plane == ctx.plane
  {
    var num := Number(ch);
    var ctx1 := ctx.(destNo := Some(num));
    var targets := if ctx.destType.Some? then Targets(ctx.screen, ctx.destType.value) else None;
    if targets.None? then Applied(ctx1, "Unknown case in benum! Get help!")
    else if num >= |targets.value| then Applied(ctx1, "Unknown " + KindName(ctx.destType.value))
    else
      var target := targets.value[num];
      match ctx1.plane
      case None => Applied(ctx1, "")
      case Some(p) =>
        Applied(ctx1.(plane := Some(p.(newDir := heading(target.0 - p.xpos, target.1 - p.ypos)))), "")
  }

  /** The beacon lies ahead of the plane, along its current heading. */
  predicate OnFlightPath(p: Plane, b: Beacon) {
    Sign(b.x - p.xpos) == StepOf(p.dir).dx && Sign(b.y - p.ypos) == StepOf(p.dir).dy
  }

  /**
   * `delayb`: hold the plane's heading until it reaches a beacon that lies
   * along its current heading; when a target was named earlier, then turn
   * toward that target. The hold is recorded before the later checks.
   */
  function DelayB(ctx: Context, ch: string, heading: (int, int) -> int): (r: Applied)
    requires AllDigits(ch)
    ensures ctx.plane.None? ==> r == Applied(ctx, "")
    ensures ctx.plane.Some? && Number(ch) >= |ctx.screen.beacons| ==> r == Applied(ctx, "Unknown beacon")
    ensures ctx.plane.Some? && Number(ch) < |ctx.screen.beacons| ==>
              var p := ctx.plane.value;
              var b := ctx.screen.beacons[Number(ch)];
              var held := p.(delayed := true, delayedNo := Number(ch));
              && (!OnFlightPath(p, b) ==> r == Applied(ctx, "Beacon is not in flight path"))
              && (OnFlightPath(p, b) && (ctx.destType.None? || ctx.destNo.None?) ==>
                    r == Applied(ctx.(plane := Some(held)), ""))
              && (OnFlightPath(p, b) && ctx.destType.Some? && ctx.destNo.Some? ==>
                    var dest := TargetAt(ctx.screen, ctx.destType, ctx.destNo.value);
                    && (dest.None? ==> r == Applied(ctx.(plane := Some(held)), "Bad case in delayb! Get help!"))
                    && (dest == Some((b.x, b.y)) ==> r == Applied(ctx.(plane := Some(held)), "Would already be there"))
                    && (dest.Some? && dest != Some((b.x, b.y)) ==>
                          var newDir := heading(dest.value.0 - b.x, dest.value.1 - b.y);
                          && (newDir == p.dir ==> r == Applied(ctx.(plane := Some(held)), "Already going in that direction"))
                          && (newDir != p.dir ==> r == Applied(ctx.(plane := Some(held.(newDir := newDir))), ""))))
  {
    match ctx.plane
    case None => Applied(ctx, "")
    case Some(p) =>
      var num := Number(ch);
      if num >= |ctx.screen.beacons| then Applied(ctx, "Unknown beacon")
      else
        var b := ctx.screen.beacons[num];
        var step := StepOf(p.dir);
        if Sign(b.x - p.xpos) != step.dx || Sign(b.y - p.ypos) != step.dy then
          Applied(ctx, "Beacon is not in flight path")
        else
          var q := p.(delayed := true, delayedNo := num);
          var ctx1 := ctx.(plane := Some(q));
          if ctx.destType.None? || ctx.destNo.None? then Applied(ctx1, "")
          else
            var targets := Targets(ctx.screen, ctx.destType.value);
            var destNo := ctx.destNo.value;
            if targets.None? || !(0 <= destNo < |targets.value|) then Applied(ctx1, "Bad case in delayb! Get help!")
            else
              var dest := targets.value[destNo];
              var xdiff := dest.0 - b.x;
              var ydiff := dest.1 - b.y;
              if xdiff == 0 && ydiff == 0 then Applied(ctx1, "Would already be there")
              else
                var newDir := heading(xdiff, ydiff);
                if newDir == q.dir then Applied(ctx1, "Already going in that direction")
                else Applied(ctx1.(plane := Some(q.(newDir := newDir))), "")
  }

  /** `mark`, `unmark` and `ignore`: set the status of an airborne plane, once. */
  function SetStatus(ctx: Context, status: PlaneStatus, grounded: string, already: string): Applied {
    match ctx.plane
    case None => Applied(ctx, "")
    case Some(p) =>
      if p.altitude == 0 then Applied(ctx, grounded)
      else if p.status == status then Applied(ctx, already)
      else Applied(ctx.(plane := Some(p.(status := status))), "")
  }

  /** `mark`: show an airborne plane as marked; an error when it is grounded or already marked. */
  function Mark(ctx: Context): (r: Applied)
    ensures ctx.plane.None? ==> r == Applied(ctx, "")
    ensures Grounded(ctx) ==> r == Applied(ctx, "Cannot mark planes on the ground")
    ensures ctx.plane.Some? && !Grounded(ctx) ==>
              (r.error == "Already marked" <==> ctx.plane.value.status == Marked)
    ensures r.error == "" && ctx.plane.Some? ==> r.ctx == ctx.(plane := Some(ctx.plane.value.(status := Marked)))
    ensures r.error != "" ==> r.ctx == ctx
  {
    SetStatus(ctx, Marked, "Cannot mark planes on the ground", "Already marked")
  }

  /** `unmark`: show an airborne plane as unmarked; an error when it is grounded or already unmarked. */
  function Unmark(ctx: Context): (r: Applied)
    ensures ctx.plane.None? ==> r == Applied(ctx, "")
    ensures Grounded(ctx) ==> r == Applied(ctx, "Cannot unmark planes on the ground")
    ensures ctx.plane.Some? && !Grounded(ctx) ==>
              (r.error == "Already unmarked" <==> ctx.plane.value.status == Unmarked)
    ensures r.error == "" && ctx.plane.Some? ==> r.ctx == ctx.(plane := Some(ctx.plane.value.(status := Unmarked)))
    ensures r.error != "" ==> r.ctx == ctx
  {
    SetStatus(ctx, Unmarked, "Cannot unmark planes on the ground", "Already unmarked")
  }

  /** `ignore`: show an airborne plane as ignored; an error when it is grounded or already ignored. */
  function Ignore(ctx: Context): (r: Applied)
    ensures ctx.plane.None? ==> r == Applied(ctx, "")
    ensures Grounded(ctx) ==> r == Applied(ctx, "Cannot ignore planes on the ground")
    ensures ctx.plane.Some? && !Grounded(ctx) ==>
              (r.error == "Already ignored" <==> ctx.plane.value.status == Ignored)
    ensures r.error == "" && ctx.plane.Some? ==> r.ctx == ctx.(plane := Some(ctx.plane.value.(status := Ignored)))
    ensures r.error != "" ==> r.ctx == ctx
  {
    SetStatus(ctx, Ignored, "Cannot ignore planes on the ground", "Already ignored")
  }

  /** After `climb`, a relative altitude raises the target by the digits' value from the current altitude. */
  lemma ClimbThenRelAlt(ctx: Context, ch: string)
    requires ctx.plane.Some? && AllDigits(ch) && Number(ch) != 0 && ctx.plane.value.altitude >= 0
    ensures var r := SetRelAlt(Climb(ctx).ctx, ch);
            && r.ctx.plane.value.newAltitude == ctx.plane.value.altitude + Number(ch)
            && (r.error == "" <==> ctx.plane.value.altitude + Number(ch) <= 9)
  {
  }

  /** After `descend`, a relative altitude lowers the target by the digits' value from the current altitude. */
  lemma DescendThenRelAlt(ctx: Context, ch: string)
    requires ctx.plane.Some? && AllDigits(ch) && Number(ch) != 0 && ctx.plane.value.altitude <= 9
    ensures var r := SetRelAlt(Descend(ctx).ctx, ch);
            && r.ctx.plane.value.newAltitude == ctx.plane.value.altitude - Number(ch)
            && (r.error == "" <==> ctx.plane.value.altitude >= Number(ch))
  {
  }

  /**
   * A target kind followed by a number: the number must index a beacon, exit
   * or airport of the level, and otherwise the error names the kind.
   */
  lemma KindThenNumber(ctx: Context, ch: string, heading: (int, int) -> int)
    requires AllDigits(ch)
    ensures var r := Benum(SelectBeacon(ctx).ctx, ch, heading);
            if Number(ch) < |ctx.screen.beacons| then r.error == "" else r.error == "Unknown beacon"
    ensures var r := Benum(SelectExit(ctx).ctx, ch, heading);
            if Number(ch) < |ctx.screen.exits| then r.error == "" else r.error == "Unknown exit"
    ensures var r := Benum(SelectAirport(ctx).ctx, ch, heading);
            if Number(ch) < |ctx.screen.airports| then r.error == "" else r.error == "Unknown airport"
  {
  }
}
