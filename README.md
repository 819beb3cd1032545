# atc-ts core, modelled in Dafny

This project models the core of atc-ts, a browser version of the BSD game
"atc" (air traffic control):

- **Level loading (`loadGame`).** A level file is turned into a screen definition:
  - the size, the update interval and the new-plane interval;
  - the exits, beacons, airports and drawn lines, each checked against the screen.
- **The per-tick simulation (`update`).** Planes waiting at airports take off. Every airborne plane climbs, turns, moves, reaches its delay beacon and its destination, or is lost. Arrived planes are removed and scored. Planes too close to each other collide, and a new plane is spawned now and then (`addPlane`).
- **The command processor (`CommandProcessor`).** A table-driven state machine turns keystrokes into a command for one plane. Once the command is complete, its actions are replayed on a copy of that plane.
- **The random generator.** `random` and `srandom` are modelled as the OpenBSD `rand` linear congruential generator.

The modules follow the source files:

| module | models |
|---|---|
| `Model` | src/model.ts: the entities and `DISPLACEMENT` |
| `Arith` | `Math.sign` and `Math.abs`, as the core uses them |
| `Random` | src/random.ts |
| `Text` | the JavaScript string built-ins the core relies on |
| `Checks` | `dirNo` and the check functions of src/games.ts |
| `PointLists` | the point and line regular expressions, `parsePointList` and `parseLineList` |
| `Levels` | `loadGame` |
| `Flight` | one plane's tick, `tooClose`, `planeName` and `dirDeg` |
| `Spawning` | `addPlane`, `nextPlane` and `posAndDirFromDest` |
| `Updating` | `update` as a function |
| `Simulation` | the class whose methods change `air`, `ground` and the slot cursor in place, proved against those functions |
| `Mutators` | the rule actions of src/input.ts and `findplane` |
| `Commands` | the `st` state table and `CommandProcessor` |

Some things are parameters rather than modelled code:

- **Randomness** (`randomInteger`) is a finite sequence of entropy values. Each draw consumes one value, reduced modulo the range.
- **The level file's text** is passed in as a string.
- **The heading toward a target** (`dirFromDxDy`, which uses `Math.atan2`) is a function parameter `heading`.

## Model

| member | source | states |
|---|---|---|
| Model.DisplacementOf | src/model.ts:67-76 | `DISPLACEMENT` has an entry exactly for the headings 0..7 |
| Model.StepOf | src/update.ts:233 | the step a plane takes is the table's entry, or (0, 0) off the compass |
| Model.DisplacementIsUnit | src/model.ts:67-76 | every entry moves by at most one cell on each axis, and not by zero |
| Model.DisplacementOpposite | src/model.ts:67-76 | opposite headings (d and d+4) have opposite steps |
| Model.DisplacementCompass | src/model.ts:67-76 | heading 0 is north (dy -1), 2 east, 4 south, 6 west |
| Model.DisplacementDistinct | src/model.ts:67-76 | different headings have different entries |
| Random.ToUint32 | src/random.ts:10 | the unsigned 32-bit reduction is in [0, 2^32) and congruent to its input |
| Random.ToInt32 | src/random.ts:15 | `x \| 0` is in [-2^31, 2^31) and congruent to its input modulo 2^32 |
| Random.AndRandMaxIsMod | src/random.ts:7-10 | masking with `RAND_MAX` is reduction modulo 2^31 |
| Random.LcgIsAffineMod | src/random.ts:9-12 | the generator step equals (next * 1103515245 + 12345) mod 2^31, whatever `Math.imul` wraps |
| Random.Lcg | src/random.ts:9-12 | the step of `random()`; what it computes is stated by LcgIsAffineMod and LcgInRange |
| Random.Seed | src/random.ts:14-16 | the state `srandom` installs; what it computes is stated by SeedIsMod and SeedsAgree |
| Random.LcgInRange | src/random.ts:9-12 | every output is in 0..`RAND_MAX` |
| Random.SeedIsMod | src/random.ts:14-16 | `srandom` leaves the seed reduced modulo 2^31 |
| Random.SeedsAgree | src/random.ts:14-16 | two seeds give the same state exactly when they agree modulo 2^31 |
| Random.Outputs | src/random.ts:9-12 | `n` successive outputs are `n` values in 0..`RAND_MAX` |
| Random.SameSeedSameOutputs | src/random.ts:9-16 | seeds equal modulo 2^31 give the same output sequence |
| Random.Generator.constructor | src/random.ts:3-5 | the state starts at 1 |
| Random.Generator.Random | src/random.ts:9-12 | advances the state by the generator step, returns it, and it is in 0..`RAND_MAX` |
| Random.Generator.Srandom | src/random.ts:14-16 | sets the state to the seed modulo 2^31 |
| Text.Split | src/games.ts:52 | the pieces of a split contain no separator and join back to the input |
| Text.Trim | src/games.ts:53 | the result is a slice of the input with only white space cut off either side, and neither end is white space |
| Text.IntToString | src/games.ts:245 | the decimal rendering is nonempty and starts with '-' exactly for negative numbers |
| Text.NumberOfDecimal | src/games.ts:73 | `Number` of a rendered natural number gives it back |
| Text.StartsWithIsPrefix | src/games.ts:42-43 | reading a keyword at the start of a statement a character at a time, as the patterns do, is the prefix test |
| Checks.DirNo | src/games.ts:183-189 | a success is an octant whose compass letter is the input lower-cased; a failure carries the "is not a valid direction" message |
| Checks.DirNoAccepts | src/games.ts:183-189 | `dirNo` accepts exactly the sixteen compass letters, lower or upper case |
| Checks.DirNoOfCompass | src/games.ts:183-189 | `dirNo` of compass letter d is d |
| Checks.DirNoIgnoresCase | src/games.ts:185 | an accepted letter and its lower case give the same octant |
| Checks.CompassDistinct | src/games.ts:184 | the compass string holds eight distinct lower-case letters |
| Checks.CheckPoint | src/games.ts:267-277 | passes exactly for a point strictly inside the border; an x out of range gives "X value(x) out of range(0-width).", and otherwise a y out of range gives "Y value9y) out of range(0-height).", the source's text |
| Checks.CheckEdge | src/games.ts:279-293 | passes exactly for a point on one of the four borders |
| Checks.CheckEdgeDir | src/games.ts:295-348 | a missing heading always fails, with the "entrace" message |
| Checks.EdgeDirIsInward | src/games.ts:295-348 | for a heading 0..7 the check passes exactly when the heading's step moves off every border the exit stands on |
| Checks.CornersAdmitOneHeading | src/games.ts:301-346 | each corner admits only the one diagonal into the arena |
| Checks.CheckLinePoint | src/games.ts:239-250 | passes exactly for a point on the screen, border included; an x out of range gives the X message, and otherwise a y out of range gives the Y message, both without a closing "." |
| Checks.CheckLine | src/games.ts:224-237 | passes exactly when both ends are on the screen and the segment is horizontal, vertical or diagonal; an off-screen end fails with `checkLinePoint`'s message, the first end before the second; bad geometry gives "Bad line endpoints" |
| PointLists.Coords | src/games.ts:180-181 | a match of the two numbers ends after its start, within the text |
| PointLists.Pair | src/games.ts:180-181 | a bracketed pair ends after its start, within the text |
| PointLists.PointAt | src/games.ts:180-181 | a point match ends within the text and has a heading exactly when the pattern asks for one |
| PointLists.PlainPointAt | src/games.ts:180 | a `POINT_RE` match is a point without heading |
| PointLists.DirPointAt | src/games.ts:181 | a `POINT_DIR_RE` match is a point with a heading in 0..7 |
| PointLists.LineAt | src/games.ts:209-210 | a `LINE_RE` match is a line of two points without heading |
| PointLists.Exec | src/games.ts:199 | `exec` from `lastIndex` returns a match found at or after it, ending past it and within the text, and returns none exactly when nothing matches from there on |
| PointLists.PointMatches | src/games.ts:180-181 | the matches at each position move forward |
| PointLists.LineMatches | src/games.ts:209-210 | the matches at each position move forward |
| PointLists.ExecAll | src/games.ts:197-206 | the `exec` loop, each call starting at the `lastIndex` the last match left, collects exactly the scan of all matches |
| PointLists.ParsePointList | src/games.ts:191-207 | returns the points found by the scan |
| PointLists.ParseLineList | src/games.ts:212-222 | returns the lines found by the scan |
| PointLists.ScanFound | src/games.ts:199-205 | every collected item is a match found at some position |
| PointLists.PointsWellFormed | src/games.ts:191-207 | every parsed point has a heading exactly when asked for, and it is in 0..7 |
| PointLists.LinesWellFormed | src/games.ts:212-222 | every parsed line has two points without heading |
| PointLists.ExecSkips | src/games.ts:199 | `exec` from a position past which nothing matches equals `exec` from further on |
| PointLists.ScanSkips | src/games.ts:199-205 | skipping positions where nothing matches does not change the scan |
| PointLists.ScanOfChained | src/games.ts:199-205 | a chain of matches, each starting where the last ended with nothing in between, is what the scan collects |
| PointLists.RenderPoints | src/games.ts:180-181 | the rendering of a point list is empty exactly for no points |
| PointLists.RenderLines | src/games.ts:209-210 | the rendering of a line list is empty exactly for no lines |
| PointLists.PointsChained | src/games.ts:191-207 | a rendered point list is a chain of matches |
| PointLists.LinesChained | src/games.ts:212-222 | a rendered line list is a chain of matches |
| PointLists.ParseRenderedPoints | src/games.ts:191-207 | parsing a rendered point list gives the points back (both with and without headings) |
| PointLists.ParseRenderedLines | src/games.ts:212-222 | parsing a rendered line list gives the lines back |
| Levels.CleanLines | src/games.ts:51-54 | every kept line is nonempty and trimmed, and there are no more lines than pieces |
| Levels.StatementsEndWithSemicolon | src/games.ts:63-69 | every statement handed to the parser ends with `;` |
| Levels.StatementsOfTerminatedLines | src/games.ts:63-69 | when every line ends with `;`, each line is one statement |
| Levels.StatementSpansLines | src/games.ts:63-69 | an unterminated line is joined to the next with one space |
| Levels.UnterminatedLinesDropped | src/games.ts:63-69 | lines after the last `;` are never looked at |
| Levels.ScalarAt | src/games.ts:42 | recognises the four keywords, and none when the text starts with no keyword |
| Levels.ScalarAtName | src/games.ts:42 | each keyword is recognised as itself |
| Levels.MatchDefinition | src/games.ts:42 | a `DEFINITIONS_RE` match starts with its keyword and ends with `;` |
| Levels.DefinitionRoundTrip | src/games.ts:42 | `keyword = n;` matches as that keyword and that number |
| Levels.EntityAt | src/games.ts:43 | recognises the four entity keywords, and none otherwise |
| Levels.EntityAtName | src/games.ts:43 | each entity keyword is recognised as itself |
| Levels.MatchEntity | src/games.ts:43 | a `LINES_RE` match starts with its keyword and ends with `;` |
| Levels.EntityRoundTrip | src/games.ts:43 | `keyword: body;` matches as that keyword and that body |
| Levels.PatternsExclusive | src/games.ts:42-43 | no statement matches both patterns |
| Levels.Complete | src/games.ts:252-265 | a screen with every scalar defined stands for the screen with those values and lists |
| Levels.ScreenIsNotPartial | src/games.ts:252-265 | `screenIsNotPartial`: all four scalars are defined; Complete, Load's row and LoadSound state what follows from it |
| Levels.Define | src/games.ts:73-113 | a scalar can be set once and not below its minimum (3 for width and height, 1 for the intervals), with the source's messages |
| Levels.CheckEach | src/games.ts:125-158 | the checks of a list pass exactly when every item passes; a failure is the first failing item's |
| Levels.Map | src/games.ts:126-157 | maps every item in order |
| Levels.CheckExit | src/games.ts:136-141 | an exit passes exactly when it is on an edge and its heading points inward |
| Levels.AddBeacons | src/games.ts:124-133 | a successful beacon statement only appends to the beacons |
| Levels.AddExits | src/games.ts:134-144 | a successful exit statement only appends to the exits |
| Levels.AddLines | src/games.ts:145-149 | a successful line statement only appends to the lines |
| Levels.AddAirports | src/games.ts:150-159 | a successful airport statement only appends to the airports |
| Levels.AddEntities | src/games.ts:117-164 | an entity statement keeps the scalars and only appends to the lists |
| Levels.LoadGame | src/games.ts:45-178 | the gathering loop computes `Load` |
| Levels.Load | src/games.ts:45-177 | `loadGame` from the text on, as a function; LoadGame proves the source's loop computes it, and LoadSound, BeaconsFit, ExitsFit, LinesFit, AirportsFit, RedefinitionRejected and EntityBeforeScalarsRejected state its results |
| Levels.BeaconsFit | src/games.ts:124-133 | added beacons lie strictly inside the border |
| Levels.ExitsFit | src/games.ts:134-144 | added exits lie on an edge with a heading that enters the arena |
| Levels.LinesFit | src/games.ts:145-149 | added lines lie on the screen and are straight or diagonal |
| Levels.AirportsFit | src/games.ts:150-159 | added airports lie strictly inside with a heading in 0..7 |
| Levels.StatementKeepsValid | src/games.ts:71-166 | every successful statement keeps the screen valid |
| Levels.DeclarationsKeepValid | src/games.ts:63-69 | so does a run of statements |
| Levels.LoadSound | src/games.ts:45-178 | a loaded level has width and height at least 3, intervals at least 1, at least two exits and airports, and every entity fits |
| Levels.DefinedStays | src/games.ts:73-113 | a successful statement never changes a defined scalar |
| Levels.DefinedRejects | src/games.ts:73-113 | defining an already defined scalar fails |
| Levels.DefinitionDefines | src/games.ts:73-113 | a successful definition defines its scalar |
| Levels.UndefinedRejectsEntity | src/games.ts:119-121 | an entity statement before every scalar is defined fails with the "must be defined" message |
| Levels.FirstFails | src/games.ts:63-69 | a failing statement ends the load with its error |
| Levels.FirstSucceeds | src/games.ts:63-69 | a successful statement hands its screen to the rest |
| Levels.Proceed | src/games.ts:63-113 | after a successful statement the load goes on from its screen, with every defined scalar kept and an undefined one defined exactly when the statement defines it |
| Levels.RedefinitionAhead | src/games.ts:73-113 | once a scalar is defined, statements that define it again make the load fail |
| Levels.RedefinitionRepeated | src/games.ts:73-113 | statements holding two definitions of one scalar fail from any screen |
| Levels.RedefinitionRejected | src/games.ts:73-113 | a level defining a scalar twice fails to load |
| Levels.RedefinitionFree | src/games.ts:71-166 | a statement that does not define a scalar leaves it undefined |
| Levels.EntityBeforeDefinition | src/games.ts:119-121 | statements reaching an entity statement while a scalar is undefined fail |
| Levels.EntityBeforeScalarsRejected | src/games.ts:119-121 | an entity statement before some scalar is defined makes the load fail |
| Levels.EntityFirstRejected | src/games.ts:119-121 | a level starting with an entity statement fails with the "must be defined" message |
| Flight.CircDist | src/update.ts:209-231 | the distance between two headings is 0..4 |
| Flight.TurnTowardShortestPath | src/update.ts:209-231 | a turn stays on the compass, turns at most two octants, takes the shorter way, and arrives when within two |
| Flight.TurnToward | src/update.ts:209-231 | the turning step; TurnTowardShortestPath and TurnWhileCircling state what it does |
| Flight.TurnWhileCircling | src/update.ts:212-230 | a circling plane turns clockwise by two octants, wrapping at 8 |
| Flight.ReachBeacon | src/update.ts:238-246 | a delayed plane standing on its existing beacon `delayedNo` has its hold cleared and, when unmarked, is marked; every other plane is left unchanged |
| Flight.CheckLimits | src/update.ts:292-335 | the plane flies on exactly when its altitude is 1..9 and it is inside the border. Otherwise each failed check has its own message: "xceeded flight ceiling." above 9; on the ground, "landed at the wrong airport." or "landed instead of exiting." on an airport, by the kind of destination, and "crashed on the ground." elsewhere; off the arena, "exited via the wrong exit." or "exited instead of landing." on an exit, by the kind of destination, and "illegally left the flight arena." elsewhere |
| Flight.CheckArrival | src/update.ts:248-290 | a plane arrives exactly at its destination airport on the ground heading its way, or at its destination exit at altitude 9. On the destination airport with another heading it is lost with "landed in the wrong direction."; on the destination exit at another altitude, with "exited at the wrong altitude"; away from its destination the limit checks decide; any other kind of destination is lost |
| Flight.StepPlane | src/update.ts:196-336 | one tick keeps the plane's identity, destination and targets |
| Flight.PropRests | src/update.ts:197-200 | a prop on an odd tick is left unchanged |
| Flight.FuelBurns | src/update.ts:202-205 | a moving plane burns one unit of fuel, and runs out exactly when it goes negative |
| Flight.StepPlaneLosses | src/update.ts:248-334 | after moving, a plane with fuel gets the loss message of the check it fails: wrong heading on its airport, wrong altitude on its exit, the ceiling, the ground (wrong airport, landing instead of exiting, crash) and the border (wrong exit, exiting instead of landing, leaving the arena); a plane that passes them flies on |
| Flight.AltitudeConverges | src/update.ts:207 | the altitude moves one unit toward its target without overshooting |
| Flight.HoldReleased | src/update.ts:238-246 | after a tick a delayed plane is still delayed exactly when it does not stand on beacon `delayedNo`; a released unmarked plane is marked, and other planes keep their status unless they have arrived |
| Flight.HeadingAndPosition | src/update.ts:209-236 | the heading is held while delayed, else turned; the position moves by the new heading's step |
| Flight.TooCloseSymmetric | src/update.ts:109-119 | `tooClose` is symmetric and monotone in the distance |
| Flight.TooClose | src/update.ts:109-119 | `tooClose`; TooCloseSymmetric, FirstCollision and PlacedWellOnSky state what it decides |
| Flight.PlaneName | src/update.ts:140-146 | the name is one letter: upper case for props, lower case for jets, the slot's letter |
| Flight.DirDeg | src/update.ts:148-161 | headings 0..7 are 45 degrees apart, and any other is -1 |
| Spawning.Draw | src/update.ts:17 | a draw of the `randomInteger` stand-in is in its range and consumes one entropy value; an exhausted stream or an empty range draws nothing |
| Spawning.Wrap | src/update.ts:17 | the reduction of an entropy value into a draw's range, part of the stand-in for `randomInteger` that every draw goes through (src/update.ts:17, 22, 32 and 363): the result is below the range's width |
| Spawning.WrapIsMod | src/update.ts:17 | that reduction of the `randomInteger` stand-in is the remainder modulo the range's width |
| Spawning.ScanSlots | src/update.ts:125-137 | the scan finds a slot 0..25 or -1 |
| Spawning.ScanSlotsExhausted | src/update.ts:125-137 | -1 when every candidate is taken |
| Spawning.ScanSlotsFree | src/update.ts:125-137 | a found slot is held by no plane |
| Spawning.ScanSlotsFirst | src/update.ts:125-137 | a found slot is the first free candidate from the cursor |
| Spawning.NextPlane | src/update.ts:121-138 | only the cursor changes; a found slot becomes the cursor |
| Spawning.NextPlaneFree | src/update.ts:123-138 | the slot returned is free |
| Spawning.NextPlaneFull | src/update.ts:123-138 | -1 exactly when all 26 slots are in use |
| Spawning.AllSlotsScanned | src/update.ts:125-126 | the 26 candidates cover every slot |
| Spawning.ExitPlaces | src/update.ts:35 | the exits as start points, in order |
| Spawning.AirportPlaces | src/update.ts:36 | the airports as start points, in order |
| Spawning.PosAndDirFromDest | src/update.ts:71-107 | a start point gives position and heading, altitude 7 at exits and 0 at airports; an index off the list gives the "exit" origin at 0 |
| Spawning.Redraw | src/update.ts:32 | a redrawn start differs from the destination and is in range |
| Spawning.TryOrigins | src/update.ts:29-68 | the slot cursor stays valid |
| Spawning.Take | src/update.ts:44-66 | the slot cursor stays valid |
| Spawning.TryOriginsCrowded | src/update.ts:37-42 | an exit with traffic within 4 is skipped and the next try made |
| Spawning.TryOriginsFree | src/update.ts:44-66 | a free start point ends the loop with the plane taken there |
| Spawning.PlacedWellOnSky | src/update.ts:37-42 | placement depends only on `air` and `ground` |
| Spawning.SpawnedPlacedWell | src/update.ts:44-66 | a taken plane is marked, fully fuelled, in a free slot, at its start point, with its destination, and pushed to `ground` (airport) or `air` (exit) |
| Spawning.TryOriginsPlaced | src/update.ts:23-68 | any plane the loop adds is placed well, with the drawn plane type and the destination drawn before the loop |
| Spawning.TryOriginsKeep | src/update.ts:29-68 | when no plane is added, `air` and `ground` are unchanged |
| Spawning.Spawn | src/update.ts:11-69 | the slot cursor stays valid |
| Spawning.SpawnPlaced | src/update.ts:11-69 | an added plane is placed well with type 0 or 1; otherwise the planes are unchanged |
| Spawning.SpawnStarts | src/update.ts:17-29 | the plane type and destination are drawn first, then the loop runs |
| Updating.Keep | src/update.ts:186 | a filter is no longer than its input |
| Updating.KeepMembers | src/update.ts:186 | a filter keeps exactly the members passing the test |
| Updating.KeepAppend | src/update.ts:186 | filtering distributes over concatenation |
| Updating.KeepPartition | src/update.ts:186-193 | the kept and dropped planes together are the input, as a multiset |
| Updating.KeepCount | src/update.ts:338-345 | their lengths add up to the input's |
| Updating.NosAppend | src/update.ts:127-130 | the slots of a concatenation are the union of the slots |
| Updating.NosMember | src/update.ts:127-130 | a slot is in use exactly when some plane has it |
| Updating.NosPointwise | src/update.ts:196-336 | planes that keep their slots keep the slot multiset |
| Updating.NosKeep | src/update.ts:186-193 | filtering splits the slot multiset |
| Updating.StepAtKeepsIdentity | src/update.ts:196-336 | the tick's step keeps every plane's identity |
| Updating.Fly | src/update.ts:196-336 | the flight loop keeps the number of planes |
| Updating.FlyOutcome | src/update.ts:196-336 | the flight loop steps every plane in turn; the first loss stops it, that plane is reported and the planes after it are untouched |
| Updating.FlyFrame | src/update.ts:196-336 | the loop leaves earlier planes alone and keeps identities |
| Updating.FlyPrefix | src/update.ts:196-336 | the planes before the start are untouched |
| Updating.FlyAdvanced | src/update.ts:196-336 | with no loss, every plane took its step |
| Updating.FlyHalted | src/update.ts:196-336 | a loss reports the first plane lost |
| Updating.FirstInRow | src/update.ts:350-360 | the first plane after `i` too close to plane `i`, or none |
| Updating.FirstCollision | src/update.ts:347-361 | the first too-close pair in loop order, or none exactly when no pair is too close |
| Updating.Conclude | src/update.ts:346-367 | the end of `update`: ConcludeCollides states the collision loss, and TickKeepsSlots that a spawn keeps the slots distinct |
| Updating.FlownSlots | src/update.ts:186-336 | flown planes keep slots 0..25 |
| Updating.TickScores | src/update.ts:176-368 | on success the clock moves on by one and the score grows by the number of arrived planes; the survivors stay in order and no `Gone` plane stays airborne |
| Updating.Tick | src/update.ts:176-368 | `update` as a function; TickScores, TickClearsRunway, ConcludeCollides, TickInParts and TickKeepsSlots state what it does, and Simulation.Simulation.Update proves the in-place method computes it |
| Updating.TickClearsRunway | src/update.ts:185-193 | no plane cleared for take-off stays on the ground |
| Updating.ConcludeCollides | src/update.ts:347-361 | the tick is lost exactly when two airborne planes are within 1 on every axis, naming the pair |
| Updating.TickInParts | src/update.ts:176-368 | a loss in flight ends the tick where the loop stopped; otherwise the collision test and spawn roll run on the settled world |
| Updating.SlotsOkByNos | src/update.ts:123-138 | all slots are in range exactly when the slot multiset is |
| Updating.FewerSlots | src/update.ts:338-345 | removing planes keeps slots in range and unique |
| Updating.AddInFreeSlot | src/update.ts:61-65 | adding a plane in a free slot keeps slots in range and unique |
| Updating.AddInRange | src/update.ts:61-65 | adding a plane with a slot 0..25 keeps slots in range |
| Updating.AddUnshared | src/update.ts:61-65 | adding a plane in a free slot keeps slots unique |
| Updating.NosGrows | src/update.ts:61-65 | an added plane adds its slot |
| Updating.SpawnKeepsSlots | src/update.ts:11-69 | spawning keeps slots in range and unique |
| Updating.FlownNos | src/update.ts:185-336 | take-off and flight keep the multiset of slots |
| Updating.FlightKeepsSlots | src/update.ts:185-345 | take-off, flight and removal keep slots in range and unique |
| Updating.TickKeepsSlots | src/update.ts:176-368 | a whole tick keeps slots in range and unique |
| Updating.ConcludeKeepsSlots | src/update.ts:347-365 | the collision check and the spawn roll keep slots in range and unique, and the cursor valid |
| Simulation.Holds | src/update.ts:128-129 | the scan finds exactly whether some plane has the slot |
| Simulation.Crowds | src/update.ts:39 | the scan finds exactly whether an airborne plane is within 4 of the start |
| Simulation.FindCollision | src/update.ts:347-361 | the nested loops find the first too-close pair |
| Simulation.ScanRow | src/update.ts:350-360 | the inner loop finds the first plane too close to plane `i` |
| Simulation.FirstFree | src/update.ts:125-137 | the loop finds the first free candidate slot |
| Simulation.Simulation.constructor | src/update.ts:121 | no planes, cursor -1 |
| Simulation.Simulation.RandomInteger | src/update.ts:17 | draws one value and changes nothing else |
| Simulation.Simulation.NextPlane | src/update.ts:123-138 | moves the cursor as `NextPlane` does |
| Simulation.Simulation.DrawOrigin | src/update.ts:32 | the redraw loop draws as `Redraw` does |
| Simulation.Simulation.AddPlane | src/update.ts:11-69 | changes the world as `Spawn` does and returns the destination kind of the added plane |
| Simulation.Simulation.TryStarts | src/update.ts:29-68 | the outer loop changes the world as `TryOrigins` does |
| Simulation.Simulation.TryOrigin | src/update.ts:30-66 | one try from index `i` changes the world as `TryOrigins` does |
| Simulation.Simulation.TakeOff | src/update.ts:185-193 | moves the planes cleared for take-off from `ground` to the end of `air`, in order |
| Simulation.Simulation.FlyPlanes | src/update.ts:196-336 | the flight loop updates `air` in place as `Fly` does |
| Simulation.Simulation.RemoveGone | src/update.ts:338-345 | removes the arrived planes and counts them |
| Simulation.Simulation.Conclude | src/update.ts:347-367 | the collision test and spawn roll as `Conclude` |
| Simulation.Simulation.Depart | src/update.ts:185-336 | take-off and flight as `Flown` |
| Simulation.Simulation.Settle | src/update.ts:185-345 | take-off, flight and, with no loss, removal of arrivals |
| Simulation.Simulation.Advance | src/update.ts:176-368 | the tick as `Tick` |
| Simulation.Simulation.Update | src/update.ts:176-368 | `update` changes the world as `Tick` and keeps slots in range and unique |
| Mutators.JsRem | src/input.ts:339 | JavaScript's `%`: the remainder takes the sign of the dividend |
| Mutators.FindPlane | src/input.ts:570-575 | the first plane of `air` in the slot; when `air` holds none, the first plane of `ground` in the slot; none exactly when neither holds one |
| Mutators.SetPlane | src/input.ts:296-306 | selects a copy of the plane named by the letter, or "Unknown Plane" with nothing changed |
| Mutators.Turn | src/input.ts:308-313 | refused exactly for a plane on the ground |
| Mutators.Circle | src/input.ts:315-323 | an airborne plane's target heading becomes 8; refused on the ground |
| Mutators.Left | src/input.ts:325-334 | records a left turn and aims one octant anticlockwise |
| Mutators.Right | src/input.ts:336-342 | records a right turn and aims one octant clockwise |
| Mutators.LeftNinety | src/input.ts:344-352 | aims two octants anticlockwise |
| Mutators.RightNinety | src/input.ts:354-359 | aims two octants clockwise |
| Mutators.LeftRightCancel | src/input.ts:325-359 | left and right turns stay on the compass and undo each other |
| Mutators.LastTurnWins | src/input.ts:325-359 | turns count from the current heading, so the last turn alone decides |
| Mutators.ToDir | src/input.ts:499-504 | aims at the compass heading of the letter |
| Mutators.RelDir | src/input.ts:506-523 | after a left or right turn, aims that many octants away; otherwise nothing changes |
| Mutators.SetAlt | src/input.ts:434-446 | sets the target altitude; "Already at that altitude" when level there |
| Mutators.SetRelAlt | src/input.ts:448-470 | climbs or descends by the digits from the current altitude, only the target altitude changing; a change of 0 is refused, and a target outside 0..9 is an error (too low or too high) |
| Mutators.Targets | src/input.ts:475-482 | the positions of the beacons, exits or airports the kind names |
| Mutators.Benum | src/input.ts:472-497 | records the number; the number must index a target of the chosen kind, else the error names the kind; the selected plane is aimed by `heading` at that target, and nothing else changes |
| Arith.Sign | src/input.ts:373-374 | `Math.sign` on integers: -1, 0 or 1, and the sign times the value is the value's magnitude |
| Mutators.DelayB | src/input.ts:361-407 | holds the plane until beacon n, which must exist and lie along its current heading; with a target named earlier it then aims at that target, and reports a missing target, a target at the beacon itself or a heading already taken with the source's messages |
| Mutators.Mark | src/input.ts:525-536 | marks an airborne plane; refused on the ground or when already marked |
| Mutators.Unmark | src/input.ts:538-549 | unmarks an airborne plane; refused on the ground or when already unmarked |
| Mutators.Ignore | src/input.ts:551-562 | ignores an airborne plane; refused on the ground or when already ignored |
| Mutators.ClimbThenRelAlt | src/input.ts:424-427 | after `climb`, a relative altitude raises the target |
| Mutators.DescendThenRelAlt | src/input.ts:429-432 | after `descend`, a relative altitude lowers the target |
| Mutators.KindThenNumber | src/input.ts:409-422 | a target kind then a number must index such a target, else the error names the kind |
| Commands.FirstMatch | src/input.ts:200-203 | the first rule accepting the key, or none exactly when none does |
| Commands.RulesOf | src/input.ts:43-162 | the `st` table; RuleTargets, RuleTokens, CompassLetters, RuleHeadings, RuleActions and RuleFacts state its contents |
| Commands.FirstMatchAt | src/input.ts:200-203 | the rule at `i` is the first match when it matches and none before it does |
| Commands.RenderFills | src/input.ts:186 | "%c" is replaced by the key |
| Commands.Render | src/input.ts:186 | what `push` shows for a rule; RenderFills and RenderPlain state it |
| Commands.RenderPlain | src/input.ts:186 | a text without "%c" is shown as is |
| Commands.RuleTargets | src/input.ts:43-162 | no rule leads back to state 0, and only Enter (or the empty key in the help state) completes a command |
| Commands.RuleTokens | src/input.ts:43-162 | no rule names the class "other" or the erase and kill keys |
| Commands.CompassLetters | src/input.ts:43-162 | the compass letters in order |
| Commands.RuleHeadings | src/input.ts:43-162 | the rules that turn to a heading accept exactly the compass letters |
| Commands.TurnHeadings | src/input.ts:43-162 | the turn state turns only on a compass letter |
| Commands.DelayHeadings | src/input.ts:43-162 | the delay state turns only on a compass letter |
| Commands.OtherHeadings | src/input.ts:43-162 | no other state turns to a heading |
| Commands.RuleActions | src/input.ts:43-162 | only state 0 selects a plane, and the number rules accept the class "number" |
| Commands.RuleFacts | src/input.ts:43-162 | the table facts together |
| Commands.MatchesKey | src/input.ts:200-203 | a rule naming a key matches that key alone |
| Commands.StepKeepsPath | src/input.ts:192-213 | taking a key keeps the stack a path through the table |
| Commands.Step | src/input.ts:192-213 | `processToken` on the stack; StepKeepsPath, EraseUndoesKey, IgnoredKey, StepShows and MatchedRule state what it does, and CommandProcessor.TakeKey proves the method computes it |
| Commands.PathPrefix | src/input.ts:176-182 | a prefix of a path is a path |
| Commands.PathPush | src/input.ts:184-190 | pushing the rule the state offers keeps a path |
| Commands.PathKeepsOld | src/input.ts:184-190 | pushing leaves the earlier entries as they were |
| Commands.EraseUndoesKey | src/input.ts:192-213 | the erase key undoes an accepted key |
| Commands.IgnoredKey | src/input.ts:192-213 | a key no rule accepts changes nothing |
| Commands.CompletionNeedsEnter | src/input.ts:192-213 | a command completes only on Enter (or the empty key in the help state), and then no key is accepted |
| Commands.ShownAppend | src/input.ts:228-230 | pushing appends the entry's text to the display |
| Commands.StepShows | src/input.ts:184-230 | taking a key shows the rule's text with the key in place of "%c" |
| Commands.Visible | src/input.ts:232-237 | every rule it keeps is one of the table's other than "?", and every such rule is kept |
| Commands.VisibleAppend | src/input.ts:232-237 | dropping the help rule distributes over concatenation, so the order of the table is kept |
| Commands.VisibleSnoc | src/input.ts:232-237 | a rule added at the end of a table shows up at the end, unless it is the help rule |
| Commands.VisibleInOrder | src/input.ts:232-237 | the kept rules are the table's rules at exactly its positions other than "?", in increasing order, each once |
| Commands.AscendingOrders | src/input.ts:232-237 | ascending positions are in order pairwise, which is the sense of "in increasing order" above |
| Commands.HintsOf | src/input.ts:232-237 | `options`: a hint is shown exactly when it is that of one of the state's rules other than "?" |
| Commands.HintsInOrder | src/input.ts:232-237 | the hints are those of the state's rules at exactly its positions other than "?", in table order, each once |
| Commands.HintsShown | src/input.ts:232-237 | the hints are exactly the visible rules |
| Commands.MatchedRule | src/input.ts:200-203 | the rule a key selects is in the state's table and accepts the key |
| Commands.TargetKnown | src/input.ts:239-255 | on a path, a state asking for a target number knows the kind |
| Commands.TargetOf | src/input.ts:239-255 | `benumTarget`; TargetKnown, TargetKnownOnPath and BenumHint state what it gives |
| Commands.BenumHint | src/input.ts:43-162 | states 5 and 8 offer a number |
| Commands.TargetKnownOnPath | src/input.ts:239-255 | the kind is a beacon after "at" |
| Commands.LastStep | src/input.ts:192-213 | the last entry of a path is a rule of the state before it |
| Commands.PathTop | src/input.ts:215-222 | on a path the state is one of the table's, and state 0 is left by the first key |
| Commands.TopOf | src/input.ts:215-222 | `topState`; PathTop and LastStep state it |
| Commands.DigitsOnly | src/input.ts:164-165 | keys of the class "number" are digits |
| Commands.TableAdmits | src/input.ts:43-162 | every rule hands its action a key that suits it |
| Commands.PathAdmits | src/input.ts:43-213 | every entry of a path suits its action |
| Commands.ApplyDerives | src/input.ts:257-293 | any action but `setplane` keeps the planes and changes the selected plane only in what commands set |
| Commands.SteeringDerives | src/input.ts:308-359 | steering actions change at most the target heading and the hold |
| Commands.TargetingDerives | src/input.ts:361-523 | targeting changes at most the target heading and the hold |
| Commands.SettingDerives | src/input.ts:424-562 | the other actions change at most the target altitude and status |
| Commands.ApplyTracks | src/input.ts:257-293 | the selected plane stays a derivative of the same plane |
| Commands.ReplayTracks | src/input.ts:267-283 | replaying actions none of which is `setplane` keeps tracking that plane |
| Commands.OnlyFirstSelects | src/input.ts:43-162 | only the first entry of a path can select a plane |
| Commands.CommandChangesNamedPlane | src/input.ts:257-293 | a command that changes a plane changes the plane its first key names, only in target heading, target altitude, status and hold |
| Commands.FindRule | src/input.ts:200-203 | the scan finds `FirstMatch` |
| Commands.CommandProcessor.constructor | src/input.ts:167-170 | an empty stack, a path |
| Commands.CommandProcessor.TopState | src/input.ts:215-222 | on a path the state is -1..12, and not 0 once a key is taken |
| Commands.CommandProcessor.BenumTarget | src/input.ts:239-255 | the kind is known in states 5 and 8 |
| Commands.CommandProcessor.Rezero | src/input.ts:172-174 | empties the stack |
| Commands.CommandProcessor.Pop | src/input.ts:176-182 | drops the last entry; false when there was none |
| Commands.CommandProcessor.Push | src/input.ts:184-190 | appends the rule's entry |
| Commands.CommandProcessor.TakeKey | src/input.ts:200-211 | takes the first matching rule, or ignores the key |
| Commands.CommandProcessor.ProcessToken | src/input.ts:192-213 | the stack takes one step; the result says whether the command is complete; the stack stays a path |
| Commands.CommandProcessor.ApplyCommand | src/input.ts:257-293 | before completion nothing happens; after it the actions are replayed and the stack emptied |
| Commands.Run | src/input.ts:267-283 | the loop replays the actions, stopping at the first error |

## Left out

- `GAMES`, `defaultGame`, `listGames` and the "No game file for" error of src/games.ts (lines 11-40 and the file lookup in `loadGame`): the level's text is a parameter, so which built-in file it comes from is not modelled.
- The `default:` branches of the keyword switches in `loadGame`: the keywords are datatypes, so those branches cannot be reached.
- Numbers beyond 2^53: JavaScript's `Number` loses precision there. Integers here are unbounded, and the 32-bit arithmetic of src/random.ts is written out exactly.
- Floating point in general: every quantity the core computes is an integer.
- `randomInteger` is not part of this model. It is an entropy sequence instead, and each draw consumes one value, reduced modulo its range. When the entropy runs out, a draw fails and the operation stops. The `while` that redraws a start point in `addPlane` therefore ends in the model, while the source would spin forever with a single start point.
- `dirFromDxDy` (src/input.ts:564-568) uses `Math.atan2`. It is the `heading` parameter of `Benum` and `DelayB`.
- Object identity of planes: `update` changes the plane objects of `air` in place and finds them again with `indexOf`, while a command changes a copy and hands it back. Here planes are values and a plane is identified by its position in `air` or `ground`.
- `toLowerCase` beyond ASCII: only ASCII letters reach it.
- Non-digit numeric tokens and `NaN`: every key of the class "number" is a digit string.
- The regular expressions' `lastIndex` after an exception: the loops never throw.
- `skipState` and the help display (`commandoptions.tsx`): both are presentation only.
- Mutators.Climb, Mutators.Descend, Mutators.SelectBeacon, Mutators.SelectExit and Mutators.SelectAirport: these one-field setters carry no contract of their own. Their effect is stated by ClimbThenRelAlt, DescendThenRelAlt and KindThenNumber.
- PointLists.DirPointAt: the `dirNo` failure inside `parsePointList` cannot occur, because the pattern only admits compass letters, so that error path is not modelled.
- Checks.CheckEdgeDir: its contract states the message and the missing-heading case. The accepted headings are stated by EdgeDirIsInward and CornersAdmitOneHeading.
- Spawning.TryOrigins, Spawning.Take and Spawning.Spawn state only the cursor invariant. What they add is stated by TryOriginsPlaced, TryOriginsKeep, SpawnedPlacedWell and SpawnPlaced.
- Updating.Keep: its contract states only the length. The content is stated by KeepMembers, KeepAppend and KeepPartition.
- Commands.CommandProcessor.ApplyCommand: requires the stack to be a path through the table. The constructor establishes that, and ProcessToken keeps it for every key except the literal strings "alpha" and "number". Those two would reach an action with a key that is not a letter or digits, where the source's `Number` gives `NaN`, which is not modelled.
- Commands.CommandProcessor.ProcessToken: keeping the stack a path is stated for every key except those two strings, for the same reason.
- Rendering: the view components, timers, the clock shown on screen and key-event handling are outside the core.
