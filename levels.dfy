/**
 * Loading a level (`loadGame` in src/games.ts), from the text of the level
 * file onward: the non-blank trimmed lines are gathered into statements ending
 * in `;`, each statement either defines one of the four scalars or adds
 * beacons, exits, lines or airports, and the finished screen must have every
 * scalar and at least two ways in.
 */
module Levels {
  import opened Wrappers
  import opened Model
  import opened Text
  import opened Checks
  import opened PointLists
  import opened Arith

  // The statements of a level file.

  /**
   * `raw.split("\n").map((line) => line.trim()).filter(Boolean)` on the pieces
   * of the split: each piece trimmed, the empty ones dropped.
   */
  function CleanLines(parts: seq<string>): (r: seq<string>)
    ensures |r| <= |parts|
    ensures forall k :: 0 <= k < |r| ==> r[k] != [] && !IsSpace(r[k][0]) && !IsSpace(r[k][|r[k]| - 1])
    decreases |parts|
  {
    if parts == [] then []
    else
      var t := Trim(parts[0]);
      if t == [] then CleanLines(parts[1..]) else [t] + CleanLines(parts[1..])
  }

  /** The non-blank lines of a level file, trimmed. */
  function SourceLines(raw: string): seq<string> {
    CleanLines(Split(raw, '\n'))
  }

  /**
   * The statements the loader sees: lines are gathered (after those already
   * in `accum`) until one ends with `;`, and the gathered lines are joined with
   * one space; lines left over after the last `;` are never looked at.
   */
  function Statements(lines: seq<string>, accum: seq<string>): seq<string>
    decreases |lines|
  {
    if lines == [] then []
    else
      var gathered := accum + [lines[0]];
      if EndsWith(lines[0], ';') then [Join(gathered, " ")] + Statements(lines[1..], [])
      else Statements(lines[1..], gathered)
  }

  /** Joined parts end as their last part ends. */
  lemma {:induction false} JoinEndsWith(parts: seq<string>, sep: string, c: char)
    requires parts != [] && EndsWith(parts[|parts| - 1], c)
    ensures EndsWith(Join(parts, sep), c)
    decreases |parts|
  {
    if |parts| > 1 {
      JoinEndsWith(parts[1..], sep, c);
      var rest := Join(parts[1..], sep);
      assert Join(parts, sep) == parts[0] + sep + rest;
      assert (parts[0] + sep + rest)[|parts[0] + sep + rest| - 1] == rest[|rest| - 1];
    }
  }

  /** Every statement ends with `;`. */
  lemma {:induction false} StatementsEndWithSemicolon(lines: seq<string>, accum: seq<string>)
    ensures forall k :: 0 <= k < |Statements(lines, accum)| ==> EndsWith(Statements(lines, accum)[k], ';')
    decreases |lines|
  {
    if lines != [] {
      var gathered := accum + [lines[0]];
      if EndsWith(lines[0], ';') {
        JoinEndsWith(gathered, " ", ';');
        StatementsEndWithSemicolon(lines[1..], []);
      } else {
        StatementsEndWithSemicolon(lines[1..], gathered);
      }
    }
  }

  /** When every line ends with `;`, each line is a statement of its own. */
  lemma {:induction false} StatementsOfTerminatedLines(lines: seq<string>)
    requires forall k :: 0 <= k < |lines| ==> EndsWith(lines[k], ';')
    ensures Statements(lines, []) == lines
    decreases |lines|
  {
    if lines != [] {
      assert [] + [lines[0]] == [lines[0]];
      StatementsOfTerminatedLines(lines[1..]);
      assert lines == [lines[0]] + lines[1..];
    }
  }

  /** A line without `;` is joined, after one space, with the line that ends the statement. */
  lemma {:induction false} StatementSpansLines(a: string, b: string, rest: seq<string>)
    requires !EndsWith(a, ';') && EndsWith(b, ';')
    ensures Statements([a, b] + rest, []) == [a + " " + b] + Statements(rest, [])
  {
    var lines := [a, b] + rest;
    assert lines[0] == a && lines[1..] == [b] + rest;
    assert ([b] + rest)[0] == b && ([b] + rest)[1..] == rest;
    assert [] + [a] + [b] == [a, b];
    assert Join([a, b], " ") == a + " " + Join([b], " ");
  }

  /** Lines after the last `;` make no statement. */
  lemma {:induction false} UnterminatedLinesDropped(lines: seq<string>, accum: seq<string>)
    requires forall k :: 0 <= k < |lines| ==> !EndsWith(lines[k], ';')
    ensures Statements(lines, accum) == []
    decreases |lines|
  {
    if lines != [] {
      UnterminatedLinesDropped(lines[1..], accum + [lines[0]]);
    }
  }

  // The two statement patterns.

  /** The scalars a level defines. */
  datatype Scalar = Update | NewPlane | Width | Height

  function ScalarName(kw: Scalar): string {
    match kw
    case Update => "update"
    case NewPlane => "newplane"
    case Width => "width"
    case Height => "height"
  }

  /** The keyword `s` starts with, of `update|newplane|width|height`; no keyword is a prefix of another. */
  function ScalarAt(s: string): (r: Option<Scalar>)
    ensures r.Some? ==> StartsWith(s, ScalarName(r.value)) && s[0] in "unwh"
    ensures r.None? ==> forall kw: Scalar :: !StartsWith(s, ScalarName(kw))
  {
    if StartsWith(s, "update") then Some(Update)
    else if StartsWith(s, "newplane") then Some(NewPlane)
    else if StartsWith(s, "width") then Some(Width)
    else if StartsWith(s, "height") then Some(Height)
    else None
  }

  /** A statement that starts with a keyword is recognised as that keyword. */
  lemma {:induction false} ScalarAtName(kw: Scalar, rest: string)
    ensures ScalarAt(ScalarName(kw) + rest) == Some(kw)
  {
    var s := ScalarName(kw) + rest;
    StartsWithIsPrefix(s, ScalarName(kw));
    assert s[0] == ScalarName(kw)[0];
  }

  /**
   * DEFINITIONS_RE, `^(update|newplane|width|height)\s*=\s*(\d+)\s*;$`, on a
   * whole statement: the scalar and `Number` of its digits.
   */
  function MatchDefinition(s: string): (r: Option<(Scalar, nat)>)
    ensures r.Some? ==> StartsWith(s, ScalarName(r.value.0)) && EndsWith(s, ';')
  {
    match ScalarAt(s)
    case None => None
    case Some(kw) =>
      var a := SkipSpace(s, |ScalarName(kw)|);
      if a == |s| || s[a] != '=' then None
      else
        var b := SkipSpace(s, a + 1);
        var c := SkipDigits(s, b);
        var d := SkipSpace(s, c);
        if b == c || d + 1 != |s| || s[d] != ';' then None
        else Some((kw, NumberIn(s, b, c)))
  }

  /** A definition as a level writes it: `kw = n;`. */
  function RenderDefinition(kw: Scalar, n: nat): string {
    ScalarName(kw) + " = " + Decimal(n) + ";"
  }

  /** Where a written definition puts its keyword, its `=`, its digits and its `;`. */
  lemma {:induction false} DefinitionLayout(kw: Scalar, n: nat)
    ensures var s, k, digits := RenderDefinition(kw, n), |ScalarName(kw)|, Decimal(n);
      && |s| == k + 4 + |digits| && s[k] == ' ' && s[k + 1] == '=' && s[k + 2] == ' ' && s[|s| - 1] == ';'
      && s[k + 3..|s| - 1] == digits && ScalarAt(s) == Some(kw)
  {
    var name, digits := ScalarName(kw), Decimal(n);
    ScalarAtName(kw, " = " + digits + ";");
    var s := RenderDefinition(kw, n);
    assert s == name + " = " + digits + ";";
    assert s[|name| + 3..|s| - 1] == digits;
  }

  /** `kw = n;` as a level writes it is read back as that definition. */
  lemma {:induction false} DefinitionRoundTrip(kw: Scalar, n: nat)
    ensures MatchDefinition(RenderDefinition(kw, n)) == Some((kw, n))
  {
    var s, k, digits := RenderDefinition(kw, n), |ScalarName(kw)|, Decimal(n);
    DefinitionLayout(kw, n);
    var b, c := k + 3, |s| - 1;
    SkipOneSpace(s, k);
    SkipOneSpace(s, k + 2);
    forall m | b <= m < c
      ensures IsDigit(s[m])
    {
      assert s[m] == s[b..c][m - b] == digits[m - b];
    }
    SkipDigitsRun(s, b, c);
    SkipNoSpace(s, c);
    NumberInSlice(s, b, c);
    NumberOfDecimal(n);
  }

  /** The entity statements. */
  datatype Entity = BeaconList | ExitList | LineList | AirportList

  function EntityName(kind: Entity): string {
    match kind
    case BeaconList => "beacon"
    case ExitList => "exit"
    case LineList => "line"
    case AirportList => "airport"
  }

  /** The keyword `s` starts with, of `beacon|exit|line|airport`. */
  function EntityAt(s: string): (r: Option<Entity>)
    ensures r.Some? ==> StartsWith(s, EntityName(r.value)) && s[0] in "bela"
    ensures r.None? ==> forall kind: Entity :: !StartsWith(s, EntityName(kind))
  {
    if StartsWith(s, "beacon") then Some(BeaconList)
    else if StartsWith(s, "exit") then Some(ExitList)
    else if StartsWith(s, "line") then Some(LineList)
    else if StartsWith(s, "airport") then Some(AirportList)
    else None
  }

  /** A statement that starts with an entity keyword is recognised as that keyword. */
  lemma {:induction false} EntityAtName(kind: Entity, rest: string)
    ensures EntityAt(EntityName(kind) + rest) == Some(kind)
  {
    var s := EntityName(kind) + rest;
    StartsWithIsPrefix(s, EntityName(kind));
    assert s[0] == EntityName(kind)[0];
  }

  /** No line terminator in `s[lo..hi]`: the class `.` matches all of it. */
  predicate NoTerminatorIn(s: string, lo: nat, hi: nat)
    requires lo <= hi <= |s|
  {
    forall m :: lo <= m < hi ==> !IsLineTerminator(s[m])
  }

  /**
   * LINES_RE, `^(beacon|exit|line|airport)\s*:(.*)?;$`, on a whole statement:
   * the entity and the text between `:` and the final `;` (`lineMatch[2] ?? ""`).
   */
  function MatchEntity(s: string): (r: Option<(Entity, string)>)
    ensures r.Some? ==> StartsWith(s, EntityName(r.value.0)) && EndsWith(s, ';')
  {
    match EntityAt(s)
    case None => None
    case Some(kind) =>
      var a := SkipSpace(s, |EntityName(kind)|);
      if a == |s| || s[a] != ':' || a + 1 == |s| || s[|s| - 1] != ';' || !NoTerminatorIn(s, a + 1, |s| - 1) then None
      else Some((kind, s[a + 1..|s| - 1]))
  }

  /** An entity statement as a level writes it: `kind:body;`. */
  function RenderEntity(kind: Entity, body: string): string {
    EntityName(kind) + ":" + body + ";"
  }

  /** Where a written entity statement puts its keyword, its `:`, its body and its `;`. */
  lemma {:induction false} EntityLayout(kind: Entity, body: string)
    ensures var s, k := RenderEntity(kind, body), |EntityName(kind)|;
      && |s| == k + 2 + |body| && s[k] == ':' && s[|s| - 1] == ';'
      && s[k + 1..|s| - 1] == body && EntityAt(s) == Some(kind)
  {
    EntityAtName(kind, ":" + body + ";");
    var s := RenderEntity(kind, body);
    assert s[|EntityName(kind)| + 1..|s| - 1] == body;
  }

  /** `kind:body;` is read back as that entity statement, for a body without line terminators. */
  lemma {:induction false} EntityRoundTrip(kind: Entity, body: string)
    requires forall m :: 0 <= m < |body| ==> !IsLineTerminator(body[m])
    ensures MatchEntity(RenderEntity(kind, body)) == Some((kind, body))
  {
    var s, k := RenderEntity(kind, body), |EntityName(kind)|;
    EntityLayout(kind, body);
    SkipNoSpace(s, k);
    forall m | k + 1 <= m < |s| - 1
      ensures !IsLineTerminator(s[m])
    {
      assert s[m] == s[k + 1..|s| - 1][m - k - 1] == body[m - k - 1];
    }
  }

  /** The two patterns never both match: their keywords start with different letters. */
  lemma {:induction false} PatternsExclusive(s: string)
    ensures MatchDefinition(s).None? || MatchEntity(s).None?
  {
    if ScalarAt(s).Some? {
      assert s[0] in "unwh";
      assert EntityAt(s).None?;
    }
  }

  // The screen under construction.

  /** `Partial<ScreenDefinition>` as the loader builds it: the entity lists start empty. */
  datatype Partial = Partial(
    width: Option<int>,
    height: Option<int>,
    updateSeconds: Option<int>,
    newPlaneTime: Option<int>,
    exits: seq<Exit>,
    lines: seq<Line>,
    beacons: seq<Beacon>,
    airports: seq<Airport>)

  const EMPTY: Partial := Partial(None, None, None, None, [], [], [], [])

  /** `screenIsNotPartial`: every field defined (the lists always are). */
  predicate ScreenIsNotPartial(p: Partial) {
    p.width.Some? && p.height.Some? && p.updateSeconds.Some? && p.newPlaneTime.Some?
  }

  /** The screen a complete partial screen stands for. */
  function Complete(p: Partial): (s: ScreenDefinition)
    requires ScreenIsNotPartial(p)
    ensures s.width == p.width.value && s.height == p.height.value
    ensures s.updateSeconds == p.updateSeconds.value && s.newPlaneTime == p.newPlaneTime.value
    ensures s.exits == p.exits && s.lines == p.lines && s.beacons == p.beacons && s.airports == p.airports
  {
    ScreenDefinition(p.width.value, p.height.value, p.updateSeconds.value, p.newPlaneTime.value,
                     p.exits, p.lines, p.beacons, p.airports)
  }

  function Get(p: Partial, kw: Scalar): Option<int> {
    match kw
    case Update => p.updateSeconds
    case NewPlane => p.newPlaneTime
    case Width => p.width
    case Height => p.height
  }

  /** The least value a scalar may take. */
  function Minimum(kw: Scalar): int {
    if kw == Width || kw == Height then 3 else 1
  }

  /** The complaint about a value below the minimum; `newplane` reuses the one for `update`. */
  function TooSmall(kw: Scalar): string {
    match kw
    case Update => "'update' is too small."
    case NewPlane => "'update' is too small."
    case Width => "'width' is too small."
    case Height => "'height' is too small."
  }

  /** A definition statement: a scalar may be set once, and not below its minimum. */
  function Define(p: Partial, kw: Scalar, value: nat): (r: Result<Partial, string>)
    ensures r.Success? <==> Get(p, kw).None? && value >= Minimum(kw)
    ensures Get(p, kw).Some? ==> r == Failure("Redefinition of '" + ScalarName(kw) + "'.")
    ensures Get(p, kw).None? && value < Minimum(kw) ==> r == Failure(TooSmall(kw))
    ensures r.Success? ==> Get(r.value, kw) == Some(value)
                           && (forall other :: other != kw ==> Get(r.value, other) == Get(p, other))
                           && r.value.exits == p.exits && r.value.lines == p.lines
                           && r.value.beacons == p.beacons && r.value.airports == p.airports
  {
    if Get(p, kw).Some? then Failure("Redefinition of '" + ScalarName(kw) + "'.")
    else if value < Minimum(kw) then Failure(TooSmall(kw))
    else
      match kw
      case Update => Success(p.(updateSeconds := Some(value)))
      case NewPlane => Success(p.(newPlaneTime := Some(value)))
      case Width => Success(p.(width := Some(value)))
      case Height => Success(p.(height := Some(value)))
  }

  /** The first failing check over `xs`, in order, as `map` with a throwing callback meets it. */
  function CheckEach<T>(xs: seq<T>, check: T -> Outcome<string>): (r: Outcome<string>)
    ensures r.Pass? <==> forall k :: 0 <= k < |xs| ==> check(xs[k]).Pass?
    ensures r.Fail? ==> exists k :: 0 <= k < |xs| && check(xs[k]) == r && forall j :: 0 <= j < k ==> check(xs[j]).Pass?
    decreases |xs|
  {
    if xs == [] then Pass
    else if check(xs[0]).Fail? then check(xs[0])
    else
      var r := CheckEach(xs[1..], check);
      assert forall k :: 1 <= k < |xs| ==> xs[k] == xs[1..][k - 1];
      if r.Fail? then
        var k :| 0 <= k < |xs[1..]| && check(xs[1..][k]) == r && forall j :: 0 <= j < k ==> check(xs[1..][j]).Pass?;
        assert check(xs[k + 1]) == r;
        r
      else r
  }

  /** `xs.map(f)`. */
  function Map<A, B>(xs: seq<A>, f: A -> B): (ys: seq<B>)
    ensures |ys| == |xs| && forall k :: 0 <= k < |xs| ==> ys[k] == f(xs[k])
  {
    seq(|xs|, k requires 0 <= k < |xs| => f(xs[k]))
  }

  /** The checks an exit passes: on an edge, with a heading into the arena. */
  function CheckExit(width: int, height: int, pt: ScreenPos): (r: Outcome<string>)
    ensures r.Pass? <==> CheckEdge(width, height, pt.x, pt.y).Pass? && CheckEdgeDir(width, height, pt.x, pt.y, pt.dir).Pass?
  {
    match CheckEdge(width, height, pt.x, pt.y)
    case Fail(e) => Fail(e)
    case Pass => CheckEdgeDir(width, height, pt.x, pt.y, pt.dir)
  }

  /** `pt.dir ?? 0`. */
  function DirOrZero(pt: ScreenPos): int {
    match pt.dir
    case Some(d) => d
    case None => 0
  }

  function AsBeacon(pt: ScreenPos): Beacon {
    Beacon(pt.x, pt.y)
  }

  function AsExit(pt: ScreenPos): Exit {
    Exit(pt.x, pt.y, DirOrZero(pt))
  }

  function AsAirport(pt: ScreenPos): Airport {
    Airport(pt.x, pt.y, DirOrZero(pt))
  }

  /** Beacons read from a statement: each must lie strictly inside the border. */
  function AddBeacons(p: Partial, pts: seq<ScreenPos>): (r: Result<Partial, string>)
    requires ScreenIsNotPartial(p)
    ensures r.Success? ==> r.value == p.(beacons := r.value.beacons) && p.beacons <= r.value.beacons
  {
    var w, h := p.width.value, p.height.value;
    match CheckEach(pts, (pt: ScreenPos) => CheckPoint(w, h, pt.x, pt.y))
    case Fail(e) => Failure(e)
    case Pass => Success(p.(beacons := p.beacons + Map(pts, AsBeacon)))
  }

  /** Exits read from a statement: each on an edge, heading into the arena. */
  function AddExits(p: Partial, pts: seq<ScreenPos>): (r: Result<Partial, string>)
    requires ScreenIsNotPartial(p)
    ensures r.Success? ==> r.value == p.(exits := r.value.exits) && p.exits <= r.value.exits
  {
    var w, h := p.width.value, p.height.value;
    match CheckEach(pts, (pt: ScreenPos) => CheckExit(w, h, pt))
    case Fail(e) => Failure(e)
    case Pass => Success(p.(exits := p.exits + Map(pts, AsExit)))
  }

  /** Lines read from a statement: each on the screen, straight or diagonal. */
  function AddLines(p: Partial, ls: seq<Line>): (r: Result<Partial, string>)
    requires ScreenIsNotPartial(p)
    ensures r.Success? ==> r.value == p.(lines := r.value.lines) && p.lines <= r.value.lines
  {
    var w, h := p.width.value, p.height.value;
    match CheckEach(ls, (l: Line) => CheckLine(w, h, l))
    case Fail(e) => Failure(e)
    case Pass => Success(p.(lines := p.lines + ls))
  }

  /** Airports read from a statement: each strictly inside the border. */
  function AddAirports(p: Partial, pts: seq<ScreenPos>): (r: Result<Partial, string>)
    requires ScreenIsNotPartial(p)
    ensures r.Success? ==> r.value == p.(airports := r.value.airports) && p.airports <= r.value.airports
  {
    var w, h := p.width.value, p.height.value;
    match CheckEach(pts, (pt: ScreenPos) => CheckPoint(w, h, pt.x, pt.y))
    case Fail(e) => Failure(e)
    case Pass => Success(p.(airports := p.airports + Map(pts, AsAirport)))
  }

  /**
   * An entity statement on a complete screen: its points or lines are read
   * from the text after `:`, every one is checked (the first failure is the
   * error), and they are appended to their list.
   */
  function AddEntities(p: Partial, kind: Entity, list: string): (r: Result<Partial, string>)
    requires ScreenIsNotPartial(p)
    ensures r.Success? ==> && r.value.width == p.width && r.value.height == p.height
                           && r.value.updateSeconds == p.updateSeconds && r.value.newPlaneTime == p.newPlaneTime
    ensures r.Success? ==> && p.exits <= r.value.exits && p.lines <= r.value.lines
                           && p.beacons <= r.value.beacons && p.airports <= r.value.airports
  {
    match kind
    case BeaconList => AddBeacons(p, Points(list, 0, false))
    case ExitList => AddExits(p, Points(list, 0, true))
    case LineList => AddLines(p, Lines(list, 0))
    case AirportList => AddAirports(p, Points(list, 0, true))
  }

  /** The complaint about an entity statement before every scalar is defined. */
  const UNDEFINED: string := "width, height, update, and newplane must be defined"

  /** One statement of level `name`: a definition, an entity statement, or an error. */
  function Statement(name: string, p: Partial, decl: string): (r: Result<Partial, string>)
  {
    match MatchDefinition(decl)
    case Some(def) => Define(p, def.0, def.1)
    case None =>
      match MatchEntity(decl)
      case Some(ent) =>
        if !ScreenIsNotPartial(p) then Failure(UNDEFINED)
        else AddEntities(p, ent.0, ent.1)
      case None => Failure("Unexpected line in " + name + ": " + decl)
  }

  /** The statements in order, stopping at the first error. */
  function Declarations(name: string, p: Partial, stmts: seq<string>): Result<Partial, string>
    decreases |stmts|
  {
    if stmts == [] then Success(p)
    else
      match Statement(name, p, stmts[0])
      case Failure(e) => Failure(e)
      case Success(q) => Declarations(name, q, stmts[1..])
  }

  /** `loadGame` on the text `raw` of level `name`. */
  function Load(name: string, raw: string): Result<ScreenDefinition, string> {
    match Declarations(name, EMPTY, Statements(SourceLines(raw), []))
    case Failure(e) => Failure(e)
    case Success(p) =>
      if !ScreenIsNotPartial(p) then Failure(UNDEFINED)
      else if |p.exits| + |p.airports| < 2 then Failure("Need at least 2 airports and/or exits.")
      else Success(Complete(p))
  }

  /**
   * `loadGame`: gather lines in `accum` until one ends with `;`, run the
   * statement they make against the screen, and check the screen at the end.
   */
  method LoadGame(name: string, raw: string) returns (r: Result<ScreenDefinition, string>)
    ensures r == Load(name, raw)
  {
    var lines := SourceLines(raw);
    var screen := EMPTY;
    var accum: seq<string> := [];
    var i := 0;
    while i < |lines|
      invariant i <= |lines|
      invariant Declarations(name, screen, Statements(lines[i..], accum))
             == Declarations(name, EMPTY, Statements(lines, []))
    {
      var line := lines[i];
      assert lines[i..][0] == line && lines[i..][1..] == lines[i + 1..];
      accum := accum + [line];
      i := i + 1;
      if !EndsWith(line, ';') {
        continue;
      }
      var declaration := Join(accum, " ");
      accum := [];
      var next := Statement(name, screen, declaration);
      if next.Failure? {
        return Failure(next.error);
      }
      screen := next.value;
    }
    assert lines[i..] == [];
    if !ScreenIsNotPartial(screen) {
      return Failure(UNDEFINED);
    }
    if |screen.exits| + |screen.airports| < 2 {
      return Failure("Need at least 2 airports and/or exits.");
    }
    return Success(Complete(screen));
  }

  // What a successful load guarantees.

  /** A beacon or airport position strictly inside the border. */
  predicate Inside(w: int, h: int, x: int, y: int) {
    1 <= x <= w - 2 && 1 <= y <= h - 2
  }

  /** An exit on one of the four borders whose heading, an octant, points into the arena. */
  predicate EntersArena(w: int, h: int, e: Exit) {
    && (e.x == 0 || e.x == w - 1 || e.y == 0 || e.y == h - 1)
    && 0 <= e.dir < 8 && Inward(Zone(e.x, w), Zone(e.y, h), e.dir)
  }

  /** A line with both ends on the screen, border included, running straight or diagonally. */
  predicate Drawable(w: int, h: int, l: Line) {
    && 0 <= l.p1.x < w && 0 <= l.p1.y < h && 0 <= l.p2.x < w && 0 <= l.p2.y < h
    && var dx := Abs(l.p2.x - l.p1.x);
       var dy := Abs(l.p2.y - l.p1.y);
       dx == dy || dx == 0 || dy == 0
  }

  /** The entities of a screen of the given size, each where its statement's check puts it. */
  predicate Fits(w: int, h: int, exits: seq<Exit>, lines: seq<Line>, beacons: seq<Beacon>, airports: seq<Airport>) {
    && (forall k :: 0 <= k < |beacons| ==> Inside(w, h, beacons[k].x, beacons[k].y))
    && (forall k :: 0 <= k < |exits| ==> EntersArena(w, h, exits[k]))
    && (forall k :: 0 <= k < |lines| ==> Drawable(w, h, lines[k]))
    && (forall k :: 0 <= k < |airports| ==> Inside(w, h, airports[k].x, airports[k].y) && 0 <= airports[k].dir < 8)
  }

  /**
   * What holds of the screen after every successful statement: each defined
   * scalar is at least its minimum, no entity exists before all four are
   * defined, and every entity fits the screen.
   */
  predicate Valid(p: Partial) {
    && (p.width.Some? ==> p.width.value >= 3) && (p.height.Some? ==> p.height.value >= 3)
    && (p.updateSeconds.Some? ==> p.updateSeconds.value >= 1) && (p.newPlaneTime.Some? ==> p.newPlaneTime.value >= 1)
    && (!ScreenIsNotPartial(p) ==> p.exits == [] && p.lines == [] && p.beacons == [] && p.airports == [])
    && (ScreenIsNotPartial(p) ==> Fits(p.width.value, p.height.value, p.exits, p.lines, p.beacons, p.airports))
  }

  /** Beacons added by a successful statement fit the screen. */
  lemma {:induction false} BeaconsFit(p: Partial, pts: seq<ScreenPos>)
    requires ScreenIsNotPartial(p) && Valid(p) && AddBeacons(p, pts).Success?
    ensures Valid(AddBeacons(p, pts).value)
  {
    var w, h := p.width.value, p.height.value;
    var added := Map(pts, AsBeacon);
    var bs := p.beacons + added;
    assert CheckEach(pts, (pt: ScreenPos) => CheckPoint(w, h, pt.x, pt.y)).Pass?;
    forall k | |p.beacons| <= k < |bs|
      ensures Inside(w, h, bs[k].x, bs[k].y)
    {
      var pt := pts[k - |p.beacons|];
      assert bs[k] == added[k - |p.beacons|] == AsBeacon(pt);
      assert CheckPoint(w, h, pt.x, pt.y).Pass?;
    }
  }

  /** Exits added by a successful statement fit the screen, when every parsed heading is an octant. */
  lemma {:induction false} ExitsFit(p: Partial, pts: seq<ScreenPos>)
    requires ScreenIsNotPartial(p) && Valid(p) && AddExits(p, pts).Success?
    requires forall k :: 0 <= k < |pts| ==> WellFormed(pts[k], true)
    ensures Valid(AddExits(p, pts).value)
  {
    var w, h := p.width.value, p.height.value;
    var added := Map(pts, AsExit);
    var es := p.exits + added;
    assert CheckEach(pts, (pt: ScreenPos) => CheckExit(w, h, pt)).Pass?;
    forall k | |p.exits| <= k < |es|
      ensures EntersArena(w, h, es[k])
    {
      var pt := pts[k - |p.exits|];
      assert es[k] == added[k - |p.exits|] == AsExit(pt);
      assert CheckExit(w, h, pt).Pass? && WellFormed(pt, true);
      EdgeDirIsInward(w, h, pt.x, pt.y, pt.dir.value);
    }
  }

  /** Lines added by a successful statement fit the screen. */
  lemma {:induction false} LinesFit(p: Partial, ls: seq<Line>)
    requires ScreenIsNotPartial(p) && Valid(p) && AddLines(p, ls).Success?
    ensures Valid(AddLines(p, ls).value)
  {
    var w, h := p.width.value, p.height.value;
    var all := p.lines + ls;
    assert CheckEach(ls, (l: Line) => CheckLine(w, h, l)).Pass?;
    forall k | |p.lines| <= k < |all|
      ensures Drawable(w, h, all[k])
    {
      assert all[k] == ls[k - |p.lines|];
      assert CheckLine(w, h, all[k]).Pass?;
    }
  }

  /** Airports added by a successful statement fit the screen, when every parsed heading is an octant. */
  lemma {:induction false} AirportsFit(p: Partial, pts: seq<ScreenPos>)
    requires ScreenIsNotPartial(p) && Valid(p) && AddAirports(p, pts).Success?
    requires forall k :: 0 <= k < |pts| ==> WellFormed(pts[k], true)
    ensures Valid(AddAirports(p, pts).value)
  {
    var w, h := p.width.value, p.height.value;
    var added := Map(pts, AsAirport);
    var ap := p.airports + added;
    assert CheckEach(pts, (pt: ScreenPos) => CheckPoint(w, h, pt.x, pt.y)).Pass?;
    forall k | |p.airports| <= k < |ap|
      ensures Inside(w, h, ap[k].x, ap[k].y) && 0 <= ap[k].dir < 8
    {
      var pt := pts[k - |p.airports|];
      assert ap[k] == added[k - |p.airports|] == AsAirport(pt);
      assert CheckPoint(w, h, pt.x, pt.y).Pass? && WellFormed(pt, true);
    }
  }

  /** A successful statement keeps the screen valid. */
  lemma {:induction false} StatementKeepsValid(name: string, p: Partial, decl: string)
    requires Valid(p) && Statement(name, p, decl).Success?
    ensures Valid(Statement(name, p, decl).value)
  {
    match MatchDefinition(decl)
    case Some(def) =>
    case None =>
      var ent := MatchEntity(decl).value;
      match ent.0
      case BeaconList => BeaconsFit(p, Points(ent.1, 0, false));
      case ExitList =>
        PointsWellFormed(ent.1, 0, true);
        ExitsFit(p, Points(ent.1, 0, true));
      case LineList => LinesFit(p, Lines(ent.1, 0));
      case AirportList =>
        PointsWellFormed(ent.1, 0, true);
        AirportsFit(p, Points(ent.1, 0, true));
  }

  /** Successful statements keep the screen valid, one after the other. */
  lemma {:induction false} DeclarationsKeepValid(name: string, p: Partial, stmts: seq<string>)
    requires Valid(p) && Declarations(name, p, stmts).Success?
    ensures Valid(Declarations(name, p, stmts).value)
    decreases |stmts|
  {
    if stmts != [] {
      StatementKeepsValid(name, p, stmts[0]);
      DeclarationsKeepValid(name, Statement(name, p, stmts[0]).value, stmts[1..]);
    }
  }

  /**
   * A level that loads has all four scalars, each at least its minimum, at
   * least two exits and airports together, and every entity passing its check.
   */
  lemma {:induction false} LoadSound(name: string, raw: string)
    requires Load(name, raw).Success?
    ensures var s := Load(name, raw).value;
      && s.width >= 3 && s.height >= 3 && s.updateSeconds >= 1 && s.newPlaneTime >= 1
      && |s.exits| + |s.airports| >= 2
      && Fits(s.width, s.height, s.exits, s.lines, s.beacons, s.airports)
  {
    DeclarationsKeepValid(name, EMPTY, Statements(SourceLines(raw), []));
  }

  /** A successful statement keeps every defined scalar as it was. */
  lemma {:induction false} DefinedStays(name: string, p: Partial, decl: string, kw: Scalar)
    requires Get(p, kw).Some? && Statement(name, p, decl).Success?
    ensures Get(Statement(name, p, decl).value, kw) == Get(p, kw)
  {
  }

  /** A definition of a scalar already defined is an error. */
  lemma {:induction false} DefinedRejects(name: string, p: Partial, decl: string, kw: Scalar)
    requires Get(p, kw).Some? && MatchDefinition(decl).Some? && MatchDefinition(decl).value.0 == kw
    ensures Statement(name, p, decl).Failure?
  {
  }

  /** A failing statement ends the load with its error. */
  lemma {:induction false} FirstFails(name: string, p: Partial, stmts: seq<string>)
    requires stmts != [] && Statement(name, p, stmts[0]).Failure?
    ensures Declarations(name, p, stmts) == Failure(Statement(name, p, stmts[0]).error)
  {
  }

  /** After a successful statement the load goes on from the screen it made. */
  lemma {:induction false} FirstSucceeds(name: string, p: Partial, stmts: seq<string>)
    requires stmts != [] && Statement(name, p, stmts[0]).Success?
    ensures Declarations(name, p, stmts) == Declarations(name, Statement(name, p, stmts[0]).value, stmts[1..])
  {
  }

  /** A successful definition of `kw` leaves it defined. */
  lemma {:induction false} DefinitionDefines(name: string, p: Partial, decl: string, kw: Scalar)
    requires MatchDefinition(decl).Some? && MatchDefinition(decl).value.0 == kw && Statement(name, p, decl).Success?
    ensures Get(Statement(name, p, decl).value, kw).Some?
  {
  }

  /** An entity statement while a scalar is undefined is an error. */
  lemma {:induction false} UndefinedRejectsEntity(name: string, p: Partial, decl: string, kw: Scalar)
    requires Get(p, kw).None? && MatchEntity(decl).Some?
    ensures Statement(name, p, decl) == Failure(UNDEFINED)
  {
    PatternsExclusive(decl);
  }

  /**
   * The statement after the first, counted from the second; stated for any
   * element type so that no statement's characters are compared.
   */
  lemma DropIndex<T>(s: seq<T>, k: nat)
    requires 0 < k < |s|
    ensures s[1..][k - 1] == s[k]
  {
  }

  /** `decl` is a definition of `kw`. */
  predicate Defines(decl: string, kw: Scalar) {
    MatchDefinition(decl).Some? && MatchDefinition(decl).value.0 == kw
  }

  /** How many of `stmts` define `kw`. */
  function Definitions(stmts: seq<string>, kw: Scalar): nat
    decreases |stmts|
  {
    if stmts == [] then 0 else (if Defines(stmts[0], kw) then 1 else 0) + Definitions(stmts[1..], kw)
  }

  /** A definition of `kw` at position `j` is counted. */
  lemma {:induction false} DefinitionCounted(stmts: seq<string>, j: nat, kw: Scalar)
    requires j < |stmts| && Defines(stmts[j], kw)
    ensures Definitions(stmts, kw) >= 1
    decreases j
  {
    if j > 0 {
      DropIndex(stmts, j);
      DefinitionCounted(stmts[1..], j - 1, kw);
    }
  }

  /** Definitions of `kw` at two positions are both counted. */
  lemma {:induction false} DefinitionsCounted(stmts: seq<string>, i: nat, j: nat, kw: Scalar)
    requires i < j < |stmts| && Defines(stmts[i], kw) && Defines(stmts[j], kw)
    ensures Definitions(stmts, kw) >= 2
    decreases i
  {
    DropIndex(stmts, j);
    if i == 0 {
      DefinitionCounted(stmts[1..], j - 1, kw);
    } else {
      DropIndex(stmts, i);
      DefinitionsCounted(stmts[1..], i - 1, j - 1, kw);
    }
  }

  /**
   * What a successful first statement hands to the rest of the load: the
   * screen it made, with every defined scalar kept and an undefined one
   * defined exactly when the statement defines it.
   */
  lemma {:induction false} Proceed(name: string, p: Partial, stmts: seq<string>) returns (q: Partial)
    requires stmts != [] && Statement(name, p, stmts[0]).Success?
    ensures Declarations(name, p, stmts) == Declarations(name, q, stmts[1..])
    ensures forall kw :: Get(p, kw).Some? ==> Get(q, kw) == Get(p, kw)
    ensures forall kw :: Get(p, kw).None? ==> (Get(q, kw).Some? <==> Defines(stmts[0], kw))
  {
    q := Statement(name, p, stmts[0]).value;
    FirstSucceeds(name, p, stmts);
    forall kw | Get(p, kw).Some?
      ensures Get(q, kw) == Get(p, kw)
    {
      DefinedStays(name, p, stmts[0], kw);
    }
    forall kw | Get(p, kw).None?
      ensures Get(q, kw).Some? <==> Defines(stmts[0], kw)
    {
      if Defines(stmts[0], kw) {
        DefinitionDefines(name, p, stmts[0], kw);
      } else {
        RedefinitionFree(name, p, stmts[0], kw);
      }
    }
  }

  /** Once a scalar is defined, any later definition of it makes the load fail. */
  lemma {:induction false} RedefinitionAhead(name: string, p: Partial, stmts: seq<string>, kw: Scalar)
    requires Get(p, kw).Some? && Definitions(stmts, kw) >= 1
    ensures Declarations(name, p, stmts).Failure?
    decreases |stmts|
  {
    if Defines(stmts[0], kw) {
      DefinedRejects(name, p, stmts[0], kw);
      FirstFails(name, p, stmts);
    } else if Statement(name, p, stmts[0]).Success? {
      var q := Proceed(name, p, stmts);
      RedefinitionAhead(name, q, stmts[1..], kw);
    } else {
      FirstFails(name, p, stmts);
    }
  }

  /** Statements holding two definitions of one scalar fail, whatever the screen they start from. */
  lemma {:induction false} RedefinitionRepeated(name: string, p: Partial, stmts: seq<string>, kw: Scalar)
    requires Definitions(stmts, kw) >= 2
    ensures Declarations(name, p, stmts).Failure?
    decreases |stmts|
  {
    if Statement(name, p, stmts[0]).Failure? {
      FirstFails(name, p, stmts);
    } else {
      var q := Proceed(name, p, stmts);
      if Defines(stmts[0], kw) {
        RedefinitionAhead(name, q, stmts[1..], kw);
      } else {
        RedefinitionRepeated(name, q, stmts[1..], kw);
      }
    }
  }

  /** A level that defines a scalar twice fails to load. */
  lemma {:induction false} RedefinitionRejected(name: string, p: Partial, stmts: seq<string>, i: nat, j: nat, kw: Scalar)
    requires i < j < |stmts|
    requires MatchDefinition(stmts[i]).Some? && MatchDefinition(stmts[i]).value.0 == kw
    requires MatchDefinition(stmts[j]).Some? && MatchDefinition(stmts[j]).value.0 == kw
    ensures Declarations(name, p, stmts).Failure?
  {
    DefinitionsCounted(stmts, i, j, kw);
    RedefinitionRepeated(name, p, stmts, kw);
  }

  /** Some entity statement of `stmts` comes before every definition of `kw`. */
  predicate EntityUndefined(stmts: seq<string>, kw: Scalar)
    decreases |stmts|
  {
    stmts != [] && !Defines(stmts[0], kw) && (MatchEntity(stmts[0]).Some? || EntityUndefined(stmts[1..], kw))
  }

  /** An entity statement at `j` with no definition of `kw` before it is such a statement. */
  lemma {:induction false} EntityReached(stmts: seq<string>, j: nat, kw: Scalar)
    requires j < |stmts| && MatchEntity(stmts[j]).Some?
    requires forall i :: 0 <= i < j ==> !Defines(stmts[i], kw)
    ensures EntityUndefined(stmts, kw)
    decreases j
  {
    if j == 0 {
      PatternsExclusive(stmts[0]);
    } else if MatchEntity(stmts[0]).None? {
      DropIndex(stmts, j);
      forall i | 0 <= i < j - 1
        ensures !Defines(stmts[1..][i], kw)
      {
        DropIndex(stmts, i + 1);
      }
      EntityReached(stmts[1..], j - 1, kw);
    }
  }

  /** Statements reaching an entity statement while `kw` is undefined fail. */
  lemma {:induction false} EntityBeforeDefinition(name: string, p: Partial, stmts: seq<string>, kw: Scalar)
    requires Get(p, kw).None? && EntityUndefined(stmts, kw)
    ensures Declarations(name, p, stmts).Failure?
    decreases |stmts|
  {
    if MatchEntity(stmts[0]).Some? {
      UndefinedRejectsEntity(name, p, stmts[0], kw);
      FirstFails(name, p, stmts);
    } else if Statement(name, p, stmts[0]).Success? {
      var q := Proceed(name, p, stmts);
      EntityBeforeDefinition(name, q, stmts[1..], kw);
    } else {
      FirstFails(name, p, stmts);
    }
  }

  /** A scalar never defined before an entity statement makes that statement, or an earlier one, fail. */
  lemma {:induction false} EntityBeforeScalarsRejected(name: string, p: Partial, stmts: seq<string>, j: nat, kw: Scalar)
    requires Get(p, kw).None? && j < |stmts| && MatchEntity(stmts[j]).Some?
    requires forall i :: 0 <= i < j ==> MatchDefinition(stmts[i]).None? || MatchDefinition(stmts[i]).value.0 != kw
    ensures Declarations(name, p, stmts).Failure?
  {
    EntityReached(stmts, j, kw);
    EntityBeforeDefinition(name, p, stmts, kw);
  }

  /** A successful statement that does not define `kw` leaves it undefined. */
  lemma {:induction false} RedefinitionFree(name: string, p: Partial, decl: string, kw: Scalar)
    requires Get(p, kw).None? && Statement(name, p, decl).Success?
    requires MatchDefinition(decl).None? || MatchDefinition(decl).value.0 != kw
    ensures Get(Statement(name, p, decl).value, kw).None?
  {
  }

  /** Hence a level whose first statement adds entities fails to load, with the complaint about undefined scalars. */
  lemma {:induction false} EntityFirstRejected(name: string, raw: string)
    requires var stmts := Statements(SourceLines(raw), []); stmts != [] && MatchEntity(stmts[0]).Some?
    ensures Load(name, raw) == Failure(UNDEFINED)
  {
    var stmts := Statements(SourceLines(raw), []);
    PatternsExclusive(stmts[0]);
    assert Statement(name, EMPTY, stmts[0]) == Failure(UNDEFINED);
  }
}
