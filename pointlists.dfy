/**
 * The point and line lists of a level statement (src/games.ts): the global
 * regular expressions POINT_RE, POINT_DIR_RE and LINE_RE, what one `exec`
 * finds from its `lastIndex` on, and the `parsePointList` and `parseLineList`
 * loops that collect every match.
 *
 * The classes of each pattern (`\s`, `\d`, the brackets, the compass letters)
 * are disjoint, so a greedy left-to-right scan finds exactly the match the
 * backtracking engine finds; each pattern is written out below as such a scan
 * over absolute positions of the input.
 */
module PointLists {
  import opened Wrappers
  import opened Model
  import opened Text
  import opened Checks

  /** The letters of the class `[qweadzxc]`. */
  const DIR_LETTERS: string := "qweadzxc"

  /**
   * `\s*(\d+)\s+(\d+)` from position `i`: the two numbers and the position
   * after the second.
   */
  function Coords(t: string, i: nat): (r: Option<(nat, nat, nat)>)
    requires i <= |t|
    ensures r.Some? ==> i < r.value.2 <= |t|
  {
    var a := SkipSpace(t, i);
    var b := SkipDigits(t, a);
    var c := SkipSpace(t, b);
    var d := SkipDigits(t, c);
    if a == b || b == c || c == d then None
    else Some((NumberIn(t, a, b), NumberIn(t, c, d), d))
  }

  /** `\(\s*(\d+)\s+(\d+)\s*\)` from position `i`: the two numbers and the position after `)`. */
  function Pair(t: string, i: nat): (r: Option<(nat, nat, nat)>)
    requires i <= |t|
    ensures r.Some? ==> i < r.value.2 <= |t|
  {
    if i < |t| && t[i] == '(' then
      match Coords(t, i + 1)
      case None => None
      case Some(c) =>
        var e := SkipSpace(t, c.2);
        if e < |t| && t[e] == ')' then Some((c.0, c.1, e + 1)) else None
    else None
  }

  /**
   * What a point of a list can hold: coordinates that are digit strings, and a
   * heading exactly when the pattern asks for one.
   */
  predicate WellFormed(p: ScreenPos, hasDir: bool) {
    p.x >= 0 && p.y >= 0 && (p.dir.Some? <==> hasDir) && (p.dir.Some? ==> 0 <= p.dir.value < 8)
  }

  /**
   * POINT_RE (`hasDir` false) or POINT_DIR_RE (`hasDir` true) anchored at
   * position `i`: the point and the position after the trailing white space.
   */
  function PointAt(t: string, i: nat, hasDir: bool): (r: Option<(ScreenPos, nat)>)
    requires i <= |t|
    ensures r.Some? ==> i < r.value.1 <= |t| && WellFormed(r.value.0, hasDir)
  {
    if hasDir then DirPointAt(t, i) else PlainPointAt(t, i)
  }

  /** POINT_RE anchored at position `i`. */
  function PlainPointAt(t: string, i: nat): (r: Option<(ScreenPos, nat)>)
    requires i <= |t|
    ensures r.Some? ==> i < r.value.1 <= |t| && WellFormed(r.value.0, false)
  {
    match Pair(t, i)
    case None => None
    case Some(p) => Some((ScreenPos(p.0, p.1, None), SkipSpace(t, p.2)))
  }

  /** POINT_DIR_RE anchored at position `i`; the heading letter goes through `dirNo`. */
  function DirPointAt(t: string, i: nat): (r: Option<(ScreenPos, nat)>)
    requires i <= |t|
    ensures r.Some? ==> i < r.value.1 <= |t| && WellFormed(r.value.0, true)
  {
    if i < |t| && t[i] == '(' then
      match Coords(t, i + 1)
      case None => None
      case Some(c) =>
        var e := SkipSpace(t, c.2);
        if e == c.2 || e == |t| || t[e] !in DIR_LETTERS then None
        else
          var f := SkipSpace(t, e + 1);
          if f == |t| || t[f] != ')' then None
          else
            match DirNo([t[e]])
            case Failure(_) => None
            case Success(d) => Some((ScreenPos(c.0, c.1, Some(d)), SkipSpace(t, f + 1)))
    else None
  }

  // A global pattern as a table of anchored matches.

  /**
   * A table of anchored matches over a text: entry `i` is the match starting
   * at position `i`, if any, with the position where it ends; every match ends
   * after it starts and within the text.
   */
  ghost predicate Forward<T>(ms: seq<Option<(T, nat)>>) {
    forall i :: 0 <= i < |ms| && ms[i].Some? ==> i < ms[i].value.1 <= |ms|
  }

  /**
   * `re.exec(input)` with `re.lastIndex == from` for a global pattern whose
   * anchored matches are `ms`: the first match starting at or after `from`,
   * and the new `lastIndex`; None (and `lastIndex` back to 0) when there is none.
   */
  function Exec<T>(ms: seq<Option<(T, nat)>>, from: nat): (r: Option<(T, nat)>)
    requires Forward(ms) && from <= |ms|
    ensures r.Some? ==> from < r.value.1 <= |ms| && exists i :: from <= i < |ms| && ms[i] == r
    ensures r.None? ==> forall i :: from <= i < |ms| ==> ms[i].None?
    decreases |ms| - from
  {
    if from == |ms| then None
    else if ms[from].Some? then ms[from]
    else Exec(ms, from + 1)
  }

  /** Every match `exec` finds from `from` on, each search starting where the last match ended. */
  function Scan<T>(ms: seq<Option<(T, nat)>>, from: nat): seq<T>
    requires Forward(ms) && from <= |ms|
    decreases |ms| - from
  {
    match Exec(ms, from)
    case None => []
    case Some(m) => [m.0] + Scan(ms, m.1)
  }

  /** The anchored matches of POINT_RE (`hasDir` false) or POINT_DIR_RE (`hasDir` true) in `t`. */
  function PointMatches(t: string, hasDir: bool): (ms: seq<Option<(ScreenPos, nat)>>)
    ensures |ms| == |t| && Forward(ms)
  {
    seq(|t|, i requires 0 <= i < |t| => PointAt(t, i, hasDir))
  }

  /** Every match of a point pattern from `from` on, in order. */
  function Points(t: string, from: nat, hasDir: bool): seq<ScreenPos>
    requires from <= |t|
  {
    Scan(PointMatches(t, hasDir), from)
  }

  /**
   * The loop of `parsePointList` and `parseLineList`: call `exec` on a global
   * pattern until it fails, collecting every match; `lastIndex` carries over
   * from one call to the next.
   */
  method ExecAll<T>(re: seq<Option<(T, nat)>>) returns (found: seq<T>)
    requires Forward(re)
    ensures found == Scan(re, 0)
  {
    found := [];
    var lastIndex := 0;
    while true
      invariant lastIndex <= |re|
      invariant found + Scan(re, lastIndex) == Scan(re, 0)
      decreases |re| - lastIndex
    {
      var m := Exec(re, lastIndex);
      if m.None? {
        break;
      }
      found := found + [m.value.0];
      lastIndex := m.value.1;
    }
  }

  /**
   * `parsePointList`: every match of POINT_DIR_RE (`hasDirections`) or
   * POINT_RE, as points.
   */
  method ParsePointList(input: string, hasDirections: bool) returns (points: seq<ScreenPos>)
    ensures points == Points(input, 0, hasDirections)
  {
    points := ExecAll(PointMatches(input, hasDirections));
  }

  /** Both ends of a line are plain points. */
  predicate LineWellFormed(l: Line) {
    WellFormed(l.p1, false) && WellFormed(l.p2, false)
  }

  /**
   * LINE_RE anchored at position `i`: `[`, two coordinate pairs, `]`, each
   * part possibly preceded by white space; the line and the position after the
   * trailing white space.
   */
  function LineAt(t: string, i: nat): (r: Option<(Line, nat)>)
    requires i <= |t|
    ensures r.Some? ==> i < r.value.1 <= |t| && LineWellFormed(r.value.0)
  {
    if i < |t| && t[i] == '[' then
      match Pair(t, SkipSpace(t, i + 1))
      case None => None
      case Some(p1) =>
        match Pair(t, SkipSpace(t, p1.2))
        case None => None
        case Some(p2) =>
          var g := SkipSpace(t, p2.2);
          if g < |t| && t[g] == ']' then
            Some((Line(ScreenPos(p1.0, p1.1, None), ScreenPos(p2.0, p2.1, None)), SkipSpace(t, g + 1)))
          else None
    else None
  }

  /** The anchored matches of LINE_RE in `t`. */
  function LineMatches(t: string): (ms: seq<Option<(Line, nat)>>)
    ensures |ms| == |t| && Forward(ms)
  {
    seq(|t|, i requires 0 <= i < |t| => LineAt(t, i))
  }

  /** Every match of LINE_RE from `from` on, in order. */
  function Lines(t: string, from: nat): seq<Line>
    requires from <= |t|
  {
    Scan(LineMatches(t), from)
  }


  /** `parseLineList`: every match of LINE_RE, as lines. */
  method ParseLineList(input: string) returns (lines: seq<Line>)
    ensures lines == Lines(input, 0)
  {
    lines := ExecAll(LineMatches(input));
  }

  // Properties of the scans.

  /** Every value the scan finds is that of a match starting at or after `from`. */
  lemma {:induction false} ScanFound<T>(ms: seq<Option<(T, nat)>>, from: nat, k: nat)
    requires Forward(ms) && from <= |ms| && k < |Scan(ms, from)|
    ensures exists i :: from <= i < |ms| && ms[i].Some? && ms[i].value.0 == Scan(ms, from)[k]
    decreases |ms| - from
  {
    var m := Exec(ms, from).value;
    if k > 0 {
      ScanFound(ms, m.1, k - 1);
    }
  }

  /** Every point a list yields has non-negative coordinates and a heading exactly when one was asked for. */
  lemma {:induction false} PointsWellFormed(t: string, from: nat, hasDir: bool)
    requires from <= |t|
    ensures forall k :: 0 <= k < |Points(t, from, hasDir)| ==> WellFormed(Points(t, from, hasDir)[k], hasDir)
  {
    var ms := PointMatches(t, hasDir);
    forall k | 0 <= k < |Scan(ms, from)|
      ensures WellFormed(Scan(ms, from)[k], hasDir)
    {
      ScanFound(ms, from, k);
      var i :| from <= i < |ms| && ms[i].Some? && ms[i].value.0 == Scan(ms, from)[k];
      assert ms[i] == PointAt(t, i, hasDir);
    }
  }

  /** Every line a list yields joins two points with non-negative coordinates. */
  lemma {:induction false} LinesWellFormed(t: string, from: nat)
    requires from <= |t|
    ensures forall k :: 0 <= k < |Lines(t, from)| ==> LineWellFormed(Lines(t, from)[k])
  {
    var ms := LineMatches(t);
    forall k | 0 <= k < |Scan(ms, from)|
      ensures LineWellFormed(Scan(ms, from)[k])
    {
      ScanFound(ms, from, k);
      var i :| from <= i < |ms| && ms[i].Some? && ms[i].value.0 == Scan(ms, from)[k];
      assert ms[i] == LineAt(t, i);
    }
  }

  /** Positions where no match starts are passed over by `exec`. */
  lemma {:induction false} ExecSkips<T>(ms: seq<Option<(T, nat)>>, from: nat, j: nat)
    requires Forward(ms) && from <= j <= |ms|
    requires forall i :: from <= i < j ==> ms[i].None?
    ensures Exec(ms, from) == Exec(ms, j)
    decreases j - from
  {
    if from < j {
      ExecSkips(ms, from + 1, j);
    }
  }

  /** Hence the matches found from `from` on are those found from `j` on. */
  lemma {:induction false} ScanSkips<T>(ms: seq<Option<(T, nat)>>, from: nat, j: nat)
    requires Forward(ms) && from <= j <= |ms|
    requires forall i :: from <= i < j ==> ms[i].None?
    ensures Scan(ms, from) == Scan(ms, j)
  {
    ExecSkips(ms, from, j);
  }

  /**
   * The matches of `ms` sit back to back from `from` to the end of the text,
   * and hold `xs` in order: the first starts at `from`, each next one where
   * the one before it ends.
   */
  ghost predicate Chained<T>(ms: seq<Option<(T, nat)>>, from: nat, xs: seq<T>)
    decreases |xs|
  {
    if xs == [] then from == |ms|
    else from < |ms| && ms[from].Some? && ms[from].value.0 == xs[0] && Chained(ms, ms[from].value.1, xs[1..])
  }

  /** A match at `from` ending where a chain starts extends that chain by one. */
  lemma ChainLink<T>(ms: seq<Option<(T, nat)>>, from: nat, e: nat, xs: seq<T>)
    requires xs != [] && from < |ms| && ms[from] == Some((xs[0], e)) && Chained(ms, e, xs[1..])
    ensures Chained(ms, from, xs)
  {
  }

  /** Matches that sit back to back up to the end are exactly what the scan finds, in order. */
  lemma {:induction false} ScanOfChained<T>(ms: seq<Option<(T, nat)>>, from: nat, xs: seq<T>)
    requires Forward(ms) && from <= |ms| && Chained(ms, from, xs)
    ensures Scan(ms, from) == xs
    decreases |xs|
  {
    if xs != [] {
      assert Exec(ms, from) == ms[from];
      ScanOfChained(ms, ms[from].value.1, xs[1..]);
      assert xs == [xs[0]] + xs[1..];
    }
  }

  /** No point starts at a position that does not hold an opening parenthesis. */
  lemma {:induction false} NoPointAt(t: string, i: nat, hasDir: bool)
    requires i < |t| && t[i] != '('
    ensures PointAt(t, i, hasDir).None?
  {
    if !hasDir {
      assert Pair(t, i).None?;
    }
  }

  /** Text without an opening parenthesis (separators, comments) is passed over by the point scan. */
  lemma {:induction false} PointsSkip(t: string, from: nat, j: nat, hasDir: bool)
    requires from <= j <= |t|
    requires '(' !in t[from..j]
    ensures Points(t, from, hasDir) == Points(t, j, hasDir)
  {
    var ms := PointMatches(t, hasDir);
    forall i | from <= i < j
      ensures ms[i].None?
    {
      assert t[i] == t[from..j][i - from];
      NoPointAt(t, i, hasDir);
    }
    ScanSkips(ms, from, j);
  }

  /** Text without an opening bracket is passed over by the line scan. */
  lemma {:induction false} LinesSkip(t: string, from: nat, j: nat)
    requires from <= j <= |t|
    requires '[' !in t[from..j]
    ensures Lines(t, from) == Lines(t, j)
  {
    var ms := LineMatches(t);
    forall i | from <= i < j
      ensures ms[i].None?
    {
      assert t[i] == t[from..j][i - from];
      assert LineAt(t, i).None?;
    }
    ScanSkips(ms, from, j);
  }

  /** A coordinate pair as a level writes it: `(x y)`. */
  function RenderPair(x: nat, y: nat): string {
    "(" + Decimal(x) + " " + Decimal(y) + ")"
  }

  /** A point of a list: `(x y) ` or, with a heading, `(x y c) `. */
  function RenderPoint(p: ScreenPos, hasDir: bool): (s: string)
    requires WellFormed(p, hasDir)
    ensures |s| > 0 && s[0] == '('
  {
    if hasDir then "(" + Decimal(p.x) + " " + Decimal(p.y) + " " + [COMPASS[p.dir.value]] + ") "
    else RenderPair(p.x, p.y) + " "
  }

  function RenderPoints(pts: seq<ScreenPos>, hasDir: bool): (s: string)
    requires forall k :: 0 <= k < |pts| ==> WellFormed(pts[k], hasDir)
    ensures s == [] <==> pts == []
    ensures s != [] ==> s[0] == '('
  {
    if pts == [] then "" else RenderPoint(pts[0], hasDir) + RenderPoints(pts[1..], hasDir)
  }

  /** A line of a `line` statement: `[(x y)(x y)] `. */
  function RenderLine(l: Line): (s: string)
    requires LineWellFormed(l)
    ensures |s| > 0 && s[0] == '['
  {
    "[" + RenderPair(l.p1.x, l.p1.y) + RenderPair(l.p2.x, l.p2.y) + "] "
  }

  function RenderLines(ls: seq<Line>): (s: string)
    requires forall k :: 0 <= k < |ls| ==> LineWellFormed(ls[k])
    ensures s == [] <==> ls == []
    ensures s != [] ==> s[0] == '['
  {
    if ls == [] then "" else RenderLine(ls[0]) + RenderLines(ls[1..])
  }

  /** Each compass letter is in the pattern's class and `dirNo` maps it back to its octant. */
  lemma {:induction false} CompassLetter(d: nat)
    requires d < 8
    ensures COMPASS[d] in DIR_LETTERS && !IsSpace(COMPASS[d]) && DirNo([COMPASS[d]]) == Success(d)
  {
    CompassDistinct();
    DirNoOfCompass(d);
  }

  /** `t[lo..hi]` is a non-empty run of digits. */
  predicate DigitsIn(t: string, lo: nat, hi: nat)
    decreases hi - lo
  {
    lo < hi <= |t| && IsDigit(t[lo]) && (lo + 1 < hi ==> DigitsIn(t, lo + 1, hi))
  }

  /** A run of digits is a digit at every position it covers, and conversely. */
  lemma {:induction false} DigitsInEach(t: string, lo: nat, hi: nat)
    requires lo < hi <= |t|
    ensures DigitsIn(t, lo, hi) <==> forall m :: lo <= m < hi ==> IsDigit(t[m])
    decreases hi - lo
  {
    if lo + 1 < hi {
      DigitsInEach(t, lo + 1, hi);
    }
  }

  // What the patterns read at given positions.

  /** Two runs of digits separated by one space, then a non-digit, are what `Coords` reads. */
  lemma {:induction false} CoordsIn(t: string, i: nat, b: nat, d: nat)
    requires DigitsIn(t, i, b) && DigitsIn(t, b + 1, d) && d < |t| && t[b] == ' ' && !IsDigit(t[d])
    ensures Coords(t, i) == Some((NumberIn(t, i, b), NumberIn(t, b + 1, d), d))
  {
    DigitsInEach(t, i, b);
    DigitsInEach(t, b + 1, d);
    SkipNoSpace(t, i);
    SkipDigitsRun(t, i, b);
    SkipOneSpace(t, b);
    SkipDigitsRun(t, b + 1, d);
  }

  /** `(`, digits, one space, digits, `)` from `i` to `d` is what `Pair` reads. */
  lemma {:induction false} PairIn(t: string, i: nat, b: nat, d: nat)
    requires DigitsIn(t, i + 1, b) && DigitsIn(t, b + 1, d) && d < |t|
    requires t[i] == '(' && t[b] == ' ' && t[d] == ')'
    ensures Pair(t, i) == Some((NumberIn(t, i + 1, b), NumberIn(t, b + 1, d), d + 1))
  {
    CoordsIn(t, i + 1, b, d);
    SkipNoSpace(t, d);
  }

  /** A pair and one space, then an opening parenthesis or the end, is what POINT_RE matches. */
  lemma {:induction false} PlainPointIn(t: string, i: nat, b: nat, d: nat)
    requires DigitsIn(t, i + 1, b) && DigitsIn(t, b + 1, d) && d + 1 < |t|
    requires t[i] == '(' && t[b] == ' ' && t[d] == ')' && t[d + 1] == ' '
    requires d + 2 < |t| ==> t[d + 2] == '('
    ensures PlainPointAt(t, i) == Some((ScreenPos(NumberIn(t, i + 1, b), NumberIn(t, b + 1, d), None), d + 2))
  {
    PairIn(t, i, b, d);
    SkipOneSpace(t, d + 1);
  }

  /**
   * `(`, digits, one space, digits, one space, a compass letter, `)` and one
   * space, then an opening parenthesis or the end, is what POINT_DIR_RE matches.
   */
  lemma {:induction false} DirPointIn(t: string, i: nat, b: nat, d: nat, dir: nat)
    requires DigitsIn(t, i + 1, b) && DigitsIn(t, b + 1, d) && d + 3 < |t| && dir < 8
    requires t[i] == '(' && t[b] == ' ' && t[d] == ' ' && t[d + 1] == COMPASS[dir] && t[d + 2] == ')' && t[d + 3] == ' '
    requires d + 4 < |t| ==> t[d + 4] == '('
    ensures DirPointAt(t, i) == Some((ScreenPos(NumberIn(t, i + 1, b), NumberIn(t, b + 1, d), Some(dir)), d + 4))
  {
    CoordsIn(t, i + 1, b, d);
    HeadingTail(t, d, dir);
  }

  /** The text after the coordinates of a point with a heading: ` c) `. */
  lemma {:induction false} HeadingTail(t: string, d: nat, dir: nat)
    requires dir < 8 && d + 3 < |t|
    requires t[d] == ' ' && t[d + 1] == COMPASS[dir] && t[d + 2] == ')' && t[d + 3] == ' '
    requires d + 4 < |t| ==> t[d + 4] == '('
    ensures SkipSpace(t, d) == d + 1 && t[d + 1] in DIR_LETTERS && DirNo([t[d + 1]]) == Success(dir)
    ensures SkipSpace(t, d + 2) == d + 2 && SkipSpace(t, d + 3) == d + 4
  {
    CompassLetter(dir);
    SkipOneSpace(t, d);
    SkipNoSpace(t, d + 2);
    SkipOneSpace(t, d + 3);
  }

  /** A bracket, two pairs, a closing bracket and a space form a line. */
  lemma {:induction false} LineClose(t: string, i: nat, j1: nat, j2: nat, a: nat, b: nat, c: nat, d: nat)
    requires i + 1 < j1 < j2 && j2 + 1 < |t|
    requires t[i] == '[' && t[i + 1] == '(' && t[j1] == '(' && t[j2] == ']' && t[j2 + 1] == ' '
    requires Pair(t, i + 1) == Some((a, b, j1)) && Pair(t, j1) == Some((c, d, j2))
    requires j2 + 2 < |t| ==> t[j2 + 2] == '['
    ensures LineAt(t, i) == Some((Line(ScreenPos(a, b, None), ScreenPos(c, d, None)), j2 + 2))
  {
    LineTail(t, i, j1, j2);
  }

  /** The white space a line leaves around its pairs and after its closing bracket. */
  lemma {:induction false} LineTail(t: string, i: nat, j1: nat, j2: nat)
    requires i + 1 < j1 < j2 && j2 + 1 < |t|
    requires t[i + 1] == '(' && t[j1] == '(' && t[j2] == ']' && t[j2 + 1] == ' '
    requires j2 + 2 < |t| ==> t[j2 + 2] == '['
    ensures SkipSpace(t, i + 1) == i + 1 && SkipSpace(t, j1) == j1
    ensures SkipSpace(t, j2) == j2 && SkipSpace(t, j2 + 1) == j2 + 2
  {
    SkipNoSpace(t, i + 1);
    SkipNoSpace(t, j1);
    SkipNoSpace(t, j2);
    SkipOneSpace(t, j2 + 1);
  }

  // Where a rendering puts its characters and numbers.

  /** `(`, then the numerals of `x` and `y` separated by one space, from `i` to `d`. */
  predicate OpenLaid(t: string, i: nat, b: nat, d: nat, x: nat, y: nat) {
    i + 1 < b && DigitsIn(t, i + 1, b) && DigitsIn(t, b + 1, d) && t[i] == '(' && t[b] == ' '
    && NumberIn(t, i + 1, b) == x && NumberIn(t, b + 1, d) == y
  }

  /** The point `p` written from `i` to `e` as a list writes it, its numbers ending at `d`. */
  predicate PointLaid(t: string, i: nat, p: ScreenPos, hasDir: bool, b: nat, d: nat, e: nat) {
    && WellFormed(p, hasDir)
    && OpenLaid(t, i, b, d, p.x, p.y)
    && if hasDir then
         e == d + 4 <= |t| && t[d] == ' ' && t[d + 1] == COMPASS[p.dir.value] && t[d + 2] == ')' && t[d + 3] == ' '
       else
         e == d + 2 <= |t| && t[d] == ')' && t[d + 1] == ' '
  }

  /** The line `l` written from `i` to `d2 + 3` as a list writes it. */
  predicate LineLaid(t: string, i: nat, l: Line, b1: nat, d1: nat, b2: nat, d2: nat) {
    && LineWellFormed(l)
    && i < |t| && t[i] == '['
    && OpenLaid(t, i + 1, b1, d1, l.p1.x, l.p1.y) && d1 < |t| && t[d1] == ')'
    && OpenLaid(t, d1 + 1, b2, d2, l.p2.x, l.p2.y) && d2 + 2 < |t| && t[d2] == ')' && t[d2 + 1] == ']' && t[d2 + 2] == ' '
  }

  /** A point laid out at `i`, then an opening parenthesis or the end, is what the pattern matches there. */
  lemma {:induction false} PointIn(t: string, i: nat, p: ScreenPos, hasDir: bool, b: nat, d: nat, e: nat)
    requires PointLaid(t, i, p, hasDir, b, d, e)
    requires e < |t| ==> t[e] == '('
    ensures PointAt(t, i, hasDir) == Some((p, e))
  {
    if hasDir {
      DirPointIn(t, i, b, d, p.dir.value);
    } else {
      PlainPointIn(t, i, b, d);
    }
  }

  /** A line laid out at `i`, then an opening bracket or the end, is what LINE_RE matches there. */
  lemma {:induction false} LineIn(t: string, i: nat, l: Line, b1: nat, d1: nat, b2: nat, d2: nat)
    requires LineLaid(t, i, l, b1, d1, b2, d2)
    requires d2 + 3 < |t| ==> t[d2 + 3] == '['
    ensures LineAt(t, i) == Some((l, d2 + 3))
  {
    PairIn(t, i + 1, b1, d1);
    PairIn(t, d1 + 1, b2, d2);
    LineClose(t, i, d1 + 1, d2 + 1, l.p1.x, l.p1.y, l.p2.x, l.p2.y);
  }

  /** Text that holds `a + b` at `i` holds `a` at `i` and `b` right after it. */
  lemma {:induction false} SliceConcat(t: string, i: nat, a: string, b: string)
    requires i + |a + b| <= |t| && t[i..i + |a + b|] == a + b
    ensures t[i..i + |a|] == a && t[i + |a|..i + |a| + |b|] == b
  {
    assert t[i..i + |a|] == (a + b)[..|a|];
    assert t[i + |a|..i + |a| + |b|] == (a + b)[|a|..];
  }

  /** The rendering of `x` at `a` is a run of digits that reads back as `x`. */
  lemma {:induction false} DecimalAt(t: string, a: nat, x: nat)
    requires a + |Decimal(x)| <= |t| && t[a..a + |Decimal(x)|] == Decimal(x)
    ensures DigitsIn(t, a, a + |Decimal(x)|) && NumberIn(t, a, a + |Decimal(x)|) == x
  {
    var s := Decimal(x);
    forall m | a <= m < a + |s|
      ensures IsDigit(t[m])
    {
      assert t[m] == t[a..a + |s|][m - a];
    }
    DigitsInEach(t, a, a + |s|);
    NumberInSlice(t, a, a + |s|);
    NumberOfDecimal(x);
  }

  /** `(sx sy` written from `i` to `d`: where its characters and its two numerals are. */
  lemma {:induction false} OpenTextSlices(t: string, i: nat, sx: string, sy: string, b: nat, d: nat)
    requires b == i + 1 + |sx| && d == b + 1 + |sy| <= |t|
    requires t[i..d] == "(" + sx + " " + sy
    ensures t[i] == '(' && t[b] == ' ' && t[i + 1..b] == sx && t[b + 1..d] == sy
  {
    SliceConcat(t, i, "(" + sx + " ", sy);
    SliceConcat(t, i, "(" + sx, " ");
    SliceConcat(t, i, "(", sx);
    assert t[i] == t[i..i + 1][0];
    assert t[b] == t[b..b + 1][0];
  }

  /** `(x y` rendered from `i` to `d` is laid out as the patterns read it. */
  lemma {:induction false} OpenText(t: string, i: nat, x: nat, y: nat, b: nat, d: nat)
    requires b == i + 1 + |Decimal(x)| && d == b + 1 + |Decimal(y)| <= |t|
    requires t[i..d] == "(" + Decimal(x) + " " + Decimal(y)
    ensures OpenLaid(t, i, b, d, x, y)
  {
    OpenTextSlices(t, i, Decimal(x), Decimal(y), b, d);
    DecimalAt(t, i + 1, x);
    DecimalAt(t, b + 1, y);
  }

  /** A pair rendered from `i` to `d + 1` is laid out as the patterns read it. */
  lemma {:induction false} PairTextAt(t: string, i: nat, x: nat, y: nat, b: nat, d: nat)
    requires b == i + 1 + |Decimal(x)| && d == b + 1 + |Decimal(y)| && d < |t|
    requires t[i..d + 1] == RenderPair(x, y)
    ensures OpenLaid(t, i, b, d, x, y) && t[d] == ')'
  {
    SliceConcat(t, i, "(" + Decimal(x) + " " + Decimal(y), ")");
    assert t[d] == t[d..d + 1][0];
    OpenText(t, i, x, y, b, d);
  }

  /** A point without a heading rendered from `i` to `e` is laid out as POINT_RE reads it. */
  lemma {:induction false} PlainPointText(t: string, i: nat, p: ScreenPos, b: nat, d: nat, e: nat)
    requires WellFormed(p, false)
    requires b == i + 1 + |Decimal(p.x)| && d == b + 1 + |Decimal(p.y)|
    requires e == i + |RenderPoint(p, false)| <= |t| && t[i..e] == RenderPoint(p, false)
    ensures PointLaid(t, i, p, false, b, d, e)
  {
    SliceConcat(t, i, RenderPair(p.x, p.y), " ");
    assert t[d + 1] == t[d + 1..e][0];
    PairTextAt(t, i, p.x, p.y, b, d);
  }

  /** A point with a heading rendered from `i` to `e` is laid out as POINT_DIR_RE reads it. */
  lemma {:induction false} DirPointText(t: string, i: nat, p: ScreenPos, b: nat, d: nat, e: nat)
    requires WellFormed(p, true)
    requires b == i + 1 + |Decimal(p.x)| && d == b + 1 + |Decimal(p.y)|
    requires e == i + |RenderPoint(p, true)| <= |t| && t[i..e] == RenderPoint(p, true)
    ensures PointLaid(t, i, p, true, b, d, e)
  {
    var a := "(" + Decimal(p.x) + " " + Decimal(p.y);
    var c := [COMPASS[p.dir.value]];
    SliceConcat(t, i, a + " " + c, ") ");
    SliceConcat(t, i, a + " ", c);
    SliceConcat(t, i, a, " ");
    assert t[d] == t[d..d + 1][0];
    assert t[d + 1] == t[d + 1..d + 2][0];
    assert t[d + 2] == t[d + 2..d + 4][0] && t[d + 3] == t[d + 2..d + 4][1];
    OpenText(t, i, p.x, p.y, b, d);
  }

  /** `t` holds `s` from position `i` on. */
  predicate Holds(t: string, i: nat, s: string)
    decreases |s|
  {
    i + |s| <= |t| && (s != [] ==> t[i] == s[0] && Holds(t, i + 1, s[1..]))
  }

  /** Text that holds `a + b` at `i` holds `a` at `i` and `b` right after it. */
  lemma {:induction false} HoldsConcat(t: string, i: nat, a: string, b: string)
    requires Holds(t, i, a + b)
    ensures Holds(t, i, a) && Holds(t, i + |a|, b)
    decreases |a|
  {
    if a == [] {
      assert a + b == b;
    } else {
      assert (a + b)[0] == a[0] && (a + b)[1..] == a[1..] + b;
      HoldsConcat(t, i + 1, a[1..], b);
    }
  }

  /** What `t` holds at `i` is the slice of `t` there. */
  lemma {:induction false} HoldsSlice(t: string, i: nat, s: string)
    requires Holds(t, i, s)
    ensures t[i..i + |s|] == s
    decreases |s|
  {
    if s != [] {
      HoldsSlice(t, i + 1, s[1..]);
      assert t[i..i + |s|] == [t[i]] + t[i + 1..i + |s|];
      assert s == [s[0]] + s[1..];
    }
  }

  /** Every text holds what follows each of its positions. */
  lemma {:induction false} HoldsRest(t: string, i: nat)
    requires i <= |t|
    ensures Holds(t, i, t[i..])
    decreases |t| - i
  {
    if i < |t| {
      HoldsRest(t, i + 1);
      assert t[i..][1..] == t[i + 1..];
    }
  }

  /** A pair held at `i` is laid out as the patterns read it. */
  lemma {:induction false} PairHeld(t: string, i: nat, x: nat, y: nat, b: nat, d: nat)
    requires b == i + 1 + |Decimal(x)| && d == b + 1 + |Decimal(y)|
    requires Holds(t, i, RenderPair(x, y))
    ensures OpenLaid(t, i, b, d, x, y) && d < |t| && t[d] == ')'
  {
    HoldsSlice(t, i, RenderPair(x, y));
    PairTextAt(t, i, x, y, b, d);
  }

  /** The line `l` written from `i` as a list writes it: its brackets, and its two pairs ending at `d1` and `d2`. */
  predicate LineWritten(t: string, i: nat, l: Line, d1: nat, d2: nat)
    requires LineWellFormed(l)
  {
    i < d1 < d2 && d2 + 2 < |t| && t[i] == '[' && t[d2 + 1] == ']' && t[d2 + 2] == ' '
    && Holds(t, i + 1, RenderPair(l.p1.x, l.p1.y)) && Holds(t, d1 + 1, RenderPair(l.p2.x, l.p2.y))
  }

  /** A line held at `i` is written as a list writes it. */
  lemma {:induction false} LineHeld(t: string, i: nat, l: Line, d1: nat, d2: nat)
    requires LineWellFormed(l) && Holds(t, i, RenderLine(l))
    requires d1 == i + |RenderPair(l.p1.x, l.p1.y)| && d2 == d1 + |RenderPair(l.p2.x, l.p2.y)|
    ensures i + |RenderLine(l)| == d2 + 3 && LineWritten(t, i, l, d1, d2)
  {
    var p1, p2 := RenderPair(l.p1.x, l.p1.y), RenderPair(l.p2.x, l.p2.y);
    HoldsConcat(t, i, "[" + p1 + p2, "] ");
    HoldsConcat(t, i, "[" + p1, p2);
    HoldsConcat(t, i, "[", p1);
    assert t[i + 0] == "["[0];
    assert t[d2 + 1 + 0] == "] "[0] && t[d2 + 1 + 1] == "] "[1];
  }

  // Rendering a list and reading it back.

  /** A point held at `i`, then an opening parenthesis or the end, is what the pattern matches there. */
  lemma {:induction false} PointHeld(t: string, i: nat, p: ScreenPos, hasDir: bool, e: nat)
    requires WellFormed(p, hasDir) && Holds(t, i, RenderPoint(p, hasDir)) && e == i + |RenderPoint(p, hasDir)|
    requires e < |t| ==> t[e] == '('
    ensures PointAt(t, i, hasDir) == Some((p, e))
  {
    var b := i + 1 + |Decimal(p.x)|;
    var d := b + 1 + |Decimal(p.y)|;
    PointLaidOfHeld(t, i, p, hasDir, b, d, e);
    PointIn(t, i, p, hasDir, b, d, e);
  }

  /** A point held at `i` is laid out as the patterns read it. */
  lemma {:induction false} PointLaidOfHeld(t: string, i: nat, p: ScreenPos, hasDir: bool, b: nat, d: nat, e: nat)
    requires WellFormed(p, hasDir) && Holds(t, i, RenderPoint(p, hasDir)) && e == i + |RenderPoint(p, hasDir)|
    requires b == i + 1 + |Decimal(p.x)| && d == b + 1 + |Decimal(p.y)|
    ensures PointLaid(t, i, p, hasDir, b, d, e)
  {
    HoldsSlice(t, i, RenderPoint(p, hasDir));
    if hasDir {
      DirPointText(t, i, p, b, d, e);
    } else {
      PlainPointText(t, i, p, b, d, e);
    }
  }

  /** The first point of a rendered list is matched where the list starts, and the rest follows it. */
  lemma {:induction false} PointStep(t: string, from: nat, pts: seq<ScreenPos>, hasDir: bool) returns (e: nat)
    requires pts != [] && forall k :: 0 <= k < |pts| ==> WellFormed(pts[k], hasDir)
    requires Holds(t, from, RenderPoints(pts, hasDir)) && from + |RenderPoints(pts, hasDir)| == |t|
    ensures from < |t| && PointMatches(t, hasDir)[from] == Some((pts[0], e))
    ensures Holds(t, e, RenderPoints(pts[1..], hasDir)) && e + |RenderPoints(pts[1..], hasDir)| == |t|
  {
    var r, rest := RenderPoint(pts[0], hasDir), RenderPoints(pts[1..], hasDir);
    e := from + |r|;
    HoldsConcat(t, from, r, rest);
    if rest != [] {
      assert t[e] == rest[0] == '(';
    }
    PointHeld(t, from, pts[0], hasDir, e);
  }

  /** A list rendered from `from` to the end is a chain of point matches. */
  lemma {:induction false} PointsChained(t: string, from: nat, pts: seq<ScreenPos>, hasDir: bool)
    requires forall k :: 0 <= k < |pts| ==> WellFormed(pts[k], hasDir)
    requires Holds(t, from, RenderPoints(pts, hasDir)) && from + |RenderPoints(pts, hasDir)| == |t|
    ensures Chained(PointMatches(t, hasDir), from, pts)
    decreases |pts|
  {
    if pts != [] {
      var e := PointStep(t, from, pts, hasDir);
      PointsChained(t, e, pts[1..], hasDir);
      ChainLink(PointMatches(t, hasDir), from, e, pts);
    }
  }

  /** A list rendered from `from` to the end reads back as the same points. */
  lemma {:induction false} PointsOfRendering(t: string, from: nat, pts: seq<ScreenPos>, hasDir: bool)
    requires forall k :: 0 <= k < |pts| ==> WellFormed(pts[k], hasDir)
    requires Holds(t, from, RenderPoints(pts, hasDir)) && from + |RenderPoints(pts, hasDir)| == |t|
    ensures Points(t, from, hasDir) == pts
  {
    PointsChained(t, from, pts, hasDir);
    ScanOfChained(PointMatches(t, hasDir), from, pts);
  }

  /** `parsePointList` reads back every list of well-formed points rendered as a level writes them. */
  lemma {:induction false} ParseRenderedPoints(pts: seq<ScreenPos>, hasDir: bool)
    requires forall k :: 0 <= k < |pts| ==> WellFormed(pts[k], hasDir)
    ensures Points(RenderPoints(pts, hasDir), 0, hasDir) == pts
  {
    var t := RenderPoints(pts, hasDir);
    HoldsRest(t, 0);
    assert t[0..] == t;
    PointsOfRendering(t, 0, pts, hasDir);
  }

  /** A line held at `i`, then an opening bracket or the end, is what LINE_RE matches there. */
  lemma {:induction false} LineHeldAt(t: string, i: nat, l: Line, e: nat)
    requires LineWellFormed(l) && Holds(t, i, RenderLine(l)) && e == i + |RenderLine(l)|
    requires e < |t| ==> t[e] == '['
    ensures LineAt(t, i) == Some((l, e))
  {
    var d1 := i + |RenderPair(l.p1.x, l.p1.y)|;
    var d2 := d1 + |RenderPair(l.p2.x, l.p2.y)|;
    LineHeld(t, i, l, d1, d2);
    LineWrittenAt(t, i, l, d1, d2);
  }

  /** A written line, then an opening bracket or the end, is what LINE_RE matches. */
  lemma {:induction false} LineWrittenAt(t: string, i: nat, l: Line, d1: nat, d2: nat)
    requires LineWellFormed(l) && LineWritten(t, i, l, d1, d2)
    requires d1 == i + |RenderPair(l.p1.x, l.p1.y)| && d2 == d1 + |RenderPair(l.p2.x, l.p2.y)|
    requires d2 + 3 < |t| ==> t[d2 + 3] == '['
    ensures LineAt(t, i) == Some((l, d2 + 3))
  {
    var b1 := i + 2 + |Decimal(l.p1.x)|;
    var b2 := d1 + 2 + |Decimal(l.p2.x)|;
    PairHeld(t, i + 1, l.p1.x, l.p1.y, b1, d1);
    PairHeld(t, d1 + 1, l.p2.x, l.p2.y, b2, d2);
    LineIn(t, i, l, b1, d1, b2, d2);
  }

  /** The first line of a rendered list is matched where the list starts, and the rest follows it. */
  lemma {:induction false} LineStep(t: string, from: nat, ls: seq<Line>) returns (e: nat)
    requires ls != [] && forall k :: 0 <= k < |ls| ==> LineWellFormed(ls[k])
    requires Holds(t, from, RenderLines(ls)) && from + |RenderLines(ls)| == |t|
    ensures from < |t| && LineMatches(t)[from] == Some((ls[0], e))
    ensures Holds(t, e, RenderLines(ls[1..])) && e + |RenderLines(ls[1..])| == |t|
  {
    var r, rest := RenderLine(ls[0]), RenderLines(ls[1..]);
    e := from + |r|;
    HoldsConcat(t, from, r, rest);
    LineHeldAt(t, from, ls[0], e);
  }

  /** Lines rendered from `from` to the end are a chain of line matches. */
  lemma {:induction false} LinesChained(t: string, from: nat, ls: seq<Line>)
    requires forall k :: 0 <= k < |ls| ==> LineWellFormed(ls[k])
    requires Holds(t, from, RenderLines(ls)) && from + |RenderLines(ls)| == |t|
    ensures Chained(LineMatches(t), from, ls)
    decreases |ls|
  {
    if ls != [] {
      var e := LineStep(t, from, ls);
      LinesChained(t, e, ls[1..]);
      ChainLink(LineMatches(t), from, e, ls);
    }
  }

  /** Lines rendered from `from` to the end read back as the same lines. */
  lemma {:induction false} LinesOfRendering(t: string, from: nat, ls: seq<Line>)
    requires forall k :: 0 <= k < |ls| ==> LineWellFormed(ls[k])
    requires Holds(t, from, RenderLines(ls)) && from + |RenderLines(ls)| == |t|
    ensures Lines(t, from) == ls
  {
    LinesChained(t, from, ls);
    ScanOfChained(LineMatches(t), from, ls);
  }

  /** `parseLineList` reads back every list of lines rendered as a level writes them. */
  lemma {:induction false} ParseRenderedLines(ls: seq<Line>)
    requires forall k :: 0 <= k < |ls| ==> LineWellFormed(ls[k])
    ensures Lines(RenderLines(ls), 0) == ls
  {
    var t := RenderLines(ls);
    HoldsRest(t, 0);
    assert t[0..] == t;
    LinesOfRendering(t, 0, ls);
  }
}
