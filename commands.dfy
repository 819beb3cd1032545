/**
 * The keyboard command interpreter of src/input.ts: a table of states whose
 * rules say which key moves to which state and what the rule prints; a stack
 * of the rules taken so far; and, once a command is complete, the replay of
 * the rules' actions over a fresh context that yields the updated plane.
 */
module Commands {
  import opened Wrappers
  import opened Model
  import opened Text
  import opened Checks
  import Mutators

  /** The action a rule runs when the command is applied (the `func` of a rule). */
  datatype Action =
    | SetPlane | Turn | Circle | Left | Right | LeftNinety | RightNinety | ToDir | RelDir
    | Climb | Descend | SetAlt | SetRelAlt | DelayB | Benum | Mark | Unmark | Ignore
    | SelectBeacon | SelectExit | SelectAirport

  /** The `type` of a rule: what the key it accepts stands for. */
  datatype RuleType = PlaneRule | BenumRule | DirRule | DirRelRule | AltitudeRule | CmdRule | MetaRule

  /**
   * A rule accepts the key `token`, or any key of the class "alpha" or
   * "number" when `token` names that class; `str` is what it shows, with
   * "%c" standing for the key.
   */
  datatype Rule = Rule(token: string, toState: int, str: string, func: Option<Action>, kind: RuleType)

  /** One taken rule: what it showed, the rule, and the key that chose it. */
  datatype Entry = Entry(str: string, rule: Rule, ch: string)

  /** What a complete command does: fail with a message, update a plane, or nothing. */
  datatype CommandResult = Failed(message: string) | Changed(plane: Plane) | Skipped

  /** A displayed choice of the current state: a rule without its action. */
  datatype Hint = Hint(token: string, str: string, kind: RuleType)

  const ERASE: string := "Backspace"
  const KILL: string := "Escape"
  const ALPHA: string := "abcdefghijklmnopqrstuvwxyz"
  const DIGITS: string := "0123456789"

  /** The keys a command is typed with: every string except the two class names. */
  predicate IsKey(token: string) {
    token != "alpha" && token != "number"
  }

  /** The class of a key: "alpha" or "number" when it occurs in those alphabets, else "other". */
  function TokenClass(token: string): string {
    if IsInfix(token, ALPHA) then "alpha"
    else if IsInfix(token, DIGITS) then "number"
    else "other"
  }

  predicate Matches(rule: Rule, token: string) {
    rule.token == token || rule.token == TokenClass(token)
  }

  /** The first rule of `rules` that accepts `token`. */
  function FirstMatch(rules: seq<Rule>, token: string): (r: Option<Rule>)
    ensures r.None? <==> forall k :: 0 <= k < |rules| ==> !Matches(rules[k], token)
    ensures r.Some? ==>
              exists k :: 0 <= k < |rules| && rules[k] == r.value && Matches(r.value, token) &&
                          forall j :: 0 <= j < k ==> !Matches(rules[j], token)
  {
    if |rules| == 0 then None
    else if Matches(rules[0], token) then Some(rules[0])
    else
      var r := FirstMatch(rules[1..], token);
      assert forall k :: 1 <= k < |rules| ==> rules[k] == rules[1..][k - 1];
      if r.Some? then
        var k :| 0 <= k < |rules[1..]| && rules[1..][k] == r.value && Matches(r.value, token) &&
                 forall j :: 0 <= j < k ==> !Matches(rules[1..][j], token);
        assert rules[k + 1] == r.value;
        r
      else r
  }

  /** The rule at `i` is the first match when it matches and none before it does. */
  lemma {:induction false} FirstMatchAt(rules: seq<Rule>, token: string, i: nat)
    requires i < |rules| && Matches(rules[i], token)
    requires forall j :: 0 <= j < i ==> !Matches(rules[j], token)
    ensures FirstMatch(rules, token) == Some(rules[i])
  {
    if i > 0 {
      FirstMatchAt(rules[1..], token, i - 1);
    }
  }

  function R(token: string, toState: int, str: string, kind: RuleType): Rule {
    Rule(token, toState, str, None, kind)
  }

  function F(token: string, toState: int, str: string, func: Action, kind: RuleType): Rule {
    Rule(token, toState, str, Some(func), kind)
  }

  /** The state table `st`; a state outside 0..12, such as -1, has no rules. */
  function RulesOf(state: int): seq<Rule> {
    match state
    // 0: specify plane
    case 0 => [
      F("alpha", 1, "%c:", SetPlane, PlaneRule),
      R("Enter", -1, "", MetaRule),
      R("?", 12, " [a-z]<ret>", MetaRule)]
    // 1: action
    case 1 => [
      F("t", 2, " turn", Turn, CmdRule),
      R("a", 3, " altitude", CmdRule),
      F("c", 4, " circle", Circle, CmdRule),
      F("m", 7, " mark", Mark, CmdRule),
      F("u", 7, " unmark", Unmark, CmdRule),
      F("i", 7, " ignore", Ignore, CmdRule),
      R("?", 12, " tacmui", MetaRule)]
    // 2: turn
    case 2 => [
      F("l", 6, " left", Left, CmdRule),
      F("r", 6, " right", Right, CmdRule),
      F("L", 4, " left 90", LeftNinety, CmdRule),
      F("R", 4, " right 90", RightNinety, CmdRule),
      R("t", 11, " towards", CmdRule),
      F("w", 4, " to 0", ToDir, DirRule),
      F("e", 4, " to 45", ToDir, DirRule),
      F("d", 4, " to 90", ToDir, DirRule),
      F("c", 4, " to 135", ToDir, DirRule),
      F("x", 4, " to 180", ToDir, DirRule),
      F("z", 4, " to 225", ToDir, DirRule),
      F("a", 4, " to 270", ToDir, DirRule),
      F("q", 4, " to 315", ToDir, DirRule),
      R("?", 12, " lrLRt<dir>", MetaRule)]
    // 3: altitude
    case 3 => [
      F("+", 10, " climb", Climb, CmdRule),
      F("c", 10, " climb", Climb, CmdRule),
      F("-", 10, " descend", Descend, CmdRule),
      F("d", 10, " descend", Descend, CmdRule),
      F("number", 7, " %c000 feet", SetAlt, AltitudeRule),
      R("?", 12, " +-cd[0-9]", MetaRule)]
    // 4: check for delay
    case 4 => [
      R("@", 9, " at", CmdRule),
      R("a", 9, " at", CmdRule),
      R("Enter", -1, "", MetaRule),
      R("?", 12, " @a<ret>", MetaRule)]
    // 5: delay target
    case 5 => [
      F("number", 7, "%c", DelayB, BenumRule),
      R("?", 12, " [0-9]", MetaRule)]
    // 6: delay or direction
    case 6 => [
      R("@", 9, " at", CmdRule),
      R("a", 9, " at", CmdRule),
      F("w", 4, " 0", RelDir, DirRelRule),
      F("e", 4, " 45", RelDir, DirRelRule),
      F("d", 4, " 90", RelDir, DirRelRule),
      F("c", 4, " 135", RelDir, DirRelRule),
      F("x", 4, " 180", RelDir, DirRelRule),
      F("z", 4, " 225", RelDir, DirRelRule),
      F("a", 4, " 270", RelDir, DirRelRule),
      F("q", 4, " 315", RelDir, DirRelRule),
      R("Enter", -1, "", MetaRule),
      R("?", 12, " @a<dir><ret>", MetaRule)]
    // 7: done
    case 7 => [
      R("Enter", -1, "", MetaRule),
      R("?", 12, " <ret>", MetaRule)]
    // 8: number
    case 8 => [
      F("number", 4, "%c", Benum, BenumRule),
      R("?", 12, " [0-9]", MetaRule)]
    // 9: beacon
    case 9 => [
      R("b", 5, " beacon #", CmdRule),
      R("*", 5, " beacon #", CmdRule),
      R("?", 12, " b*", MetaRule)]
    // 10: relative altitude
    case 10 => [
      F("number", 7, " %c000 feet", SetRelAlt, AltitudeRule),
      R("?", 12, " [0-9]", MetaRule)]
    // 11: towards
    case 11 => [
      F("b", 8, " beacon #", SelectBeacon, CmdRule),
      F("*", 8, " beacon #", SelectBeacon, CmdRule),
      F("e", 8, " exit #", SelectExit, CmdRule),
      F("a", 8, " airport #", SelectAirport, CmdRule),
      R("?", 12, " b*ea", MetaRule)]
    // 12: help
    case 12 => [
      R("", -1, "", MetaRule)]
    case _ => []
  }

  /** `str` with its first "%c" replaced by `ch`; unchanged when it has none. */
  function Render(str: string, ch: string): string {
    if |str| >= 2 && str[0] == '%' && str[1] == 'c' then ch + str[2..]
    else if |str| == 0 then str
    else [str[0]] + Render(str[1..], ch)
  }

  /** A shown text whose only '%' opens its "%c" shows the key in its place. */
  lemma {:induction false} RenderFills(before: string, after: string, ch: string)
    requires '%' !in before
    ensures Render(before + "%c" + after, ch) == before + ch + after
  {
    if before != [] {
      assert (before + "%c" + after)[1..] == before[1..] + "%c" + after;
      RenderFills(before[1..], after, ch);
    }
  }

  /** A text without '%' is shown as it is. */
  lemma {:induction false} RenderPlain(str: string, ch: string)
    requires '%' !in str
    ensures Render(str, ch) == str
  {
    if str != [] {
      RenderPlain(str[1..], ch);
    }
  }

  /** The state a stack is in: that of its last rule, and 0 when it is empty. */
  function TopOf(stack: seq<Entry>): int {
    if stack == [] then 0 else stack[|stack| - 1].rule.toState
  }

  /** The entry the rule `rule` makes for the key `ch`. */
  function EntryFor(rule: Rule, ch: string): Entry {
    Entry(Render(rule.str, ch), rule, ch)
  }

  /** The entry is what the state's table makes of its key. */
  predicate Fits(state: int, e: Entry) {
    IsKey(e.ch) && FirstMatch(RulesOf(state), e.ch) == Some(e.rule) && e == EntryFor(e.rule, e.ch)
  }

  /** The state the stack was in before its `i`th entry was taken. */
  function StateBefore(stack: seq<Entry>, i: int): int
    requires 0 <= i <= |stack|
  {
    if i == 0 then 0 else stack[i - 1].rule.toState
  }

  /** The stack is a path through the table from state 0, one key at a time. */
  predicate Path(stack: seq<Entry>) {
    forall i :: 0 <= i < |stack| ==> Fits(StateBefore(stack, i), stack[i])
  }

  /** Where the rules of the table lead: never back to state 0, and to -1 only on Enter. */
  lemma RuleTargets(state: int, rule: Rule)
    requires rule in RulesOf(state)
    ensures rule.toState != 0 && -1 <= rule.toState <= 12
    ensures rule.toState == -1 ==> rule.token == "Enter" || (state == 12 && rule.token == "")
    ensures rule.toState == 5 ==> rule.token == "b" || rule.token == "*"
    ensures rule.toState == 8 ==> rule.token == "b" || rule.token == "*" || rule.token == "e" || rule.token == "a"
  {
    match state
    case 0 =>
    case 1 =>
    case 2 =>
    case 3 =>
    case 4 =>
    case 5 =>
    case 6 =>
    case 7 =>
    case 8 =>
    case 9 =>
    case 10 =>
    case 11 =>
    case 12 =>
    case _ =>
  }

  /** No rule names the class "other" or the erase and kill keys. */
  lemma RuleTokens(state: int, rule: Rule)
    requires rule in RulesOf(state)
    ensures rule.token != "other" && rule.token != "Backspace" && rule.token != "Escape"
  {
    match state
    case 0 =>
    case 1 =>
    case 2 =>
    case 3 =>
    case 4 =>
    case 5 =>
    case 6 =>
    case 7 =>
    case 8 =>
    case 9 =>
    case 10 =>
    case 11 =>
    case 12 =>
    case _ =>
  }

  /** A rule that turns to a compass heading accepts exactly one compass letter. */
  predicate ReadsHeading(rule: Rule) {
    rule.func == Some(ToDir) || rule.func == Some(RelDir) ==>
      |rule.token| == 1 && rule.token[0] in COMPASS
  }

  /** The letters of the compass, in order. */
  lemma CompassLetters()
    ensures && COMPASS[0] == 'w' && COMPASS[1] == 'e' && COMPASS[2] == 'd' && COMPASS[3] == 'c'
            && COMPASS[4] == 'x' && COMPASS[5] == 'z' && COMPASS[6] == 'a' && COMPASS[7] == 'q'
  {
  }

  /** The rules that turn to a compass heading accept exactly the compass letters. */
  lemma RuleHeadings(state: int, rule: Rule)
    requires rule in RulesOf(state)
    ensures ReadsHeading(rule)
  {
    if state == 2 {
      TurnHeadings(rule);
    } else if state == 6 {
      DelayHeadings(rule);
    } else {
      OtherHeadings(state, rule);
    }
  }

  /** State 2 (turn) turns to a heading only on a compass letter. */
  lemma TurnHeadings(rule: Rule)
    requires rule in RulesOf(2)
    ensures ReadsHeading(rule)
  {
    CompassLetters();
  }

  /** State 6 (delay or direction) turns to a heading only on a compass letter. */
  lemma DelayHeadings(rule: Rule)
    requires rule in RulesOf(6)
    ensures ReadsHeading(rule)
  {
    CompassLetters();
  }

  /** No other state turns to a heading. */
  lemma OtherHeadings(state: int, rule: Rule)
    requires state != 2 && state != 6 && rule in RulesOf(state)
    ensures rule.func != Some(ToDir) && rule.func != Some(RelDir)
  {
    match state
    case 0 =>
    case 1 =>
    case 3 =>
    case 4 =>
    case 5 =>
    case 7 =>
    case 8 =>
    case 9 =>
    case 10 =>
    case 11 =>
    case 12 =>
    case _ =>
  }

  /** Only state 0 selects a plane, and the rules that read a number accept the class "number". */
  lemma RuleActions(state: int, rule: Rule)
    requires rule in RulesOf(state)
    ensures rule.func == Some(SetPlane) ==> state == 0
    ensures (|| rule.func == Some(SetAlt) || rule.func == Some(SetRelAlt)
             || rule.func == Some(DelayB) || rule.func == Some(Benum)) ==> rule.token == "number"
  {
    match state
    case 0 =>
    case 1 =>
    case 2 =>
    case 3 =>
    case 4 =>
    case 5 =>
    case 6 =>
    case 7 =>
    case 8 =>
    case 9 =>
    case 10 =>
    case 11 =>
    case 12 =>
    case _ =>
  }

  /** Facts about the rules of the table that the path lemmas rely on. */
  lemma RuleFacts(state: int, rule: Rule)
    requires rule in RulesOf(state)
    ensures rule.toState != 0 && -1 <= rule.toState <= 12
    ensures rule.token != "other" && rule.token != "Backspace" && rule.token != "Escape"
    ensures rule.toState == -1 ==> rule.token == "Enter" || (state == 12 && rule.token == "")
    ensures rule.toState == 5 ==> rule.token == "b" || rule.token == "*"
    ensures rule.toState == 8 ==> rule.token == "b" || rule.token == "*" || rule.token == "e" || rule.token == "a"
    ensures rule.func == Some(SetPlane) ==> state == 0
    ensures (|| rule.func == Some(SetAlt) || rule.func == Some(SetRelAlt)
             || rule.func == Some(DelayB) || rule.func == Some(Benum)) ==> rule.token == "number"
    ensures rule.func == Some(ToDir) || rule.func == Some(RelDir) ==>
              |rule.token| == 1 && rule.token[0] in COMPASS
  {
    RuleTargets(state, rule);
    RuleTokens(state, rule);
    RuleHeadings(state, rule);
    RuleActions(state, rule);
  }

  /** A rule naming a key, not a class, matches that key alone. */
  lemma MatchesKey(rule: Rule, token: string)
    requires Matches(rule, token) && rule.token != "alpha" && rule.token != "number" && rule.token != "other"
    ensures rule.token == token
  {
  }

  /** `processToken` as a function of the stack: erase, kill, or take the first matching rule. */
  function Step(stack: seq<Entry>, token: string): seq<Entry> {
    if token == ERASE then (if stack == [] then [] else stack[..|stack| - 1])
    else if token == KILL then []
    else
      match FirstMatch(RulesOf(TopOf(stack)), token)
      case None => stack
      case Some(rule) => stack + [EntryFor(rule, token)]
  }

  /** Taking a key keeps the stack a path through the table. */
  lemma StepKeepsPath(stack: seq<Entry>, token: string)
    requires Path(stack) && IsKey(token)
    ensures Path(Step(stack, token))
  {
    if token == ERASE {
      if stack != [] {
        PathPrefix(stack, |stack| - 1);
      }
    } else if token != KILL {
      var m := FirstMatch(RulesOf(TopOf(stack)), token);
      if m.Some? {
        PathPush(stack, m.value, token);
      }
    }
  }

  /** Every prefix of a path is a path. */
  lemma PathPrefix(stack: seq<Entry>, n: nat)
    requires Path(stack) && n <= |stack|
    ensures Path(stack[..n])
  {
    var prefix := stack[..n];
    forall i | 0 <= i < |prefix|
      ensures Fits(StateBefore(prefix, i), prefix[i])
    {
      assert prefix[i] == stack[i];
      assert StateBefore(prefix, i) == StateBefore(stack, i);
    }
  }

  /** A path extended by the entry the current state's table makes of a key is a path. */
  lemma PathPush(stack: seq<Entry>, rule: Rule, token: string)
    requires Path(stack) && IsKey(token) && FirstMatch(RulesOf(TopOf(stack)), token) == Some(rule)
    ensures Path(stack + [EntryFor(rule, token)])
  {
    var e := EntryFor(rule, token);
    var next := stack + [e];
    PathKeepsOld(stack, e);
    forall i | 0 <= i < |next|
      ensures Fits(StateBefore(next, i), next[i])
    {
      if i == |stack| {
        assert next[i] == e && StateBefore(next, i) == TopOf(stack);
      }
    }
  }

  /** Appending an entry leaves the earlier entries' fit unchanged. */
  lemma PathKeepsOld(stack: seq<Entry>, e: Entry)
    requires Path(stack)
    ensures forall i :: 0 <= i < |stack| ==> Fits(StateBefore(stack + [e], i), (stack + [e])[i])
  {
    var next := stack + [e];
    forall i | 0 <= i < |stack|
      ensures Fits(StateBefore(next, i), next[i])
    {
      assert next[i] == stack[i];
      assert StateBefore(next, i) == StateBefore(stack, i);
    }
  }

  /** A key some rule of the current state accepts is undone by the erase key. */
  lemma EraseUndoesKey(stack: seq<Entry>, token: string)
    requires token != ERASE && token != KILL
    requires FirstMatch(RulesOf(TopOf(stack)), token).Some?
    ensures Step(Step(stack, token), ERASE) == stack
  {
    var next := Step(stack, token);
    assert next[..|next| - 1] == stack;
  }

  /** A key no rule of the current state accepts changes nothing. */
  lemma IgnoredKey(stack: seq<Entry>, token: string)
    requires token != ERASE && token != KILL
    requires forall rule :: rule in RulesOf(TopOf(stack)) ==> !Matches(rule, token)
    ensures Step(stack, token) == stack
  {
  }

  /**
   * A command is complete only after the Enter key, or after the empty key
   * in the help state; once complete, no further key is accepted.
   */
  lemma CompletionNeedsEnter(stack: seq<Entry>, token: string)
    requires token != ERASE && token != KILL
    ensures TopOf(stack) != -1 && TopOf(Step(stack, token)) == -1 ==>
              token == "Enter" || (token == "" && TopOf(stack) == 12)
    ensures TopOf(stack) == -1 ==> Step(stack, token) == stack
  {
    var m := FirstMatch(RulesOf(TopOf(stack)), token);
    if m.Some? {
      MatchedRule(TopOf(stack), token, m.value);
      RuleFacts(TopOf(stack), m.value);
      if m.value.toState == -1 {
        MatchesKey(m.value, token);
      }
    }
  }

  /** The shown text of a stack: its entries' texts in order (`display`). */
  function Shown(stack: seq<Entry>): string {
    if stack == [] then "" else stack[0].str + Shown(stack[1..])
  }

  /** Pushing an entry appends its text to what is shown. */
  lemma {:induction false} ShownAppend(stack: seq<Entry>, e: Entry)
    ensures Shown(stack + [e]) == Shown(stack) + e.str
  {
    if stack != [] {
      assert (stack + [e])[1..] == stack[1..] + [e];
      ShownAppend(stack[1..], e);
    }
  }

  /** Taking a key shows the rule's text with the key in place of "%c". */
  lemma StepShows(stack: seq<Entry>, token: string, rule: Rule)
    requires token != ERASE && token != KILL
    requires FirstMatch(RulesOf(TopOf(stack)), token) == Some(rule)
    ensures Shown(Step(stack, token)) == Shown(stack) + Render(rule.str, token)
  {
    ShownAppend(stack, EntryFor(rule, token));
  }

  /** The rules of `rules` without the help rule "?". */
  function Visible(rules: seq<Rule>): (r: seq<Rule>)
    ensures forall k :: 0 <= k < |r| ==> r[k] in rules && r[k].token != "?"
    ensures forall k :: 0 <= k < |rules| && rules[k].token != "?" ==> rules[k] in r
  {
    if rules == [] then []
    else
      var rest := Visible(rules[1..]);
      assert forall k :: 1 <= k < |rules| ==> rules[k] == rules[1..][k - 1];
      if rules[0].token == "?" then rest else [rules[0]] + rest
  }

  /** Filtering out the help rule distributes over concatenation. */
  lemma {:induction false} VisibleAppend(a: seq<Rule>, b: seq<Rule>)
    ensures Visible(a + b) == Visible(a) + Visible(b)
    decreases |a|
  {
    if a == [] {
      assert a + b == b;
    } else {
      assert (a + b)[0] == a[0] && (a + b)[1..] == a[1..] + b;
      VisibleAppend(a[1..], b);
    }
  }

  /** One more rule at the end shows up at the end, unless it is the help rule. */
  lemma VisibleSnoc(rules: seq<Rule>, rule: Rule)
    ensures Visible(rules + [rule]) == Visible(rules) + (if rule.token == "?" then [] else [rule])
  {
    VisibleAppend(rules, [rule]);
    assert Visible([rule]) == Visible([rule][1..]) + (if rule.token == "?" then [] else [rule]);
  }

  /**
   * `idx` lists, in increasing order, exactly the positions of `rules` whose
   * token is not the help rule's "?".
   */
  predicate NonHelpPositions(rules: seq<Rule>, idx: seq<nat>) {
    && (forall k :: 0 <= k < |idx| ==> idx[k] < |rules| && rules[idx[k]].token != "?")
    && Ascending(idx)
    && (forall i :: 0 <= i < |rules| && rules[i].token != "?" ==> i in idx)
  }

  /** Each position is below the next. */
  predicate Ascending(idx: seq<nat>)
    decreases |idx|
  {
    |idx| < 2 || (idx[0] < idx[1] && Ascending(idx[1..]))
  }

  /** In an ascending sequence every earlier position is below every later one. */
  lemma {:induction false} AscendingOrders(idx: seq<nat>)
    requires Ascending(idx)
    ensures forall k, l :: 0 <= k < l < |idx| ==> idx[k] < idx[l]
    decreases |idx|
  {
    if |idx| >= 2 {
      AscendingOrders(idx[1..]);
      assert forall l :: 1 <= l < |idx| ==> idx[l] == idx[1..][l - 1];
    }
  }

  /** Moving every position one place on keeps them ascending. */
  lemma {:induction false} AscendingShifted(idx': seq<nat>, idx: seq<nat>)
    requires Ascending(idx') && |idx| == |idx'| && forall k :: 0 <= k < |idx| ==> idx[k] == idx'[k] + 1
    ensures Ascending(idx)
    decreases |idx|
  {
    if |idx| >= 2 {
      AscendingShifted(idx'[1..], idx[1..]);
    }
  }

  /** `Visible(rules)` is the non-help rules of `rules`, each once, in table order. */
  lemma {:induction false} VisibleInOrder(rules: seq<Rule>) returns (idx: seq<nat>)
    ensures NonHelpPositions(rules, idx) && |idx| == |Visible(rules)|
    ensures forall k :: 0 <= k < |idx| ==> Visible(rules)[k] == rules[idx[k]]
  {
    if rules == [] {
      idx := [];
    } else {
      var tail := rules[1..];
      var idx' := VisibleInOrder(tail);
      var shifted := ShiftPositions(rules, idx');
      if rules[0].token == "?" {
        assert Visible(rules) == Visible(tail);
        idx := shifted;
      } else {
        idx := ConsPosition(rules, shifted);
        assert Visible(rules) == [rules[0]] + Visible(tail);
        PicksCons(rules, idx', Visible(tail), idx);
      }
    }
  }

  /** Picking `rules[0]`, then the picks of `rules[1..]` moved one place on, picks `[rules[0]] + vt`. */
  lemma PicksCons(rules: seq<Rule>, idx': seq<nat>, vt: seq<Rule>, idx: seq<nat>)
    requires rules != [] && |idx'| == |vt| && |idx| == |vt| + 1 && idx[0] == 0
    requires forall k :: 0 <= k < |idx'| ==> idx'[k] < |rules| - 1 && vt[k] == rules[1..][idx'[k]]
    requires forall k :: 0 < k < |idx| ==> idx[k] == idx'[k - 1] + 1
    ensures forall k :: 0 <= k < |idx| ==> ([rules[0]] + vt)[k] == rules[idx[k]]
  {
    forall k | 0 < k < |idx|
      ensures ([rules[0]] + vt)[k] == rules[idx[k]]
    {
      assert ([rules[0]] + vt)[k] == vt[k - 1];
    }
  }

  /** The positions of `rules[1..]`, moved one place on, are positions of `rules` past the first. */
  lemma ShiftPositions(rules: seq<Rule>, idx': seq<nat>) returns (idx: seq<nat>)
    requires rules != [] && NonHelpPositions(rules[1..], idx')
    ensures |idx| == |idx'| && forall k :: 0 <= k < |idx| ==> idx[k] == idx'[k] + 1
    ensures forall k :: 0 <= k < |idx| ==> 0 < idx[k] < |rules| && rules[idx[k]].token != "?"
    ensures Ascending(idx)
    ensures forall i :: 0 < i < |rules| && rules[i].token != "?" ==> i in idx
    ensures rules[0].token == "?" ==> NonHelpPositions(rules, idx)
  {
    var tail := rules[1..];
    idx := seq(|idx'|, k requires 0 <= k < |idx'| => idx'[k] + 1);
    AscendingShifted(idx', idx);
    forall i | 0 < i < |rules| && rules[i].token != "?"
      ensures i in idx
    {
      assert tail[i - 1] == rules[i];
      var k :| 0 <= k < |idx'| && idx'[k] == i - 1;
      assert idx[k] == i;
    }
  }

  /** Position 0, holding a rule other than the help rule, in front of the later positions. */
  lemma ConsPosition(rules: seq<Rule>, shifted: seq<nat>) returns (idx: seq<nat>)
    requires rules != [] && rules[0].token != "?"
    requires forall k :: 0 <= k < |shifted| ==> 0 < shifted[k] < |rules| && rules[shifted[k]].token != "?"
    requires Ascending(shifted)
    requires forall i :: 0 < i < |rules| && rules[i].token != "?" ==> i in shifted
    ensures idx == [0] + shifted && NonHelpPositions(rules, idx)
  {
    idx := [0] + shifted;
    assert idx[1..] == shifted;
    forall i | 0 <= i < |rules| && rules[i].token != "?"
      ensures i in idx
    {
      if i > 0 {
        var k :| 0 <= k < |shifted| && shifted[k] == i;
        assert idx[k + 1] == i;
      }
    }
  }

  /** The hint shown for a rule. */
  function HintFor(rule: Rule): Hint {
    Hint(rule.token, rule.str, rule.kind)
  }

  /**
   * The hints of a state are its rules other than the help rule, each once and
   * in table order.
   */
  lemma HintsInOrder(state: int)
    ensures exists idx :: NonHelpPositions(RulesOf(state), idx) && |idx| == |HintsOf(state)|
                          && forall k :: 0 <= k < |idx| ==> HintsOf(state)[k] == HintFor(RulesOf(state)[idx[k]])
  {
    var rules := RulesOf(state);
    var idx := VisibleInOrder(rules);
    assert forall k :: 0 <= k < |idx| ==> HintsOf(state)[k] == HintFor(rules[idx[k]]);
  }

  /** `options`: the hints of a state, in table order, without the help rule. */
  function HintsOf(state: int): (r: seq<Hint>)
    ensures forall h :: h in r <==>
              exists rule :: rule in RulesOf(state) && rule.token != "?" && h == Hint(rule.token, rule.str, rule.kind)
  {
    var shown := Visible(RulesOf(state));
    var r := seq(|shown|, k requires 0 <= k < |shown| => Hint(shown[k].token, shown[k].str, shown[k].kind));
    HintsShown(RulesOf(state), shown, r);
    r
  }

  lemma HintsShown(rules: seq<Rule>, shown: seq<Rule>, r: seq<Hint>)
    requires forall k :: 0 <= k < |shown| ==> shown[k] in rules && shown[k].token != "?"
    requires forall k :: 0 <= k < |rules| && rules[k].token != "?" ==> rules[k] in shown
    requires |r| == |shown| && forall k :: 0 <= k < |r| ==> r[k] == Hint(shown[k].token, shown[k].str, shown[k].kind)
    ensures forall h :: h in r <==>
              exists rule :: rule in rules && rule.token != "?" && h == Hint(rule.token, rule.str, rule.kind)
  {
    forall h | h in r
      ensures exists rule :: rule in rules && rule.token != "?" && h == Hint(rule.token, rule.str, rule.kind)
    {
      var k :| 0 <= k < |r| && r[k] == h;
      assert shown[k] in rules;
    }
    forall rule | rule in rules && rule.token != "?"
      ensures Hint(rule.token, rule.str, rule.kind) in r
    {
      var i :| 0 <= i < |rules| && rules[i] == rule;
      var k :| 0 <= k < |shown| && shown[k] == rule;
      assert r[k] == Hint(rule.token, rule.str, rule.kind);
    }
  }

  /** `benumTarget`: when the state asks for a number, the kind of target the last key chose. */
  function TargetOf(stack: seq<Entry>): Option<PlaneDest> {
    if stack == [] || !exists h :: h in HintsOf(TopOf(stack)) && h.kind == BenumRule then None
    else
      var ch := stack[|stack| - 1].ch;
      if ch == "b" || ch == "*" then Some(BeaconDest)
      else if ch == "e" then Some(ExitDest)
      else if ch == "a" then Some(AirportDest)
      else None
  }

  /** The rule a key selected accepts that very key, or its class. */
  lemma MatchedRule(state: int, token: string, rule: Rule)
    requires FirstMatch(RulesOf(state), token) == Some(rule)
    ensures rule in RulesOf(state) && Matches(rule, token)
  {
  }

  /**
   * On a path, a state that asks for a target number always knows the kind
   * of target: a beacon after "at", and the kind chosen after "towards".
   */
  lemma TargetKnown(stack: seq<Entry>)
    ensures Path(stack) && (TopOf(stack) == 5 || TopOf(stack) == 8) ==> TargetOf(stack).Some?
    ensures Path(stack) && TopOf(stack) == 5 ==> TargetOf(stack) == Some(BeaconDest)
  {
    if Path(stack) && (TopOf(stack) == 5 || TopOf(stack) == 8) {
      TargetKnownOnPath(stack);
    }
  }

  /** States 5 and 8 offer a number for a target. */
  lemma BenumHint(state: int)
    requires state == 5 || state == 8
    ensures exists h :: h in HintsOf(state) && h.kind == BenumRule
  {
    if state == 5 {
      var rule := F("number", 7, "%c", DelayB, BenumRule);
      assert rule in RulesOf(5);
      assert Hint(rule.token, rule.str, rule.kind) in HintsOf(5);
    } else {
      var rule := F("number", 4, "%c", Benum, BenumRule);
      assert rule in RulesOf(8);
      assert Hint(rule.token, rule.str, rule.kind) in HintsOf(8);
    }
  }

  lemma TargetKnownOnPath(stack: seq<Entry>)
    requires Path(stack) && (TopOf(stack) == 5 || TopOf(stack) == 8)
    ensures TargetOf(stack).Some?
    ensures TopOf(stack) == 5 ==> TargetOf(stack) == Some(BeaconDest)
  {
    var e := stack[|stack| - 1];
    var state := LastStep(stack);
    RuleFacts(state, e.rule);
    MatchesKey(e.rule, e.ch);
    BenumHint(TopOf(stack));
  }

  /** The last entry of a nonempty path is a rule of the state before it, matching its key. */
  lemma LastStep(stack: seq<Entry>) returns (state: int)
    requires Path(stack) && stack != []
    ensures var e := stack[|stack| - 1];
            e.rule in RulesOf(state) && Matches(e.rule, e.ch) && e.rule.toState == TopOf(stack)
  {
    var n := |stack| - 1;
    assert Fits(StateBefore(stack, n), stack[n]);
    state := StateBefore(stack, n);
    MatchedRule(state, stack[n].ch, stack[n].rule);
  }

  /** On a path the state is one of the table's, and state 0 is left by the first key. */
  lemma PathTop(stack: seq<Entry>)
    ensures Path(stack) ==> -1 <= TopOf(stack) <= 12
    ensures Path(stack) && stack != [] ==> TopOf(stack) != 0
  {
    if Path(stack) && stack != [] {
      var state := LastStep(stack);
      RuleTargets(state, stack[|stack| - 1].rule);
    }
  }

  /** The key suits the action: digits for a number, a compass letter for a heading. */
  predicate Admissible(action: Action, ch: string) {
    match action
    case SetAlt => AllDigits(ch)
    case SetRelAlt => AllDigits(ch)
    case Benum => AllDigits(ch)
    case DelayB => AllDigits(ch)
    case ToDir => DirNo(ch).Success?
    case RelDir => DirNo(ch).Success?
    case _ => true
  }

  predicate Admits(e: Entry) {
    e.rule.func.None? || Admissible(e.rule.func.value, e.ch)
  }

  /** Every key of the class "number" is a string of digits. */
  lemma DigitsOnly(token: string)
    requires IsInfix(token, DIGITS)
    ensures AllDigits(token)
  {
    var i :| 0 <= i <= |DIGITS| && token <= DIGITS[i..];
    var suffix := DIGITS[i..];
    assert AllDigits(DIGITS);
    assert AllDigits(suffix);
    assert token == suffix[..|token|];
  }

  /** Every rule of the table hands its action a key that suits it. */
  lemma TableAdmits(state: int, token: string, rule: Rule)
    requires IsKey(token) && rule in RulesOf(state) && Matches(rule, token)
    ensures rule.func.None? || Admissible(rule.func.value, token)
  {
    RuleActions(state, rule);
    RuleHeadings(state, rule);
    if rule.token == "number" {
      assert TokenClass(token) == "number";
      DigitsOnly(token);
    } else if rule.func == Some(ToDir) || rule.func == Some(RelDir) {
      MatchesKey(rule, token);
      assert Lower(token[0]) == token[0];
    }
  }

  /** Every entry of a path suits its action. */
  lemma PathAdmits(stack: seq<Entry>)
    requires Path(stack)
    ensures forall k :: 0 <= k < |stack| ==> Admits(stack[k])
  {
    forall k | 0 <= k < |stack|
      ensures Admits(stack[k])
    {
      assert Fits(StateBefore(stack, k), stack[k]);
      MatchedRule(StateBefore(stack, k), stack[k].ch, stack[k].rule);
      TableAdmits(StateBefore(stack, k), stack[k].ch, stack[k].rule);
    }
  }

  /** Run one rule's action. */
  function Apply(ctx: Mutators.Context, action: Action, ch: string, heading: (int, int) -> int): Mutators.Applied
    requires Admissible(action, ch)
  {
    match action
    case SetPlane => Mutators.SetPlane(ctx, ch)
    case Turn => Mutators.Turn(ctx)
    case Circle => Mutators.Circle(ctx)
    case Left => Mutators.Left(ctx)
    case Right => Mutators.Right(ctx)
    case LeftNinety => Mutators.LeftNinety(ctx)
    case RightNinety => Mutators.RightNinety(ctx)
    case ToDir => Mutators.ToDir(ctx, ch)
    case RelDir => Mutators.RelDir(ctx, ch)
    case Climb => Mutators.Climb(ctx)
    case Descend => Mutators.Descend(ctx)
    case SetAlt => Mutators.SetAlt(ctx, ch)
    case SetRelAlt => Mutators.SetRelAlt(ctx, ch)
    case DelayB => Mutators.DelayB(ctx, ch, heading)
    case Benum => Mutators.Benum(ctx, ch, heading)
    case Mark => Mutators.Mark(ctx)
    case Unmark => Mutators.Unmark(ctx)
    case Ignore => Mutators.Ignore(ctx)
    case SelectBeacon => Mutators.SelectBeacon(ctx)
    case SelectExit => Mutators.SelectExit(ctx)
    case SelectAirport => Mutators.SelectAirport(ctx)
  }

  /** Run the actions of `entries` in order, stopping at the first error. */
  function Replay(ctx: Mutators.Context, entries: seq<Entry>, heading: (int, int) -> int): Mutators.Applied
    requires forall k :: 0 <= k < |entries| ==> Admits(entries[k])
    decreases |entries|
  {
    if entries == [] then Mutators.Applied(ctx, "")
    else if entries[0].rule.func.None? then Replay(ctx, entries[1..], heading)
    else
      assert Admits(entries[0]);
      var a := Apply(ctx, entries[0].rule.func.value, entries[0].ch, heading);
      if a.error != "" then a else Replay(a.ctx, entries[1..], heading)
  }

  /** The context `applyCommand` starts from: the level and the planes, nothing selected. */
  function Fresh(screen: ScreenDefinition, air: seq<Plane>, ground: seq<Plane>): Mutators.Context {
    Mutators.Context(screen, air, ground, None, None, None, None)
  }

  /** What a complete command does: the replay's error, else the selected plane, else nothing. */
  function Execute(screen: ScreenDefinition, air: seq<Plane>, ground: seq<Plane>,
                   stack: seq<Entry>, heading: (int, int) -> int): CommandResult
    requires forall k :: 0 <= k < |stack| ==> Admits(stack[k])
  {
    var a := Replay(Fresh(screen, air, ground), stack, heading);
    if a.error != "" then Failed(a.error)
    else if a.ctx.plane.Some? then Changed(a.ctx.plane.value)
    else Skipped
  }

  /** `q` is `p` with only the fields a command may set changed. */
  predicate Derived(p: Plane, q: Plane) {
    q == p.(newDir := q.newDir, newAltitude := q.newAltitude, status := q.status,
            delayed := q.delayed, delayedNo := q.delayedNo)
  }

  /** The selected plane, if any, is a copy of plane `n` of the level, changed only in what commands set. */
  ghost predicate Tracks(ctx: Mutators.Context, n: int) {
    ctx.plane.None? ||
    exists q :: (q in ctx.air || q in ctx.ground) && q.planeNo == n && Derived(q, ctx.plane.value)
  }

  /** Any action but `setplane` keeps the planes and the presence of a selected plane, and changes it only in what commands set. */
  lemma ApplyDerives(ctx: Mutators.Context, action: Action, ch: string, heading: (int, int) -> int)
    requires Admissible(action, ch) && action != SetPlane
    ensures var a := Apply(ctx, action, ch, heading);
            && a.ctx.air == ctx.air && a.ctx.ground == ctx.ground && a.ctx.plane.Some? == ctx.plane.Some?
            && (ctx.plane.Some? ==> Derived(ctx.plane.value, a.ctx.plane.value))
  {
    if action.Benum? || action.DelayB? {
      TargetingDerives(ctx, action, ch, heading);
    } else if action.Turn? || action.Circle? || action.Left? || action.Right? || action.LeftNinety? ||
              action.RightNinety? || action.ToDir? || action.RelDir? {
      SteeringDerives(ctx, action, ch, heading);
    } else {
      SettingDerives(ctx, action, ch, heading);
    }
  }

  /** The steering actions change at most the target heading and the hold. */
  lemma SteeringDerives(ctx: Mutators.Context, action: Action, ch: string, heading: (int, int) -> int)
    requires Admissible(action, ch)
    requires action.Turn? || action.Circle? || action.Left? || action.Right? || action.LeftNinety? ||
             action.RightNinety? || action.ToDir? || action.RelDir?
    ensures var a := Apply(ctx, action, ch, heading);
            && a.ctx.air == ctx.air && a.ctx.ground == ctx.ground && a.ctx.plane.Some? == ctx.plane.Some?
            && (ctx.plane.Some? ==> Derived(ctx.plane.value, a.ctx.plane.value))
  {
    match action
    case Turn =>
    case Circle =>
    case Left =>
    case Right =>
    case LeftNinety =>
    case RightNinety =>
    case ToDir =>
    case RelDir =>
  }

  /** Aiming at a target changes at most the target heading and the hold. */
  lemma TargetingDerives(ctx: Mutators.Context, action: Action, ch: string, heading: (int, int) -> int)
    requires Admissible(action, ch) && (action.Benum? || action.DelayB?)
    ensures var a := Apply(ctx, action, ch, heading);
            && a.ctx.air == ctx.air && a.ctx.ground == ctx.ground && a.ctx.plane.Some? == ctx.plane.Some?
            && (ctx.plane.Some? ==> Derived(ctx.plane.value, a.ctx.plane.value))
  {
    if action.Benum? {
      var a := Mutators.Benum(ctx, ch, heading);
      assert Apply(ctx, action, ch, heading) == a;
    } else {
      var a := Mutators.DelayB(ctx, ch, heading);
      assert Apply(ctx, action, ch, heading) == a;
      if ctx.plane.Some? {
        assert Derived(ctx.plane.value, a.ctx.plane.value);
      }
    }
  }

  /** The other actions change at most the target altitude and the status. */
  lemma SettingDerives(ctx: Mutators.Context, action: Action, ch: string, heading: (int, int) -> int)
    requires Admissible(action, ch) && action != SetPlane
    requires !(action.Turn? || action.Circle? || action.Left? || action.Right? || action.LeftNinety? ||
               action.RightNinety? || action.ToDir? || action.RelDir? || action.Benum? || action.DelayB?)
    ensures var a := Apply(ctx, action, ch, heading);
            && a.ctx.air == ctx.air && a.ctx.ground == ctx.ground && a.ctx.plane.Some? == ctx.plane.Some?
            && (ctx.plane.Some? ==> Derived(ctx.plane.value, a.ctx.plane.value))
  {
    match action
    case Climb =>
    case Descend =>
    case SetAlt =>
    case SetRelAlt =>
    case Mark =>
    case Unmark =>
    case Ignore =>
    case SelectBeacon =>
    case SelectExit =>
    case SelectAirport =>
  }

  /** Any action but `setplane` keeps the planes and changes the selected one only in what commands set. */
  lemma ApplyTracks(ctx: Mutators.Context, action: Action, ch: string, heading: (int, int) -> int, n: int)
    requires Admissible(action, ch) && action != SetPlane && Tracks(ctx, n)
    ensures var a := Apply(ctx, action, ch, heading);
            && a.ctx.air == ctx.air && a.ctx.ground == ctx.ground && Tracks(a.ctx, n)
            && a.ctx.plane.Some? == ctx.plane.Some?
  {
    var a := Apply(ctx, action, ch, heading);
    ApplyDerives(ctx, action, ch, heading);
    if ctx.plane.Some? {
      var q :| (q in ctx.air || q in ctx.ground) && q.planeNo == n && Derived(q, ctx.plane.value);
      assert Derived(q, a.ctx.plane.value);
    }
  }

  /** Replaying actions none of which is `setplane` keeps tracking the same plane. */
  lemma {:induction false} ReplayTracks(ctx: Mutators.Context, entries: seq<Entry>, heading: (int, int) -> int, n: int)
    requires forall k :: 0 <= k < |entries| ==> Admits(entries[k])
    requires forall k :: 0 <= k < |entries| ==> entries[k].rule.func != Some(SetPlane)
    requires Tracks(ctx, n)
    ensures var a := Replay(ctx, entries, heading);
            && a.ctx.air == ctx.air && a.ctx.ground == ctx.ground && Tracks(a.ctx, n)
            && a.ctx.plane.Some? == ctx.plane.Some?
    decreases |entries|
  {
    if entries != [] {
      if entries[0].rule.func.None? {
        ReplayTracks(ctx, entries[1..], heading, n);
      } else {
        var a := Apply(ctx, entries[0].rule.func.value, entries[0].ch, heading);
        ApplyTracks(ctx, entries[0].rule.func.value, entries[0].ch, heading, n);
        if a.error == "" {
          ReplayTracks(a.ctx, entries[1..], heading, n);
        }
      }
    }
  }

  /** Only state 0 selects a plane, and no rule leads back to state 0. */
  lemma OnlyFirstSelects(stack: seq<Entry>)
    requires Path(stack)
    ensures forall k :: 0 < k < |stack| ==> stack[k].rule.func != Some(SetPlane)
  {
    forall k | 0 < k < |stack|
      ensures stack[k].rule.func != Some(SetPlane)
    {
      assert Fits(StateBefore(stack, k - 1), stack[k - 1]);
      MatchedRule(StateBefore(stack, k - 1), stack[k - 1].ch, stack[k - 1].rule);
      RuleFacts(StateBefore(stack, k - 1), stack[k - 1].rule);
      assert Fits(StateBefore(stack, k), stack[k]);
      MatchedRule(StateBefore(stack, k), stack[k].ch, stack[k].rule);
      RuleFacts(StateBefore(stack, k), stack[k].rule);
    }
  }

  /**
   * A command that changes a plane changes the plane its first key names,
   * and only in its target heading, target altitude, status and hold.
   */
  lemma CommandChangesNamedPlane(screen: ScreenDefinition, air: seq<Plane>, ground: seq<Plane>,
                                 stack: seq<Entry>, heading: (int, int) -> int)
    requires Path(stack)
    ensures forall k :: 0 <= k < |stack| ==> Admits(stack[k])
    ensures Execute(screen, air, ground, stack, heading).Changed? ==>
              var p := Execute(screen, air, ground, stack, heading).plane;
              && stack[0].rule.func == Some(SetPlane) && |stack[0].ch| > 0
              && p.planeNo == Lower(stack[0].ch[0]) as int - 'a' as int
              && exists q :: (q in air || q in ground) && q.planeNo == p.planeNo && Derived(q, p)
  {
    PathAdmits(stack);
    OnlyFirstSelects(stack);
    var ctx := Fresh(screen, air, ground);
    var r := Replay(ctx, stack, heading);
    if stack != [] && stack[0].rule.func == Some(SetPlane) {
      var ch := stack[0].ch;
      var a := Mutators.SetPlane(ctx, ch);
      assert Apply(ctx, SetPlane, ch, heading) == a;
      if a.error == "" {
        var n := Lower(ch[0]) as int - 'a' as int;
        var p := a.ctx.plane.value;
        assert Derived(p, p);
        assert Tracks(a.ctx, n);
        var rest := stack[1..];
        assert forall k :: 0 <= k < |rest| ==> rest[k] == stack[k + 1];
        assert r == Replay(a.ctx, rest, heading);
        ReplayTracks(a.ctx, rest, heading, n);
      } else {
        assert r == a;
      }
    } else if stack != [] {
      assert Tracks(ctx, 0);
      ReplayTracks(ctx, stack, heading, 0);
    }
  }

  /** `rules.find(...)`: the first rule that accepts the key, by a scan. */
  method FindRule(rules: seq<Rule>, token: string) returns (m: Option<Rule>)
    ensures m == FirstMatch(rules, token)
  {
    var i := 0;
    while i < |rules| && !Matches(rules[i], token)
      invariant 0 <= i <= |rules|
      invariant forall j :: 0 <= j < i ==> !Matches(rules[j], token)
    {
      i := i + 1;
    }
    if i < |rules| {
      FirstMatchAt(rules, token, i);
      m := Some(rules[i]);
    } else {
      m := None;
    }
  }

  /** The command processor: the stack of rules taken for the command being typed. */
  class CommandProcessor {
    var stack: seq<Entry>

    /** The stack is a path through the table. */
    predicate Valid()
      reads this
    {
      Path(stack)
    }

    constructor()
      ensures stack == [] && Valid()
    {
      stack := [];
    }

    /** `topState`: the state reached, 0 for an empty stack. */
    function TopState(): (s: int)
      reads this
      ensures Valid() && stack != [] ==> s != 0
      ensures Valid() ==> -1 <= s <= 12
    {
      PathTop(stack);
      TopOf(stack)
    }

    /** `display`: the texts of the taken rules, concatenated. */
    function Display(): string
      reads this
    {
      Shown(stack)
    }

    /** `options`: the hints of the current state. */
    function Options(): seq<Hint>
      reads this
    {
      HintsOf(TopOf(stack))
    }

    /** `benumTarget`: the kind of target a requested number refers to. */
    function BenumTarget(): (r: Option<PlaneDest>)
      reads this
      ensures Valid() && (TopState() == 5 || TopState() == 8) ==> r.Some?
      ensures r.Some? ==> stack != [] && exists h :: h in Options() && h.kind == BenumRule
    {
      TargetKnown(stack);
      TargetOf(stack)
    }

    /** `rezero`: forget the command typed so far. */
    method Rezero()
      modifies this
      ensures stack == [] && Valid()
    {
      stack := [];
    }

    /** `pop`: drop the last taken rule; false when there was none. */
    method Pop() returns (popped: bool)
      modifies this
      ensures popped == (old(stack) != [])
      ensures stack == if popped then old(stack)[..|old(stack)| - 1] else old(stack)
    {
      if stack == [] {
        return false;
      }
      stack := stack[..|stack| - 1];
      return true;
    }

    /** `push`: take a rule for a key, showing its text with the key in place of "%c". */
    method Push(rule: Rule, ch: string)
      modifies this
      ensures stack == old(stack) + [EntryFor(rule, ch)]
    {
      stack := stack + [Entry(Render(rule.str, ch), rule, ch)];
    }

    /** Find the first rule of the current state that accepts the key, and take it. */
    method TakeKey(token: string)
      modifies this
      ensures FirstMatch(RulesOf(old(TopOf(stack))), token).None? ==> stack == old(stack)
      ensures FirstMatch(RulesOf(old(TopOf(stack))), token).Some? ==>
                stack == old(stack) + [EntryFor(FirstMatch(RulesOf(old(TopOf(stack))), token).value, token)]
    {
      var m := FindRule(RulesOf(TopOf(stack)), token);
      if m.Some? {
        Push(m.value, token);
      }
    }

    /** `processToken`: take one key; the result says whether the command is complete. */
    method ProcessToken(token: string) returns (complete: bool)
      modifies this
      ensures stack == Step(old(stack), token)
      ensures complete == (TopOf(stack) == -1)
      ensures old(Valid()) && IsKey(token) ==> Valid()
    {
      ghost var before := stack;
      if token == ERASE {
        var _ := Pop();
      } else if token == KILL {
        Rezero();
      } else {
        TakeKey(token);
      }
      if Path(before) && IsKey(token) {
        StepKeepsPath(before, token);
      }
      complete := TopOf(stack) == -1;
    }

    /**
     * `applyCommand`: once the command is complete, replay its actions on a
     * fresh context and forget it; before that, do nothing.
     */
    method ApplyCommand(screen: ScreenDefinition, air: seq<Plane>, ground: seq<Plane>, heading: (int, int) -> int)
      returns (r: Option<CommandResult>)
      requires Valid()
      modifies this
      ensures old(TopOf(stack)) != -1 ==> r.None? && stack == old(stack)
      ensures old(TopOf(stack)) == -1 ==>
                PathAdmitsAll(old(stack)) && r == Some(Execute(screen, air, ground, old(stack), heading)) && stack == []
    {
      if TopOf(stack) != -1 {
        return None;
      }
      PathAdmits(stack);
      var a := Run(Fresh(screen, air, ground), stack, heading);
      Rezero();
      if a.error != "" {
        return Some(Failed(a.error));
      }
      if a.ctx.plane.Some? {
        return Some(Changed(a.ctx.plane.value));
      }
      return Some(Skipped);
    }
  }

  /** The loop of `applyCommand`: apply the entries' actions in order, stopping at the first error. */
  method Run(ctx: Mutators.Context, entries: seq<Entry>, heading: (int, int) -> int) returns (a: Mutators.Applied)
    requires forall k :: 0 <= k < |entries| ==> Admits(entries[k])
    ensures a == Replay(ctx, entries, heading)
  {
    var current := ctx;
    var i := 0;
    while i < |entries|
      invariant 0 <= i <= |entries|
      invariant Replay(current, entries[i..], heading) == Replay(ctx, entries, heading)
    {
      var e := entries[i];
      assert entries[i..][0] == e && entries[i..][1..] == entries[i + 1..];
      if e.rule.func.Some? {
        assert Admits(e);
        var step := Apply(current, e.rule.func.value, e.ch, heading);
        if step.error != "" {
          return step;
        }
        current := step.ctx;
      }
      i := i + 1;
    }
    assert entries[i..] == [];
    return Mutators.Applied(current, "");
  }

  /** Every entry of the stack suits its action, as on any path. */
  predicate PathAdmitsAll(stack: seq<Entry>) {
    forall k :: 0 <= k < |stack| ==> Admits(stack[k])
  }
}
