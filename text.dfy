/**
 * The JavaScript string built-ins the core relies on: `String.prototype.trim`,
 * `split`, `join` and `endsWith`, the regular-expression classes `\s` and `\d`,
 * `Number(digits)` and the decimal rendering of integers inside template strings.
 */
module Text {

  /** ECMAScript LineTerminator code points: LF, CR, LS and PS. */
  predicate IsLineTerminator(c: char) {
    c == '\n' || c == '\r' || c == '\U{2028}' || c == '\U{2029}'
  }

  /**
   * ECMAScript WhiteSpace or LineTerminator: the class `\s`, and what `trim`
   * strips. Below the space character that is TAB, LF, VT, FF and CR (9 to 13);
   * above it, the wide spaces.
   */
  predicate IsSpace(c: char) {
    if c <= ' ' then c == ' ' || '\t' <= c <= '\r'
    else '\U{A0}' <= c && IsWideSpace(c)
  }

  /** NBSP, the Unicode space separators, LS, PS and the byte-order mark. */
  predicate IsWideSpace(c: char) {
    || c == '\U{A0}' || c == '\U{1680}' || ('\U{2000}' <= c <= '\U{200A}') || c == '\U{2028}'
    || c == '\U{2029}' || c == '\U{202F}' || c == '\U{205F}' || c == '\U{3000}' || c == '\U{FEFF}'
  }

  /** The class `\d`: ASCII digits only. */
  predicate IsDigit(c: char) {
    '0' <= c <= '9'
  }

  predicate AllDigits(s: string) {
    forall k :: 0 <= k < |s| ==> IsDigit(s[k])
  }

  function DigitValue(c: char): (d: nat)
    requires IsDigit(c)
    ensures d < 10
  {
    (c as int) - ('0' as int)
  }

  function DigitChar(d: nat): (c: char)
    requires d < 10
    ensures IsDigit(c) && DigitValue(c) == d
  {
    (('0' as int) + d) as char
  }

  /** `Number(s)` for a string of decimal digits (leading zeros allowed). */
  function Number(s: string): nat
    requires AllDigits(s)
  {
    if s == [] then 0 else Number(s[..|s| - 1]) * 10 + DigitValue(s[|s| - 1])
  }

  /**
   * The digits of `s[lo..hi]` read as a decimal number, working on positions
   * of `s` rather than on a slice.
   */
  function NumberIn(s: string, lo: nat, hi: nat): nat
    requires lo <= hi <= |s|
    decreases hi
  {
    if hi == lo || !IsDigit(s[hi - 1]) then 0 else NumberIn(s, lo, hi - 1) * 10 + DigitValue(s[hi - 1])
  }

  /** On a run of digits, `NumberIn` is `Number` of the slice. */
  lemma {:induction false} NumberInSlice(s: string, lo: nat, hi: nat)
    requires lo <= hi <= |s| && AllDigits(s[lo..hi])
    ensures NumberIn(s, lo, hi) == Number(s[lo..hi])
    decreases hi
  {
    if hi > lo {
      assert s[lo..hi][..hi - 1 - lo] == s[lo..hi - 1];
      assert s[hi - 1] == s[lo..hi][hi - 1 - lo];
      NumberInSlice(s, lo, hi - 1);
    }
  }

  /** The decimal rendering of a natural number, as `${n}` produces it. */
  function Decimal(n: nat): (s: string)
    ensures |s| >= 1 && AllDigits(s)
    ensures |s| > 1 ==> s[0] != '0'
  {
    if n < 10 then [DigitChar(n)] else Decimal(n / 10) + [DigitChar(n % 10)]
  }

  /** The decimal rendering of an integer, with a leading '-' when negative. */
  function IntToString(i: int): (s: string)
    ensures |s| >= 1 && (s[0] == '-' <==> i < 0)
  {
    if i >= 0 then Decimal(i) else "-" + Decimal(-i)
  }

  /** Reading back a rendered number gives the number. */
  lemma {:induction false} NumberOfDecimal(n: nat)
    ensures Number(Decimal(n)) == n
  {
    if n >= 10 {
      var s := Decimal(n / 10) + [DigitChar(n % 10)];
      assert s[..|s| - 1] == Decimal(n / 10);
      NumberOfDecimal(n / 10);
    }
  }

  predicate EndsWith(s: string, c: char) {
    |s| > 0 && s[|s| - 1] == c
  }

  /** `s` begins with `w`, compared a character at a time as a regular expression reads it. */
  predicate StartsWith(s: string, w: string) {
    |w| <= |s| && SameFrom(s, w, 0)
  }

  /** `s` and `w` agree from position `k` to the end of `w`. */
  predicate SameFrom(s: string, w: string, k: nat)
    requires |w| <= |s|
    decreases |w| - k
  {
    k >= |w| || (s[k] == w[k] && SameFrom(s, w, k + 1))
  }

  /** Agreeing from `k` on is agreeing at every position from `k` on. */
  lemma {:induction false} SameFromAt(s: string, w: string, k: nat)
    requires |w| <= |s|
    ensures SameFrom(s, w, k) <==> forall m :: k <= m < |w| ==> s[m] == w[m]
    decreases |w| - k
  {
    if k < |w| {
      SameFromAt(s, w, k + 1);
    }
  }

  /** Beginning with `w` is having `w` as a prefix. */
  lemma {:induction false} StartsWithIsPrefix(s: string, w: string)
    ensures StartsWith(s, w) <==> w <= s
  {
    if |w| <= |s| {
      SameFromAt(s, w, 0);
    }
  }

  /** `String.prototype.trim`: drop leading and trailing white space. */
  function Trim(s: string): (r: string)
    ensures |r| > 0 ==> !IsSpace(r[0]) && !IsSpace(r[|r| - 1])
    ensures exists i, j :: (0 <= i <= j <= |s| && r == s[i..j]
              && (forall k :: 0 <= k < i ==> IsSpace(s[k]))
              && (forall k :: j <= k < |s| ==> IsSpace(s[k])))
  {
    var i := SkipSpace(s, 0);
    SkippedIsSpace(s, 0);
    var j := SkipSpaceBack(s, i, |s|);
    assert s[i..j] == s[i..j] && (forall k :: 0 <= k < i ==> IsSpace(s[k]));
    s[i..j]
  }

  /** The first index at or after `i` that does not hold white space. */
  function SkipSpace(s: string, i: nat): (k: nat)
    requires i <= |s|
    ensures i <= k <= |s| && (k < |s| ==> !IsSpace(s[k]))
    decreases |s| - i
  {
    if i < |s| && IsSpace(s[i]) then SkipSpace(s, i + 1) else i
  }

  /** Everything `SkipSpace` passes over is white space. */
  lemma {:induction false} SkippedIsSpace(s: string, i: nat)
    requires i <= |s|
    ensures forall m :: i <= m < SkipSpace(s, i) ==> IsSpace(s[m])
    decreases |s| - i
  {
    if i < |s| && IsSpace(s[i]) {
      SkippedIsSpace(s, i + 1);
    }
  }

  /** The first index at or after `i` that does not hold a digit. */
  function SkipDigits(s: string, i: nat): (k: nat)
    requires i <= |s|
    ensures i <= k <= |s| && (k < |s| ==> !IsDigit(s[k]))
    decreases |s| - i
  {
    if i < |s| && IsDigit(s[i]) then SkipDigits(s, i + 1) else i
  }

  /** Everything `SkipDigits` passes over is a digit. */
  lemma {:induction false} SkippedAreDigits(s: string, i: nat)
    requires i <= |s|
    ensures AllDigits(s[i..SkipDigits(s, i)])
    decreases |s| - i
  {
    if i < |s| && IsDigit(s[i]) {
      SkippedAreDigits(s, i + 1);
      assert s[i..SkipDigits(s, i)] == [s[i]] + s[i + 1..SkipDigits(s, i + 1)];
    }
  }

  /** A run of digits from `i` to `j`, followed by a non-digit or the end, is what `SkipDigits` skips. */
  lemma {:induction false} SkipDigitsRun(s: string, i: nat, j: nat)
    requires i <= j <= |s| && (forall m :: i <= m < j ==> IsDigit(s[m])) && (j < |s| ==> !IsDigit(s[j]))
    ensures SkipDigits(s, i) == j
    decreases j - i
  {
    if i < j {
      SkipDigitsRun(s, i + 1, j);
    }
  }

  /** A run of white space from `i` to `j`, followed by other text or the end, is what `SkipSpace` skips. */
  lemma {:induction false} SkipSpaceRun(s: string, i: nat, j: nat)
    requires i <= j <= |s| && (forall m :: i <= m < j ==> IsSpace(s[m])) && (j < |s| ==> !IsSpace(s[j]))
    ensures SkipSpace(s, i) == j
    decreases j - i
  {
    if i < j {
      SkipSpaceRun(s, i + 1, j);
    }
  }

  /** `SkipSpace` stays put before a character other than white space. */
  lemma SkipNoSpace(s: string, i: nat)
    requires i == |s| || (i < |s| && !IsSpace(s[i]))
    ensures SkipSpace(s, i) == i
  {
  }

  /** `SkipSpace` passes a single white-space character followed by something else. */
  lemma SkipOneSpace(s: string, i: nat)
    requires i < |s| && IsSpace(s[i]) && (i + 1 == |s| || !IsSpace(s[i + 1]))
    ensures SkipSpace(s, i) == i + 1
  {
    SkipNoSpace(s, i + 1);
  }

  /** The end of `s[lo..j]` once its trailing white space is dropped. */
  function SkipSpaceBack(s: string, lo: nat, j: nat): (k: nat)
    requires lo <= j <= |s|
    ensures lo <= k <= j && (k > lo ==> !IsSpace(s[k - 1]))
    ensures forall m :: k <= m < j ==> IsSpace(s[m])
  {
    if j > lo && IsSpace(s[j - 1]) then SkipSpaceBack(s, lo, j - 1) else j
  }

  /** `toLowerCase` on one character, for the ASCII letters that reach it. */
  function Lower(c: char): (l: char)
    ensures 'A' <= c <= 'Z' ==> l as int == c as int + 32
    ensures !('A' <= c <= 'Z') ==> l == c
  {
    if 'A' <= c <= 'Z' then (c as int + 32) as char else c
  }

  /** `hay.includes(needle)`: `needle` occurs in `hay` at some position. */
  predicate IsInfix(needle: string, hay: string) {
    exists i :: 0 <= i <= |hay| && needle <= hay[i..]
  }

  /** The first index of `c` in `s`. */
  function IndexOf(s: string, c: char): (i: nat)
    requires c in s
    ensures i < |s| && s[i] == c && c !in s[..i]
  {
    if s[0] == c then 0 else 1 + IndexOf(s[1..], c)
  }

  /** `parts.join(sep)`. */
  function Join(parts: seq<string>, sep: string): string {
    if |parts| == 0 then ""
    else if |parts| == 1 then parts[0]
    else parts[0] + sep + Join(parts[1..], sep)
  }

  /** `s.split(sep)` for a one-character separator: the pieces join back to `s`. */
  function Split(s: string, sep: char): (parts: seq<string>)
    ensures |parts| >= 1
    ensures forall k :: 0 <= k < |parts| ==> sep !in parts[k]
    ensures Join(parts, [sep]) == s
    decreases |s|
  {
    if sep !in s then [s]
    else
      var i := IndexOf(s, sep);
      var rest := Split(s[i + 1..], sep);
      assert s == s[..i] + [sep] + s[i + 1..];
      [s[..i]] + rest
  }
}
