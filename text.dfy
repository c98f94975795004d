/**
 * The JavaScript string operations the source relies on, over sequences of characters.
 * Lengths count characters (Unicode scalar values), not UTF-16 code units.
 */
module Text {

  /** A character in JavaScript's `\s` class, which is also what `String.prototype.trim` removes. */
  predicate IsSpace(c: char) {
    c in Spaces
  }

  const Spaces: set<char> := {
    ' ', '\t', '\n', '\r', '\U{B}', '\U{C}', '\U{A0}', '\U{1680}',
    '\U{2000}', '\U{2001}', '\U{2002}', '\U{2003}', '\U{2004}', '\U{2005}', '\U{2006}',
    '\U{2007}', '\U{2008}', '\U{2009}', '\U{200A}',
    '\U{2028}', '\U{2029}', '\U{202F}', '\U{205F}', '\U{3000}', '\U{FEFF}'
  }

  /** A character the regular-expression `.` does not match. */
  predicate IsLineTerminator(c: char) {
    c == '\n' || c == '\r' || c == '\U{2028}' || c == '\U{2029}'
  }

  predicate AllSpace(s: string) {
    forall i :: 0 <= i < |s| ==> IsSpace(s[i])
  }

  /** Neither starts nor ends with white space: what `trim` returns. */
  predicate IsTrimmed(s: string) {
    s == [] || (!IsSpace(s[0]) && !IsSpace(s[|s| - 1]))
  }

  /** `String.prototype.trimStart`: drop the leading white space. */
  function TrimStart(s: string): (r: string)
    ensures |r| <= |s| && r == s[|s| - |r|..]
    ensures forall i :: 0 <= i < |s| - |r| ==> IsSpace(s[i])
    ensures r == [] || !IsSpace(r[0])
  {
    if s != [] && IsSpace(s[0]) then
      var r := TrimStart(s[1..]);
      assert forall i :: 1 <= i < |s| ==> s[i] == s[1..][i - 1];
      r
    else s
  }

  /** `String.prototype.trim`: drop the leading, then the trailing white space. */
  function Trim(s: string): (r: string)
    ensures |r| <= |s|
    ensures IsTrimmed(r)
    ensures r == [] <==> AllSpace(s)
    decreases |s|
  {
    if s != [] && IsSpace(s[0]) then
      var r := Trim(s[1..]);
      assert r == [] ==> AllSpace(s) by {
        if r == [] {
          assert forall i :: 1 <= i < |s| ==> s[i] == s[1..][i - 1];
        }
      }
      r
    else if s != [] && IsSpace(s[|s| - 1]) then
      Trim(s[..|s| - 1])
    else s
  }

  /** `m` sits in `s` at `a`, with only white space before and after it. */
  predicate InMiddle(s: string, m: string, a: nat) {
    && a + |m| <= |s| && m == s[a..a + |m|]
    && (forall i :: 0 <= i < a ==> IsSpace(s[i]))
    && (forall i :: a + |m| <= i < |s| ==> IsSpace(s[i]))
  }

  /** What `trim` keeps is the slice from `a` on, with only white space before and after it. */
  lemma {:induction false} TrimKeepsMiddle(s: string) returns (a: nat)
    ensures a + |Trim(s)| <= |s| && Trim(s) == s[a..a + |Trim(s)|]
    ensures forall i :: 0 <= i < a ==> IsSpace(s[i])
    ensures forall i :: a + |Trim(s)| <= i < |s| ==> IsSpace(s[i])
    decreases |s|
  {
    if s != [] && IsSpace(s[0]) {
      var b := TrimKeepsMiddle(s[1..]);
      MiddleBehindSpace(s, Trim(s), b);
      a := b + 1;
    } else if s != [] && IsSpace(s[|s| - 1]) {
      a := TrimKeepsMiddle(s[..|s| - 1]);
      MiddleBeforeSpace(s, Trim(s), a);
    } else {
      a := 0;
    }
  }

  /** A middle of `s[1..]` is a middle of `s` one further on, when `s` starts with white space. */
  lemma MiddleBehindSpace(s: string, m: string, b: nat)
    requires s != [] && IsSpace(s[0]) && InMiddle(s[1..], m, b)
    ensures InMiddle(s, m, b + 1)
  {
    assert forall i :: 1 <= i < |s| ==> s[i] == s[1..][i - 1];
    assert s[b + 1..b + 1 + |m|] == s[1..][b..b + |m|];
  }

  /** A middle of all but the last character of `s` is a middle of `s`, when `s` ends with white space. */
  lemma MiddleBeforeSpace(s: string, m: string, a: nat)
    requires s != [] && IsSpace(s[|s| - 1]) && InMiddle(s[..|s| - 1], m, a)
    ensures InMiddle(s, m, a)
  {
    assert s[a..a + |m|] == s[..|s| - 1][a..a + |m|];
  }

  /** `s.slice(0, n)` for a non-negative `n`. */
  function Take(s: string, n: nat): (r: string)
    ensures |r| == (if |s| < n then |s| else n)
    ensures r == s[..|r|]
  {
    if |s| <= n then s else s[..n]
  }

  /** `s.startsWith(p)`. */
  predicate StartsWith(s: string, p: string) {
    |p| <= |s| && s[..|p|] == p
  }

  /** `s.endsWith(p)`. */
  predicate EndsWith(s: string, p: string) {
    |p| <= |s| && s[|s| - |p|..] == p
  }

  /** `s.includes(t)`: some position of `s` starts an occurrence of `t`. */
  predicate Contains(s: string, t: string)
    decreases |s|
  {
    StartsWith(s, t) || (s != [] && Contains(s[1..], t))
  }

  function LowerChar(c: char): char {
    if 'A' <= c <= 'Z' then (c as int + 32) as char else c
  }

  /**
   * Lower-casing that folds only A-Z, keeping the length. `toLowerCase` also folds non-ASCII letters
   * (the Kelvin sign to "k", a dotted capital I to "i" and a combining dot), but the words the source
   * compares contain no "k", a combining dot after "i" spoils any match, and its `/i` patterns have no
   * `u` flag, so they never fold a non-ASCII character to an ASCII one.
   */
  function Lower(s: string): (r: string)
    ensures |r| == |s|
    ensures forall i :: 0 <= i < |s| ==> r[i] == LowerChar(s[i])
  {
    seq(|s|, i requires 0 <= i < |s| => LowerChar(s[i]))
  }

  /** Lower-casing twice is lower-casing once. */
  lemma {:induction false} LowerIsIdempotent(s: string)
    ensures Lower(Lower(s)) == Lower(s)
  {
    assert forall i :: 0 <= i < |s| ==> LowerChar(LowerChar(s[i])) == LowerChar(s[i]);
  }

  /** `parts.join(sep)`. */
  function Join(parts: seq<string>, sep: string): string {
    if parts == [] then ""
    else if |parts| == 1 then parts[0]
    else parts[0] + sep + Join(parts[1..], sep)
  }

  /** Every part is at least as long as `n` characters. */
  predicate AllLongerThan(parts: seq<string>, n: nat) {
    forall i :: 0 <= i < |parts| ==> |parts[i]| > n
  }

  lemma {:induction false} JoinNonEmpty(parts: seq<string>, sep: string)
    requires parts != [] && AllLongerThan(parts, 0)
    ensures |Join(parts, sep)| >= |parts[0]| > 0
  {
    if |parts| > 1 {
      JoinNonEmpty(parts[1..], sep);
    }
  }

  /** The join of parts that are not all white space is not all white space. */
  lemma {:induction false} JoinNotAllSpace(parts: seq<string>, sep: string, k: nat)
    requires k < |parts| && !AllSpace(parts[k])
    ensures !AllSpace(Join(parts, sep))
  {
    if |parts| > 1 {
      var rest := Join(parts[1..], sep);
      assert Join(parts, sep) == parts[0] + sep + rest;
      if k == 0 {
        var j :| 0 <= j < |parts[0]| && !IsSpace(parts[0][j]);
        assert Join(parts, sep)[j] == parts[0][j];
      } else {
        JoinNotAllSpace(parts[1..], sep, k - 1);
        var j :| 0 <= j < |rest| && !IsSpace(rest[j]);
        assert Join(parts, sep)[|parts[0]| + |sep| + j] == rest[j];
      }
    }
  }

  /** `s.replace(/\s+/g, " ")`: every run of white space becomes one space. */
  function CollapseSpaces(s: string): (r: string)
    ensures forall i :: 0 <= i < |r| && IsSpace(r[i]) ==> r[i] == ' '
    ensures forall i :: 0 <= i < |r| - 1 ==> !(r[i] == ' ' && r[i + 1] == ' ')
    ensures s != [] && !IsSpace(s[0]) ==> r != [] && r[0] == s[0]
    ensures |r| <= |s|
    decreases |s|
  {
    if s == [] then []
    else if IsSpace(s[0]) then
      var rest := TrimStart(s);
      assert |rest| < |s|;
      [' '] + CollapseSpaces(rest)
    else [s[0]] + CollapseSpaces(s[1..])
  }

  /** `s.replace(/c/g, "")`: every occurrence of `c` removed. */
  function Without(s: string, c: char): (r: string)
    ensures |r| <= |s|
    ensures c !in r
    ensures forall x :: x in r ==> x in s
  {
    if s == [] then []
    else if s[0] == c then Without(s[1..], c)
    else [s[0]] + Without(s[1..], c)
  }

  /** The character class `[一-龥]` of CJK unified ideographs. */
  predicate IsCjk(c: char) {
    '\U{4E00}' <= c <= '\U{9FA5}'
  }

  predicate HasCjk(s: string) {
    exists i :: 0 <= i < |s| && IsCjk(s[i])
  }

  /** Index of the first character satisfying `p`, or -1: `s.search(/[...]/)` for a character class. */
  function FirstIndex(s: string, p: char -> bool): (k: int)
    ensures -1 <= k < |s|
    ensures k >= 0 ==> p(s[k]) && forall i :: 0 <= i < k ==> !p(s[i])
    ensures k == -1 ==> forall i :: 0 <= i < |s| ==> !p(s[i])
  {
    if s == [] then -1
    else if p(s[0]) then 0
    else
      var k := FirstIndex(s[1..], p);
      if k == -1 then -1 else k + 1
  }

  function DigitChar(d: nat): char
    requires d < 10
  {
    "0123456789"[d]
  }

  /** The decimal form JavaScript gives a non-negative integer. */
  function NatToString(n: nat): (r: string)
    ensures r != []
    decreases n
  {
    if n < 10 then [DigitChar(n)] else NatToString(n / 10) + [DigitChar(n % 10)]
  }

  /** The decimal form JavaScript gives an integer. */
  function IntToString(n: int): (r: string)
    ensures r != []
  {
    if n < 0 then "-" + NatToString(-n) else NatToString(n)
  }

  /**
   * `s.split(re)` for a separator pattern with no empty match: `sepLen(t)` is the length of the
   * separator that starts `t` (0 if none). Scanning left to right, each match ends a piece.
   */
  function SplitBy(s: string, sepLen: string -> nat): (r: seq<string>)
    ensures r != []
  {
    SplitFrom(s, sepLen, "")
  }

  function SplitFrom(s: string, sepLen: string -> nat, piece: string): (r: seq<string>)
    ensures r != []
    decreases |s|
  {
    if s == [] then [piece]
    else
      var n := sepLen(s);
      if 0 < n <= |s| then [piece] + SplitFrom(s[n..], sepLen, "")
      else SplitFrom(s[1..], sepLen, piece + [s[0]])
  }
}
