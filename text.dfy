/**
  String helpers shared by the Python backends and the TypeScript web app:
  the two languages' whitespace classes, stripping, prefixes, joining.
 */
module Text {

  /** The characters Python's `str.isspace()` and the regex class `\s` accept. */
  predicate IsPySpace(c: char) {
    ('\t' <= c <= '\r') || ('\U{1c}' <= c <= ' ') || c == '\U{85}' || c == '\U{a0}'
    || c == '\U{1680}' || ('\U{2000}' <= c <= '\U{200a}') || c == '\U{2028}' || c == '\U{2029}'
    || c == '\U{202f}' || c == '\U{205f}' || c == '\U{3000}'
  }

  /** The characters JavaScript's `trim()` and the regex class `\s` accept. */
  predicate IsJsSpace(c: char) {
    ('\t' <= c <= '\r') || c == ' ' || c == '\U{a0}' || c == '\U{1680}'
    || ('\U{2000}' <= c <= '\U{200a}') || c == '\U{2028}' || c == '\U{2029}'
    || c == '\U{202f}' || c == '\U{205f}' || c == '\U{3000}' || c == '\U{feff}'
  }

  /** The regex class `\w` over ASCII: letters, digits and underscore. */
  predicate IsWordChar(c: char) {
    ('a' <= c <= 'z') || ('A' <= c <= 'Z') || ('0' <= c <= '9') || c == '_'
  }

  /** `s` without its leading characters that satisfy `sp`. */
  function DropLeading(s: string, sp: char -> bool): (r: string)
    ensures |r| <= |s|
    ensures r != [] ==> !sp(r[0])
    ensures forall i :: 0 <= i < |s| - |r| ==> sp(s[i])
    decreases |s|
  {
    if s != [] && sp(s[0]) then DropLeading(s[1..], sp) else s
  }

  /** `s` without its trailing characters that satisfy `sp`. */
  function DropTrailing(s: string, sp: char -> bool): (r: string)
    ensures |r| <= |s|
    ensures r != [] ==> !sp(r[|r| - 1])
    ensures forall i :: |r| <= i < |s| ==> sp(s[i])
    decreases |s|
  {
    if s != [] && sp(s[|s| - 1]) then DropTrailing(s[..|s| - 1], sp) else s
  }

  /** What `DropLeading` keeps is a suffix of its input. */
  lemma {:induction false} DropLeadingIsSuffix(s: string, sp: char -> bool)
    ensures DropLeading(s, sp) == s[|s| - |DropLeading(s, sp)|..]
    decreases |s|
  {
    if s != [] && sp(s[0]) {
      DropLeadingIsSuffix(s[1..], sp);
    }
  }

  /** What `DropTrailing` keeps is a prefix of its input. */
  lemma {:induction false} DropTrailingIsPrefix(s: string, sp: char -> bool)
    ensures DropTrailing(s, sp) == s[..|DropTrailing(s, sp)|]
    decreases |s|
  {
    if s != [] && sp(s[|s| - 1]) {
      DropTrailingIsPrefix(s[..|s| - 1], sp);
    }
  }

  /** Python `s.lstrip()`. */
  function PyLStrip(s: string): string {
    DropLeading(s, IsPySpace)
  }

  /** Python `s.strip()`. */
  function PyStrip(s: string): string {
    DropTrailing(DropLeading(s, IsPySpace), IsPySpace)
  }

  /** JavaScript `s.trim()`. */
  function JsTrim(s: string): string {
    DropTrailing(DropLeading(s, IsJsSpace), IsJsSpace)
  }

  predicate StartsWith(s: string, p: string) {
    |p| <= |s| && s[..|p|] == p
  }

  predicate EndsWith(s: string, p: string) {
    |p| <= |s| && s[|s| - |p|..] == p
  }

  /** `x` occurs somewhere in `s`. */
  predicate IsInfix(x: string, s: string) {
    exists i :: 0 <= i <= |s| - |x| && InfixAt(x, s, i)
  }

  /** `x` occurs in `s` starting at index `i`. */
  predicate InfixAt(x: string, s: string, i: int) {
    0 <= i <= |s| - |x| && s[i..i + |x|] == x
  }

  /** How many times `c` occurs in `s`. */
  function Count(s: string, c: char): nat {
    if |s| == 0 then 0 else (if s[0] == c then 1 else 0) + Count(s[1..], c)
  }

  /** Python `sep.join(parts)` and JavaScript `parts.join(sep)`. */
  function Join(parts: seq<string>, sep: string): string {
    if |parts| == 0 then ""
    else if |parts| == 1 then parts[0]
    else parts[0] + sep + Join(parts[1..], sep)
  }

  /** Index of the first `c` in `s` at or after `from`, or `|s|` when there is none. */
  function IndexOf(s: string, c: char, from: nat := 0): (i: nat)
    requires from <= |s|
    ensures from <= i <= |s|
    ensures i < |s| ==> s[i] == c
    ensures forall k :: from <= k < i ==> s[k] != c
    decreases |s| - from
  {
    if from == |s| then from else if s[from] == c then from else IndexOf(s, c, from + 1)
  }

  /** The decimal rendering of an integer, as Python's f-string and `str()` give it. */
  function IntToString(n: int): string
    decreases if n < 0 then 1 - n else n
  {
    if n < 0 then "-" + IntToString(-n)
    else if n < 10 then [Digit(n)]
    else IntToString(n / 10) + [Digit(n % 10)]
  }

  function Digit(d: int): char
    requires 0 <= d < 10
  {
    "0123456789"[d]
  }
}
