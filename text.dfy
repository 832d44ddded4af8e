/**
 * The handful of Python string operations the bot relies on, over `string`
 * (a sequence of Unicode scalar values): `str.lower`, `str.capitalize`,
 * `str.strip`, `str.startswith`/`endswith`, `sep.join`, `in` on strings,
 * and the character classes `\s` and `\w` of Python's `re` module.
 */
module Text {

  function Min(a: int, b: int): int {
    if a <= b then a else b
  }

  /** Python's `str.isspace` for one character, which is also what `\s` matches in a `str` pattern. */
  predicate IsSpace(c: char) {
    || c == ' ' || ('\t' <= c <= '\r') || ('\U{1C}' <= c <= '\U{1F}')
    || c == '\U{85}' || c == '\U{A0}' || c == '\U{1680}' || ('\U{2000}' <= c <= '\U{200A}')
    || c == '\U{2028}' || c == '\U{2029}' || c == '\U{202F}' || c == '\U{205F}' || c == '\U{3000}'
  }

  /** `\w` restricted to ASCII: letters, digits and the underscore. */
  predicate IsWordChar(c: char) {
    ('a' <= c <= 'z') || ('A' <= c <= 'Z') || ('0' <= c <= '9') || c == '_'
  }

  function LowerChar(c: char): char {
    if 'A' <= c <= 'Z' then (c as int + 32) as char else c
  }

  function UpperChar(c: char): char {
    if 'a' <= c <= 'z' then (c as int - 32) as char else c
  }

  /** `s.lower()` on the ASCII letters. */
  function Lower(s: string): string {
    seq(|s|, i requires 0 <= i < |s| => LowerChar(s[i]))
  }

  /** `s.capitalize()`: first character upper case, the rest lower case. */
  function Capitalize(s: string): string {
    if s == [] then [] else [UpperChar(s[0])] + Lower(s[1..])
  }

  predicate StartsWith(s: string, prefix: string) {
    |prefix| <= |s| && s[..|prefix|] == prefix
  }

  predicate EndsWith(s: string, suffix: string) {
    |suffix| <= |s| && s[|s| - |suffix|..] == suffix
  }

  /** `needle` occurs in `haystack` starting at index `i`. */
  predicate OccursAt(needle: string, haystack: string, i: int) {
    0 <= i <= |haystack| - |needle| && haystack[i..i + |needle|] == needle
  }

  /** Python's `needle in haystack` for strings. */
  predicate IsSubstring(needle: string, haystack: string) {
    exists i | 0 <= i <= |haystack| - |needle| :: OccursAt(needle, haystack, i)
  }

  predicate HasNoSpace(s: string) {
    forall i | 0 <= i < |s| :: !IsSpace(s[i])
  }

  function TrimLeft(s: string): string {
    if s != [] && IsSpace(s[0]) then TrimLeft(s[1..]) else s
  }

  function TrimRight(s: string): string {
    if s != [] && IsSpace(s[|s| - 1]) then TrimRight(s[..|s| - 1]) else s
  }

  /** `s.strip()` with no argument. */
  function Strip(s: string): string {
    TrimRight(TrimLeft(s))
  }

  /** `sep.join(parts)`. */
  function Join(sep: string, parts: seq<string>): string {
    if parts == [] then ""
    else if |parts| == 1 then parts[0]
    else Join(sep, parts[..|parts| - 1]) + sep + parts[|parts| - 1]
  }

  /** The concatenation of `f(x)` for each `x` of `xs`, in order. */
  function ConcatMap<T>(f: T -> string, xs: seq<T>): string {
    if xs == [] then "" else ConcatMap(f, xs[..|xs| - 1]) + f(xs[|xs| - 1])
  }

  function Piece(s: string): string { s }

  /** The pieces of `parts` joined with nothing between them. */
  function Concat(parts: seq<string>): string {
    ConcatMap(Piece, parts)
  }

  /** Decimal rendering of a natural number, as an f-string renders an `int`. */
  function NatToString(n: nat): string
    decreases n
  {
    if n < 10 then ["0123456789"[n]] else NatToString(n / 10) + ["0123456789"[n % 10]]
  }

  lemma {:induction false} ConcatMapAppend<T>(f: T -> string, a: seq<T>, b: seq<T>)
    ensures ConcatMap(f, a + b) == ConcatMap(f, a) + ConcatMap(f, b)
    decreases |b|
  {
    if b == [] {
      assert a + b == a;
    } else {
      assert (a + b)[..|a + b| - 1] == a + b[..|b| - 1];
      ConcatMapAppend(f, a, b[..|b| - 1]);
    }
  }

  /** The piece of element `i` sits right after the pieces of the elements before it. */
  lemma ConcatMapElement<T>(f: T -> string, xs: seq<T>, i: int)
    requires 0 <= i < |xs|
    ensures OccursAt(f(xs[i]), ConcatMap(f, xs), |ConcatMap(f, xs[..i])|)
  {
    assert xs == xs[..i] + [xs[i]] + xs[i + 1..];
    ConcatMapAppend(f, xs[..i] + [xs[i]], xs[i + 1..]);
    ConcatMapAppend(f, xs[..i], [xs[i]]);
    assert [xs[i]][..0] == [];
  }

  /** Every piece of a concatenation occurs in it. */
  lemma ConcatContainsPart(parts: seq<string>, k: int)
    requires 0 <= k < |parts|
    ensures IsSubstring(parts[k], Concat(parts))
  {
    ConcatMapElement(Piece, parts, k);
  }

  lemma StripWithoutSpace(s: string)
    requires HasNoSpace(s)
    ensures Strip(s) == s
  {
    assert TrimLeft(s) == s;
  }

  /** An occurrence survives putting text in front, shifted by that text's length. */
  lemma OccursAfterPrefix(needle: string, prefix: string, s: string, i: int)
    requires OccursAt(needle, s, i)
    ensures OccursAt(needle, prefix + s, |prefix| + i)
  {
    assert (prefix + s)[|prefix| + i..|prefix| + i + |needle|] == s[i..i + |needle|];
  }

  lemma PrefixIsSubstring(a: string, b: string)
    ensures IsSubstring(a, a + b)
  {
    assert OccursAt(a, a + b, 0);
  }

  lemma SubstringOfConcat(a: string, b: string, c: string)
    ensures IsSubstring(b, a + b + c)
  {
    assert OccursAt(b, a + b + c, |a|);
  }
}
