/**
 * `parse_reranked_results` of gemini_bg3_rag.py: the URLs a model's re-ranking
 * reply lists, found by `re.findall(r"^\s*URL:\s*(https?://[^\s]+)", text,
 * re.MULTILINE | re.IGNORECASE)` and stripped.
 *
 * The scan is written out position by position, as the regular expression
 * engine runs it: a match may only start at the beginning of a line, `\s*`
 * may cross line breaks, and after a match the scan resumes where it ended.
 */
module ReplyUrls {
  import opened Wrappers
  import opened Text

  /** A character matches a lower-case pattern character under IGNORECASE (the long s folds to `s`). */
  predicate CharMatchesCI(c: char, lower: char) {
    c == lower || c == UpperChar(lower) || (lower == 's' && c == '\U{17F}')
  }

  /** The label `URL:` at `i`, in any letter case. */
  predicate LabelWordAt(s: string, i: int) {
    && 0 <= i && i + 4 <= |s|
    && CharMatchesCI(s[i], 'u') && CharMatchesCI(s[i + 1], 'r') && CharMatchesCI(s[i + 2], 'l')
    && s[i + 3] == ':'
  }

  /** The scheme `http` at `i`, in any letter case. */
  predicate HttpWordAt(s: string, i: int) {
    && 0 <= i && i + 4 <= |s|
    && CharMatchesCI(s[i], 'h') && CharMatchesCI(s[i + 1], 't') && CharMatchesCI(s[i + 2], 't')
    && CharMatchesCI(s[i + 3], 'p')
  }

  /** The separator `://` at `i`. */
  predicate SeparatorAt(s: string, i: int) {
    0 <= i && i + 3 <= |s| && s[i] == ':' && s[i + 1] == '/' && s[i + 2] == '/'
  }

  /** The end of the run of whitespace starting at `i` (what the greedy `\s*` consumes). */
  function SkipSpaces(s: string, i: nat): (j: nat)
    requires i <= |s|
    ensures i <= j <= |s|
    ensures forall k | i <= k < j :: IsSpace(s[k])
    ensures j == |s| || !IsSpace(s[j])
    decreases |s| - i
  {
    if i < |s| && IsSpace(s[i]) then SkipSpaces(s, i + 1) else i
  }

  /** The end of the run of non-whitespace starting at `i` (what the greedy `[^\s]+` consumes). */
  function SkipNonSpaces(s: string, i: nat): (j: nat)
    requires i <= |s|
    ensures i <= j <= |s|
    ensures forall k | i <= k < j :: !IsSpace(s[k])
    ensures j == |s| || IsSpace(s[j])
    decreases |s| - i
  {
    if i < |s| && !IsSpace(s[i]) then SkipNonSpaces(s, i + 1) else i
  }

  /** The match of the pattern that starts at `p`, if any: where its capture group starts and ends. */
  function UrlMatchAt(s: string, p: nat): Option<(nat, nat)>
    requires p <= |s|
  {
    if p > 0 && s[p - 1] != '\n' then None else LabelAt(s, SkipSpaces(s, p))
  }

  /** The match of `URL:\s*` and the capture group, starting at `a`, if any. */
  function LabelAt(s: string, a: nat): Option<(nat, nat)>
    requires a <= |s|
  {
    if !LabelWordAt(s, a) then None else CaptureAt(s, SkipSpaces(s, a + 4))
  }

  /** The match of the capture group `https?://[^\s]+` starting at `b`, if any. */
  function CaptureAt(s: string, b: nat): Option<(nat, nat)>
    requires b <= |s|
  {
    if !HttpWordAt(s, b) then None
    else
      var c := if b + 4 < |s| && CharMatchesCI(s[b + 4], 's') then b + 5 else b + 4;
      if !SeparatorAt(s, c) then None
      else
        var e := SkipNonSpaces(s, c + 3);
        if e == c + 3 then None else Some((b, e))
  }

  /** `findall` scanning from `p`: the capture of every non-overlapping match, in order. */
  function FindAllFrom(s: string, p: nat): seq<string>
    requires p <= |s|
    decreases |s| - p
  {
    if p == |s| then []
    else
      match UrlMatchAt(s, p)
      case Some(m) => if m.0 <= m.1 <= |s| && p < m.1 then [s[m.0..m.1]] + FindAllFrom(s, m.1) else []
      case None => FindAllFrom(s, p + 1)
  }

  /** The loop that appends `url.strip()` for each match. */
  function StripEach(matches: seq<string>): seq<string> {
    if matches == [] then [] else [Strip(matches[0])] + StripEach(matches[1..])
  }

  function ParseRerankedResults(text: string): seq<string> {
    StripEach(FindAllFrom(text, 0))
  }

  /** `http://` or `https://` at the start of `u`, in any letter case, followed by at least one character. */
  predicate HttpPrefixed(u: string) {
    && HttpWordAt(u, 0)
    && ((|u| > 7 && SeparatorAt(u, 4)) || (|u| > 8 && CharMatchesCI(u[4], 's') && SeparatorAt(u, 5)))
  }

  /** A URL the pattern can capture: the scheme prefix and no whitespace. */
  predicate CapturableUrl(u: string) {
    HttpPrefixed(u) && HasNoSpace(u)
  }

  /** The characters the pattern matched from `b` to `e`: scheme, optional `s`, `://`, non-spaces. */
  predicate CaptureShape(s: string, b: int, c: int, e: int) {
    && 0 <= b && b + 4 <= c <= b + 5 && c + 3 < e <= |s|
    && HttpWordAt(s, b)
    && (c == b + 5 ==> CharMatchesCI(s[b + 4], 's'))
    && SeparatorAt(s, c)
    && (forall k | c + 3 <= k < e :: !IsSpace(s[k]))
  }

  /** A character that matches a lower-case ASCII letter, in either case, is not whitespace. */
  lemma LetterMatchIsNotSpace(c: char, lower: char)
    requires 'a' <= lower <= 'z' && CharMatchesCI(c, lower)
    ensures !IsSpace(c)
  {
  }

  lemma CaptureHasNoSpace(s: string, b: int, c: int, e: int)
    requires CaptureShape(s, b, c, e)
    ensures HasNoSpace(s[b..e])
  {
    forall k | b <= k < e
      ensures !IsSpace(s[k])
    {
      if k == b {
        LetterMatchIsNotSpace(s[k], 'h');
      } else if k == b + 1 || k == b + 2 {
        LetterMatchIsNotSpace(s[k], 't');
      } else if k == b + 3 {
        LetterMatchIsNotSpace(s[k], 'p');
      } else if k < c {
        LetterMatchIsNotSpace(s[k], 's');
      }
    }
    assert forall k | 0 <= k < e - b :: s[b..e][k] == s[b + k];
  }

  lemma CaptureIsHttpPrefixed(s: string, b: int, c: int, e: int)
    requires CaptureShape(s, b, c, e)
    ensures HttpPrefixed(s[b..e])
  {
    var u := s[b..e];
    var d := c - b;
    assert u[0] == s[b] && u[1] == s[b + 1] && u[2] == s[b + 2] && u[3] == s[b + 3];
    assert u[d] == s[c] && u[d + 1] == s[c + 1] && u[d + 2] == s[c + 2];
    if d == 5 {
      assert u[4] == s[b + 4];
    }
  }

  /** What the pattern captures is a capturable URL, occurs in the text and is left alone by `strip()`. */
  lemma CaptureIsUrl(s: string, b: int, c: int, e: int)
    requires CaptureShape(s, b, c, e)
    ensures CapturableUrl(s[b..e]) && IsSubstring(s[b..e], s) && Strip(s[b..e]) == s[b..e]
  {
    CaptureHasNoSpace(s, b, c, e);
    CaptureIsHttpPrefixed(s, b, c, e);
    StripWithoutSpace(s[b..e]);
    assert OccursAt(s[b..e], s, b);
  }

  lemma MatchCapturesUrl(s: string, p: nat)
    requires p <= |s|
    requires UrlMatchAt(s, p).Some?
    ensures var m := UrlMatchAt(s, p).value;
            && p <= m.0 < m.1 <= |s|
            && CapturableUrl(s[m.0..m.1]) && IsSubstring(s[m.0..m.1], s) && Strip(s[m.0..m.1]) == s[m.0..m.1]
  {
    var a := SkipSpaces(s, p);
    var b := SkipSpaces(s, a + 4);
    var c := if b + 4 < |s| && CharMatchesCI(s[b + 4], 's') then b + 5 else b + 4;
    var e := SkipNonSpaces(s, c + 3);
    assert UrlMatchAt(s, p) == CaptureAt(s, b);
    assert CaptureAt(s, b).value == (b, e);
    assert CaptureShape(s, b, c, e);
    CaptureIsUrl(s, b, c, e);
  }

  lemma {:induction false} FoundUrlsAreCapturable(s: string, p: nat)
    requires p <= |s|
    ensures forall u | u in FindAllFrom(s, p) :: CapturableUrl(u) && IsSubstring(u, s)
    decreases |s| - p
  {
    if p < |s| {
      match UrlMatchAt(s, p)
      case Some(m) =>
        MatchCapturesUrl(s, p);
        FoundUrlsAreCapturable(s, m.1);
      case None =>
        FoundUrlsAreCapturable(s, p + 1);
    }
  }

  /** `strip()` leaves every match as it is: a capture holds no whitespace. */
  lemma {:induction false} MatchesAreStripped(s: string, p: nat)
    requires p <= |s|
    ensures StripEach(FindAllFrom(s, p)) == FindAllFrom(s, p)
    decreases |s| - p
  {
    if p < |s| {
      match UrlMatchAt(s, p)
      case Some(m) =>
        MatchCapturesUrl(s, p);
        MatchesAreStripped(s, m.1);
        var rest := FindAllFrom(s, m.1);
        assert ([s[m.0..m.1]] + rest)[1..] == rest;
      case None =>
        MatchesAreStripped(s, p + 1);
    }
  }

  /**
   * Every parsed URL starts with `http://` or `https://` (any letter case),
   * has at least one character after it, contains no whitespace, and occurs in
   * the model's text.
   */
  lemma ParsedUrlsAreCapturable(text: string)
    ensures forall u | u in ParseRerankedResults(text) :: CapturableUrl(u) && IsSubstring(u, text)
  {
    MatchesAreStripped(text, 0);
    FoundUrlsAreCapturable(text, 0);
  }

  /** Text with no `URL:` label (in any letter case) yields no URL, so `URL http://x` contributes nothing. */
  lemma {:induction false} NoLabelNoUrls(s: string, p: nat)
    requires p <= |s|
    requires forall i | 0 <= i < |s| :: !LabelWordAt(s, i)
    ensures FindAllFrom(s, p) == []
    decreases |s| - p
  {
    if p < |s| {
      NoLabelNoUrls(s, p + 1);
    }
  }

  /** `\s*` also consumes line breaks: a URL on the line after `URL:` is captured. */
  lemma UrlOnNextLineIsCaptured()
    ensures ParseRerankedResults("URL:\nhttp://x") == ["http://x"]
  {
    var s := "URL:\nhttp://x";
    assert SkipSpaces(s, 0) == 0;
    assert LabelWordAt(s, 0);
    assert SkipSpaces(s, 4) == 5 by {
      assert SkipSpaces(s, 5) == 5;
    }
    assert HttpWordAt(s, 5);
    assert !CharMatchesCI(s[9], 's');
    assert SeparatorAt(s, 9);
    assert SkipNonSpaces(s, 12) == 13;
    assert s[5..13] == "http://x";
    assert UrlMatchAt(s, 0) == Some((5, 13));
    MatchCapturesUrl(s, 0);
    assert FindAllFrom(s, 0) == ["http://x"];
    MatchesAreStripped(s, 0);
  }

  /** From inside a run of whitespace that reaches `q`, `\s*` ends where it ends from `q`. */
  lemma {:induction false} SkipSpacesThrough(s: string, p: nat, q: nat)
    requires p <= q <= |s| && SkipSpaces(s, p) >= q
    ensures SkipSpaces(s, p) == SkipSpaces(s, q)
    decreases q - p
  {
    if p < q {
      SkipSpacesThrough(s, p + 1, q);
    }
  }

  /**
   * A stretch of lines `[p, q)` without a `URL:` label, such as `URL http://x`,
   * adds nothing: the scan from its start yields what the scan from the next
   * line yields, even where `\s*` runs from a blank line into a label below.
   */
  lemma {:induction false} UnlabelledLinesAddNothing(s: string, p: nat, q: nat)
    requires p <= q <= |s| && (q == |s| || (q > 0 && s[q - 1] == '\n'))
    requires forall i | p <= i < q :: !LabelWordAt(s, i)
    ensures FindAllFrom(s, p) == FindAllFrom(s, q)
    decreases q - p
  {
    if p < q {
      var x := SkipSpaces(s, p);
      if (p > 0 && s[p - 1] != '\n') || x < q || x == |s| {
        assert UrlMatchAt(s, p) == None;
        UnlabelledLinesAddNothing(s, p + 1, q);
      } else {
        SkipSpacesThrough(s, p, q);
        assert UrlMatchAt(s, p) == UrlMatchAt(s, q);
        match UrlMatchAt(s, q)
        case Some(m) =>
          MatchCapturesUrl(s, q);
        case None =>
          UnlabelledLinesAddNothing(s, p + 1, q);
      }
    }
  }

  /** Among numbered results, `URL http://x` (no colon) is ignored while `URL: http://a` is kept. */
  lemma UnlabelledUrlIsIgnored()
    ensures ParseRerankedResults("1. A\n   URL: http://a\n2. B\n   URL http://x") == ["http://a"]
  {
    var s := "1. A\n   URL: http://a\n2. B\n   URL http://x";
    ExampleHeadAddsNothing(s);
    ExampleSpaces(s);
    ExampleLabel(s);
    ExampleScheme(s);
    MatchFromParts(s, 5, 8, 13, 21);
    ExampleCapture(s);
    ExampleTailAddsNothing(s);
    MatchCapturesUrl(s, 5);
    assert FindAllFrom(s, 5) == ["http://a"];
    MatchesAreStripped(s, 0);
  }

  lemma ExampleHeadAddsNothing(s: string)
    requires s == "1. A\n   URL: http://a\n2. B\n   URL http://x"
    ensures FindAllFrom(s, 0) == FindAllFrom(s, 5)
  {
    assert s[4] == '\n';
    assert forall i | 0 <= i < 5 :: !LabelWordAt(s, i);
    UnlabelledLinesAddNothing(s, 0, 5);
  }

  lemma ExampleSpaces(s: string)
    requires s == "1. A\n   URL: http://a\n2. B\n   URL http://x"
    ensures SkipSpaces(s, 5) == 8 && SkipSpaces(s, 12) == 13 && SkipNonSpaces(s, 20) == 21
  {
    assert s[5] == ' ' && s[6] == ' ' && s[7] == ' ' && s[8] == 'U' && s[12] == ' ' && s[13] == 'h' && s[20] == 'a' && s[21] == '\n';
    assert SkipSpaces(s, 8) == 8;
    assert SkipSpaces(s, 13) == 13;
    assert SkipNonSpaces(s, 21) == 21;
  }

  lemma ExampleLabel(s: string)
    requires s == "1. A\n   URL: http://a\n2. B\n   URL http://x"
    ensures s[4] == '\n' && LabelWordAt(s, 8)
  {
    assert s[8] == 'U' && s[9] == 'R' && s[10] == 'L' && s[11] == ':';
  }

  lemma ExampleScheme(s: string)
    requires s == "1. A\n   URL: http://a\n2. B\n   URL http://x"
    ensures HttpWordAt(s, 13) && !CharMatchesCI(s[17], 's') && SeparatorAt(s, 17)
    ensures s[13] == 'h' && s[14] == 't' && s[15] == 't' && s[16] == 'p'
    ensures s[17] == ':' && s[18] == '/' && s[19] == '/' && s[20] == 'a'
  {
    assert s[13] == 'h' && s[14] == 't' && s[15] == 't' && s[16] == 'p';
    assert s[17] == ':' && s[18] == '/' && s[19] == '/' && s[20] == 'a';
  }

  lemma ExampleCapture(s: string)
    requires |s| >= 21 && s[13] == 'h' && s[14] == 't' && s[15] == 't' && s[16] == 'p'
    requires s[17] == ':' && s[18] == '/' && s[19] == '/' && s[20] == 'a'
    ensures s[13..21] == "http://a"
  {
  }

  lemma ExampleTailAddsNothing(s: string)
    requires s == "1. A\n   URL: http://a\n2. B\n   URL http://x"
    ensures FindAllFrom(s, 21) == []
  {
    assert |s| == 42;
    assert forall i | 21 <= i < 42 :: !LabelWordAt(s, i);
    UnlabelledLinesAddNothing(s, 21, 42);
  }

  /** A match assembled from its parts: line start, `\s*`, label, `\s*`, scheme, separator, URL body. */
  lemma MatchFromParts(s: string, p: nat, a: nat, b: nat, e: nat)
    requires p <= |s| && (p == 0 || s[p - 1] == '\n')
    requires a <= |s| && SkipSpaces(s, p) == a && LabelWordAt(s, a)
    requires b <= |s| && SkipSpaces(s, a + 4) == b && HttpWordAt(s, b) && b + 4 < |s| && !CharMatchesCI(s[b + 4], 's')
    requires SeparatorAt(s, b + 4) && e <= |s| && SkipNonSpaces(s, b + 7) == e && e > b + 7
    ensures UrlMatchAt(s, p) == Some((b, e))
  {
  }
}
