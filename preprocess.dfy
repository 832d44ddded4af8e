/**
 * The keyword preprocessing step (preprocess_keywords_from_wikis.py): every
 * crawled page whose URL is not yet in the keyword file gets its keywords
 * extracted and is appended to that file, once.
 *
 * Files are sequences of lines already decoded from JSON; the keyword
 * extractor is a function handed in by the caller, `None` where it raises or
 * where its result cannot be serialised into the output line.
 */
module Preprocess {
  import opened Wrappers

  /**
   * A line of the keyword file as `load_existing_urls` reads it: an object
   * with or without a `url` key, a line that does not decode, or a line whose
   * decoded value makes the lookup raise, which ends the reading.
   */
  datatype StoredLine = Stored(url: Option<string>) | Undecodable | Unreadable

  /**
   * A line of the raw crawl file: an object whose `url`, `title` and `text`
   * keys may be absent, a line that does not decode, or a value that is not
   * an object, on which `entry.get` raises and the whole run ends.
   */
  datatype RawLine = Entry(url: Option<string>, title: Option<string>, text: Option<string>) | Malformed | NotAnObject

  /** The extractor's result: `(keyword, score)` pairs. */
  type Keywords = seq<(string, real)>

  /** One line appended to the keyword file. */
  datatype Processed = Processed(url: string, title: string, keywords: Keywords, text: string)

  // ---------------------------------------------------------------------------
  // load_existing_urls
  // ---------------------------------------------------------------------------

  /** The URLs the lines give before the first line that ends the reading. */
  function LoadedFrom(lines: seq<StoredLine>): set<string>
    decreases |lines|
  {
    if lines == [] then {}
    else match lines[0]
      case Stored(Some(u)) => {u} + LoadedFrom(lines[1..])
      case Stored(None) => LoadedFrom(lines[1..])
      case Undecodable => LoadedFrom(lines[1..])
      case Unreadable => {}
  }

  /** `load_existing_urls`: nothing when the file is missing. */
  function Loaded(file: Option<seq<StoredLine>>): set<string> {
    match file
    case None => {}
    case Some(lines) => LoadedFrom(lines)
  }

  /** A URL is loaded iff a line carries it and no earlier line ends the reading. */
  lemma {:induction false} LoadedExactly(lines: seq<StoredLine>, u: string)
    ensures u in LoadedFrom(lines) <==>
      exists i | 0 <= i < |lines| :: lines[i] == Stored(Some(u)) && forall j | 0 <= j < i :: !lines[j].Unreadable?
    decreases |lines|
  {
    if lines != [] {
      LoadedExactly(lines[1..], u);
      if u in LoadedFrom(lines) && lines[0] != Stored(Some(u)) {
        var i :| 0 <= i < |lines[1..]| && lines[1..][i] == Stored(Some(u)) && forall j | 0 <= j < i :: !lines[1..][j].Unreadable?;
        assert lines[i + 1] == lines[1..][i];
        forall j | 0 <= j < i + 1
          ensures !lines[j].Unreadable?
        {
          if j > 0 {
            assert lines[j] == lines[1..][j - 1];
          }
        }
      }
      if exists i | 0 <= i < |lines| :: lines[i] == Stored(Some(u)) && forall j | 0 <= j < i :: !lines[j].Unreadable? {
        var i :| 0 <= i < |lines| && lines[i] == Stored(Some(u)) && forall j | 0 <= j < i :: !lines[j].Unreadable?;
        if i > 0 {
          assert lines[1..][i - 1] == lines[i];
          assert forall j | 0 <= j < i - 1 :: lines[1..][j] == lines[j + 1];
        }
      }
    }
  }

  /** Lines appended after lines that all read cleanly add their URLs. */
  lemma {:induction false} LoadedAppend(lines: seq<StoredLine>, more: seq<StoredLine>)
    requires forall j | 0 <= j < |lines| :: !lines[j].Unreadable?
    ensures LoadedFrom(lines + more) == LoadedFrom(lines) + LoadedFrom(more)
    decreases |lines|
  {
    if lines == [] {
      assert lines + more == more;
    } else {
      assert (lines + more)[1..] == lines[1..] + more;
      LoadedAppend(lines[1..], more);
    }
  }

  /** The loop of `load_existing_urls` over the lines of an existing file. */
  method LoadExistingUrls(file: Option<seq<StoredLine>>) returns (existing: set<string>)
    ensures existing == Loaded(file)
  {
    existing := {};
    if file.None? {
      return;
    }
    var lines := file.value;
    var i := 0;
    while i < |lines|
      invariant 0 <= i <= |lines|
      invariant forall j | 0 <= j < i :: !lines[j].Unreadable?
      invariant LoadedFrom(lines) == existing + LoadedFrom(lines[i..])
    {
      assert lines[i..][1..] == lines[i + 1..];
      match lines[i] {
        case Stored(url) =>
          if url.Some? {
            existing := existing + {url.value};
          }
        case Undecodable =>
        case Unreadable =>
          LoadedAppend(lines[..i], lines[i..]);
          assert lines[..i] + lines[i..] == lines;
          return;
      }
      i := i + 1;
    }
    assert lines[i..] == [];
  }

  // ---------------------------------------------------------------------------
  // preprocess_jsonl
  // ---------------------------------------------------------------------------

  /**
   * The state of a run: the URLs known to be in the keyword file, the lines
   * appended so far, the two counters, and whether the run has ended early.
   */
  datatype Progress = Progress(existing: set<string>, written: seq<Processed>, processed: nat, skipped: nat, stopped: bool)

  function Start(existing: set<string>): Progress {
    Progress(existing, [], 0, 0, false)
  }

  /** One raw line's effect on the run. */
  function Step(p: Progress, line: RawLine, extract: string -> Option<Keywords>): Progress {
    if p.stopped then p
    else match line
      case Malformed => p
      case NotAnObject => p.(stopped := true)
      case Entry(url, title, text) =>
        var u := url.GetOr("");
        if u == "" then p
        else if u in p.existing then p.(skipped := p.skipped + 1)
        else
          var body := text.GetOr("");
          match extract(body)
          case None => p
          case Some(keywords) =>
            p.(existing := p.existing + {u},
               written := p.written + [Processed(u, title.GetOr(""), keywords, body)],
               processed := p.processed + 1)
  }

  /** The run over the raw lines, in file order. */
  function Run(p: Progress, lines: seq<RawLine>, extract: string -> Option<Keywords>): Progress
    decreases |lines|
  {
    if lines == [] then p else Run(Step(p, lines[0], extract), lines[1..], extract)
  }

  function WrittenUrls(written: seq<Processed>): set<string> {
    set k | 0 <= k < |written| :: written[k].url
  }

  /** `preprocess_jsonl` over the two files; a missing raw file writes nothing. */
  method PreprocessJsonl(generated: Option<seq<StoredLine>>, raw: Option<seq<RawLine>>, extract: string -> Option<Keywords>)
    returns (written: seq<Processed>, processedCount: nat, skippedCount: nat)
    ensures raw.None? ==> written == [] && processedCount == 0 && skippedCount == 0
    ensures raw.Some? ==>
      var outcome := Run(Start(Loaded(generated)), raw.value, extract);
      written == outcome.written && processedCount == outcome.processed && skippedCount == outcome.skipped
  {
    var existing := LoadExistingUrls(generated);
    written, processedCount, skippedCount := [], 0, 0;
    if raw.None? {
      return;
    }
    var lines := raw.value;
    ghost var p: Progress := Start(existing);
    for i := 0 to |lines|
      invariant p == Progress(existing, written, processedCount, skippedCount, false)
      invariant Run(p, lines[i..], extract) == Run(Start(Loaded(generated)), lines, extract)
    {
      assert lines[i..][1..] == lines[i + 1..];
      match lines[i] {
        case Malformed =>
        case NotAnObject =>
          RunStopped(Step(p, lines[i], extract), lines[i + 1..], extract);
          return;
        case Entry(url, title, text) =>
          var u := url.GetOr("");
          if u != "" {
            if u in existing {
              skippedCount := skippedCount + 1;
            } else {
              var body := text.GetOr("");
              var keywords := extract(body);
              if keywords.Some? {
                written := written + [Processed(u, title.GetOr(""), keywords.value, body)];
                existing := existing + {u};
                processedCount := processedCount + 1;
              }
            }
          }
      }
      p := Step(p, lines[i], extract);
    }
  }

  /** Once a run has ended, the remaining lines change nothing. */
  lemma {:induction false} RunStopped(p: Progress, lines: seq<RawLine>, extract: string -> Option<Keywords>)
    requires p.stopped
    ensures Run(p, lines, extract) == p
    decreases |lines|
  {
    if lines != [] {
      RunStopped(Step(p, lines[0], extract), lines[1..], extract);
    }
  }

  /** What every run keeps of its state. */
  predicate Consistent(p: Progress, existing: set<string>, extract: string -> Option<Keywords>) {
    && p.processed == |p.written|
    && p.existing == existing + WrittenUrls(p.written)
    && (forall k | 0 <= k < |p.written| :: p.written[k].url != "" && p.written[k].url !in existing)
    && (forall j, k | 0 <= j < k < |p.written| :: p.written[j].url != p.written[k].url)
    && (forall k | 0 <= k < |p.written| :: extract(p.written[k].text) == Some(p.written[k].keywords))
  }

  lemma StepKeepsConsistent(p: Progress, line: RawLine, existing: set<string>, extract: string -> Option<Keywords>)
    requires Consistent(p, existing, extract)
    ensures Consistent(Step(p, line, extract), existing, extract)
  {
    var q := Step(p, line, extract);
    if |q.written| > |p.written| {
      var u := q.written[|p.written|].url;
      assert WrittenUrls(q.written) == WrittenUrls(p.written) + {u} by {
        forall v | v in WrittenUrls(q.written)
          ensures v in WrittenUrls(p.written) + {u}
        {
          var k :| 0 <= k < |q.written| && q.written[k].url == v;
          if k < |p.written| {
            assert p.written[k].url == v;
          }
        }
        forall v | v in WrittenUrls(p.written)
          ensures v in WrittenUrls(q.written)
        {
          var k :| 0 <= k < |p.written| && p.written[k].url == v;
          assert q.written[k].url == v;
        }
      }
    }
  }

  /**
   * Over a whole run: the processed count is the number of lines written, no
   * URL is written twice, none that was already in the file is written, none
   * is empty, and every line carries the extractor's keywords for its text.
   */
  lemma {:induction false} RunIsConsistent(p: Progress, lines: seq<RawLine>, existing: set<string>, extract: string -> Option<Keywords>)
    requires Consistent(p, existing, extract)
    ensures Consistent(Run(p, lines, extract), existing, extract)
    decreases |lines|
  {
    if lines != [] {
      StepKeepsConsistent(p, lines[0], existing, extract);
      RunIsConsistent(Step(p, lines[0], extract), lines[1..], existing, extract);
    }
  }

  /** Every line that is written or counted as skipped is a raw line, so the counters never exceed the lines read. */
  lemma {:induction false} CountsAreBounded(p: Progress, lines: seq<RawLine>, extract: string -> Option<Keywords>)
    ensures Run(p, lines, extract).processed + Run(p, lines, extract).skipped <= p.processed + p.skipped + |lines|
    decreases |lines|
  {
    if lines != [] {
      CountsAreBounded(Step(p, lines[0], extract), lines[1..], extract);
    }
  }

  /** The extraction for a raw object's text (`""` when it has none) succeeds. */
  predicate Extracted(line: RawLine, extract: string -> Option<Keywords>) {
    line.Entry? && extract(line.text.GetOr("")).Some?
  }

  /** A run over `a` and then one more line is the run over `a` followed by that line's step. */
  lemma {:induction false} RunSnoc(p: Progress, a: seq<RawLine>, x: RawLine, extract: string -> Option<Keywords>)
    ensures Run(p, a + [x], extract) == Step(Run(p, a, extract), x, extract)
    decreases |a|
  {
    if a == [] {
      assert [x][1..] == [];
    } else {
      assert (a + [x])[1..] == a[1..] + [x];
      RunSnoc(Step(p, a[0], extract), a[1..], x, extract);
    }
  }

  /** The URLs of the lines before `n` that the run reaches and whose extraction succeeds. */
  function ExtractedBefore(lines: seq<RawLine>, n: int, extract: string -> Option<Keywords>): set<string> {
    set j | 0 <= j < n && ReachedUrl(lines, j) && Extracted(lines[j], extract) :: lines[j].url.GetOr("")
  }

  /**
   * A line counted as skipped: a URL the run reaches that was in the keyword
   * file, or that an earlier reached line with a successful extraction carried.
   */
  predicate SkippedAt(existing: set<string>, lines: seq<RawLine>, i: int, extract: string -> Option<Keywords>) {
    ReachedUrl(lines, i) && lines[i].url.GetOr("") in existing + ExtractedBefore(lines, i, extract)
  }

  /** The number of lines before `n` counted as skipped. */
  function SkipCount(existing: set<string>, lines: seq<RawLine>, n: nat, extract: string -> Option<Keywords>): nat
    decreases n
  {
    if n == 0 then 0
    else SkipCount(existing, lines, n - 1, extract) + (if SkippedAt(existing, lines, n - 1, extract) then 1 else 0)
  }

  lemma ExtractedBeforeNext(lines: seq<RawLine>, n: int, extract: string -> Option<Keywords>)
    requires 0 <= n < |lines|
    ensures ExtractedBefore(lines, n + 1, extract) ==
      ExtractedBefore(lines, n, extract) + (if ReachedUrl(lines, n) && Extracted(lines[n], extract) then {lines[n].url.GetOr("")} else {})
  {
  }

  /** The run over the first `n` lines: its skip counter, and what it knows while it goes on. */
  lemma {:induction false} RunPrefixCounts(existing: set<string>, lines: seq<RawLine>, n: nat, extract: string -> Option<Keywords>)
    requires n <= |lines|
    ensures var q := Run(Start(existing), lines[..n], extract);
      && q.skipped == SkipCount(existing, lines, n, extract)
      && (!q.stopped ==> q.existing == existing + ExtractedBefore(lines, n, extract))
      && (!q.stopped <==> forall j | 0 <= j < n :: !lines[j].NotAnObject?)
    decreases n
  {
    if n > 0 {
      var m := n - 1;
      RunPrefixCounts(existing, lines, m, extract);
      assert lines[..n] == lines[..m] + [lines[m]];
      RunSnoc(Start(existing), lines[..m], lines[m], extract);
      ExtractedBeforeNext(lines, m, extract);
    }
  }

  /**
   * `skipped_count` counts exactly the lines the run reaches whose URL is
   * already known: in the keyword file, or carried by an earlier line whose
   * keywords were extracted.
   */
  lemma SkippedCountsKnownUrls(existing: set<string>, lines: seq<RawLine>, extract: string -> Option<Keywords>)
    ensures Run(Start(existing), lines, extract).skipped == SkipCount(existing, lines, |lines|, extract)
  {
    RunPrefixCounts(existing, lines, |lines|, extract);
    assert lines[..|lines|] == lines;
  }

  /** The line written for a raw object: its fields with "" for those it lacks, and the text's keywords. */
  function ProcessedFrom(line: RawLine, extract: string -> Option<Keywords>): Processed
    requires Extracted(line, extract)
  {
    var body := line.text.GetOr("");
    Processed(line.url.GetOr(""), line.title.GetOr(""), extract(body).value, body)
  }

  /** One step appends at most the record made from the line it reads. */
  lemma StepWrites(p: Progress, line: RawLine, extract: string -> Option<Keywords>)
    ensures var q := Step(p, line, extract);
      q.written == p.written || (Extracted(line, extract) && q.written == p.written + [ProcessedFrom(line, extract)])
  {
  }

  /** `rec` is the record made from one of the raw objects among `lines`. */
  predicate MadeFrom(rec: Processed, lines: seq<RawLine>, extract: string -> Option<Keywords>) {
    exists i | 0 <= i < |lines| :: Extracted(lines[i], extract) && rec == ProcessedFrom(lines[i], extract)
  }

  lemma MadeFromTail(rec: Processed, lines: seq<RawLine>, extract: string -> Option<Keywords>)
    requires lines != [] && MadeFrom(rec, lines[1..], extract)
    ensures MadeFrom(rec, lines, extract)
  {
    var rest := lines[1..];
    var i :| 0 <= i < |rest| && Extracted(rest[i], extract) && rec == ProcessedFrom(rest[i], extract);
    assert lines[i + 1] == rest[i];
  }

  /** Every line a run appends is made from one of the raw objects it read. */
  lemma {:induction false} RunWritesFromLines(p: Progress, lines: seq<RawLine>, extract: string -> Option<Keywords>)
    ensures |p.written| <= |Run(p, lines, extract).written|
    ensures Run(p, lines, extract).written[..|p.written|] == p.written
    ensures forall k | |p.written| <= k < |Run(p, lines, extract).written| ::
      MadeFrom(Run(p, lines, extract).written[k], lines, extract)
    decreases |lines|
  {
    if lines != [] {
      var next := Step(p, lines[0], extract);
      var rest := lines[1..];
      StepWrites(p, lines[0], extract);
      RunWritesFromLines(next, rest, extract);
      assert Run(p, lines, extract) == Run(next, rest, extract);
      var w := Run(next, rest, extract).written;
      assert |p.written| <= |next.written| && next.written[..|p.written|] == p.written;
      assert w[..|next.written|] == next.written;
      assert w[..|next.written|][..|p.written|] == w[..|p.written|];
      forall k | |p.written| <= k < |w|
        ensures MadeFrom(w[k], lines, extract)
      {
        if k < |next.written| {
          assert next.written == p.written + [ProcessedFrom(lines[0], extract)];
          assert Extracted(lines[0], extract) && w[k] == ProcessedFrom(lines[0], extract);
        } else {
          assert MadeFrom(w[k], rest, extract);
          MadeFromTail(w[k], lines, extract);
        }
      }
    }
  }

  /** A raw object with a URL, read before any line that ends the run. */
  predicate ReachedUrl(lines: seq<RawLine>, i: int) {
    && 0 <= i < |lines| && lines[i].Entry? && lines[i].url.GetOr("") != ""
    && forall j | 0 <= j < i :: !lines[j].NotAnObject?
  }

  /** Every URL the run reaches with a successful extraction is written now or was known already. */
  lemma {:induction false} RunCoversEveryUrl(p: Progress, lines: seq<RawLine>, extract: string -> Option<Keywords>)
    requires !p.stopped
    ensures p.existing <= Run(p, lines, extract).existing
    ensures forall i | ReachedUrl(lines, i) && Extracted(lines[i], extract) ::
      lines[i].url.GetOr("") in Run(p, lines, extract).existing
    decreases |lines|
  {
    if lines != [] {
      var next := Step(p, lines[0], extract);
      if next.stopped {
        RunStopped(next, lines[1..], extract);
      } else {
        RunCoversEveryUrl(next, lines[1..], extract);
        forall i | ReachedUrl(lines, i) && Extracted(lines[i], extract) && i > 0
          ensures ReachedUrl(lines[1..], i - 1) && Extracted(lines[1..][i - 1], extract)
        {
          assert lines[1..][i - 1] == lines[i];
          forall j | 0 <= j < i - 1
            ensures !lines[1..][j].NotAnObject?
          {
            assert lines[1..][j] == lines[j + 1];
          }
        }
      }
    }
  }

  /** A run in which every URL reached with a successful extraction is already known writes nothing. */
  lemma {:induction false} KnownUrlsWriteNothing(p: Progress, lines: seq<RawLine>, extract: string -> Option<Keywords>)
    requires forall i | ReachedUrl(lines, i) && Extracted(lines[i], extract) :: lines[i].url.GetOr("") in p.existing
    ensures Run(p, lines, extract).written == p.written
    decreases |lines|
  {
    if lines != [] {
      var next := Step(p, lines[0], extract);
      if next.stopped {
        RunStopped(next, lines[1..], extract);
      } else {
        forall i | ReachedUrl(lines[1..], i) && Extracted(lines[1..][i], extract)
          ensures lines[1..][i].url.GetOr("") in next.existing
        {
          assert lines[1..][i] == lines[i + 1];
          forall j | 0 <= j < i + 1
            ensures !lines[j].NotAnObject?
          {
            if j > 0 {
              assert lines[j] == lines[1..][j - 1];
            }
          }
          assert ReachedUrl(lines, i + 1);
        }
        if Extracted(lines[0], extract) && lines[0].url.GetOr("") != "" {
          assert ReachedUrl(lines, 0);
        }
        KnownUrlsWriteNothing(next, lines[1..], extract);
      }
    }
  }

  /** The lines of the keyword file that a run's output adds, as a later run reads them. */
  function StoredLines(written: seq<Processed>): seq<StoredLine>
    decreases |written|
  {
    if written == [] then [] else [Stored(Some(written[0].url))] + StoredLines(written[1..])
  }

  lemma {:induction false} LoadedStoredLines(written: seq<Processed>)
    ensures LoadedFrom(StoredLines(written)) == WrittenUrls(written)
    decreases |written|
  {
    if written != [] {
      LoadedStoredLines(written[1..]);
      assert ([Stored(Some(written[0].url))] + StoredLines(written[1..]))[1..] == StoredLines(written[1..]);
      assert WrittenUrls(written) == {written[0].url} + WrittenUrls(written[1..]) by {
        forall v | v in WrittenUrls(written)
          ensures v in {written[0].url} + WrittenUrls(written[1..])
        {
          var k :| 0 <= k < |written| && written[k].url == v;
          if k > 0 {
            assert written[1..][k - 1].url == v;
          }
        }
        forall v | v in WrittenUrls(written[1..])
          ensures v in WrittenUrls(written)
        {
          var k :| 0 <= k < |written[1..]| && written[1..][k].url == v;
          assert written[k + 1].url == v;
        }
      }
    }
  }

  /**
   * No URL is written twice across runs either: run again over the same raw
   * file, with the keyword file grown by what the first run appended, the
   * preprocessing writes nothing.
   */
  lemma RerunWritesNothing(generated: seq<StoredLine>, lines: seq<RawLine>, extract: string -> Option<Keywords>)
    requires forall j | 0 <= j < |generated| :: !generated[j].Unreadable?
    ensures var first := Run(Start(LoadedFrom(generated)), lines, extract);
            Run(Start(LoadedFrom(generated + StoredLines(first.written))), lines, extract).written == []
  {
    var existing := LoadedFrom(generated);
    var first := Run(Start(existing), lines, extract);
    RunIsConsistent(Start(existing), lines, existing, extract);
    RunCoversEveryUrl(Start(existing), lines, extract);
    LoadedAppend(generated, StoredLines(first.written));
    LoadedStoredLines(first.written);
    KnownUrlsWriteNothing(Start(LoadedFrom(generated + StoredLines(first.written))), lines, extract);
  }
}
