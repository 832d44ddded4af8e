/**
 * Keyword retrieval over the preprocessed wiki data (find_matching_wiki_pages.py).
 *
 * The data file is a sequence of lines, each already decoded into a document
 * record or marked unparseable; the keyword extractor is a function handed in
 * by the caller. `Search` is the specification of a query, `SearchDocuments`
 * the line-by-line loop of the source, proved to compute it.
 */
module WikiSearch {
  import opened Wrappers
  import opened Text

  /** Query words that never take part in matching. */
  const SearchQueryBlacklist: set<string> := {
    "a", "an", "the", "is", "are", "was", "were", "be", "been", "being",
    "have", "has", "had", "do", "does", "did", "will", "would", "should",
    "can", "could", "may", "might", "must", "am",
    "i", "me", "my", "myself", "we", "our", "ours", "ourselves",
    "you", "your", "yours", "yourself", "yourselves",
    "he", "him", "his", "himself", "she", "her", "hers", "herself",
    "it", "its", "itself", "they", "them", "their", "theirs", "themselves",
    "what", "which", "who", "whom", "this", "that", "these", "those",
    "to", "of", "at", "by", "for", "with", "about", "against", "between",
    "into", "through", "during", "before", "after", "above", "below",
    "from", "up", "down", "in", "out", "on", "off", "over", "under",
    "again", "further", "then", "once", "here", "there", "when", "where",
    "why", "how", "all", "any", "both", "each", "few", "more", "most",
    "other", "some", "such", "no", "nor", "not", "only", "own", "same",
    "so", "than", "too", "very", "s", "t", "just", "don", "now",
    "get", "make", "go", "see", "know", "take", "find", "tell",
    "ask", "work", "seem", "feel", "try", "leave", "call", "give",
    "let", "put", "say", "set", "look", "want", "need",
    "use"
  }

  const MinUserKeywordLength: nat := 2

  /** One item of the extractor's output: a `(term, weight)` list or tuple whose first element is a string, or anything else. */
  datatype ExtractedItem = Keyword(term: string, weight: real) | Unusable

  /**
   * One entry of a document's `keywords` list, as the JSON decoder leaves it:
   * a two-element list with a string first (`weight` is `None` when `float()`
   * rejects the second element), a two-element list whose first element is not
   * a string (`shown` is its `str()`), a bare string, or anything else.
   */
  datatype KeywordEntry =
    | Pair(term: string, weight: Option<real>)
    | OddPair(shown: string, weight: Option<real>)
    | Bare(word: string)
    | Other

  /** A decoded line of the keyword data file; a `None` field is a key the object lacks. */
  datatype Doc = Doc(url: Option<string>, title: Option<string>, text: Option<string>, keywords: seq<KeywordEntry>)

  /** A line of the data file: a document object, or a line that fails to decode or to be read as one. */
  datatype Line = Parsed(doc: Doc) | Unparseable

  /** The ranking record `(title_match_priority_score, effective_weight, doc)`. */
  datatype Match = Match(titleMatch: bool, weight: real, doc: Doc)

  // ---------------------------------------------------------------------------
  // Query terms

  predicate Admissible(t: string) {
    t !in SearchQueryBlacklist && |t| >= MinUserKeywordLength
  }

  function ItemTerms(item: ExtractedItem): set<string> {
    match item
    case Keyword(t, _) => if Admissible(Lower(t)) then {Lower(t)} else {}
    case Unusable => {}
  }

  /** The lower-cased, filtered query terms. */
  function FilterTerms(items: seq<ExtractedItem>): set<string> {
    if items == [] then {} else FilterTerms(items[..|items| - 1]) + ItemTerms(items[|items| - 1])
  }

  /** The filtered term set is exactly the admissible lower-cased string terms of the extractor's output. */
  lemma {:induction false} FilterTermsExactly(items: seq<ExtractedItem>, t: string)
    ensures t in FilterTerms(items) <==>
      exists i | 0 <= i < |items| :: items[i].Keyword? && Lower(items[i].term) == t && Admissible(t)
  {
    if items != [] {
      var init := items[..|items| - 1];
      FilterTermsExactly(init, t);
      if t in FilterTerms(init) {
        var i :| 0 <= i < |init| && init[i].Keyword? && Lower(init[i].term) == t && Admissible(t);
        assert items[i] == init[i];
      }
      if exists i | 0 <= i < |items| :: items[i].Keyword? && Lower(items[i].term) == t && Admissible(t) {
        var i :| 0 <= i < |items| && items[i].Keyword? && Lower(items[i].term) == t && Admissible(t);
        if i < |init| {
          assert init[i] == items[i];
        }
      }
    }
  }

  // ---------------------------------------------------------------------------
  // Title matching: `re.search(r'\b' + re.escape(term) + r'\b', title_lower)`

  predicate IsWordAt(s: string, p: int) {
    0 <= p < |s| && IsWordChar(s[p])
  }

  /** `\b` holds between positions `p - 1` and `p`. */
  predicate BoundaryAt(s: string, p: int) {
    IsWordAt(s, p - 1) != IsWordAt(s, p)
  }

  predicate WholeWordAt(word: string, s: string, i: int) {
    OccursAt(word, s, i) && BoundaryAt(s, i) && BoundaryAt(s, i + |word|)
  }

  predicate ContainsWholeWord(s: string, word: string) {
    exists i | 0 <= i <= |s| - |word| :: WholeWordAt(word, s, i)
  }

  predicate TitleMatches(terms: set<string>, title: string) {
    exists t | t in terms :: ContainsWholeWord(Lower(title), t)
  }

  // ---------------------------------------------------------------------------
  // Keyword matching and the weight of a match

  predicate EntryMatches(terms: set<string>, e: KeywordEntry) {
    e.Pair? && Lower(e.term) in terms
  }

  /** The weight of a well-formed entry; a weight `float()` rejects counts as 0.0. */
  function EntryWeight(e: KeywordEntry): real
    requires e.Pair?
  {
    e.weight.GetOr(0.0)
  }

  predicate KeywordMatches(terms: set<string>, kws: seq<KeywordEntry>) {
    exists j | 0 <= j < |kws| :: EntryMatches(terms, kws[j])
  }

  function MaxReal(a: real, b: real): real {
    if a >= b then a else b
  }

  /** `max_matching_keyword_weight` after scanning `kws`, starting from 0.0. */
  function MaxMatchingWeight(terms: set<string>, kws: seq<KeywordEntry>): real {
    if kws == [] then 0.0
    else
      var prev := MaxMatchingWeight(terms, kws[..|kws| - 1]);
      var e := kws[|kws| - 1];
      if EntryMatches(terms, e) then MaxReal(prev, EntryWeight(e)) else prev
  }

  /**
   * The accumulated weight is the maximum of 0.0 and the weights of the matching
   * entries: never negative, at least every matching weight, and either 0.0 or
   * one of them.
   */
  lemma {:induction false} MaxMatchingWeightIsMaximum(terms: set<string>, kws: seq<KeywordEntry>)
    ensures MaxMatchingWeight(terms, kws) >= 0.0
    ensures forall j | 0 <= j < |kws| && EntryMatches(terms, kws[j]) :: EntryWeight(kws[j]) <= MaxMatchingWeight(terms, kws)
    ensures MaxMatchingWeight(terms, kws) == 0.0
            || exists j | 0 <= j < |kws| && EntryMatches(terms, kws[j]) :: MaxMatchingWeight(terms, kws) == EntryWeight(kws[j])
  {
    if kws != [] {
      var init := kws[..|kws| - 1];
      MaxMatchingWeightIsMaximum(terms, init);
      var r := MaxMatchingWeight(terms, kws);
      forall j | 0 <= j < |kws| && EntryMatches(terms, kws[j])
        ensures EntryWeight(kws[j]) <= r
      {
        if j < |init| {
          assert init[j] == kws[j];
        }
      }
      if r != 0.0 {
        if r == MaxMatchingWeight(terms, init) {
          var j :| 0 <= j < |init| && EntryMatches(terms, init[j]) && r == EntryWeight(init[j]);
          assert kws[j] == init[j];
        } else {
          assert r == EntryWeight(kws[|kws| - 1]);
        }
      }
    }
  }

  /** With no matching keyword entry the accumulated weight stays 0.0. */
  lemma {:induction false} NoKeywordMatchWeighsZero(terms: set<string>, kws: seq<KeywordEntry>)
    requires !KeywordMatches(terms, kws)
    ensures MaxMatchingWeight(terms, kws) == 0.0
  {
    MaxMatchingWeightIsMaximum(terms, kws);
  }

  /** `effective_weight`: the maximum matching keyword weight, 0.0 for a title-only match. */
  function EffectiveWeight(terms: set<string>, d: Doc): real {
    if KeywordMatches(terms, d.keywords) then MaxMatchingWeight(terms, d.keywords) else 0.0
  }

  predicate Relevant(terms: set<string>, d: Doc) {
    TitleMatches(terms, d.title.GetOr("")) || KeywordMatches(terms, d.keywords)
  }

  function Candidate(terms: set<string>, d: Doc): Match {
    Match(TitleMatches(terms, d.title.GetOr("")), EffectiveWeight(terms, d), d)
  }

  /** `potential_matches`: one record per relevant document, in file order. */
  function Matches(terms: set<string>, lines: seq<Line>): seq<Match> {
    if lines == [] then []
    else
      var prev := Matches(terms, lines[..|lines| - 1]);
      match lines[|lines| - 1]
      case Parsed(d) => if Relevant(terms, d) then prev + [Candidate(terms, d)] else prev
      case Unparseable => prev
  }

  /** A record is kept iff it is the candidate of a relevant document on some line. */
  lemma {:induction false} MatchesExactly(terms: set<string>, lines: seq<Line>, m: Match)
    ensures m in Matches(terms, lines) <==>
      m == Candidate(terms, m.doc) && Relevant(terms, m.doc) &&
      exists i | 0 <= i < |lines| :: lines[i] == Parsed(m.doc)
  {
    if lines != [] {
      var init := lines[..|lines| - 1];
      MatchesExactly(terms, init, m);
      if exists i | 0 <= i < |init| :: init[i] == Parsed(m.doc) {
        var i :| 0 <= i < |init| && init[i] == Parsed(m.doc);
        assert lines[i] == init[i];
      }
      if exists i | 0 <= i < |lines| :: lines[i] == Parsed(m.doc) {
        var i :| 0 <= i < |lines| && lines[i] == Parsed(m.doc);
        if i < |init| {
          assert init[i] == lines[i];
        }
      }
    }
  }

  // ---------------------------------------------------------------------------
  // Ranking: `sorted(potential_matches, key=lambda x: (-x[0], -x[1]))`

  /** `a` sorts strictly before `b`: a title match first, then the larger weight. */
  predicate Outranks(a: Match, b: Match) {
    (a.titleMatch && !b.titleMatch) || (a.titleMatch == b.titleMatch && a.weight > b.weight)
  }

  predicate RankedOrder(ms: seq<Match>) {
    forall i, j | 0 <= i < j < |ms| :: !Outranks(ms[j], ms[i])
  }

  /** Places `m` after every element whose key is not smaller than its own. */
  function Insert(sorted: seq<Match>, m: Match): seq<Match> {
    if sorted == [] then [m]
    else if Outranks(m, sorted[0]) then [m] + sorted
    else [sorted[0]] + Insert(sorted[1..], m)
  }

  /** A stable sort of the records by descending key. */
  function SortMatches(ms: seq<Match>): seq<Match> {
    if ms == [] then [] else Insert(SortMatches(ms[..|ms| - 1]), ms[|ms| - 1])
  }

  /** The records whose key is `(titleMatch, weight)`, in their order in `ms`. */
  function WithKey(ms: seq<Match>, titleMatch: bool, weight: real): seq<Match> {
    if ms == [] then []
    else
      (if ms[0].titleMatch == titleMatch && ms[0].weight == weight then [ms[0]] else [])
      + WithKey(ms[1..], titleMatch, weight)
  }

  lemma {:induction false} WithKeyAppend(a: seq<Match>, b: seq<Match>, titleMatch: bool, weight: real)
    ensures WithKey(a + b, titleMatch, weight) == WithKey(a, titleMatch, weight) + WithKey(b, titleMatch, weight)
  {
    if a != [] {
      assert (a + b)[1..] == a[1..] + b;
      WithKeyAppend(a[1..], b, titleMatch, weight);
    } else {
      assert a + b == b;
    }
  }

  lemma {:induction false} WithKeyNone(ms: seq<Match>, titleMatch: bool, weight: real)
    requires forall i | 0 <= i < |ms| :: !(ms[i].titleMatch == titleMatch && ms[i].weight == weight)
    ensures WithKey(ms, titleMatch, weight) == []
  {
    if ms != [] {
      WithKeyNone(ms[1..], titleMatch, weight);
    }
  }

  /** A ranked sequence stays ranked with a record in front that none of it outranks. */
  lemma RankedCons(x: Match, t: seq<Match>)
    requires RankedOrder(t)
    requires forall j | 0 <= j < |t| :: !Outranks(t[j], x)
    ensures RankedOrder([x] + t)
  {
    var r := [x] + t;
    forall i, j | 0 <= i < j < |r|
      ensures !Outranks(r[j], r[i])
    {
      assert r[j] == t[j - 1];
      if i > 0 {
        assert r[i] == t[i - 1];
      }
    }
  }

  lemma RankedTail(s: seq<Match>)
    requires RankedOrder(s) && s != []
    ensures RankedOrder(s[1..])
  {
    var rest := s[1..];
    forall i, j | 0 <= i < j < |rest|
      ensures !Outranks(rest[j], rest[i])
    {
      assert rest[j] == s[j + 1] && rest[i] == s[i + 1];
    }
  }

  lemma {:induction false} InsertPermutes(s: seq<Match>, m: Match)
    ensures multiset(Insert(s, m)) == multiset(s) + multiset{m}
  {
    if s != [] && !Outranks(m, s[0]) {
      InsertPermutes(s[1..], m);
      assert s == [s[0]] + s[1..];
    }
  }

  lemma {:induction false} InsertRanked(s: seq<Match>, m: Match)
    requires RankedOrder(s)
    ensures RankedOrder(Insert(s, m))
    ensures multiset(Insert(s, m)) == multiset(s) + multiset{m}
  {
    InsertPermutes(s, m);
    if s == [] {
    } else if Outranks(m, s[0]) {
      forall j | 0 <= j < |s|
        ensures !Outranks(s[j], m)
      {
        if j > 0 {
          assert !Outranks(s[j], s[0]);
        }
      }
      RankedCons(m, s);
    } else {
      var rest := s[1..];
      var tail := Insert(rest, m);
      InsertRanked(rest, m);
      RankedTail(s);
      forall j | 0 <= j < |tail|
        ensures !Outranks(tail[j], s[0])
      {
        assert tail[j] in multiset(tail);
        if tail[j] != m {
          assert tail[j] in multiset(rest);
          var k :| 0 <= k < |rest| && rest[k] == tail[j];
          assert s[k + 1] == tail[j];
        }
      }
      RankedCons(s[0], tail);
    }
  }

  /** A record placed before a ranked sequence it outranks shares its key with none of it. */
  lemma WithKeyInFront(s: seq<Match>, m: Match, titleMatch: bool, weight: real)
    requires RankedOrder(s) && s != [] && Outranks(m, s[0])
    ensures WithKey([m] + s, titleMatch, weight) == WithKey(s, titleMatch, weight) + WithKey([m], titleMatch, weight)
  {
    WithKeyAppend([m], s, titleMatch, weight);
    if m.titleMatch == titleMatch && m.weight == weight {
      forall i | 0 <= i < |s|
        ensures !(s[i].titleMatch == titleMatch && s[i].weight == weight)
      {
        if i > 0 {
          assert !Outranks(s[i], s[0]);
        }
      }
      WithKeyNone(s, titleMatch, weight);
    }
  }

  lemma {:induction false} InsertWithKey(s: seq<Match>, m: Match, titleMatch: bool, weight: real)
    requires RankedOrder(s)
    ensures WithKey(Insert(s, m), titleMatch, weight)
            == WithKey(s, titleMatch, weight) + WithKey([m], titleMatch, weight)
  {
    if s == [] {
    } else if Outranks(m, s[0]) {
      WithKeyInFront(s, m, titleMatch, weight);
    } else {
      var rest := s[1..];
      RankedTail(s);
      InsertWithKey(rest, m, titleMatch, weight);
      assert Insert(s, m) == [s[0]] + Insert(rest, m);
      WithKeyAppend([s[0]], Insert(rest, m), titleMatch, weight);
      WithKeyAppend([s[0]], rest, titleMatch, weight);
      assert [s[0]] + rest == s;
    }
  }

  /** The ranking is ordered by key and is a permutation of the matched records. */
  lemma {:induction false} SortMatchesRanks(ms: seq<Match>)
    ensures RankedOrder(SortMatches(ms))
    ensures multiset(SortMatches(ms)) == multiset(ms)
  {
    if ms != [] {
      var init := ms[..|ms| - 1];
      SortMatchesRanks(init);
      InsertRanked(SortMatches(init), ms[|ms| - 1]);
      assert ms == init + [ms[|ms| - 1]];
    }
  }

  /** The sort is stable: records with equal keys keep their relative order. */
  lemma {:induction false} SortMatchesIsStable(ms: seq<Match>, titleMatch: bool, weight: real)
    ensures WithKey(SortMatches(ms), titleMatch, weight) == WithKey(ms, titleMatch, weight)
  {
    if ms != [] {
      var init := ms[..|ms| - 1];
      SortMatchesIsStable(init, titleMatch, weight);
      SortMatchesRanks(init);
      InsertWithKey(SortMatches(init), ms[|ms| - 1], titleMatch, weight);
      WithKeyAppend(init, [ms[|ms| - 1]], titleMatch, weight);
      assert ms == init + [ms[|ms| - 1]];
    }
  }

  // ---------------------------------------------------------------------------
  // The whole query

  function Docs(ms: seq<Match>): seq<Doc> {
    seq(|ms|, i requires 0 <= i < |ms| => ms[i].doc)
  }

  /**
   * `search_documents`: no data file, an empty extraction or an empty filtered
   * term set give no result; otherwise the relevant documents, ranked.
   */
  function Search(data: Option<seq<Line>>, items: seq<ExtractedItem>): seq<Doc> {
    match data
    case None => []
    case Some(lines) =>
      if items == [] then []
      else
        var terms := FilterTerms(items);
        if terms == {} then [] else Docs(SortMatches(Matches(terms, lines)))
  }

  /** A document is returned iff it is on some line and a filtered term matches its title or one of its keywords. */
  lemma SearchReturnsExactlyRelevant(lines: seq<Line>, items: seq<ExtractedItem>, d: Doc)
    ensures d in Search(Some(lines), items) <==>
      Relevant(FilterTerms(items), d) && exists i | 0 <= i < |lines| :: lines[i] == Parsed(d)
  {
    var terms := FilterTerms(items);
    if items == [] || terms == {} {
      assert !KeywordMatches(terms, d.keywords);
    } else {
      var sorted := SortMatches(Matches(terms, lines));
      SortMatchesRanks(Matches(terms, lines));
      if d in Search(Some(lines), items) {
        var k :| 0 <= k < |sorted| && sorted[k].doc == d;
        assert sorted[k] in multiset(Matches(terms, lines));
        MatchesExactly(terms, lines, sorted[k]);
      }
      if Relevant(terms, d) && exists i | 0 <= i < |lines| :: lines[i] == Parsed(d) {
        MatchesExactly(terms, lines, Candidate(terms, d));
        assert Candidate(terms, d) in multiset(sorted);
        var k :| 0 <= k < |sorted| && sorted[k] == Candidate(terms, d);
        assert Docs(sorted)[k] == d;
      }
    }
  }

  /**
   * Every title-matching document precedes every other one, and within each
   * group the effective weights do not increase.
   */
  lemma SearchIsRanked(lines: seq<Line>, items: seq<ExtractedItem>)
    ensures var r := Search(Some(lines), items);
            var terms := FilterTerms(items);
            forall i, j | 0 <= i < j < |r| ::
              && (TitleMatches(terms, r[j].title.GetOr("")) ==> TitleMatches(terms, r[i].title.GetOr("")))
              && (TitleMatches(terms, r[i].title.GetOr("")) == TitleMatches(terms, r[j].title.GetOr(""))
                  ==> EffectiveWeight(terms, r[i]) >= EffectiveWeight(terms, r[j]))
  {
    var terms := FilterTerms(items);
    if items != [] && terms != {} {
      var ms := Matches(terms, lines);
      var sorted := SortMatches(ms);
      SortMatchesRanks(ms);
      forall k | 0 <= k < |sorted|
        ensures sorted[k] == Candidate(terms, sorted[k].doc)
      {
        assert sorted[k] in multiset(ms);
        MatchesExactly(terms, lines, sorted[k]);
      }
    }
  }

  /** The term-filtering loop of `search_documents`: lower-case, drop blacklisted and short terms, collect into a set. */
  method FilterQueryTerms(items: seq<ExtractedItem>) returns (terms: set<string>)
    ensures terms == FilterTerms(items)
  {
    var processed: seq<string> := [];
    var i := 0;
    while i < |items|
      invariant 0 <= i <= |items|
      invariant (set t | t in processed) == FilterTerms(items[..i])
    {
      ghost var before := processed;
      match items[i] {
        case Keyword(term, _) =>
          var lowered := Lower(term);
          if lowered !in SearchQueryBlacklist && |lowered| >= MinUserKeywordLength {
            processed := processed + [lowered];
          }
        case Unusable =>
      }
      assert (set t | t in processed) == (set t | t in before) + ItemTerms(items[i]);
      assert items[..i + 1][..i] == items[..i];
      assert FilterTerms(items[..i + 1]) == FilterTerms(items[..i]) + ItemTerms(items[i]);
      i := i + 1;
    }
    assert items[..i] == items;
    terms := set t | t in processed;
  }

  /** The title test of one document: stops at the first term found as a whole word. */
  method MatchTitle(terms: set<string>, title: string) returns (isTitleMatch: bool)
    ensures isTitleMatch == TitleMatches(terms, title)
  {
    var titleLower := Lower(title);
    isTitleMatch := false;
    var rest := terms;
    while rest != {}
      invariant rest <= terms
      invariant !isTitleMatch
      invariant forall t | t in terms - rest :: !ContainsWholeWord(titleLower, t)
      decreases rest
    {
      var t :| t in rest;
      if ContainsWholeWord(titleLower, t) {
        isTitleMatch := true;
        break;
      }
      rest := rest - {t};
    }
  }

  /** The scan of one document's keyword list: whether a well-formed entry matches, and the largest matching weight. */
  method MatchKeywords(terms: set<string>, kws: seq<KeywordEntry>) returns (found: bool, maxWeight: real)
    ensures found == KeywordMatches(terms, kws)
    ensures maxWeight == MaxMatchingWeight(terms, kws)
  {
    maxWeight := 0.0;
    found := false;
    var k := 0;
    while k < |kws|
      invariant 0 <= k <= |kws|
      invariant maxWeight == MaxMatchingWeight(terms, kws[..k])
      invariant found == KeywordMatches(terms, kws[..k])
    {
      var entry := kws[k];
      if entry.Pair? {
        var kwLower := Lower(entry.term);
        var weight := entry.weight.GetOr(0.0);
        if kwLower in terms {
          found := true;
          maxWeight := MaxReal(maxWeight, weight);
        }
      }
      assert kws[..k + 1][..k] == kws[..k];
      assert kws[..k + 1][k] == entry;
      k := k + 1;
    }
    assert kws[..k] == kws;
  }

  /** The loop over the data file's lines, collecting the ranking records of the matching documents. */
  method CollectMatches(terms: set<string>, lines: seq<Line>) returns (potential: seq<Match>)
    ensures potential == Matches(terms, lines)
  {
    potential := [];
    var n := 0;
    while n < |lines|
      invariant 0 <= n <= |lines|
      invariant potential == Matches(terms, lines[..n])
    {
      match lines[n] {
        case Parsed(doc) =>
          var isTitleMatch := MatchTitle(terms, doc.title.GetOr(""));
          var found, maxWeight := MatchKeywords(terms, doc.keywords);
          if isTitleMatch || found {
            var effective := if found then maxWeight else 0.0;
            potential := potential + [Match(isTitleMatch, effective, doc)];
          }
        case Unparseable =>
      }
      assert lines[..n + 1][..n] == lines[..n];
      n := n + 1;
    }
    assert lines[..n] == lines;
  }

  /**
   * The loop of `search_documents` over the data file, with `sorted` as a
   * library call: it computes `Search` of the extractor's output.
   */
  method SearchDocuments(data: Option<seq<Line>>, query: string, extract: string -> seq<ExtractedItem>)
    returns (result: seq<Doc>)
    ensures result == Search(data, extract(query))
    ensures data == None || extract(query) == [] ==> result == []
  {
    if data.None? {
      return [];
    }
    var items := extract(query);
    if items == [] {
      return [];
    }
    var terms := FilterQueryTerms(items);
    if terms == {} {
      return [];
    }

    var potential := CollectMatches(terms, data.value);
    result := Docs(SortMatches(potential));
  }
}
