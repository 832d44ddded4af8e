/**
 * The wiki crawler (sitemap_generator.py): which links it follows, how it
 * normalises them, and the bookkeeping of one crawling session over the
 * frontier, the URLs visited this session and the URLs already in the output
 * file.
 *
 * A URL is the record `urlparse` produces; parsing and unparsing are not
 * modelled. The HEAD request that resolves the start address and the GET of
 * each page are functions handed in by the caller.
 */
module Sitemap {
  import opened Wrappers
  import opened Text

  const MaxUrlsToProcessThisSession: nat := 20000
  /** The frontier stops growing once it holds this many URLs. */
  const MaxFrontier: nat := MaxUrlsToProcessThisSession * 2

  /** The six components `urlparse` splits a URL into. */
  datatype Url = Url(scheme: string, netloc: string, path: string, params: string, query: string, fragment: string)

  function IgnoredExtensions(): seq<string> {
    [".pdf", ".jpg", ".jpeg", ".png", ".gif", ".css", ".js", ".zip", ".xml", ".rss", ".txt", ".ico",
     ".svg", ".webm", ".mp4", ".mp3"]
  }

  /** MediaWiki namespaces whose pages are not crawled; compared case-sensitively. */
  function SpecialPrefixes(): (r: seq<string>)
    ensures forall k | 0 <= k < |r| :: r[k] != [] && 'A' <= r[k][0] <= 'Z'
  {
    ["Special:", "File:", "Category:", "Template:", "Help:", "MediaWiki:", "Talk:"]
  }

  /** `path.split('/')[-1]`: the text after the last slash, or the whole path when it has none. */
  function LastSegment(path: string): (r: string)
    ensures EndsWith(path, r)
    ensures forall i | 0 <= i < |r| :: r[i] != '/'
    ensures |r| < |path| ==> path[|path| - |r| - 1] == '/'
  {
    if path == [] || path[|path| - 1] == '/' then []
    else
      var init := path[..|path| - 1];
      var rest := LastSegment(init);
      var r := rest + [path[|path| - 1]];
      assert path[|path| - |r|..] == init[|init| - |rest|..] + [path[|path| - 1]];
      assert |r| < |path| ==> path[|path| - |r| - 1] == init[|init| - |rest| - 1];
      r
  }

  predicate HasIgnoredExtension(path: string) {
    exists k | 0 <= k < |IgnoredExtensions()| :: EndsWith(Lower(path), IgnoredExtensions()[k])
  }

  predicate IsSpecialPage(path: string) {
    exists k | 0 <= k < |SpecialPrefixes()| :: StartsWith(LastSegment(path), SpecialPrefixes()[k])
  }

  /** `is_valid_url`: a web URL on the crawled host that is neither a file nor a special page. */
  function IsValidUrl(u: Url, baseDomain: string): (r: bool)
    ensures u.scheme != "http" && u.scheme != "https" ==> !r
    ensures u.netloc != baseDomain ==> !r
    ensures HasIgnoredExtension(u.path) ==> !r
    ensures IsSpecialPage(u.path) ==> !r
    ensures r <== (u.scheme == "http" || u.scheme == "https") && u.netloc == baseDomain
                  && !HasIgnoredExtension(u.path) && !IsSpecialPage(u.path)
  {
    if u.scheme != "http" && u.scheme != "https" then false
    else if u.netloc != baseDomain then false
    else if HasIgnoredExtension(u.path) then false
    else if IsSpecialPage(u.path) then false
    else true
  }

  /** A URL as `clean_url` leaves it: a host, a non-empty path, no query and no fragment. */
  predicate IsClean(u: Url) {
    u.netloc != "" && u.path != "" && u.query == "" && u.fragment == ""
  }

  /**
   * `clean_url`: drops the query and the fragment and turns an empty path into
   * "/"; a URL without a host has no clean form. Cleaning is idempotent: a
   * clean URL is its own clean form.
   */
  function CleanUrl(u: Url): (r: Option<Url>)
    ensures r.None? <==> u.netloc == ""
    ensures r.Some? ==> IsClean(r.value)
    ensures r.Some? ==> r.value.scheme == u.scheme && r.value.netloc == u.netloc && r.value.params == u.params
    ensures r.Some? && u.path != "" ==> r.value.path == u.path
    ensures IsClean(u) ==> r == Some(u)
  {
    var path := if u.path == "" then "/" else u.path;
    if u.netloc == "" then None
    else Some(u.(path := path, query := "", fragment := ""))
  }

  lemma LowerAppend(a: string, b: string)
    ensures Lower(a + b) == Lower(a) + Lower(b)
  {
    assert forall i | 0 <= i < |a + b| :: Lower(a + b)[i] == (Lower(a) + Lower(b))[i];
  }

  /** Cleaning never changes whether a URL is worth crawling. */
  lemma CleaningPreservesValidity(u: Url, baseDomain: string)
    requires u.netloc != ""
    ensures IsValidUrl(CleanUrl(u).value, baseDomain) == IsValidUrl(u, baseDomain)
  {
    var c := CleanUrl(u).value;
    if u.path == "" {
      assert c.path == "/";
      assert LastSegment(c.path) == "";
      assert LastSegment(u.path) == "";
      assert !HasIgnoredExtension(c.path) by {
        forall k | 0 <= k < |IgnoredExtensions()|
          ensures !EndsWith(Lower(c.path), IgnoredExtensions()[k])
        {
          assert |IgnoredExtensions()[k]| > 1;
        }
      }
      assert !HasIgnoredExtension(u.path) by {
        forall k | 0 <= k < |IgnoredExtensions()|
          ensures !EndsWith(Lower(u.path), IgnoredExtensions()[k])
        {
          assert |IgnoredExtensions()[k]| > 0;
        }
      }
      assert !IsSpecialPage(c.path) && !IsSpecialPage(u.path) by {
        forall k | 0 <= k < |SpecialPrefixes()|
          ensures !StartsWith("", SpecialPrefixes()[k])
        {
          assert |SpecialPrefixes()[k]| > 0;
        }
      }
    }
  }

  /** File extensions are recognised whatever their case, in any directory. */
  lemma UpperCaseExtensionIsIgnored(u: Url, dir: string, baseDomain: string)
    requires u.path == dir + ".PDF"
    ensures !IsValidUrl(u, baseDomain)
  {
    LowerAppend(dir, ".PDF");
    assert Lower(".PDF") == ".pdf";
    assert EndsWith(Lower(u.path), IgnoredExtensions()[0]);
  }

  /**
   * Special prefixes are compared with their exact case: a last segment that
   * begins with a lower-case letter, such as "special:Search", is never special.
   */
  lemma SpecialPrefixIsCaseSensitive(path: string)
    requires LastSegment(path) != [] && 'a' <= LastSegment(path)[0] <= 'z'
    ensures !IsSpecialPage(path)
  {
    var seg := LastSegment(path);
    var prefixes := SpecialPrefixes();
    forall k | 0 <= k < |prefixes|
      ensures !StartsWith(seg, prefixes[k])
    {
      var p := prefixes[k];
      if |p| <= |seg| {
        assert seg[..|p|][0] != p[0];
      }
    }
  }

  /** The start address with "http://" put in front when it names no web scheme. */
  function StartAddress(address: string): (r: string)
    ensures StartsWith(r, "http://") || StartsWith(r, "https://")
    ensures StartsWith(address, "http://") || StartsWith(address, "https://") ==> r == address
    ensures !(StartsWith(address, "http://") || StartsWith(address, "https://")) ==> r == "http://" + address
  {
    if !StartsWith(address, "http://") && !StartsWith(address, "https://") then
      assert ("http://" + address)[..7] == "http://";
      "http://" + address
    else address
  }

  // ---------------------------------------------------------------------------
  // Queueing the links of a page
  // ---------------------------------------------------------------------------

  /** A cleaned link the crawler is willing to visit. */
  predicate Admissible(c: Url, visited: set<Url>, baseDomain: string) {
    IsValidUrl(c, baseDomain) && c !in visited
  }

  /** One link's effect on the frontier: its clean form joins when admissible, new, and there is room. */
  function QueueOne(frontier: set<Url>, visited: set<Url>, link: Url, baseDomain: string): set<Url> {
    match CleanUrl(link)
    case None => frontier
    case Some(c) =>
      if Admissible(c, visited, baseDomain) && c !in frontier && |frontier| < MaxFrontier then frontier + {c}
      else frontier
  }

  /** The frontier after the links of a page, taken in document order. */
  function QueueAll(frontier: set<Url>, visited: set<Url>, links: seq<Url>, baseDomain: string): set<Url>
    decreases |links|
  {
    if links == [] then frontier
    else QueueAll(QueueOne(frontier, visited, links[0], baseDomain), visited, links[1..], baseDomain)
  }

  /** The link loop of `crawl_website`, over the links already made absolute. */
  method QueueLinks(frontier: set<Url>, visited: set<Url>, links: seq<Url>, baseDomain: string)
    returns (queued: set<Url>)
    ensures queued == QueueAll(frontier, visited, links, baseDomain)
  {
    queued := frontier;
    for i := 0 to |links|
      invariant QueueAll(queued, visited, links[i..], baseDomain) == QueueAll(frontier, visited, links, baseDomain)
    {
      assert links[i..][1..] == links[i + 1..];
      match CleanUrl(links[i]) {
        case None =>
        case Some(cleaned) =>
          if IsValidUrl(cleaned, baseDomain) && cleaned !in visited && cleaned !in queued {
            if |queued| < MaxFrontier {
              queued := queued + {cleaned};
            }
          }
      }
    }
  }

  /** Every URL the links add is the clean form of one of them, valid and not yet visited. */
  lemma {:induction false} QueueAllAddsOnlyAdmissible(frontier: set<Url>, visited: set<Url>, links: seq<Url>, baseDomain: string)
    ensures frontier <= QueueAll(frontier, visited, links, baseDomain)
    ensures forall c | c in QueueAll(frontier, visited, links, baseDomain) && c !in frontier ::
      Admissible(c, visited, baseDomain) && IsClean(c) && exists i | 0 <= i < |links| :: CleanUrl(links[i]) == Some(c)
    decreases |links|
  {
    if links != [] {
      var next := QueueOne(frontier, visited, links[0], baseDomain);
      QueueAllAddsOnlyAdmissible(next, visited, links[1..], baseDomain);
      forall c | c in QueueAll(frontier, visited, links, baseDomain) && c !in frontier
        ensures exists i | 0 <= i < |links| :: CleanUrl(links[i]) == Some(c)
      {
        if c !in next {
          var i :| 0 <= i < |links[1..]| && CleanUrl(links[1..][i]) == Some(c);
          assert links[i + 1] == links[1..][i];
        } else {
          assert CleanUrl(links[0]) == Some(c);
        }
      }
    }
  }

  /** The frontier never outgrows twice the session budget once it is within it. */
  lemma {:induction false} QueueAllIsBounded(frontier: set<Url>, visited: set<Url>, links: seq<Url>, baseDomain: string)
    requires |frontier| <= MaxFrontier
    ensures |QueueAll(frontier, visited, links, baseDomain)| <= MaxFrontier
    decreases |links|
  {
    if links != [] {
      QueueAllIsBounded(QueueOne(frontier, visited, links[0], baseDomain), visited, links[1..], baseDomain);
    }
  }

  lemma SubsetIsNoLarger<T>(a: set<T>, b: set<T>)
    requires a <= b
    ensures |a| <= |b|
  {
    assert b == a + (b - a);
  }

  /** While the frontier stays below its cap, every admissible link is queued. */
  lemma {:induction false} QueueAllIsComplete(frontier: set<Url>, visited: set<Url>, links: seq<Url>, baseDomain: string)
    requires |QueueAll(frontier, visited, links, baseDomain)| < MaxFrontier
    ensures forall i, c | 0 <= i < |links| && CleanUrl(links[i]) == Some(c) && Admissible(c, visited, baseDomain) ::
      c in QueueAll(frontier, visited, links, baseDomain)
    decreases |links|
  {
    if links != [] {
      var next := QueueOne(frontier, visited, links[0], baseDomain);
      QueueAllAddsOnlyAdmissible(next, visited, links[1..], baseDomain);
      SubsetIsNoLarger(next, QueueAll(next, visited, links[1..], baseDomain));
      QueueAllIsComplete(next, visited, links[1..], baseDomain);
      forall i, c | 0 <= i < |links| && CleanUrl(links[i]) == Some(c) && Admissible(c, visited, baseDomain)
        ensures c in QueueAll(frontier, visited, links, baseDomain)
      {
        if i > 0 {
          assert links[1..][i - 1] == links[i];
        }
      }
    }
  }

  // ---------------------------------------------------------------------------
  // A crawling session
  // ---------------------------------------------------------------------------

  /**
   * What requesting one page yields: the response's Content-Type, the page's
   * title and extracted text, and the targets of its links already made
   * absolute; or an error of any kind raised while fetching it.
   */
  datatype Fetch = Page(contentType: string, title: string, text: string, links: seq<Url>) | RequestFailed

  /** One line appended to the output file. */
  datatype PageRecord = PageRecord(url: Url, title: string, text: string)

  function HtmlType(): string { "text/html" }

  predicate IsHtml(page: Fetch) {
    page.Page? && IsSubstring(HtmlType(), Lower(page.contentType))
  }

  function RecordOf(url: Url, page: Fetch): PageRecord
    requires page.Page?
  {
    PageRecord(url, page.title, page.text)
  }

  function WrittenUrls(written: seq<PageRecord>): set<Url> {
    set k | 0 <= k < |written| :: written[k].url
  }

  /**
   * The state of a session: the frontier (`urls_to_visit`), the URLs visited
   * this session, the pages requested so far in order, the lines appended to
   * the output file, and the set of URLs known to be in that file.
   */
  datatype Session = Session(frontier: set<Url>, visited: set<Url>, requested: seq<Url>, written: seq<PageRecord>, persisted: set<Url>)

  /** `requested` lists the members of `visited`, each once. */
  predicate Enumerates(requested: seq<Url>, visited: set<Url>) {
    && visited == (set k | 0 <= k < |requested| :: requested[k])
    && |requested| == |visited|
    && (forall j, k | 0 <= j < k < |requested| :: requested[j] != requested[k])
  }

  lemma EnumeratesAppend(requested: seq<Url>, visited: set<Url>, current: Url)
    requires Enumerates(requested, visited) && current !in visited
    ensures Enumerates(requested + [current], visited + {current})
  {
    var r := requested + [current];
    forall u | u in visited + {current}
      ensures exists k | 0 <= k < |r| :: r[k] == u
    {
      if u == current {
        assert r[|requested|] == u;
      } else {
        var k :| 0 <= k < |requested| && requested[k] == u;
        assert r[k] == u;
      }
    }
  }

  /** The visited set is exactly the pages requested, each requested once. */
  predicate RequestedOnce(s: Session) {
    Enumerates(s.requested, s.visited)
  }

  /**
   * The output file gains each visited HTML page that was not in it before,
   * once and no other page, and the known set follows it.
   */
  predicate Recorded(s: Session, persistedBefore: set<Url>, fetch: Url -> Fetch) {
    && s.persisted == persistedBefore + WrittenUrls(s.written)
    && (forall k | 0 <= k < |s.written| :: s.written[k].url !in persistedBefore)
    && (forall j, k | 0 <= j < k < |s.written| :: s.written[j].url != s.written[k].url)
    && (forall k | 0 <= k < |s.written| ::
          s.written[k].url in s.visited && IsHtml(fetch(s.written[k].url))
          && s.written[k] == RecordOf(s.written[k].url, fetch(s.written[k].url)))
    && (forall k | 0 <= k < |s.requested| ::
          IsHtml(fetch(s.requested[k])) && s.requested[k] !in persistedBefore ==> s.requested[k] in WrittenUrls(s.written))
  }

  /** The frontier and the visited set hold only clean URLs the crawler accepts, within their bounds. */
  predicate Confined(s: Session, startUrl: Url, baseDomain: string) {
    && |s.visited| <= MaxUrlsToProcessThisSession && |s.frontier| <= MaxFrontier
    && (forall u | u in s.frontier + s.visited :: IsClean(u) && (u == startUrl || IsValidUrl(u, baseDomain)))
  }

  /** Processing `current`, already taken off the frontier and not visited before. */
  function Visit(s: Session, current: Url, fetch: Url -> Fetch, baseDomain: string): Session {
    var visited := s.visited + {current};
    var requested := s.requested + [current];
    var page := fetch(current);
    if !IsHtml(page) then s.(visited := visited, requested := requested)
    else
      var isNew := current !in s.persisted;
      Session(
        QueueAll(s.frontier, visited, page.links, baseDomain),
        visited,
        requested,
        if isNew then s.written + [RecordOf(current, page)] else s.written,
        if isNew then s.persisted + {current} else s.persisted)
  }

  lemma VisitKeepsRequestedOnce(s: Session, current: Url, fetch: Url -> Fetch, baseDomain: string)
    requires RequestedOnce(s) && current !in s.visited
    ensures RequestedOnce(Visit(s, current, fetch, baseDomain))
  {
    EnumeratesAppend(s.requested, s.visited, current);
  }

  lemma WrittenUrlsAppend(written: seq<PageRecord>, r: PageRecord)
    ensures WrittenUrls(written + [r]) == WrittenUrls(written) + {r.url}
  {
    var w := written + [r];
    forall u | u in WrittenUrls(w)
      ensures u in WrittenUrls(written) + {r.url}
    {
      var k :| 0 <= k < |w| && w[k].url == u;
      if k < |written| {
        assert written[k].url == u;
      }
    }
    forall u | u in WrittenUrls(written)
      ensures u in WrittenUrls(w)
    {
      var k :| 0 <= k < |written| && written[k].url == u;
      assert w[k].url == u;
    }
    assert w[|written|].url == r.url;
  }

  lemma VisitKeepsRecorded(s: Session, current: Url, persistedBefore: set<Url>, fetch: Url -> Fetch, baseDomain: string)
    requires Recorded(s, persistedBefore, fetch) && current !in s.visited
    ensures Recorded(Visit(s, current, fetch, baseDomain), persistedBefore, fetch)
  {
    var t := Visit(s, current, fetch, baseDomain);
    assert current !in WrittenUrls(s.written);
    if t.written != s.written {
      var r := RecordOf(current, fetch(current));
      assert IsHtml(fetch(current)) && current !in s.persisted;
      assert t.written == s.written + [r] && t.persisted == s.persisted + {current};
      WrittenUrlsAppend(s.written, r);
      forall k | 0 <= k < |s.written|
        ensures s.written[k].url != current
      {
        assert s.written[k].url in WrittenUrls(s.written);
      }
    } else {
      assert t.persisted == s.persisted;
      assert IsHtml(fetch(current)) ==> current in persistedBefore;
    }
    assert WrittenUrls(s.written) <= WrittenUrls(t.written) && t.requested == s.requested + [current];
    forall k | 0 <= k < |t.requested| && IsHtml(fetch(t.requested[k])) && t.requested[k] !in persistedBefore
      ensures t.requested[k] in WrittenUrls(t.written)
    {
      if k < |s.requested| {
        assert t.requested[k] == s.requested[k];
      }
    }
  }

  lemma VisitKeepsConfined(s: Session, current: Url, fetch: Url -> Fetch, startUrl: Url, baseDomain: string)
    requires Confined(s.(frontier := s.frontier + {current}), startUrl, baseDomain)
    requires current !in s.visited && |s.visited| < MaxUrlsToProcessThisSession
    ensures Confined(Visit(s, current, fetch, baseDomain), startUrl, baseDomain)
  {
    var t := Visit(s, current, fetch, baseDomain);
    assert |s.frontier| <= MaxFrontier by {
      SubsetIsNoLarger(s.frontier, s.frontier + {current});
    }
    if IsHtml(fetch(current)) {
      QueueAllAddsOnlyAdmissible(s.frontier, t.visited, fetch(current).links, baseDomain);
      QueueAllIsBounded(s.frontier, t.visited, fetch(current).links, baseDomain);
    }
  }

  /** The visit of one page: `Visit`, with the link loop run as the source runs it. */
  method VisitPage(s: Session, current: Url, fetch: Url -> Fetch, baseDomain: string) returns (t: Session)
    ensures t == Visit(s, current, fetch, baseDomain)
  {
    t := s.(visited := s.visited + {current}, requested := s.requested + [current]);
    var page := fetch(current);
    if page.Page? && IsSubstring(HtmlType(), Lower(page.contentType)) {
      if current !in t.persisted {
        t := t.(written := t.written + [RecordOf(current, page)], persisted := t.persisted + {current});
      }
      var frontier := QueueLinks(t.frontier, t.visited, page.links, baseDomain);
      t := t.(frontier := frontier);
    }
  }

  /** Read back from the session's bookkeeping: what the crawl promises of its requests and writes. */
  lemma SessionOutcome(s: Session, persistedBefore: set<Url>, fetch: Url -> Fetch)
    requires RequestedOnce(s) && Recorded(s, persistedBefore, fetch)
    ensures forall k | 0 <= k < |s.written| :: s.written[k].url in s.requested
    ensures forall k | 0 <= k < |s.requested| :: s.requested[k] in s.visited
  {
    forall k | 0 <= k < |s.written|
      ensures s.written[k].url in s.requested
    {
      var j :| 0 <= j < |s.requested| && s.requested[j] == s.written[k].url;
    }
  }

  lemma TakingKeepsConfined(s: Session, current: Url, startUrl: Url, baseDomain: string)
    requires Confined(s, startUrl, baseDomain) && current in s.frontier
    ensures Confined(s.(frontier := s.frontier - {current}), startUrl, baseDomain)
  {
    var t := s.(frontier := s.frontier - {current});
    assert t.frontier + t.visited <= s.frontier + s.visited;
  }

  /** One turn of the main loop: `current` leaves the frontier and is visited unless it already was. */
  method ProcessNext(s: Session, current: Url, persistedBefore: set<Url>, fetch: Url -> Fetch, startUrl: Url, baseDomain: string)
    returns (t: Session, wrote: bool)
    requires current in s.frontier && |s.visited| < MaxUrlsToProcessThisSession
    requires RequestedOnce(s) && Recorded(s, persistedBefore, fetch) && Confined(s, startUrl, baseDomain)
    ensures RequestedOnce(t) && Recorded(t, persistedBefore, fetch) && Confined(t, startUrl, baseDomain)
    ensures |t.written| == |s.written| + (if wrote then 1 else 0)
    ensures wrote <==> current !in s.visited && IsHtml(fetch(current)) && current !in persistedBefore
    ensures current in s.visited ==> t == s.(frontier := s.frontier - {current})
    ensures current !in s.visited ==> t == Visit(s.(frontier := s.frontier - {current}), current, fetch, baseDomain)
    ensures current !in s.visited ==> t.visited == s.visited + {current} && t.requested == s.requested + [current]
    ensures s.requested <= t.requested
  {
    t := s.(frontier := s.frontier - {current});
    wrote := false;
    TakingKeepsConfined(s, current, startUrl, baseDomain);
    if current in t.visited {
      return;
    }
    assert t.(frontier := t.frontier + {current}) == s;
    VisitKeepsRequestedOnce(t, current, fetch, baseDomain);
    VisitKeepsRecorded(t, current, persistedBefore, fetch, baseDomain);
    VisitKeepsConfined(t, current, fetch, startUrl, baseDomain);
    var before := |t.written|;
    t := VisitPage(t, current, fetch, baseDomain);
    wrote := |t.written| != before;
  }

  /** The main loop of `crawl_website`, from the frontier holding the start page. */
  method RunSession(s0: Session, persistedBefore: set<Url>, fetch: Url -> Fetch, startUrl: Url, baseDomain: string)
    returns (s: Session, newEntries: nat)
    requires RequestedOnce(s0) && Recorded(s0, persistedBefore, fetch) && Confined(s0, startUrl, baseDomain)
    ensures RequestedOnce(s) && Recorded(s, persistedBefore, fetch) && Confined(s, startUrl, baseDomain)
    ensures newEntries == |s.written| - |s0.written|
    ensures s.frontier == {} || |s.visited| >= MaxUrlsToProcessThisSession
    ensures s0.requested <= s.requested
    // A session that can start requests one of the pages it starts from first.
    ensures s0.frontier != {} && |s0.visited| < MaxUrlsToProcessThisSession && s0.frontier !! s0.visited ==>
      |s.requested| > |s0.requested| && s.requested[|s0.requested|] in s0.frontier
  {
    s, newEntries := s0, 0;
    while s.frontier != {} && |s.visited| < MaxUrlsToProcessThisSession
      invariant RequestedOnce(s)
      invariant Recorded(s, persistedBefore, fetch)
      invariant Confined(s, startUrl, baseDomain)
      invariant newEntries == |s.written| - |s0.written|
      invariant s0.requested <= s.requested
      invariant s0.frontier !! s0.visited ==>
        s == s0 || (|s.requested| > |s0.requested| && s.requested[|s0.requested|] in s0.frontier)
      decreases MaxUrlsToProcessThisSession - |s.visited|, |s.frontier|
    {
      var current :| current in s.frontier;
      var wrote;
      s, wrote := ProcessNext(s, current, persistedBefore, fetch, startUrl, baseDomain);
      if wrote {
        newEntries := newEntries + 1;
      }
    }
  }

  /**
   * `crawl_website`. `resolve` stands for the HEAD request that follows
   * redirects from the start address, `fetch` for the GET of one page. The
   * caller's set of URLs already in the output file comes back as `persisted`,
   * the lines appended as `written`, and the pages requested, in order, as
   * `requested`. The frontier is a set, so which URL is taken next is left open.
   */
  method CrawlWebsite(address: string, persistedBefore: set<Url>, resolve: string -> Option<Url>, fetch: Url -> Fetch)
    returns (newEntries: nat, written: seq<PageRecord>, persisted: set<Url>, requested: seq<Url>)
    ensures newEntries == |written|
    ensures persisted == persistedBefore + WrittenUrls(written)
    // A URL already in the file is never written again, and nothing is written twice.
    ensures forall k | 0 <= k < |written| :: written[k].url !in persistedBefore
    ensures forall j, k | 0 <= j < k < |written| :: written[j].url != written[k].url
    // Only requested HTML pages are written, with the title and text the page yields.
    ensures forall k | 0 <= k < |written| ::
      written[k].url in requested && IsHtml(fetch(written[k].url)) && written[k] == RecordOf(written[k].url, fetch(written[k].url))
    // Each URL is requested at most once, and no more of them than the session allows.
    ensures |requested| <= MaxUrlsToProcessThisSession
    ensures forall j, k | 0 <= j < k < |requested| :: requested[j] != requested[k]
    // Every requested HTML page that was not in the file before is written.
    ensures forall k | 0 <= k < |requested| ::
      IsHtml(fetch(requested[k])) && requested[k] !in persistedBefore ==> requested[k] in WrittenUrls(written)
    // The start page is requested first when it resolves to a host and cleans.
    ensures resolve(StartAddress(address)).Some? && resolve(StartAddress(address)).value.netloc != ""
            && CleanUrl(resolve(StartAddress(address)).value).Some? ==>
      requested != [] && requested[0] == CleanUrl(resolve(StartAddress(address)).value).value
    // Nothing happens when the start address cannot be resolved to a host.
    ensures resolve(StartAddress(address)).None? || resolve(StartAddress(address)).value.netloc == "" ==>
      requested == [] && written == [] && persisted == persistedBefore
    // Every page requested is clean, and on the start page's host unless it is the start page itself.
    ensures resolve(StartAddress(address)).Some? ==>
      var start := resolve(StartAddress(address)).value;
      forall k | 0 <= k < |requested| ::
        IsClean(requested[k]) && (requested[k] == CleanUrl(start).value || IsValidUrl(requested[k], start.netloc))
  {
    newEntries, written, persisted, requested := 0, [], persistedBefore, [];
    var resolved := resolve(StartAddress(address));
    if resolved.None? {
      return;
    }
    var start := resolved.value;
    var baseDomain := start.netloc;
    var cleanedStart := CleanUrl(start);
    if baseDomain == "" || cleanedStart.None? {
      return;
    }
    var s := Session({cleanedStart.value}, {}, [], [], persistedBefore);
    s, newEntries := RunSession(s, persistedBefore, fetch, cleanedStart.value, baseDomain);
    SessionOutcome(s, persistedBefore, fetch);
    written, persisted, requested := s.written, s.persisted, s.requested;
  }
}
