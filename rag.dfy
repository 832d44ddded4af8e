/**
 * The retrieval-augmented answering pipeline of gemini_bg3_rag.py, with the
 * language model abstracted: every model call is a function from the prompt
 * to a `Reply` handed in by the caller.
 *
 * Pure parts are functions (the prompts, `parse_reranked_results`, the context
 * classification); the string-building loops are methods proved to compute
 * their specification functions, whose properties are lemmas.
 */
module Rag {
  import opened Wrappers
  import opened Text
  import opened WikiSearch
  import opened ReplyUrls

  const MaxKeywordsPerPageInPrompt: nat := 7
  const MaxPagesForAnswering: nat := 3
  const NumHistoryTurnsForGuidance: int := 4
  const KnowledgeBaseTopic: string := "Baldur's Gate 3 game information"

  /** What a model call gives back: text, a content block, a response without parts, or an exception. */
  datatype Reply = Answered(text: string) | Blocked(reason: string) | NoParts | Raised(error: string)

  // ---------------------------------------------------------------------------
  // format_chat_history_snippet

  // Fixed texts are nullary functions rather than constants: the verifier then
  // looks inside a long literal only where a proof needs its characters.
  function NoHistory(): string { "No prior conversation history." }
  function HistoryHeader(): string { "Recent Conversation Snippet:\n" }
  function EmptyMessagePlaceholder(): string { "[empty message or non-text parts]" }
  function UnknownRole(): string { "unknown" }

  /** A part of a chat message: one with a `text` attribute, or one without. */
  datatype Part = TextPart(text: string) | NonTextPart

  /** A chat message; `role` is `None` when absent, `parts` is `None` when absent or not a list. */
  datatype Message = Message(role: Option<string>, parts: Option<seq<Part>>)

  /** `history[-numTurns:]` under Python's slicing rules. */
  function LastTurns(history: seq<Message>, numTurns: int): seq<Message> {
    if numTurns > 0 then history[|history| - Min(numTurns, |history|)..]
    else history[Min(-numTurns, |history|)..]
  }

  function PartTexts(parts: seq<Part>): seq<string> {
    if parts == [] then []
    else
      var prev := PartTexts(parts[..|parts| - 1]);
      match parts[|parts| - 1]
      case TextPart(t) => prev + [t]
      case NonTextPart => prev
  }

  function MessageText(m: Message): string {
    var texts := if m.parts.Some? then PartTexts(m.parts.value) else [];
    if texts == [] then EmptyMessagePlaceholder() else Strip(Join(" ", texts))
  }

  function HistoryLine(m: Message): string {
    "- " + Capitalize(m.role.GetOr(UnknownRole())) + ": " + MessageText(m) + "\n"
  }

  function HistorySnippet(history: seq<Message>, numTurns: int): string {
    if history == [] then NoHistory() else HistoryHeader() + ConcatMap(HistoryLine, LastTurns(history, numTurns))
  }

  /**
   * For a positive turn count, the line of every message among the last
   * `min(numTurns, |history|)` appears in the snippet.
   */
  lemma EveryRecentTurnAppears(history: seq<Message>, numTurns: int, i: int)
    requires numTurns > 0
    requires |history| - Min(numTurns, |history|) <= i < |history|
    ensures IsSubstring(HistoryLine(history[i]), HistorySnippet(history, numTurns))
  {
    var recent := LastTurns(history, numTurns);
    var k := i - (|history| - Min(numTurns, |history|));
    assert recent[k] == history[i];
    ConcatMapElement(HistoryLine, recent, k);
    OccursAfterPrefix(HistoryLine(history[i]), HistoryHeader(), ConcatMap(HistoryLine, recent), |ConcatMap(HistoryLine, recent[..k])|);
  }

  /** The texts of the parts that have one, in order. */
  method CollectPartTexts(parts: seq<Part>) returns (texts: seq<string>)
    ensures texts == PartTexts(parts)
  {
    texts := [];
    var k := 0;
    while k < |parts|
      invariant 0 <= k <= |parts|
      invariant texts == PartTexts(parts[..k])
    {
      if parts[k].TextPart? {
        texts := texts + [parts[k].text];
      }
      assert parts[..k + 1][..k] == parts[..k];
      k := k + 1;
    }
    assert parts[..k] == parts;
  }

  /** The `- Role: text` line of one message. */
  method FormatHistoryLine(message: Message) returns (line: string)
    ensures line == HistoryLine(message)
  {
    var role := Capitalize(message.role.GetOr(UnknownRole()));
    var collected: seq<string> := [];
    if message.parts.Some? {
      collected := CollectPartTexts(message.parts.value);
    }
    var text := if collected != [] then Strip(Join(" ", collected)) else EmptyMessagePlaceholder();
    line := "- " + role + ": " + text + "\n";
  }

  /** The lines of the given messages, oldest first. */
  method FormatHistoryLines(messages: seq<Message>) returns (lines: string)
    ensures lines == ConcatMap(HistoryLine, messages)
  {
    lines := "";
    var i := 0;
    while i < |messages|
      invariant 0 <= i <= |messages|
      invariant lines == ConcatMap(HistoryLine, messages[..i])
    {
      var line := FormatHistoryLine(messages[i]);
      lines := lines + line;
      assert messages[..i + 1][..i] == messages[..i];
      i := i + 1;
    }
    assert messages[..i] == messages;
  }

  /**
   * `format_chat_history_snippet`: the fixed sentence for an empty history,
   * otherwise the header and one `- Role: text` line per message of
   * `history[-numTurns:]`, oldest first.
   */
  method FormatChatHistorySnippet(history: seq<Message>, numTurns: int) returns (snippet: string)
    ensures snippet == HistorySnippet(history, numTurns)
  {
    if history == [] {
      return NoHistory();
    }
    var start := if numTurns > 0 then |history| - Min(numTurns, |history|) else Min(-numTurns, |history|);
    var lines := FormatHistoryLines(history[start..]);
    snippet := HistoryHeader() + lines;
  }

  /**
   * An empty history gives the fixed sentence; otherwise, for a positive turn
   * count, the snippet is the header followed by the lines of exactly the last
   * `min(numTurns, |history|)` messages, in their original order.
   */
  lemma SnippetShape(history: seq<Message>, numTurns: int)
    ensures history == [] ==> HistorySnippet(history, numTurns) == NoHistory()
    ensures history != [] && numTurns > 0 ==>
      var recent := LastTurns(history, numTurns);
      && |recent| == Min(numTurns, |history|)
      && (forall k | 0 <= k < |recent| :: recent[k] == history[|history| - |recent| + k])
      && HistorySnippet(history, numTurns) == HistoryHeader() + ConcatMap(HistoryLine, recent)
  {
  }

  // ---------------------------------------------------------------------------
  // format_local_results_for_rerank_prompt

  function NoPagesListing(): string { "No specific pages found in the local knowledge base." }
  function ListingHeader(): string { "Locally found pages from my knowledge base:\n\n" }
  function KeywordsLabel(): string { "   Associated Keywords: " }

  /** `term (weight: x.xx)`, with `fmt` standing for the `.2f` format, or `term (weight: N/A)`. */
  function WeightedLabel(term: string, weight: Option<real>, fmt: real -> string): string {
    match weight
    case Some(w) => term + " (weight: " + fmt(w) + ")"
    case None => term + " (weight: N/A)"
  }

  function ShownEntry(e: KeywordEntry, fmt: real -> string): seq<string> {
    match e
    case Pair(t, w) => [WeightedLabel(t, w, fmt)]
    case OddPair(s, w) => [WeightedLabel(s, w, fmt)]
    case Bare(word) => [word]
    case Other => []
  }

  function ShownKeywords(entries: seq<KeywordEntry>, fmt: real -> string): seq<string> {
    if entries == [] then []
    else ShownKeywords(entries[..|entries| - 1], fmt) + ShownEntry(entries[|entries| - 1], fmt)
  }

  function KeywordLine(kws: seq<KeywordEntry>, fmt: real -> string): string {
    var shown := ShownKeywords(kws[..Min(MaxKeywordsPerPageInPrompt, |kws|)], fmt);
    if shown == [] then "" else KeywordsLabel() + Join(", ", shown) + "\n"
  }

  function PageHeading(number: nat, page: Doc): string {
    NatToString(number) + ". Title: " + page.title.GetOr("N/A") + "\n" + "   URL: " + page.url.GetOr("N/A") + "\n"
  }

  function PageBlock(number: nat, page: Doc, fmt: real -> string): string {
    PageHeading(number, page) + KeywordLine(page.keywords, fmt) + "\n"
  }

  /** The pages paired with their 1-based position. */
  function Numbered(pages: seq<Doc>): seq<(nat, Doc)> {
    seq(|pages|, i requires 0 <= i < |pages| => (i + 1, pages[i]))
  }

  function BlockRenderer(fmt: real -> string): ((nat, Doc)) -> string {
    (p: (nat, Doc)) => PageBlock(p.0, p.1, fmt)
  }

  function RerankListing(pages: seq<Doc>, fmt: real -> string): string {
    if pages == [] then NoPagesListing() else ListingHeader() + ConcatMap(BlockRenderer(fmt), Numbered(pages))
  }

  lemma {:induction false} ShownKeywordsLength(entries: seq<KeywordEntry>, fmt: real -> string)
    ensures |ShownKeywords(entries, fmt)| <= |entries|
  {
    if entries != [] {
      ShownKeywordsLength(entries[..|entries| - 1], fmt);
    }
  }

  /**
   * At most seven keyword labels are rendered per page, and entries after the
   * seventh never change the rendering.
   */
  lemma KeywordLineCapped(kws: seq<KeywordEntry>, extra: seq<KeywordEntry>, fmt: real -> string)
    ensures |ShownKeywords(kws[..Min(MaxKeywordsPerPageInPrompt, |kws|)], fmt)| <= MaxKeywordsPerPageInPrompt
    ensures |kws| >= MaxKeywordsPerPageInPrompt ==> KeywordLine(kws + extra, fmt) == KeywordLine(kws, fmt)
  {
    ShownKeywordsLength(kws[..Min(MaxKeywordsPerPageInPrompt, |kws|)], fmt);
    if |kws| >= MaxKeywordsPerPageInPrompt {
      assert (kws + extra)[..MaxKeywordsPerPageInPrompt] == kws[..MaxKeywordsPerPageInPrompt];
    }
  }

  /** Page `i` of the input appears in the listing numbered `i + 1`, with its title, URL and keywords. */
  lemma ListingShowsEveryPage(pages: seq<Doc>, i: nat, fmt: real -> string)
    requires i < |pages|
    ensures IsSubstring(PageBlock(i + 1, pages[i], fmt), RerankListing(pages, fmt))
  {
    var numbered := Numbered(pages);
    ConcatMapElement(BlockRenderer(fmt), numbered, i);
    assert BlockRenderer(fmt)(numbered[i]) == PageBlock(i + 1, pages[i], fmt);
    OccursAfterPrefix(PageBlock(i + 1, pages[i], fmt), ListingHeader(), ConcatMap(BlockRenderer(fmt), numbered),
      |ConcatMap(BlockRenderer(fmt), numbered[..i])|);
  }

  /** One page's keyword line, built from the first seven entries of its list. */
  method FormatKeywords(kws: seq<KeywordEntry>, fmt: real -> string) returns (line: string)
    ensures line == KeywordLine(kws, fmt)
  {
    var first := kws[..Min(MaxKeywordsPerPageInPrompt, |kws|)];
    var shown: seq<string> := [];
    var k := 0;
    while k < |first|
      invariant 0 <= k <= |first|
      invariant shown == ShownKeywords(first[..k], fmt)
    {
      match first[k] {
        case Pair(t, w) => shown := shown + [WeightedLabel(t, w, fmt)];
        case OddPair(s, w) => shown := shown + [WeightedLabel(s, w, fmt)];
        case Bare(word) => shown := shown + [word];
        case Other =>
      }
      assert first[..k + 1][..k] == first[..k];
      k := k + 1;
    }
    assert first[..k] == first;
    line := if shown != [] then KeywordsLabel() + Join(", ", shown) + "\n" else "";
  }

  /** The numbered title, URL and keyword lines of one page, and the blank line after them. */
  method FormatPageBlock(number: nat, page: Doc, fmt: real -> string) returns (block: string)
    ensures block == PageBlock(number, page, fmt)
  {
    block := PageHeading(number, page);
    var keywordLine := FormatKeywords(page.keywords, fmt);
    block := block + keywordLine + "\n";
  }

  /** The blocks of the pages, numbered from 1 in input order. */
  method FormatPageBlocks(pages: seq<Doc>, fmt: real -> string) returns (blocks: string)
    ensures blocks == ConcatMap(BlockRenderer(fmt), Numbered(pages))
  {
    blocks := "";
    ghost var numbered := Numbered(pages);
    var i := 0;
    while i < |pages|
      invariant 0 <= i <= |pages|
      invariant blocks == ConcatMap(BlockRenderer(fmt), numbered[..i])
    {
      var block := FormatPageBlock(i + 1, pages[i], fmt);
      blocks := blocks + block;
      assert numbered[..i + 1][..i] == numbered[..i];
      assert BlockRenderer(fmt)(numbered[i]) == PageBlock(i + 1, pages[i], fmt);
      i := i + 1;
    }
    assert numbered[..i] == numbered;
  }

  /** `format_local_results_for_rerank_prompt`: the fixed sentence for no pages, else the header and the blocks. */
  method FormatLocalResultsForRerankPrompt(pages: seq<Doc>, fmt: real -> string) returns (listing: string)
    ensures listing == RerankListing(pages, fmt)
  {
    if pages == [] {
      return NoPagesListing();
    }
    var blocks := FormatPageBlocks(pages, fmt);
    listing := ListingHeader() + blocks;
  }

  // ---------------------------------------------------------------------------
  // get_content_for_answering

  // The phrases whose presence marks a context as missing or problematic. The
  // fixed messages below that the context check must flag are written around them.
  function NoDocumentsMarker(): string { "No specific documents" }
  function NoContentMarker(): string { "No content could be retrieved" }
  function NotIdentifiedMarker(): string { "did not identify" }
  function NoYieldMarker(): string { "did not yield" }
  function BlockedMarker(): string { "was blocked" }
  function ErrorMarker(): string { "Error during" }

  // Long sentences are written as a few shorter pieces joined together; the
  // text is the same.
  function NotRelevantTail(): string {
    " were identified" + " as relevant" + " by the re-ranking step" + " for the current query."
  }
  function NoDocumentsIdentified(): string { NoDocumentsMarker() + NotRelevantTail() }
  function NoContentTail(): string { " for the top" + " re-ranked pages." }
  function NoContentRetrieved(): string { NoContentMarker() + NoContentTail() }
  function UnknownTitle(): string { "Unknown Title" }
  function ContextOpening(): string { "\n\n--- Context from " }
  function NoTextOpening(): string { "\n\n--- No text content found for " }

  /** The first page whose `url` equals `url` exactly. */
  function Resolve(url: string, pages: seq<Doc>): Option<Doc> {
    if pages == [] then None
    else if pages[0].url == Some(url) then Some(pages[0])
    else Resolve(url, pages[1..])
  }

  /** A URL resolves iff some page carries it, and then to the first such page. */
  lemma {:induction false} ResolveFindsFirst(url: string, pages: seq<Doc>)
    ensures Resolve(url, pages).Some? <==> exists j | 0 <= j < |pages| :: pages[j].url == Some(url)
    ensures Resolve(url, pages).Some? ==>
      exists j | 0 <= j < |pages| ::
        pages[j] == Resolve(url, pages).value && pages[j].url == Some(url) &&
        forall k | 0 <= k < j :: pages[k].url != Some(url)
  {
    if pages != [] && pages[0].url != Some(url) {
      ResolveFindsFirst(url, pages[1..]);
      if exists j | 0 <= j < |pages| :: pages[j].url == Some(url) {
        var j :| 0 <= j < |pages| && pages[j].url == Some(url);
        assert pages[1..][j - 1] == pages[j];
      }
      if Resolve(url, pages).Some? {
        var j :| 0 <= j < |pages[1..]| && pages[1..][j] == Resolve(url, pages).value && pages[1..][j].url == Some(url) &&
          forall k | 0 <= k < j :: pages[1..][k].url != Some(url);
        assert pages[j + 1] == pages[1..][j];
        forall k | 0 <= k < j + 1
          ensures pages[k].url != Some(url)
        {
          if k > 0 {
            assert pages[k] == pages[1..][k - 1];
          }
        }
      }
    } else if pages != [] {
      assert pages[0] == Resolve(url, pages).value;
    }
  }

  function ContextBlock(url: string, d: Doc): string {
    var title := d.title.GetOr(UnknownTitle());
    var text := d.text.GetOr("");
    if text != "" then ContextOpening() + title + " (" + url + ") ---\n" + text
    else NoTextOpening() + title + " (" + url + ") ---\n"
  }

  /** The block a re-ranked URL contributes: its page's block, or nothing when no page carries it. */
  function ResolvedBlock(pages: seq<Doc>): string -> string {
    (url: string) => match Resolve(url, pages) case Some(d) => ContextBlock(url, d) case None => ""
  }

  function ContextBlocks(urls: seq<string>, pages: seq<Doc>): string {
    ConcatMap(ResolvedBlock(pages), urls)
  }

  function ResolvedCount(urls: seq<string>, pages: seq<Doc>): nat {
    if urls == [] then 0
    else ResolvedCount(urls[..|urls| - 1], pages) + (if Resolve(urls[|urls| - 1], pages).Some? then 1 else 0)
  }

  /** `get_content_for_answering`, examining at most the first three URLs. */
  function ContentForAnswering(urls: seq<string>, pages: seq<Doc>): string {
    if urls == [] then NoDocumentsIdentified()
    else
      var examined := urls[..Min(MaxPagesForAnswering, |urls|)];
      if ResolvedCount(examined, pages) == 0 then NoContentRetrieved() else ContextBlocks(examined, pages)
  }

  /** Every page block opens with a line break. */
  lemma BlockOpensWithBreak(url: string, d: Doc)
    ensures ContextBlock(url, d) != [] && ContextBlock(url, d)[0] == '\n'
  {
    assert ContextOpening()[0] == '\n' && NoTextOpening()[0] == '\n';
  }

  /** No URL counts exactly when none of them resolves. */
  lemma {:induction false} NoneResolved(urls: seq<string>, pages: seq<Doc>)
    ensures ResolvedCount(urls, pages) == 0 <==> forall u | u in urls :: Resolve(u, pages).None?
  {
    if urls != [] {
      var init := urls[..|urls| - 1];
      var last := urls[|urls| - 1];
      NoneResolved(init, pages);
      assert ResolvedCount(urls, pages) == ResolvedCount(init, pages) + (if Resolve(last, pages).Some? then 1 else 0);
      assert urls == init + [last];
      assert forall u | u in urls :: u in init || u == last;
      assert last in urls;
    }
  }

  /** Blocks exist exactly when some URL resolves, and then they start with a line break. */
  lemma {:induction false} ContextBlocksShape(urls: seq<string>, pages: seq<Doc>)
    ensures ResolvedCount(urls, pages) == 0 <==> ContextBlocks(urls, pages) == ""
    ensures ResolvedCount(urls, pages) == 0 <==> forall u | u in urls :: Resolve(u, pages).None?
    ensures ContextBlocks(urls, pages) != "" ==> ContextBlocks(urls, pages)[0] == '\n'
  {
    NoneResolved(urls, pages);
    if urls != [] {
      var init := urls[..|urls| - 1];
      var last := urls[|urls| - 1];
      ContextBlocksShape(init, pages);
      var before := ContextBlocks(init, pages);
      var block := ResolvedBlock(pages)(last);
      assert ContextBlocks(urls, pages) == before + block;
      match Resolve(last, pages)
      case Some(d) =>
        BlockOpensWithBreak(last, d);
        assert block == ContextBlock(last, d);
      case None =>
        assert block == "";
    }
  }

  /**
   * The assembled context is never empty; an empty list gives the "no documents
   * identified" sentence, and otherwise the "no content" sentence comes back iff
   * none of the first three URLs resolves.
   */
  lemma ContentSentinels(urls: seq<string>, pages: seq<Doc>)
    ensures ContentForAnswering(urls, pages) != ""
    ensures urls == [] ==> ContentForAnswering(urls, pages) == NoDocumentsIdentified()
    ensures urls != [] ==>
      (ContentForAnswering(urls, pages) == NoContentRetrieved() <==>
       forall u | u in urls[..Min(MaxPagesForAnswering, |urls|)] :: Resolve(u, pages).None?)
  {
    if urls != [] {
      var examined := urls[..Min(MaxPagesForAnswering, |urls|)];
      ContextBlocksShape(examined, pages);
      assert NoContentRetrieved()[0] == NoContentMarker()[0] == 'N';
    }
  }

  /** A URL that no candidate page carries leaves the assembled blocks unchanged. */
  lemma UnknownUrlIsIgnored(before: seq<string>, url: string, after: seq<string>, pages: seq<Doc>)
    requires forall j | 0 <= j < |pages| :: pages[j].url != Some(url)
    ensures ContextBlocks(before + [url] + after, pages) == ContextBlocks(before + after, pages)
  {
    ResolveFindsFirst(url, pages);
    var f := ResolvedBlock(pages);
    ConcatMapAppend(f, before + [url], after);
    ConcatMapAppend(f, before, [url]);
    ConcatMapAppend(f, before, after);
    assert [url][..0] == [];
    assert ConcatMap(f, [url]) == f(url) == "";
  }

  /** The URLs after the third are never looked at. */
  lemma OnlyFirstThreeExamined(urls: seq<string>, more: seq<string>, pages: seq<Doc>)
    requires |urls| >= MaxPagesForAnswering
    ensures ContentForAnswering(urls + more, pages) == ContentForAnswering(urls, pages)
  {
    assert (urls + more)[..MaxPagesForAnswering] == urls[..MaxPagesForAnswering];
  }

  /** The loop of `get_content_for_answering` over the examined URLs: the blocks and how many URLs resolved. */
  method CollectBlocks(examined: seq<string>, allLocalPages: seq<Doc>) returns (content: string, pagesFound: nat)
    ensures content == ContextBlocks(examined, allLocalPages)
    ensures pagesFound == ResolvedCount(examined, allLocalPages)
  {
    content, pagesFound := "", 0;
    var i := 0;
    while i < |examined|
      invariant 0 <= i <= |examined|
      invariant content == ContextBlocks(examined[..i], allLocalPages)
      invariant pagesFound == ResolvedCount(examined[..i], allLocalPages)
    {
      var targetUrl := examined[i];
      var foundDoc := FindPage(targetUrl, allLocalPages);
      if foundDoc.Some? {
        pagesFound := pagesFound + 1;
        content := content + ContextBlock(targetUrl, foundDoc.value);
      }
      assert content == ContextBlocks(examined[..i], allLocalPages) + ResolvedBlock(allLocalPages)(targetUrl);
      assert examined[..i + 1][..i] == examined[..i];
      assert examined[..i + 1][i] == targetUrl;
      i := i + 1;
    }
    assert examined[..i] == examined;
  }

  /** The inner search of `get_content_for_answering`: the first page with exactly this URL. */
  method FindPage(url: string, pages: seq<Doc>) returns (found: Option<Doc>)
    ensures found == Resolve(url, pages)
  {
    found := None;
    var j := 0;
    while j < |pages|
      invariant 0 <= j <= |pages|
      invariant Resolve(url, pages) == Resolve(url, pages[j..])
    {
      if pages[j].url == Some(url) {
        found := Some(pages[j]);
        return;
      }
      assert pages[j..][1..] == pages[j + 1..];
      j := j + 1;
    }
  }

  /** `get_content_for_answering`: the blocks of the first three URLs that resolve, or the sentence saying why there are none. */
  method GetContentForAnswering(rerankedUrls: seq<string>, allLocalPages: seq<Doc>) returns (content: string)
    ensures content == ContentForAnswering(rerankedUrls, allLocalPages)
  {
    if rerankedUrls == [] {
      return NoDocumentsIdentified();
    }
    var pagesFound;
    var examined := rerankedUrls[..Min(MaxPagesForAnswering, |rerankedUrls|)];
    content, pagesFound := CollectBlocks(examined, allLocalPages);
    if pagesFound == 0 {
      return NoContentRetrieved();
    }
  }

  // ---------------------------------------------------------------------------
  // Prompts

  /**
   * The three prompts of the pipeline, by the values interpolated into them.
   * The model calls receive this structured value; `Render` gives the text
   * that the f-string templates produce from it.
   */
  datatype Prompt =
    | GuidancePrompt(userQuery: string, historySnippet: string, kbTopic: string)
    | RerankPrompt(originalUserQuery: string, localSearchResults: string)
    | AnswerPrompt(currentUserQuery: string, contextText: string)

  function GuidanceOpening(): string { "The user's current query is: \"" }
  function GuidanceTopicLead(): string { "\"\n\nMy system's initial keyword-based search in a knowledge base about \"" }
  function GuidanceTopicTail(): string { "\" did not find relevant documents for this query.\n\n" }
  function GuidanceInstructions(): string {
    "\n\nBased on the user's current query AND the recent conversation context (if available), please formulate a single, improved search query string (2-5 words ideally) that is more likely to find relevant documents in the knowledge base.\nFor example, if the user asked 'which one should I pick?' after a discussion about 'Barbarian subclasses', a good improved query might be 'Barbarian subclass comparison' or 'best Barbarian subclass'.\n\nOutput ONLY the improved search query string and nothing else. Do not add any preamble or explanation.\n"
  }

  function RerankOpening(): string { "\nOriginal User Query (for this re-ranking task): \"" }
  function RerankListingLead(): string {
    "\"\n\nBased on THIS query, my local system performed an initial search and retrieved the following potentially relevant web pages from my knowledge base. Each page is listed with its title, URL, and a selection of its most relevant keywords along with their importance weights (as determined by my local system):\n\n"
  }
  function RerankInstructions(): string {
    "\n\nYour Task:\nPlease carefully analyze the \"Original User Query\" (for this re-ranking task) and the provided list of \"Locally found pages.\"\nFor each page, consider its title, URL, and especially its \"Associated Keywords\" and their \"weights\" to determine its relevance to the original query.\nYour goal is to re-rank these provided pages and select up to the top 10 most relevant pages that directly address the user's original query.\n\nOutput Format:\n- If relevant pages are found, return them as a numbered list. For each item, include ONLY the original \"Title\" and \"URL\".\n- The URL should be on a new line, prefixed with \"   URL: \".\n- If you determine that NONE of the provided pages are sufficiently relevant, please state that clearly.\n"
  }

  function AnswerOpening(): string { "\nUser's current query: \"" }
  function AnswerContextLead(): string {
    "\"\n\nTo help answer this current query, I have retrieved the following context from my knowledge base:\n--- START OF CONTEXT (for current query) ---\n"
  }
  function AnswerInstructions(): string {
    "\n--- END OF CONTEXT (for current query) ---\n\nYour Task:\nConsidering our ongoing conversation (which you have access to) AND the \"CONTEXT (for current query)\" provided above, please answer the \"User's current query\".\n- Prioritize the \"CONTEXT (for current query)\" when it's relevant.\n- You may refer to relevant information from our previous exchanges if it helps provide a more complete or nuanced answer to the *current query*.\n- If the \"CONTEXT (for current query)\" and our prior conversation do not contain enough information to answer the current query, please state that.\n- Do not use any external knowledge. Be comprehensive if the information allows.\n"
  }

  function Render(p: Prompt): string {
    match p
    case GuidancePrompt(q, h, t) =>
      GuidanceOpening() + q + GuidanceTopicLead() + t + GuidanceTopicTail() + h + GuidanceInstructions()
    case RerankPrompt(q, listing) =>
      RerankOpening() + q + RerankListingLead() + listing + RerankInstructions()
    case AnswerPrompt(q, context) =>
      AnswerOpening() + q + AnswerContextLead() + context + AnswerInstructions()
  }

  // ---------------------------------------------------------------------------
  // One query of `main`: search, single-shot augmentation, re-ranking, context

  /**
   * Search; only when that finds nothing, ask the model for a better query and
   * search once more with its trimmed suggestion. A blocked, empty or failed
   * guidance call, or a blank suggestion, leaves the result empty.
   */
  method RetrieveWithFallback(
    query: string, history: seq<Message>, data: Option<seq<Line>>,
    extract: string -> seq<ExtractedItem>, guide: Prompt -> Reply)
    returns (pages: seq<Doc>, retried: bool)
    ensures var first := Search(data, extract(query));
            var reply := guide(GuidancePrompt(query, HistorySnippet(history, NumHistoryTurnsForGuidance), KnowledgeBaseTopic));
            && (first != [] ==> pages == first && !retried)
            && (retried <==> first == [] && reply.Answered? && Strip(reply.text) != "")
            && (retried ==> pages == Search(data, extract(Strip(reply.text))))
            && (first == [] && !retried ==> pages == [])
  {
    retried := false;
    pages := SearchDocuments(data, query, extract);
    if pages == [] {
      var snippet := FormatChatHistorySnippet(history, NumHistoryTurnsForGuidance);
      var prompt := GuidancePrompt(query, snippet, KnowledgeBaseTopic);
      var suggested := "";
      match guide(prompt) {
        case Blocked(_) =>
        case Answered(text) => suggested := Strip(text);
        case NoParts =>
        case Raised(_) =>
      }
      if suggested != "" {
        pages := SearchDocuments(data, suggested, extract);
        retried := true;
      }
    }
  }

  function NothingFoundTail(): string {
    " were found" + " in the local knowledge base" + " for your current query," + " even after attempting"
    + " to refine the search."
  }
  function NothingFoundContext(): string { NoDocumentsMarker() + NothingFoundTail() }
  function BlockedLead(): string { "Re-ranking of" + " local documents " }
  function RerankBlockedContext(): string { BlockedLead() + BlockedMarker() + "." }
  function NotIdentifiedTail(): string { " relevant pages" + " from local search." }
  function NotIdentifiedContext(): string { "Gemini " + NotIdentifiedMarker() + NotIdentifiedTail() }
  function NoYieldContext(): string { "Re-ranking process " + NoYieldMarker() + " specific pages." }
  function RerankErrorContext(): string { ErrorMarker() + " document re-ranking." }
  function DefaultContextMessage(): string {
    "No specific" + " new context" + " could be provided" + " for your current query."
  }

  predicate MentionsProblem(context: string) {
    || IsSubstring(NoDocumentsMarker(), context) || IsSubstring(NoContentMarker(), context)
    || IsSubstring(NotIdentifiedMarker(), context) || IsSubstring(NoYieldMarker(), context)
    || IsSubstring(BlockedMarker(), context) || IsSubstring(ErrorMarker(), context)
  }

  /** The context from the URLs the model's answer lists. */
  function AnsweredContext(urls: seq<string>, pages: seq<Doc>): string {
    if urls == [] then NotIdentifiedContext() else ContentForAnswering(urls, pages)
  }

  /** The context that the re-ranking reply leads to, before classification. */
  function RerankedContext(reply: Reply, pages: seq<Doc>): string {
    match reply
    case Blocked(_) => RerankBlockedContext()
    case Answered(t) => AnsweredContext(ParseRerankedResults(t), pages)
    case NoParts => NoYieldContext()
    case Raised(_) => RerankErrorContext()
  }

  /** The context before classification: a fixed sentence when nothing was found, else what re-ranking leads to. */
  function RawContext(pages: seq<Doc>, reply: Reply): string {
    if pages == [] then NothingFoundContext() else RerankedContext(reply, pages)
  }

  /**
   * The consolidated check: the context handed to the answer step and whether
   * it was flagged as missing or problematic. A flagged context is kept as it
   * is unless it is empty, when the default sentence replaces it.
   */
  function ClassifyContext(context: string): (r: (string, bool))
    ensures r.0 != ""
    ensures context != "" ==> r.0 == context
    ensures context == "" ==> r.0 == DefaultContextMessage()
    ensures r.1 <==> context == "" || MentionsProblem(context)
  {
    if context != "" && !MentionsProblem(context) then (context, false)
    else
      var finalMessage := if context != "" then context else DefaultContextMessage();
      (finalMessage, true)
  }

  /** The context from the parsed URLs: the "did not identify" sentence when there are none. */
  method ContextFromUrls(urls: seq<string>, pages: seq<Doc>) returns (raw: string)
    ensures raw == AnsweredContext(urls, pages)
  {
    if urls == [] {
      raw := NotIdentifiedContext();
    } else {
      raw := GetContentForAnswering(urls, pages);
    }
  }

  /** Send the re-ranking prompt for `listing` and turn the model's reply into context. */
  method ContextFromRerank(query: string, listing: string, pages: seq<Doc>, rerank: Prompt -> Reply)
    returns (raw: string)
    ensures raw == RerankedContext(rerank(RerankPrompt(query, listing)), pages)
  {
    match rerank(RerankPrompt(query, listing)) {
      case Blocked(_) =>
        raw := RerankBlockedContext();
      case Answered(text) =>
        var urls := ParseRerankedResults(text);
        raw := ContextFromUrls(urls, pages);
      case NoParts =>
        raw := NoYieldContext();
      case Raised(_) =>
        raw := RerankErrorContext();
    }
  }

  /** Re-rank the pages found and assemble the context from the model's answer. */
  method RerankAndAssemble(query: string, pages: seq<Doc>, rerank: Prompt -> Reply, fmt: real -> string)
    returns (raw: string)
    ensures raw == RerankedContext(rerank(RerankPrompt(query, RerankListing(pages, fmt))), pages)
  {
    var listing := FormatLocalResultsForRerankPrompt(pages, fmt);
    raw := ContextFromRerank(query, listing, pages, rerank);
  }

  /** The context before classification; nothing found skips re-ranking. */
  method AssembleContext(query: string, pages: seq<Doc>, rerank: Prompt -> Reply, fmt: real -> string)
    returns (raw: string)
    ensures raw == RawContext(pages, rerank(RerankPrompt(query, RerankListing(pages, fmt))))
  {
    if pages == [] {
      raw := NothingFoundContext();
    } else {
      raw := RerankAndAssemble(query, pages, rerank, fmt);
    }
  }

  /** Build the context for the answer step and classify it. */
  method BuildContext(query: string, pages: seq<Doc>, rerank: Prompt -> Reply, fmt: real -> string)
    returns (context: string, flagged: bool)
    ensures (context, flagged) == ClassifyContext(RawContext(pages, rerank(RerankPrompt(query, RerankListing(pages, fmt)))))
  {
    var raw := AssembleContext(query, pages, rerank, fmt);
    var classified := ClassifyContext(raw);
    context, flagged := classified.0, classified.1;
  }

  lemma NothingFoundIsFlagged()
    ensures MentionsProblem(NothingFoundContext())
  {
    PrefixIsSubstring(NoDocumentsMarker(), NothingFoundTail());
  }

  /** Every fixed message that stands in for missing context carries a problem marker. */
  lemma FixedMessagesAreFlagged()
    ensures MentionsProblem(NothingFoundContext()) && MentionsProblem(RerankBlockedContext())
    ensures MentionsProblem(NotIdentifiedContext()) && MentionsProblem(NoYieldContext())
    ensures MentionsProblem(RerankErrorContext())
    ensures MentionsProblem(NoDocumentsIdentified()) && MentionsProblem(NoContentRetrieved())
  {
    NothingFoundIsFlagged();
    SubstringOfConcat(BlockedLead(), BlockedMarker(), ".");
    SubstringOfConcat("Gemini ", NotIdentifiedMarker(), NotIdentifiedTail());
    SubstringOfConcat("Re-ranking process ", NoYieldMarker(), " specific pages.");
    PrefixIsSubstring(ErrorMarker(), " document re-ranking.");
    PrefixIsSubstring(NoDocumentsMarker(), NotRelevantTail());
    PrefixIsSubstring(NoContentMarker(), NoContentTail());
  }

  /**
   * The context handed to the answer step is never empty, and when the search
   * found nothing it is the fixed sentence, flagged.
   */
  lemma ContextNeverEmpty(pages: seq<Doc>, reply: Reply)
    ensures ClassifyContext(RawContext(pages, reply)).0 != ""
    ensures pages == [] ==> ClassifyContext(RawContext(pages, reply)) == (NothingFoundContext(), true)
  {
    NothingFoundIsFlagged();
  }

  /**
   * A context that passes the check unflagged is real retrieved content: the
   * re-ranker answered, at least one of the first three URLs it named resolved
   * to a candidate page, and the context is exactly those pages' blocks.
   */
  lemma UnflaggedContextIsRetrieved(pages: seq<Doc>, reply: Reply)
    requires !ClassifyContext(RawContext(pages, reply)).1
    ensures reply.Answered?
    ensures var urls := ParseRerankedResults(reply.text);
            var examined := urls[..Min(MaxPagesForAnswering, |urls|)];
            && urls != []
            && ResolvedCount(examined, pages) > 0
            && pages != []
            && RawContext(pages, reply) == ContextBlocks(examined, pages)
  {
    if pages == [] {
      NothingFoundIsFlagged();
    } else {
      match reply
      case Answered(t) =>
        if ParseRerankedResults(t) == [] {
          SubstringOfConcat("Gemini ", NotIdentifiedMarker(), NotIdentifiedTail());
        } else {
          PrefixIsSubstring(NoContentMarker(), NoContentTail());
        }
      case Blocked(_) =>
        SubstringOfConcat(BlockedLead(), BlockedMarker(), ".");
      case NoParts =>
        SubstringOfConcat("Re-ranking process ", NoYieldMarker(), " specific pages.");
      case Raised(_) =>
        PrefixIsSubstring(ErrorMarker(), " document re-ranking.");
    }
  }

  /**
   * One query of `main` up to the answer step: retrieval with its single
   * retry, then re-ranking and the context check. The re-ranking prompt and
   * the answer prompt both carry the user's original query, also after a
   * retry with the model's suggested query.
   */
  method ProcessQuery(
    query: string, history: seq<Message>, data: Option<seq<Line>>,
    extract: string -> seq<ExtractedItem>, guide: Prompt -> Reply, rerank: Prompt -> Reply, fmt: real -> string)
    returns (pages: seq<Doc>, retried: bool, context: string, answer: Prompt)
    ensures context == ClassifyContext(RawContext(pages, rerank(RerankPrompt(query, RerankListing(pages, fmt))))).0
    ensures context != ""
    ensures answer == AnswerPrompt(query, context)
  {
    pages, retried := RetrieveWithFallback(query, history, data, extract, guide);
    var flagged;
    context, flagged := BuildContext(query, pages, rerank, fmt);
    answer := AnswerPrompt(query, context);
  }
}
