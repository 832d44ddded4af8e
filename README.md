# Baldur's Gate 3 wiki bot, modelled in Dafny

The bot answers questions about Baldur's Gate 3 from a local copy of the game
wiki. This project models the logic that sits between the external services
and proves properties of it.

- **Keyword retrieval** (`wiki_search.dfy`, module `WikiSearch`).
  - The query's keywords are lower-cased and filtered against a stop-word list and a minimum length.
  - Each preprocessed page matches when a term occurs as a whole word in its title, or equals one of its keyword terms.
  - Matches are ranked by title match first, then by the largest matching keyword weight, with a stable sort.
- **Retrieval-augmented answering** (`rag.dfy`, module `Rag`).
  - Formatting of the recent chat history.
  - The numbered page listing sent to the model for re-ranking.
  - Extraction of `URL:` lines from the model's reply (`reply_urls.dfy`, module `ReplyUrls`).
  - Assembly of the answer context from at most three re-ranked pages.
  - One retry of the search with a model-suggested query when the first search finds nothing.
  - The rule that flags a missing or failed context.
  - One query end to end, up to the prompt of the answer step.
- **Crawler** (`sitemap.dfy`, module `Sitemap`).
  - Which links the wiki crawler follows and how it normalises them.
  - The bookkeeping of a crawling session over the frontier, the pages visited this session and the URLs already in the output file.
- **Keyword preprocessing** (`preprocess.dfy`, module `Preprocess`). Every crawled page not yet in the keyword file gets its keywords and is appended, once.
- **Discord front end** (`discord_bot.dfy`, module `DiscordBot`).
  - One chat session per user, created by `!ask` and dropped by `!newchat`.
  - Long answers are split into 1950-character messages.

`text.dfy` holds the Python string operations these rely on (`lower`, `strip`,
`join`, `in`, `\s`, `\w`). `wrappers.dfy` holds `Option`.

Every external collaborator is a function-typed parameter:
- the language model (a `Reply` of text, blocked, empty or raised);
- the keyword extractor;
- the HTTP requests of the crawler;
- the bot's RAG call;
- the `{:.2f}` rendering of a weight.

Files are sequences of already-decoded lines, with a variant for each way a line can fail to decode.

Where the source loops and mutates, the model does too, in two layers:
- a method with loop invariants, whose `ensures` ties it to a specification function;
- lemmas that state what the source promises about that function.

The Discord bot's state is a class whose methods update the session map and the sent messages.

## Model

| member | source | states |
|---|---|---|
| WikiSearch.FilterQueryTerms | find_matching_wiki_pages.py:53-60 | the loop over the extractor's items yields exactly the filtered term set |
| WikiSearch.FilterTermsExactly | find_matching_wiki_pages.py:53-60 | a term is kept iff it is the lower-cased string first element of some item, not blacklisted and at least 2 long |
| WikiSearch.MatchTitle | find_matching_wiki_pages.py:78-83 | the title loop reports a match iff some term occurs in the lower-cased title with a `\b` boundary at both of its ends: a change between word and non-word characters, or a text end next to a word character |
| WikiSearch.MatchKeywords | find_matching_wiki_pages.py:85-99 | the keyword loop finds a match iff a well-formed entry's lower-cased term is a query term; its weight is the running maximum over matching entries |
| WikiSearch.MaxMatchingWeightIsMaximum | find_matching_wiki_pages.py:85-98 | the weight is never negative, bounds every matching entry's weight, and is 0.0 or attained by a matching entry |
| WikiSearch.NoKeywordMatchWeighsZero | find_matching_wiki_pages.py:85-102 | with no matching keyword entry the weight is 0.0, as for a title-only match |
| WikiSearch.CollectMatches | find_matching_wiki_pages.py:70-110 | the line loop collects one ranking record per relevant document, in file order, skipping undecodable lines |
| WikiSearch.MatchesExactly | find_matching_wiki_pages.py:72-103 | a record is collected iff it is the candidate record of a relevant document on some line |
| WikiSearch.InsertRanked | find_matching_wiki_pages.py:115 | inserting into a ranked list keeps it ranked and adds exactly the record |
| WikiSearch.SortMatchesRanks | find_matching_wiki_pages.py:115 | the sort's output is ranked (title matches first, then non-increasing weight) and a permutation of its input |
| WikiSearch.SortMatchesIsStable | find_matching_wiki_pages.py:115 | records with equal (title match, weight) keys keep their input order |
| WikiSearch.SearchReturnsExactlyRelevant | find_matching_wiki_pages.py:35-116 | a document is returned iff it is on a line of the file and a filtered term matches its title or one of its keywords |
| WikiSearch.SearchIsRanked | find_matching_wiki_pages.py:100-116 | every title-matching result precedes every other, and weights do not increase within each group |
| WikiSearch.SearchDocuments | find_matching_wiki_pages.py:35-116 | the whole search computes the specification; a missing file or an empty extraction gives no result |
| Rag.CollectPartTexts | gemini_bg3_rag.py:34-40 | the texts of the text parts, in order |
| Rag.FormatHistoryLine | gemini_bg3_rag.py:32-43 | one `- Role: text` line, with the placeholder for a message without text parts |
| Rag.FormatHistoryLines | gemini_bg3_rag.py:30-43 | one history line per message, concatenated in order |
| Rag.FormatChatHistorySnippet | gemini_bg3_rag.py:20-44 | the method computes the history snippet |
| Rag.SnippetShape | gemini_bg3_rag.py:24-43 | an empty history gives the fixed sentence; otherwise the header and one line for each of the last min(N, len) messages in original order |
| Rag.EveryRecentTurnAppears | gemini_bg3_rag.py:29-43 | each of the last N messages has its line in the snippet |
| Rag.FormatKeywords | gemini_bg3_rag.py:55-69 | the keyword line of a page: the displayable entries among the first 7, joined by commas |
| Rag.KeywordLineCapped | gemini_bg3_rag.py:58 | at most 7 entries are shown, and entries past the seventh never change the line |
| Rag.ShownKeywordsLength | gemini_bg3_rag.py:57-67 | at most one shown label per keyword entry |
| Rag.FormatPageBlock | gemini_bg3_rag.py:53-70 | one numbered block with title, URL and keywords |
| Rag.FormatPageBlocks | gemini_bg3_rag.py:52-70 | the blocks of the pages numbered from 1, in input order |
| Rag.FormatLocalResultsForRerankPrompt | gemini_bg3_rag.py:47-71 | the method computes the listing (fixed sentence when there are no pages) |
| Rag.ListingShowsEveryPage | gemini_bg3_rag.py:51-70 | the listing contains page i's block under number i + 1 |
| ReplyUrls.SkipSpaces | gemini_bg3_rag.py:99 | the index after the longest run of `\s` characters |
| ReplyUrls.SkipNonSpaces | gemini_bg3_rag.py:99 | the index after the longest run of non-`\s` characters |
| ReplyUrls.MatchCapturesUrl | gemini_bg3_rag.py:99-102 | a match at a line start captures an http(s) URL without whitespace that lies after the match position, occurs in the text and is unchanged by `strip` |
| ReplyUrls.FoundUrlsAreCapturable | gemini_bg3_rag.py:99-100 | every capture `findall` returns from a scan position has that shape and occurs in the text |
| ReplyUrls.MatchesAreStripped | gemini_bg3_rag.py:101-102 | the `strip` loop changes no capture, so the result is exactly the `findall` captures in order |
| ReplyUrls.ParsedUrlsAreCapturable | gemini_bg3_rag.py:96-103 | every parsed URL starts with http:// or https:// in any case, has no whitespace and occurs in the reply |
| ReplyUrls.NoLabelNoUrls | gemini_bg3_rag.py:99-103 | a reply without a case-insensitive `URL:` yields no URLs |
| ReplyUrls.UnlabelledLinesAddNothing | gemini_bg3_rag.py:99-100 | lines without a `URL:` label, such as `URL http://x`, add nothing: the scan from their start yields what the scan from the next line yields, also when `\s*` runs from a blank line into a label below |
| ReplyUrls.UnlabelledUrlIsIgnored | gemini_bg3_rag.py:96-103 | among numbered results, `URL: http://a` is kept and a later `URL http://x` is not: the parse is exactly `["http://a"]` |
| ReplyUrls.UrlOnNextLineIsCaptured | gemini_bg3_rag.py:99 | `\s*` crosses a line break: `URL:` followed by a URL on the next line is captured |
| Rag.ResolveFindsFirst | gemini_bg3_rag.py:113-117 | a URL resolves iff some page has exactly that url, and then to the first such page |
| Rag.FindPage | gemini_bg3_rag.py:113-117 | the page search loop computes the resolution |
| Rag.CollectBlocks | gemini_bg3_rag.py:112-127 | the loop builds one block per resolved URL in list order and counts the resolved URLs |
| Rag.ContextBlocksShape | gemini_bg3_rag.py:112-129 | the blocks are empty iff no URL resolves, and otherwise open with a line break |
| Rag.ContentSentinels | gemini_bg3_rag.py:110-129 | never empty; no URLs give the "no specific documents" sentence, and the "no content" sentence comes iff none of the first three resolves |
| Rag.UnknownUrlIsIgnored | gemini_bg3_rag.py:118-127 | a URL that no page carries adds nothing to the context |
| Rag.OnlyFirstThreeExamined | gemini_bg3_rag.py:112 | URLs after the third never change the result |
| Rag.GetContentForAnswering | gemini_bg3_rag.py:106-130 | the method computes the context from the re-ranked URLs |
| Rag.RetrieveWithFallback | gemini_bg3_rag.py:229-279 | a non-empty first search is kept; otherwise one retry happens iff the guidance call answers with a non-blank suggestion, on its stripped text; in every other case no pages |
| Rag.ClassifyContext | gemini_bg3_rag.py:331-341 | a problem is flagged iff the context is empty or holds a failure marker; the context is kept unless empty, when the default sentence replaces it |
| Rag.ContextFromUrls | gemini_bg3_rag.py:313-322 | no parsed URL gives the "did not identify" sentence, else the assembled content |
| Rag.ContextFromRerank | gemini_bg3_rag.py:298-329 | a blocked, empty or raising re-rank call gives its fixed sentence; an answer gives the context from its URLs |
| Rag.RerankAndAssemble | gemini_bg3_rag.py:287-329 | the listing of the found pages is sent with the original query and the reply becomes the context |
| Rag.AssembleContext | gemini_bg3_rag.py:282-329 | nothing found skips re-ranking and gives its fixed sentence |
| Rag.BuildContext | gemini_bg3_rag.py:282-341 | the context handed to the answer step is the classified assembled context |
| Rag.FixedMessagesAreFlagged | gemini_bg3_rag.py:285-341 | every fixed sentence that stands in for missing context carries a failure marker |
| Rag.ContextNeverEmpty | gemini_bg3_rag.py:282-341 | the answer step never receives an empty context; with no pages it gets the flagged "nothing found" sentence |
| Rag.UnflaggedContextIsRetrieved | gemini_bg3_rag.py:282-341 | an unflagged context comes from an answered re-rank whose first three URLs resolve at least once, and is exactly their blocks |
| Rag.ProcessQuery | gemini_bg3_rag.py:229-350 | the context is built from the retrieved pages and a re-rank prompt that carries the original query, also after a retry with the suggested query; the answer prompt carries the original query and a non-empty context |
| Sitemap.SpecialPrefixes | sitemap_generator.py:58-60 | every special prefix starts with an upper-case letter |
| Sitemap.LastSegment | sitemap_generator.py:58 | the path's suffix after its last `/` |
| Sitemap.IsValidUrl | sitemap_generator.py:46-62 | false for a non-http(s) scheme, another host, an ignored extension of the lower-cased path or a special page; true when none applies |
| Sitemap.CleanUrl | sitemap_generator.py:64-72 | no host gives None; otherwise query and fragment are dropped, an empty path becomes `/`, other components are kept, and cleaning a clean URL changes nothing |
| Sitemap.CleaningPreservesValidity | sitemap_generator.py:46-72 | cleaning never changes whether a URL is valid |
| Sitemap.UpperCaseExtensionIsIgnored | sitemap_generator.py:53-54 | the extension test lower-cases the path, so `.PDF` is ignored too |
| Sitemap.SpecialPrefixIsCaseSensitive | sitemap_generator.py:58-61 | a last segment starting with a lower-case letter is never a special page |
| Sitemap.StartAddress | sitemap_generator.py:115-116 | an address without http:// or https:// gets http:// prepended; any other is kept |
| Sitemap.QueueLinks | sitemap_generator.py:198-208 | the link loop computes the new frontier |
| Sitemap.QueueAllAddsOnlyAdmissible | sitemap_generator.py:198-208 | the frontier only grows, and only by clean forms of the page's links that are valid and not visited |
| Sitemap.QueueAllIsBounded | sitemap_generator.py:207 | the frontier never exceeds twice the session limit |
| Sitemap.QueueAllIsComplete | sitemap_generator.py:198-208 | while the frontier stays below its bound, every admissible cleaned link is queued |
| Sitemap.VisitKeepsRequestedOnce | sitemap_generator.py:150-154 | visiting a new URL keeps each page requested once, with the visited set equal to the requested pages |
| Sitemap.VisitKeepsRecorded | sitemap_generator.py:160-193 | a URL already persisted is never written again; each write adds one line and its URL to the persisted set; every requested HTML page not in the file before is written |
| Sitemap.VisitKeepsConfined | sitemap_generator.py:149-208 | the frontier and visited set stay clean, on the base domain and within their bounds |
| Sitemap.VisitPage | sitemap_generator.py:155-221 | the loop body for a new URL computes the visit |
| Sitemap.SessionOutcome | sitemap_generator.py:149-193 | every written page was requested and every requested page is visited |
| Sitemap.ProcessNext | sitemap_generator.py:150-221 | one iteration keeps the session invariants; a URL already visited is only dropped from the frontier; otherwise the iteration is the visit of the popped URL, and it writes a line iff the page is HTML and was not in the file before |
| Sitemap.RunSession | sitemap_generator.py:149-221 | the loop keeps the session invariants, counts exactly the lines written, only extends the request list, requests a starting page first, and stops only when the frontier is empty or the session budget is spent |
| Sitemap.CrawlWebsite | sitemap_generator.py:110-227 | no persisted URL is written, nothing twice, only requested HTML pages with their title and text, and every requested HTML page not in the file before is written; at most 20000 distinct requests, all clean and on the host, the cleaned start page first; nothing happens when the start cannot be resolved |
| Preprocess.LoadedExactly | preprocess_keywords_from_wikis.py:19-29 | a URL is loaded iff a line carries it before the first line that ends the reading |
| Preprocess.LoadedAppend | preprocess_keywords_from_wikis.py:21-27 | reading is line by line: loading a concatenation is the union when the first part has no fatal line |
| Preprocess.LoadExistingUrls | preprocess_keywords_from_wikis.py:10-30 | the loop computes the loaded set; a missing file gives the empty set |
| Preprocess.PreprocessJsonl | preprocess_keywords_from_wikis.py:32-110 | the loop computes the run over the raw lines from the loaded URLs; a line whose extraction fails is skipped without a count; a missing raw file writes nothing |
| Preprocess.RunStopped | preprocess_keywords_from_wikis.py:95-105 | once a line ends the run, the remaining lines change nothing |
| Preprocess.StepKeepsConsistent | preprocess_keywords_from_wikis.py:57-97 | one line keeps the run consistent |
| Preprocess.RunIsConsistent | preprocess_keywords_from_wikis.py:57-97 | processed count = lines written; no URL written twice, none already in the file, none empty; keywords are the extractor's successful result for the text |
| Preprocess.RunPrefixCounts | preprocess_keywords_from_wikis.py:57-105 | after any prefix of the lines, the skip counter is the number of skipped lines so far, the known URLs are the file's plus those of reached lines with a successful extraction, and the run has stopped iff a non-object line was read |
| Preprocess.SkippedCountsKnownUrls | preprocess_keywords_from_wikis.py:70-73 | `skipped_count` counts exactly the reached lines whose URL was in the file or on an earlier reached line whose keywords were extracted |
| Preprocess.CountsAreBounded | preprocess_keywords_from_wikis.py:57-97 | the two counters grow by at most one per raw line |
| Preprocess.StepWrites | preprocess_keywords_from_wikis.py:79-97 | a line writes nothing or exactly its own record, and the record only when the extraction succeeds |
| Preprocess.RunWritesFromLines | preprocess_keywords_from_wikis.py:61-97 | earlier output is kept, and every new record comes from a raw line whose extraction succeeded, with url, title and text copied ('' for a missing key) and the extracted keywords |
| Preprocess.RunCoversEveryUrl | preprocess_keywords_from_wikis.py:61-97 | every non-empty URL reached on a line whose extraction succeeds ends up known |
| Preprocess.KnownUrlsWriteNothing | preprocess_keywords_from_wikis.py:70-97 | when every URL reached with a successful extraction is already known, nothing is written |
| Preprocess.LoadedStoredLines | preprocess_keywords_from_wikis.py:10-30 | reading back the lines a run appended gives exactly their URLs |
| Preprocess.RerunWritesNothing | preprocess_keywords_from_wikis.py:10-110 | a second run over the same raw file, after the first one's output is appended, writes nothing |
| DiscordBot.ChunksConcat | discord_bot.py:109-110 | the slices put back together are the answer |
| DiscordBot.ChunksSizes | discord_bot.py:109-110 | ceil(len/1950) slices, each non-empty and at most 1950 long, all but the last full |
| DiscordBot.ChunksAreSlices | discord_bot.py:109-110 | slice k is `text[k*1950 : k*1950 + 1950]` |
| DiscordBot.LongAnswerArrivesWhole | discord_bot.py:107-110 | a long answer is a notice followed by messages that concatenate to it, none over the limit |
| DiscordBot.ChatSession.constructor | discord_bot.py:90 | a new session has an empty history |
| DiscordBot.Bot.constructor | discord_bot.py:23 | the bot starts with no sessions and nothing sent |
| DiscordBot.Bot.SendInParts | discord_bot.py:109-110 | the send loop appends exactly the slices, changing nothing else |
| DiscordBot.Bot.SendAnswer | discord_bot.py:107-112 | a short answer is one message with the header; a long one is the notice and then the slices |
| DiscordBot.Bot.Respond | discord_bot.py:94-116 | "Thinking..." is sent, then the answer or the error reply; the session's history follows the model call |
| DiscordBot.Bot.Ask | discord_bot.py:80-116 | without a model only the warning is sent and the sessions and their histories are untouched; otherwise the user's session is reused or created empty, and other users' sessions are untouched |
| DiscordBot.Bot.NewChat | discord_bot.py:119-127 | deletes only the caller's session and says so; a caller without one gets the "no active conversation" reply and nothing changes |
| DiscordBot.Bot.NewChatThenAsk | discord_bot.py:88-124 | after `!newchat`, the next `!ask` runs on a new session with an empty history |

## Left out

- The language model, HTTP, Discord transport, KeyBERT and `extract_keywords` are function parameters. `extract_keywords` is imported but not defined in keyword_extractor.py. Sleeping, printing, logging and `asyncio.to_thread` are not modelled, and map operations are atomic.
- Prompt wording: `Render` reproduces the three f-string templates, and the model calls receive the structured `Prompt`. No property of the wording is proved: the templates are long string constants, and unfolding them exceeds the verifier's resource limit.
- The answer step of `main` (gemini_bg3_rag.py:351-371) only sends the prompt that `Rag.ProcessQuery` builds and prints the reply, so it is not modelled. The same holds for `main`'s input loop, `/new` and `quit` (222-227), and SDK setup.
- `process_query_with_rag_chat` and `DEFAULT_KNOWLEDGE_BASE_TOPIC`, which discord_bot.py imports, are not defined in gemini_bg3_rag.py. The bot's RAG call is therefore a parameter returning an answer and the new history, or raising.
- `initialize_gemini_model` is reduced to the bot's `modelReady` flag.
- JSON decoding: lines arrive as decoded records.
  - A missing key is `None`.
  - JSON `null`, non-string titles, URLs or texts, and values that make `.lower()` or `.get()` raise are not distinguished. An entry that raises inside the search loop is modelled as an undecodable line; that matches the source, whose `except Exception` skips the line.
- Lower-casing, `capitalize` and `\w` are ASCII-only here. Python applies full Unicode case mapping and a Unicode `\w`. `\s` and `str.isspace` follow Python's Unicode whitespace set. `re.IGNORECASE` also lets `s` match U+017F.
- `float()` parsing and `{:.2f}` are not modelled. A weight is a `real`, or `None` when `float()` fails. Its rendering is the parameter `fmt`.
- `urlparse`, `urljoin` and `urlunparse` are not modelled. A URL is the record of its six components, a page's links arrive already made absolute, and the persisted set holds those records rather than strings.
- `extract_text_content` (sitemap_generator.py:74-107) and BeautifulSoup are not modelled. A fetched page yields its title, text and links.
- sitemap_generator.py's `load_existing_urls` (28-44) is not modelled. It has the same loop shape as `Preprocess.LoadExistingUrls`, and the crawler receives its result as the parameter `persistedBefore`.
- Output-file I/O errors are not modelled: the `IOError` branch of `crawl_website` (223-225) and a failing `open` in preprocessing. A page whose request or parsing raises is marked visited and has no other effect, and so is a response that is not HTML. An exception raised after the line is written, while the links are processed, is not modelled.
- Sitemap.CrawlWebsite: the persisted set is returned as a value rather than mutated in the caller's set. Its contract does not say which pages the crawl reaches, since the frontier is not returned; `Sitemap.RunSession` states when the loop stops.
- The `continue` for a URL already visited this session (sitemap_generator.py:152-153) is modelled, but it cannot fire: a URL only enters the frontier when it is not visited.
- Rag.GetContentForAnswering: re-ranked URLs are not checked against the candidate pages, as in the source. A URL the model invents resolves to nothing and adds nothing; duplicate URLs are kept and examined twice.
- Preprocess.RerunWritesNothing: assumes the keyword file has no line that ends the reading early. Such a line hides the URLs after it, and those pages would be written again.
- DiscordBot.Bot.Respond: a model call that raises leaves the session's history as it was. A send that fails part way through a long answer is not modelled.
- ReplyUrls.ParsedUrlsAreCapturable: states the shape of the captured URLs and that they occur in the reply, not their order or that every `URL:` line is found. Order and completeness are carried by the definition of `FindAllFrom`, a left-to-right scan that resumes after each match, and by `UnlabelledLinesAddNothing`.
- ReplyUrls: splitting a reply at a line break and parsing the parts separately is not proved to give the same URLs. The proof relates two strings' scans and exceeds the verifier's resource limit. It would also need a condition, because `\s*` may run from the end of the first part into a label in the second.
- Rag.ProcessQuery: does not restate which pages are retrieved. It passes on the result of `Rag.RetrieveWithFallback`, whose contract states it.
- Preprocess.PreprocessJsonl: `extract_keywords` raising and `json.dumps` failing are one `None` from the extractor. In both cases the inner `except` skips the line before anything is written.
- A document's `keywords` value that is not a list (find_matching_wiki_pages.py:87, gemini_bg3_rag.py:55-58) cannot be represented: `keywords` is a sequence of entries. The search ignores such a value, as the model does for an empty list. The listing would slice and iterate a string or dict, which is not modelled.
