# mblbautopostng core, modelled in Dafny

The repository runs small Korean auto-posting bots that publish to a WordPress site:

- a stock bot that turns SEC 10-K/10-Q filings into Gemini-written reports;
- a grant bot that posts government-support announcements found in RSS feeds;
- a marketing bot that posts a daily news briefing;
- a Streamlit dashboard that edits their configuration and shows their status.

Around them sit the SEC helper module, a sequential batch processor, a sector-file generator and two board scrapers kept as test scripts.

This project models the deterministic logic inside that glue and proves what it promises. Every network, model, clock and file call is replaced by an input to the model:

- the SEC and WordPress JSON replies, as values;
- the Gemini answer for each chunk and attempt, as a function from (chunk, attempt) to a returned text or a raised message;
- whether a report file exists, which group files can be read, which feeds answer;
- the page structure a parser would produce: rows, anchors, XML items, feed entries.

## Files

| file | models |
|---|---|
| `sec_core.dfy` (`SecCore`) | `sec_module/core.py`, covering:<br>- chunking<br>- CIK lookup and zero padding<br>- latest-filing search and archive URL<br>- whitespace collapse<br>- the per-chunk retry loop with its `while … else` and the report it assembles<br>- key-row filtering<br>- the markdown-to-Word line classification |
| `stock_bot.dfy` (`StockBot`) | `stock_bot.py`, covering:<br>- `@GROUP` expansion<br>- first-wins dedup by symbol<br>- progress messages<br>- the WordPress and in-run history skip checks<br>- the history<br>- tag and title strings<br>- image interleaving between `<h2>` sections |
| `wp_utils.dfy` (`WordPress`) | `wp_utils.py`, covering:<br>- the Basic auth header<br>- the post payload and result rule<br>- upload headers<br>- recent posts<br>- match-or-create categories |
| `base64.dfy`, `utf8.dfy` | the base64 encoding of section 4 of RFC 4648 and UTF-8, each with its decoder and round trip, used for the HTTP Basic credentials of section 2 of RFC 7617 |
| `grant_bot.dfy` (`GrantBot`) | `grant_bot.py`, covering:<br>- RSS item extraction<br>- the `" OR "` query<br>- the per-source caps<br>- the posting gate<br>- the job's counters and status updates |
| `batch_processor.dfy` (`Batch`) | `sec_module/batch_processor.py`: the stop signal, skipping existing reports, per-ticker failure isolation and the `BATCH_READY` callback |
| `dashboard.dfy` (`Dashboard`) | `dashboard.py`, covering:<br>- the status card<br>- the ticker partition, add and remove<br>- category and keyword editing<br>- the crawler toggle save rule<br>- bulk URL parsing and routing |
| `marketing_bot.dfy` (`Marketing`) | `marketing_bot.py`: news capping, collection, the prompt text, fence stripping and the run's outcome states |
| `sector_splitter.dfy` (`SectorSplitter`) | `utils/sector_splitter.py`: the sector file names, the union of the sector lists and the others set |
| `scrape.dfy`, `test_sources_v2.dfy`, `test_sources.dfy` | the export-voucher board scrapers and the manufacturing RSS reader: title-tag choice, row limits, `goDetail` id extraction (lenient and strict), XML check and fallback items |
| `status.dfy` (`Status`) | the status record every bot writes |
| `text.dfy`, `wrappers.dfy` | Python's `str` operations used above (strip, split, join, replace, `in`, `startswith`, `zfill`, integer text) and Option/Result-style wrappers |

Where the code's behaviour may surprise a reader, the contracts follow the code:

- **Run abort.** `run_stock_job` is not guarded against the failure at stock_bot.py:176, so the first report that passes the skip checks ends the whole job. The model stops there.
- **Final status.** The grant job never writes a final status.
- **Missing WordPress credentials.** `get_auth_header` raises `ValueError` when `WP_USER` or `WP_PASSWORD` is missing (wp_utils.py:15-16). No bot catches it:
  - the stock bot ends at its first listing of recent posts, the one before the item loop (stock_bot.py:104);
  - the grant bot ends at its first `post_article` call (grant_bot.py:181);
  - the marketing bot ends at its post, leaving the running "[POST]" status (marketing_bot.py:147).
- **Dedup key.** The stock bot dedups by symbol, first occurrence winning, and by exact title-part containment. It does not merge by link or match on half a title.
- **Missing-key notice.** The grant gate lets the missing-key notice of `utils/grant_ai.py` through, because it lacks the "오류 발생" marker.

## Model

| member | source | states |
|---|---|---|
| SecCore.Chunks | sec_module/core.py:125-129 | empty text gives no chunks; every chunk but the last has exactly the chunk size; the last is non-empty and no longer than the chunk size |
| SecCore.ConcatChunks | sec_module/core.py:125-129 | concatenating the chunks gives back the text |
| SecCore.ChunkCount | sec_module/core.py:125-129 | the number of chunks is the ceiling of the text length over the chunk size |
| SecCore.ChunkIsSlice | sec_module/core.py:129 | chunk k is the slice of the text from k*size to min(k*size+size, length) |
| SecCore.PaddedCikDigits | sec_module/core.py:45 | the padded CIK is all digits, at least 10 long, ends in the decimal CIK with only '0' in front, and parses back to the CIK |
| SecCore.CikFromIsFirst | sec_module/core.py:43-47 | the lookup finds a CIK exactly when some entry's ticker equals the wanted one, and then returns the padded CIK of the first such entry |
| SecCore.GetCik | sec_module/core.py:32-50 | a failed fetch gives None; otherwise the result is the first-match lookup of the upper-cased ticker |
| SecCore.FilingFromIsFirst | sec_module/core.py:64-83 | the search succeeds exactly when some record has the requested form, and then returns the filing built from the first such record |
| SecCore.FirstFormUnique | sec_module/core.py:67-69 | the first record of a form type is unique |
| SecCore.FilingAtShape | sec_module/core.py:70-80 | the filing found at record k carries the archive URL built from the integer CIK, accession k and primary document k, and filing date k |
| SecCore.ArchiveUrlOfPaddedCik | sec_module/core.py:75-78 | the padded CIK parses back to the integer CIK, the URL is the archive prefix, decimal CIK, dash-free accession number and document, and the accession has no '-' left |
| SecCore.LatestFiling | sec_module/core.py:52-86 | a failed fetch gives (None, None); otherwise the result is the first-match search from record 0 |
| SecCore.CollapseRuns | sec_module/core.py:120 | collapsing keeps emptiness, turns a leading whitespace run into one space, keeps a leading non-space, and leaves no two adjacent whitespace characters |
| SecCore.CollapseRunsKeepsText | sec_module/core.py:120 | collapsing whitespace runs never changes the non-whitespace characters or their order |
| SecCore.CleanTextCollapsed | sec_module/core.py:120 | the cleaned text has no leading or trailing whitespace and no two adjacent whitespace characters |
| SecCore.CleanTextKeepsText | sec_module/core.py:120 | cleaning keeps the non-whitespace characters of the text, in order |
| SecCore.CollapseRunsOfCollapsed | sec_module/core.py:120 | collapsing a text that is already collapsed changes nothing |
| SecCore.CleanTextIdempotent | sec_module/core.py:119-120 | cleaning twice equals cleaning once |
| SecCore.RetryCalls | sec_module/core.py:206-228 | one chunk makes between 1 and 5 model calls; the n-th rate-limit wait is 10*2^n seconds, and a translated chunk then sleeps the 5-second base wait; a callback event is raised per back-off only when a callback is given |
| SecCore.RetryExhausted | sec_module/core.py:209-230 | a chunk is exhausted exactly when every remaining attempt hits a rate limit, and then it made one call per remaining attempt and appended only the failure marker |
| SecCore.RetryDecided | sec_module/core.py:209-228 | the chunk's outcome is decided by the first attempt that does not hit a rate limit: its text plus a blank line on success, the error note on any other error |
| SecCore.RetryAnswered | sec_module/core.py:211-227 | an attempt without a rate limit is the last call: a success appends its text and "\n\n", never the failure marker, and sleeps the 5-second base wait; another error appends "[Error translating Chunk k: …]" with no retry and no wait |
| SecCore.RetryWaited | sec_module/core.py:217-224 | a rate-limited attempt adds a wait of 10*2^retries seconds and one call, and then retries with the counter raised by one |
| SecCore.TranslateChunk | sec_module/core.py:206-230 | the retry loop as written, with its while-else, computes the chunk's retry outcome from zero retries |
| SecCore.ExhaustedOnlyAfterFiveRateLimits | sec_module/core.py:209-230 | the failure marker is appended exactly when all 5 attempts hit rate limits; a first-try success is one call that appends its text and waits only the base 5 seconds |
| SecCore.ProcessChunk | sec_module/core.py:142-230 | one pass of the chunk loop raises the "Processing Chunk i/n (len chars)..." event when a callback is given and then runs the retry loop |
| SecCore.Analyze | sec_module/core.py:131-232 | the report opens with "# T 10-K Report Analysis (Full Translation)" (or "Executive Summary" in another mode), carries "**Filing Date:** D", and continues with the chunks' texts in order; the events, waits and call count are those of the chunk-by-chunk analysis |
| SecCore.AnalysisCalls | sec_module/core.py:142-230 | a run over m chunks makes at least m and at most 5*m model calls |
| SecCore.AnalysisProgressFirst | sec_module/core.py:142-146 | before chunk i's model calls, the callback gets (i+1, number of chunks, the processing message), after every event of the earlier chunks |
| SecCore.AnalysisAppends | sec_module/core.py:142-230 | chunks are processed in order: each chunk only appends its own retry text to the report |
| SecCore.KeyRowsDistinct | sec_module/core.py:347-352 | each statement type's key-row list has no repeated label |
| SecCore.FilterKeepsMissingOrEmpty | sec_module/core.py:340-341 | a missing or empty frame is returned unchanged |
| SecCore.FilterSelectsKeyRows | sec_module/core.py:354-358 | when some key row is present, the result holds exactly the frame's rows labelled with a key, in key-list order, with the columns unchanged |
| SecCore.FilterFallsBackToHead | sec_module/core.py:359-361 | when no key row is present, the result is the first min(10, rows) rows of the frame |
| SecCore.WordBlocks | sec_module/core.py:460-472 | the line loop produces the blocks of the marker-stripped text split on newlines |
| SecCore.Blocks | sec_module/core.py:463-472 | there are never more blocks than lines |
| SecCore.ClassifyLine | sec_module/core.py:464-472 | a stripped blank line gives no block; one starting Item/Conclusion/Risk/Business gives a heading of the whole line; one starting "- " gives a bullet without that prefix; any other gives a paragraph of the line |
| SecCore.WordBlocksOneLine | sec_module/core.py:460-472 | no block of the converted document spans a newline |
| StockBot.Tagged | stock_bot.py:75-76 | each member of a group file becomes one item tagged with the group, in file order |
| StockBot.ExpandOneCases | stock_bot.py:65-83 | a ticker without '@' gives exactly one item in group "Individual"; "@NAME" gives one item per member of stock_data/name.json tagged "@NAME", in order, or none when that file is missing or unreadable |
| StockBot.ExpandTickers | stock_bot.py:63-83 | the expansion loop appends, ticker by ticker, what each ticker expands to |
| StockBot.ExpandedAppend | stock_bot.py:65-83 | expanding a concatenation of ticker lists is the concatenation of their expansions |
| StockBot.ExpandedOrigin | stock_bot.py:65-83 | every expanded item is either an individual ticker of the configuration or a member of a configured group whose file was read |
| StockBot.Dedup | stock_bot.py:85-91 | dedup keeps exactly the set of symbols and only items of the input |
| StockBot.FirstPositionsComplete | stock_bot.py:86-89 | every first occurrence of a symbol is kept |
| StockBot.FirstPositionsIncreasing | stock_bot.py:86-91 | the kept items appear in the order of their first appearance |
| StockBot.DedupKeepsFirstOccurrences | stock_bot.py:85-91 | the result has no repeated symbol, holds every first occurrence, and holds nothing but first occurrences (the first group wins) |
| StockBot.DedupItems | stock_bot.py:85-91 | filling the dict by symbol and listing its values gives the dedup, in first-appearance order |
| StockBot.TitleContainsCheckPart | stock_bot.py:390 | the post title built for a report always contains the title part the WordPress check looks for |
| StockBot.TagStringCases | stock_bot.py:303-322 | the tag string is "[S&P500/배당킹]", "[S&P500]", "[배당킹]" or "" according to membership of the two lists, S&P500 first; a missing list file gives no tag |
| StockBot.TagStringOfOne | stock_bot.py:320-322 | one tag gives "[" + tag + "]" |
| StockBot.DownloadIsUnpublished | stock_bot.py:140-175 | a report goes on to download only with a CIK, a filing URL and a recent-post listing that returned; no recent post has the title the bot would give it (with any tags), and the history does not hold True for its key; the download uses the filing's URL and date |
| StockBot.PostedReportIsSkipped | stock_bot.py:153-165 | once a report's post title is among the recent posts, the report is skipped by the WordPress check before any download |
| StockBot.IsDuplicate | stock_bot.py:156-160 | the scan with early break reports a duplicate exactly when some recent title contains the title part |
| StockBot.CheckReport | stock_bot.py:140-175 | the per-report checks decide as the decision function does |
| StockBot.History.constructor | stock_bot.py:98 | the history starts empty each run |
| StockBot.History.Record | stock_bot.py:398-409 | recording sets the key to the post outcome and changes nothing else |
| StockBot.RecordDecidesSkip | stock_bot.py:398-409 | after recording, the key is skipped exactly when the post succeeded, so a failed post stays retryable; no other key's skip changes |
| StockBot.ItemChecks | stock_bot.py:135-176 | an item makes at most one check per report type, all for its own symbol, and stops at its first download or at a recent-post listing that raises |
| StockBot.RunUpdates | stock_bot.py:107-118 | one progress update per item visited, in order, all of them when the job does not stop at a download |
| StockBot.RunChecksHaltedStays | stock_bot.py:153-176 | once a download or a raising listing is reached the job ends: later items add no check |
| StockBot.RunUpdatesHaltedStays | stock_bot.py:153-176 | once a download or a raising listing is reached the job ends: later items add no status update |
| StockBot.ScanItems | stock_bot.py:107-176 | the item loop gives the progress updates and checks of the run, and reports whether it ended at a download or a raising listing |
| StockBot.NoCredentialsEndsAtFirstFiling | stock_bot.py:140-155 | when every recent-post listing raises, no check gets past the listing: every item moves on for want of a CIK or a filing, or ends the job at the listing |
| StockBot.RunStockJob | stock_bot.py:50-176 | an empty ticker list ends the job after the first status update with no check; a raising 300-post listing ends it there too; otherwise the job checks the deduplicated expansion of the tickers against an empty history and the configured report types (default ["10-K"]) |
| StockBot.ProgressBounds | stock_bot.py:114 | every progress value lies in [0, 1) and the values strictly increase |
| StockBot.EmptyHistoryNeverSkips | stock_bot.py:168-172 | with the history empty, as it is before any post, no check is skipped by the history |
| StockBot.InterleavedImages | stock_bot.py:277-291 | the sections after the first take the images one each, in list order, while any are left |
| StockBot.LayoutImages | stock_bot.py:274-299 | every image appears exactly once and in order: one before each section while any are left, the rest in the trailing gallery |
| StockBot.LayoutText | stock_bot.py:274-291 | with the images taken out, the rebuilt body is exactly the original HTML |
| StockBot.InlineBeforeSection | stock_bot.py:280-291 | every inline image is directly followed by a section |
| StockBot.RenderSectionPieces | stock_bot.py:280-291 | a section is rendered as the image block, if an image is left, followed by "<h2>" and the section |
| StockBot.InterleaveImages | stock_bot.py:274-299 | the loop with its image counter builds exactly the rendering of the layout: leading part, sections with their images, then the gallery of leftovers |
| WordPress.AuthHeader | wp_utils.py:10-23 | it raises the missing-credentials ValueError exactly when WP_USER or WP_PASSWORD is unset or empty; otherwise the header holds exactly Authorization "Basic " + base64 of the UTF-8 "user:password", and Content-Type application/json |
| WordPress.AuthHeaderRoundTrip | wp_utils.py:18-21 | the token after "Basic " decodes (base64, then UTF-8) back to "user:password", and a user name without ':' is recovered with the password by splitting at the first ':' |
| Base64.Encode | wp_utils.py:19 | the encoding is 4*ceil(n/3) characters long and uses only the alphabet of section 4 of RFC 4648 and '=' |
| Base64.DecodeEncode | wp_utils.py:19 | decoding the base64 encoding gives back the bytes |
| Base64.CharSextetOfSextetChar | wp_utils.py:19 | every 6-bit value's alphabet character maps back to that value |
| Utf8.EncodeChar | wp_utils.py:19 | a character encodes to 1 to 4 bytes, one byte exactly for ASCII, and every byte after the first is a continuation byte |
| Utf8.Encode | wp_utils.py:19 | the encoding is never shorter than the text, and is as long as the text when the text is ASCII |
| Utf8.DecodeEncode | wp_utils.py:19 | UTF-8 decoding the encoding gives back the text |
| Utf8.EncodeAppend | wp_utils.py:19 | the encoding of a concatenation is the concatenation of the encodings |
| WordPress.MediaId | wp_utils.py:48-54 | no media id or 0 gives none; an integer gives itself; a non-empty text gives its `int` parse (surrounding whitespace, a sign, ASCII digits with single "_" between digits), or none when it does not parse |
| WordPress.PostPayload | wp_utils.py:39-54 | the payload always holds title, content and status "publish"; "categories" exactly when the list is non-empty; "featured_media" exactly when the id is an integer above 0; no other key |
| WordPress.InvalidMediaOnlyWarns | wp_utils.py:53-54 | an id that does not parse leaves the payload as if no id were given |
| WordPress.GroupedMediaId | wp_utils.py:48-52 | a media text of digit groups joined by "_", such as "1_000", is read as one number and sent as featured_media |
| Text.GroupedDigits | wp_utils.py:50 | `int` ignores one "_" between two digit groups: the text parses as the joined digits |
| WordPress.PostArticle | wp_utils.py:25-72 | without WP_URL nothing is sent and the result is None; missing credentials raise before sending; otherwise one request to /wp-json/wp/v2/posts with the auth header and payload, and the result is the reply's link exactly when the reply has status 201 (None for any other status or a raising request) |
| WordPress.UploadHeaders | wp_utils.py:92-97 | the upload headers are the auth headers without Content-Type and with Content-Disposition "attachment; filename=" + the base name; nothing else changes |
| WordPress.UploadImage | wp_utils.py:74-117 | without WP_URL nothing is sent; missing credentials raise; an unreadable file sends nothing; otherwise the request to /wp-json/wp/v2/media carries exactly Authorization and Content-Disposition, and the result is the reply's id exactly when the reply has status 201 (None otherwise) |
| WordPress.Summary | wp_utils.py:145-150 | a post maps to its id, date and link, with its rendered title or '제목 없음' when the title or its rendered field is missing; a title that is not an object raises |
| WordPress.Summaries | wp_utils.py:143-150 | the mapping succeeds exactly when every post maps, and then keeps one summary per post, in order |
| WordPress.GetRecentPosts | wp_utils.py:119-157 | without WP_URL the result is [] and nothing is sent; missing credentials raise; otherwise the request goes to WP_URL + "/wp-json/wp/v2/posts" with the auth header and per_page = limit, status publish, orderby date, order desc; a non-empty result comes only from a 200 reply whose posts all map, and such a reply gives exactly their summaries |
| WordPress.FirstMatchIsFirst | wp_utils.py:178-181 | the search matches exactly when some category's name equals the wanted one ignoring case, and then gives the id of the first such category |
| WordPress.EnsureCategory | wp_utils.py:159-201 | without WP_URL nothing is sent and the result is None; a 200 search with a case-insensitive match gives that id and creates nothing; otherwise, including a failed search, it creates the category and returns the new id only on 201 |
| Status.Record | grant_bot.py:14-20 | the status record has exactly the keys state, message, progress and timestamp, holding the update's fields and the clock's text |
| Status.StatusFile.Write | grant_bot.py:14-25 | a writable status file is replaced by the new record as a whole; a failed write leaves it as it was |
| Status.StatusFile.constructor | grant_bot.py:12 | the status file starts with whatever content it had |
| GrantBot.TextOr | grant_bot.py:57-60 | an absent element gives the default; a present one gives its text, which may itself be missing |
| GrantBot.ItemOf | grant_bot.py:57-70 | absent elements give title "No Title" and link, description and pub_date ""; a present title is taken as it is |
| GrantBot.ItemsOf | grant_bot.py:56-70 | one record per item element, in document order |
| GrantBot.ParsedShape | grant_bot.py:48-74 | an unparsable document gives [] instead of raising; otherwise the first min(limit, items) items in document order, each read with its defaults, so never more than limit |
| GrantBot.ParseRssItems | grant_bot.py:52-74 | the append loop gives the parsed items |
| GrantBot.QueryMentionsEveryKeyword | grant_bot.py:114 | the " OR " query contains every keyword of the category |
| GrantBot.ExpertAnalysis | utils/grant_ai.py:19-52 | without an API key the analysis is the missing-key notice; otherwise the model's text, or the "⚠️ 분석 중 오류 발생: …" note when the call raises |
| GrantBot.ProcessGrantItem | grant_bot.py:149-166 | the item is skipped exactly in dry-run mode; otherwise it is rejected exactly when the analysis contains "오류 발생"; a posted item has the title "[tag] title - 전문가 분석" and its content contains the analysis |
| GrantBot.PostTitleNamesItem | grant_bot.py:166 | the post title starts with "[tag] " and contains the item's title |
| GrantBot.FailedAnalysisIsRejected | grant_bot.py:161-163 | with dry run off, an analysis call that raises never leads to a post |
| GrantBot.MissingKeyNoticeIsPosted | utils/grant_ai.py:19-20 | the missing-key notice has no error marker, so with dry run off the item is posted with it |
| GrantBot.FetchedItems | grant_bot.py:117-120 | a failed fetch gives no items; a fetched feed gives at most the limit |
| GrantBot.CategoryItems | grant_bot.py:113-120 | a category gives at most 3 items, and none when it has no keywords |
| GrantBot.HandleAllRecords | grant_bot.py:123-124 | the batch is the first items in order, each with its tag and its item-processing outcome: all of them unless a post raised, and nothing after the raise |
| GrantBot.HandleItems | grant_bot.py:123-124 | the item loop gives the batch of the handling function and reports whether its last post raised |
| GrantBot.HandleItem | grant_bot.py:123-124 | one pass of the item loop extends the batch by the next item and reports whether its post raised |
| GrantBot.UpToRaiseNext | grant_bot.py:107-146 | a loop that has not stopped hands on the next element's items and starts one more element |
| GrantBot.UpToRaiseStays | grant_bot.py:107-146 | after a post raised, later elements add nothing and are not started |
| GrantBot.UpToRaiseDone | grant_bot.py:107-146 | a loop that stops at the end or right after a raise has handed on the items of the whole loop |
| GrantBot.UpToRaiseRaisesLast | grant_bot.py:107-146 | when no element's own items go on past a raise, nothing is handled after a raise in the whole loop |
| GrantBot.UpToRaiseFrom | grant_bot.py:107-146 | every item handed on comes from an element of the loop |
| GrantBot.UpToRaiseBounded | grant_bot.py:107-146 | elements that each hand on at most limit items give at most limit items per element |
| GrantBot.UpToRaiseSingles | grant_bot.py:123-124 | a loop whose elements each give one item hands on the first elements' items in order, all of them unless a post raised |
| GrantBot.StartedShortOnlyOnRaise | grant_bot.py:107-146 | a loop stops short of its last element only after a post raised |
| GrantBot.Started | grant_bot.py:107-146 | a loop starts at most as many elements as it has |
| GrantBot.RaisesLastJoin | grant_bot.py:105-146 | items without a raise followed by items that raise only last raise only last |
| GrantBot.AbortedJoin | grant_bot.py:105-146 | joined items end with a raise exactly when the second part does, or, when it is empty, the first |
| GrantBot.SearchCategories | grant_bot.py:105-125 | the category loop gives one status update and (with keywords) one query per category reached, hands on their items in order until a post raises, and reports the raise; without a raise every handled item counts as published unless in dry run |
| GrantBot.SearchCategory | grant_bot.py:107-125 | one turn of the category loop keeps the loop's state the state after one more category |
| GrantBot.SearchedNext | grant_bot.py:107-125 | one more category adds its status update, its query (if it has keywords), its items and its raise to the loop's state |
| GrantBot.CategoryBatch | grant_bot.py:113-124 | a category without keywords or with a failed fetch hands on nothing; otherwise its parsed items, handled until a post raises, and whether one did |
| GrantBot.ReachedShortOnlyOnRaise | grant_bot.py:105-125 | the category loop stops short of the last category only after a post raised |
| GrantBot.ReadSources | grant_bot.py:131-146 | the custom-source loop handles each readable source's items in order until a post raises, and reports the raise |
| GrantBot.ReadSource | grant_bot.py:133-146 | a failed fetch adds nothing; otherwise the source's items are handled until a post raises |
| GrantBot.RunGrantJob | grant_bot.py:89-146 | the start update, one update per category reached and the sources update when there are sources and no post raised; the queries of the categories reached; every handled item; whether a post raised, which ends the job; for a job that returns, total_found counts every handled item and total_published counts the category items whenever dry run is off, whatever the post outcome |
| GrantBot.JobRaisesLast | grant_bot.py:89-146 | nothing is handled after a post that raises, in the job as a whole |
| GrantBot.SearchProgressBounds | grant_bot.py:110 | category progress 0.1 + c/n*0.3 lies in [0.1, 0.4) and increases with c |
| GrantBot.SourceItemsTagged | grant_bot.py:139-146 | each custom source gives at most 5 items, all tagged "기타공고" |
| GrantBot.CategoryItemsBounded | grant_bot.py:120-124 | each category gives at most 3 items, each tagged with its category's name |
| GrantBot.QueriesSkipEmpty | grant_bot.py:113-114 | categories without keywords give no query; when all have keywords there is one " OR " query per category, in order |
| GrantBot.DryRunPostsNothing | grant_bot.py:156-158 | in dry run no item of any category or source is analysed or posted, so no post raises and the job reaches every category and source |
| GrantBot.NoCredentialsEndsAtFirstPost | grant_bot.py:181 | when every post raises, no item but the last handled was posted: the job ends at its first post |
| Batch.ChunkEvents | sec_module/batch_processor.py:53-55 | each chunk message reaches the callback as (i+1, total, "[T] " + message) |
| Batch.NormaliseAll | sec_module/batch_processor.py:24 | each ticker is stripped and upper-cased before use |
| Batch.StopIndex | sec_module/batch_processor.py:18-22 | the loop stops at the first index where the stop signal is set, and never before |
| Batch.ProcessBatch | sec_module/batch_processor.py:6-81 | the batch is the run over the normalised tickers before the first stop, closed by the "Stopped by user." event when the stop came; each pass checks for its report file afresh, so a report saved earlier in the run counts as existing |
| Batch.ResultsAreSavedReports | sec_module/batch_processor.py:26-66 | the returned file names are exactly reports/T.docx of each processed ticker with no report on disk before the run whose analysis returned a non-empty report that was saved, once per ticker however often it is listed, in the order of first occurrence |
| Batch.SavedDistinct | sec_module/batch_processor.py:26-66 | no file name is returned twice, since a ticker listed again finds the report its first pass saved |
| Batch.OnDiskNowSaved | sec_module/batch_processor.py:27-33 | when a ticker's pass starts, its report file exists exactly when it was on disk before the run or an earlier occurrence of the same ticker saved it (save_to_word writes reports/T.docx, core.py:502-503) |
| Batch.SavesNowSaved | sec_module/batch_processor.py:27-66 | a pass saves a report exactly when its ticker yields one and is not an earlier ticker listed again |
| Batch.SavedMembers | sec_module/batch_processor.py:60-66 | a file name is returned exactly when some ticker with no report on disk before the run has a non-empty, saved report of that name |
| Batch.ExistingReportNotFetched | sec_module/batch_processor.py:27-41 | a ticker whose reports/T.docx exists before the run is never fetched; one whose first pass saved its report is fetched once however often it is listed; any other ticker is fetched once per occurrence |
| Batch.RunFetched | sec_module/batch_processor.py:18-41 | the run fetches, in order, each ticker whose report file does not exist when its pass starts |
| Batch.FetchedCounts | sec_module/batch_processor.py:27-41 | the fetch order so described fetches each ticker the number of times stated for ExistingReportNotFetched |
| Batch.BatchReadyEveryFifth | sec_module/batch_processor.py:60-74 | every "BATCH_READY" call comes on a ticker at index i with (i+1) % 5 == 0 whose pass saved its report (the first occurrence of a ticker that yields one), carrying exactly the saved reports up to and including its own; with a callback, every such ticker draws one |
| Batch.EventsBeforeStop | sec_module/batch_processor.py:19-38 | every callback of the first k tickers is numbered between 1 and k with the full total |
| Dashboard.ShowStatus | dashboard.py:100-144 | no status file gives the no-record card; a missing state counts as idle, a missing message as '대기 중', a missing timestamp as ''; the running card comes only from state "running" |
| Dashboard.RunningDefaults | dashboard.py:107-129 | a running record without progress or message is shown with progress 0.0, the message '대기 중' and its timestamp ('' when absent) |
| Dashboard.DisplayWithoutPipe | dashboard.py:122-126 | a message without the pipe character is shown whole |
| Dashboard.DisplayProgressMessage | dashboard.py:122-126 | the stock bot's progress message, whose message, group and ticker are separated by pipe characters, is shown as its first field alone |
| Dashboard.StockProgressShown | dashboard.py:109-129 | the stock bot's progress record is shown as a running card with progress i/n, the first message field and the timestamp |
| Dashboard.SettledRecordShown | dashboard.py:135-139 | any record whose state is not "running" is shown as a settled card with its state, whole message and timestamp |
| Dashboard.PartitionComplete | dashboard.py:169-170 | every ticker lands in exactly one of the individual and group lists: the counts add up and together they hold the same multiset |
| Dashboard.PartitionMembers | dashboard.py:169-170 | a ticker is in the group list exactly when it starts with '@', and in the individual list exactly when it does not |
| Dashboard.PartitionKeepsOrder | dashboard.py:169-170 | both lists keep the order of the configuration |
| Dashboard.WithTicker | dashboard.py:197-198 | adding keeps the old list as a prefix, adds at most the new ticker, and keeps a duplicate-free list duplicate-free |
| Dashboard.TickerList.constructor | dashboard.py:163 | the list starts as the configured tickers |
| Dashboard.TickerList.Add | dashboard.py:195-203 | the upper-cased input is appended and saved only when non-empty and not already present; a present ticker gives the warning; the list never loses a ticker |
| Dashboard.RemoveFirst | dashboard.py:208 | removal takes out one occurrence of the ticker and leaves the others |
| Dashboard.RemoveFirstDistinct | dashboard.py:208 | in a duplicate-free list the removed ticker is gone afterwards and the list stays duplicate-free |
| Dashboard.TickerList.Remove | dashboard.py:205-211 | the chosen ticker is removed and saved unless the placeholder "선택하세요" is chosen, in which case nothing changes |
| Dashboard.KeptKeywords | dashboard.py:322 | the saved keywords are exactly the edited rows that are not blank after stripping |
| Dashboard.GrantSettings.constructor | dashboard.py:292-389 | the settings start as the stored categories, crawler map, RSS list and AI list |
| Dashboard.GrantSettings.CreateCategory | dashboard.py:298-307 | a category is created, empty, exactly when the stripped name is non-empty and not already a category; nothing else changes |
| Dashboard.GrantSettings.SaveKeywords | dashboard.py:321-326 | the selected category's keywords become the non-blank edited rows; nothing else changes |
| Dashboard.GrantSettings.DeleteCategory | dashboard.py:329-333 | the selected category is removed; nothing else changes |
| Dashboard.CrawlerMap | dashboard.py:357-362 | the toggle map has exactly the keys kstartup, sbiz, export and mssd |
| Dashboard.GrantSettings.ApplyCrawlers | dashboard.py:344-368 | the crawler map is saved exactly when the toggled map differs from the current one (the all-on defaults when none is stored) |
| Dashboard.UntouchedTogglesQuiet | dashboard.py:344-364 | toggles left at their shown values never trigger a save |
| Dashboard.OtherKeysAlwaysSaved | dashboard.py:364 | a stored map with other keys than the four always differs from the toggles, so it is replaced |
| Dashboard.UrlLines | dashboard.py:418 | every parsed URL is non-blank and has no surrounding whitespace |
| Dashboard.UrlLinesOfJoin | dashboard.py:418 | parsing URLs that are already clean and joined by newlines gives them back |
| Dashboard.NoUrlLines | dashboard.py:418-420 | empty input parses to no URL, so nothing is registered |
| Dashboard.ProbePaths | dashboard.py:453-459 | a probed feed is one of the common paths joined to the site, answering 200 with "<rss" in its text |
| Dashboard.DetectFeed | dashboard.py:436-461 | an unreachable or non-200 site gives no feed; a site whose stripped text starts with "<?xml" or contains "<rss" is its own feed; any other feed is the resolved link href or a probed common path |
| Dashboard.RouteOne | dashboard.py:428-472 | a URL already in either list is only reported; any other URL is added to exactly one list, the RSS list (as the resolved feed) when a feed is detected, else the AI list, and the count rises by one |
| Dashboard.RouteExtends | dashboard.py:428-472 | the bulk loop only appends to the two lists, and the added count equals the number of entries appended |
| Dashboard.RouteNamesUrls | dashboard.py:428-433 | the loop reports one outcome per parsed URL, in order |
| Dashboard.RouteSkipsListed | dashboard.py:431-433 | a URL listed before the bulk input started is reported as already listed |
| Dashboard.RouteAddsLand | dashboard.py:464-472 | every reported addition is in the list it was added to at the end |
| Dashboard.GrantSettings.RegisterUrls | dashboard.py:417-478 | the URL lists and count are the routing of the parsed input over the current lists, saved exactly when something was added; nothing else changes |
| Marketing.ItemsOf | marketing_bot.py:35-41 | the entries map to items exactly when every entry has its fields, one item per entry, in order |
| Marketing.News | marketing_bot.py:27-45 | at most 3 items per keyword; a failed feed gives []; a non-empty result is the first min(3, entries) entries mapped in order, and it is non-empty whenever those entries all map |
| Marketing.FetchNews | marketing_bot.py:33-45 | the append loop over the first three entries gives the keyword's news, or [] when reading an entry raises |
| Marketing.Put | marketing_bot.py:112 | storing under a new keyword appends it; storing under a known one keeps the keys as they were |
| Marketing.PutMembers | marketing_bot.py:112 | after storing, the keyword holds the new items and every other stored entry was already there |
| Marketing.CollectStored | marketing_bot.py:108-113 | every stored keyword holds exactly its fetched news, which is non-empty |
| Marketing.CollectKeys | marketing_bot.py:108-113 | a keyword is stored exactly when it is configured and its news is non-empty |
| Marketing.CollectNothing | marketing_bot.py:106-115 | total_count is 0 exactly when nothing was stored |
| Marketing.CollectTotal | marketing_bot.py:108-113 | with distinct keywords, total_count is the number of stored stories |
| Marketing.SearchProgressBounds | marketing_bot.py:109 | the search progress 0.1 + i/n*0.2 lies in [0.1, 0.3) and increases with i |
| Marketing.SearchUpdates | marketing_bot.py:108-109 | one "[SEARCH] 'kw' 검색 중..." status update per keyword, in order |
| Marketing.CollectNews | marketing_bot.py:105-113 | the collection loop gives the stored news, the total count and the search updates |
| Marketing.SectionsInNewsText | marketing_bot.py:54-58 | the prompt text contains each stored keyword's section: its "[키워드: kw]" header and its lines |
| Marketing.LinesHoldEachItem | marketing_bot.py:57-58 | a keyword's lines contain "- title (source)" for each of its items |
| Marketing.Summary | marketing_bot.py:47-79 | with no model the result is the fixed no-key HTML; a model that returns gives its text; a model error gives the error HTML with the message |
| Marketing.SummarizeNews | marketing_bot.py:47-79 | the model is asked nothing when there is none, and otherwise exactly once with the news text |
| Marketing.CleanHtmlNoFence | marketing_bot.py:133 | the cleaned HTML contains no "```" |
| Marketing.NoFenceAfterRemoval | marketing_bot.py:133 | removing every "```" leaves no "```", even where removal joins backticks |
| Marketing.RunMarketingJob | marketing_bot.py:98-154 | the run is the marketing state machine over the keywords, feeds, model and post, including a post that raises |
| Marketing.Conclude | marketing_bot.py:115-154 | the run after collection finishes as the state machine says: idle without news, otherwise the summary, the post and its closing status |
| Marketing.RunOutcome | marketing_bot.py:98-154 | the run starts with the start update; with no news it ends idle at 0.0 without asking the model or posting; otherwise it posts and ends idle at 1.0 with the date after a successful post, error at 0.0 after a failed one, and, when the post raises, the job ends with the running "[POST]" status last |
| Marketing.PostedReportUnfenced | marketing_bot.py:133-145 | the posted content is the fixed head, a fence-free cleaned summary and the fixed tail |
| Marketing.RunProgressInRange | marketing_bot.py:100-154 | every status update of the run has progress between 0 and 1 |
| SectorSplitter.FileNameSpelled | utils/sector_splitter.py:27 | the file name is "sp500_" + the sector with each space turned into '_' and each letter lower-cased + ".json" |
| SectorSplitter.FileNameClean | utils/sector_splitter.py:27 | a sector file name has no space and no capital letter |
| SectorSplitter.MappedMembers | utils/sector_splitter.py:23-34 | a ticker is mapped exactly when some sector lists it |
| SectorSplitter.OthersExact | utils/sector_splitter.py:42 | a ticker is among the others exactly when it is in the full list and in no sector list |
| SectorSplitter.OthersFileWritten | utils/sector_splitter.py:37-46 | sp500_others.json is written exactly when sp500.json exists and some of its tickers is in no sector |
| SectorSplitter.GenerateFiles | utils/sector_splitter.py:19-46 | one file per sector, named from the sector and holding its ticker list unchanged, and the others file as derived from the full list |
| SectorSplitter.IndustrialsKeepsDuplicate | utils/sector_splitter.py:12 | the Industrials list keeps PCAR twice, and so does its file |
| SectorSplitter.TickersInTwoSectors | utils/sector_splitter.py:11-15 | VTR is listed under both Health Care and Real Estate and ALB under both Health Care and Materials, so the sector files overlap |
| Scrape.GetTextTrimmed | test_sources_v2.py:36 | the title text read with strip=True has no leading or trailing whitespace |
| Scrape.GetTextOfBlanks | test_sources_v2.py:36 | a tag whose strings are all whitespace gives the empty title |
| Scrape.SliceEnd | test_sources_v2.py:24 | `rows[:limit]` keeps min(limit, n) rows for a non-negative limit and drops the last -limit rows for a negative one |
| Scrape.First | test_sources_v2.py:28-32 | the fallback search finds the first anchor that satisfies the test, or reports that none does |
| Scrape.LeftCellWins | test_sources_v2.py:25 | the first anchor inside a `td.left` cell is the title tag, whatever the other anchors are |
| Scrape.NoTitleTag | test_sources_v2.py:25-34 | a row has no title tag exactly when none of its anchors is in a `td.left` cell or has 'goDetail' in its onclick |
| Scrape.FindTitleTag | test_sources_v2.py:25-32 | the search loop with its break picks the title tag: the left-cell anchor, else the first anchor calling goDetail |
| Scrape.Kept | test_sources_v2.py:24-34 | rows without a title tag are skipped: every kept tag belongs to a row, and all rows are kept exactly when each has a title tag |
| Scrape.ReportRows | test_sources_v2.py:24-47 | the row loop appends one title per kept row among the first `limit` rows, even when its link is empty, and derives the link from its onclick |
| Scrape.ReportBounds | test_sources_v2.py:24-47 | never more titles than rows or than a non-negative limit, and exactly the sliced row count when every row has a title tag |
| Scrape.DigitRun | test_sources_v2.py:40 | `\d+` matches the longest run of leading digits |
| Scrape.SearchLeftmost | test_sources_v2.py:40 | the regex search gives the match at the leftmost position where one starts, or none when no position matches |
| SourcesV2.IdAt | test_sources_v2.py:40 | a captured id is a non-empty run of digits following a "goDetail(" at that position |
| SourcesV2.LinkForms | test_sources_v2.py:38-43 | `goDetail('N')`, `goDetail("N")` and `goDetail(N)` all give the link ".../boardView?bbs_id=1&ntt_id=N" |
| SourcesV2.NoCallNoLink | test_sources_v2.py:38-43 | an onclick without "goDetail(" gives the empty link |
| SourcesV2.FetchExportVoucher | test_sources_v2.py:6-51 | a failed request gives no titles; otherwise one title per kept row among the first `limit` `tbody tr` rows, with its lenient link |
| SourcesV2.XmlDeclNoWarning | test_sources_v2.py:65 | a response that starts with "<?xml" after leading whitespace draws no warning |
| SourcesV2.EntryTitles | test_sources_v2.py:86-88 | the entry loop appends titles in order and stops at the first entry without one, where the raised error ends the function |
| SourcesV2.FallbackDefaults | test_sources_v2.py:79-81 | an item without title or link gives "No Title" and "" |
| SourcesV2.FallbackAt | test_sources_v2.py:79-83 | the fallback gives item i's own title and link for every item |
| SourcesV2.FetchMssd | test_sources_v2.py:53-91 | the warning fires exactly when the stripped text does not start with "<?xml" and has no "<rss"; with no feed entries the titles are the fallback items' titles capped at `limit`; otherwise the feed entries' titles capped at `limit` |
| SourcesV2.EntryLoop | test_sources_v2.py:86-88 | the loop over the entries gives the entry titles |
| Sources.StrictIdAt | test_sources.py:43 | an id is captured only from `goDetail('` followed by digits and `')` |
| Sources.SingleQuoted | test_sources.py:43-46 | `goDetail('N')` gives the link ".../boardView?bbs_id=1&ntt_id=N" |
| Sources.NoSingleQuoteNoLink | test_sources.py:42-46 | an onclick without a single quote, such as `goDetail("N")` or `goDetail(N)`, gives the empty link |
| Sources.FetchExportVoucher | test_sources.py:1-53 | a failed request gives no titles; otherwise the `tbody tr` rows, or every `tr` when there are none, and one title per kept row among the first `limit` |

## Left out

- Network I/O: the SEC endpoints, the WordPress REST calls, Google News, Pexels, Replicate, Cloudinary and yfinance. Their replies are inputs (status code, body fields, or a raised error).
- Gemini and `utils/grant_ai.py`: each call is an oracle returning a text or a raised message. Prompt texts are not modelled.
- HTML, XML and feed parsing (BeautifulSoup, ElementTree, feedparser): their results are inputs, as rows with anchors, items with elements, and entries with titles. `soup.get_text` in `extract_sections` is not modelled; only its whitespace step is.
- Rendering: Streamlit widgets and CSS, matplotlib, python-docx styling and tables (`create_key_metrics_table`, `df_to_word_table`, `set_table_border`), and the report's fonts and HTML wrapper.
- Float formatting of metrics and table values. Progress values are Dafny reals, used for bounds and order only.
- Side effects: subprocess launches, `time.sleep`, and the `schedule` loop of main.py. The waits of the chunk retry loop (the back-off and the 5-second base wait, sec_module/core.py:215 and 223) are recorded as values and not slept. The other sleeps are not recorded: the 2 seconds after each saved batch report (sec_module/batch_processor.py:69), the 0.1 seconds in `get_sec_data` (sec_module/core.py:105), the dashboard's pauses and the scheduler loops.
- Clocks and files: timestamps and today's date are parameters. File contents and existence are inputs, and writes are results.
- `get_sec_data`, `get_financials`, `save_to_word` beyond its line rule, and `save_to_file` chain HTTP or file calls. Batch.ProcessBatch receives their combined outcome per ticker as an input.
- The stock bot after the download check. `core.download_filing_html` does not exist (stock_bot.py:176), `markdown` is never imported (stock_bot.py:205), `tag_str` is read before it is assigned (stock_bot.py:215), and `history_file` is undefined (stock_bot.py:402). Publishing, the featured image and the final post are therefore modelled as separate pieces: tags, title, interleaving, the history update. The end-to-end pipeline is not claimed to publish.
- `test_sources.py` has no imports at all, so as written each call raises inside its `try`. Only its extraction logic is modelled.
- Thin wrappers and ad hoc scripts: `image_factory.py`, `image_uploader.py`, `utils/ads.py`, `wordpress_test.py`, `test_wp.py`, `test_featured_image.py`, `test_sbiz.py`, `debug_category.py`, `debug_repost_grant.py`.
- Dashboard widgets outside the core:
  - the report-type picker;
  - the per-source delete buttons;
  - the published-posts tab;
  - the bot launch buttons.
- Text.Upper: Python's `str.upper` and `str.lower` are modelled on ASCII letters only. Tickers, sector names and category names are ASCII.
- Scrape.DigitRun: Python's `\d` in a `str` pattern also matches non-ASCII decimal digits (such as Arabic-Indic or full-width digits). The model matches ASCII `0`-`9` only, so SourcesV2.IdAt and Sources.StrictIdAt capture no id made of such digits, where the scrapers would.
- WordPress.MediaId: `int()` also reads non-ASCII decimal digits (such as Arabic-Indic or full-width digits), and truncates a float argument. The model reads ASCII digits only and has no float argument; the callers pass an integer id or its text.
- Text.ParseInt: in the same way, it reads ASCII decimal digits only.
- Utf8.Encode: Dafny characters are Unicode scalar values, so Python's error on lone surrogates cannot arise.
- StockBot.RunStockJob: it states the run only up to the first download or the first raising recent-post listing, where the source ends the job.
- Marketing.CollectTotal: it is stated for distinct keywords only. A repeated keyword is counted twice in `total_count` but stored once.
- Dashboard.TickerList.Remove: it requires the choice to be the placeholder or a listed ticker. The select box offers nothing else.
- Batch.ProcessBatch: the pipeline outcome `work` is a function of the ticker, so a ticker listed again after a failed pass fails again in the same way; the source would call the network a second time and might succeed. A save that raises is taken to have written no file.
- Batch.ProcessBatch: the "BATCH_READY" call hands the callback the live `results` list (sec_module/batch_processor.py:74), so later appends are visible to whoever keeps it. The model's event carries a copy of the list at that moment.
- SecCore.GetCik: any request, status or JSON error is one failed-fetch input. A missing key in an entry ends the search with None, as the exception handler does, and `cik_str` is taken to be a non-negative integer.
