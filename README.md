# research-briefing-bot, modelled in Dafny

The bot collects recent AI research items and sends one daily briefing to Slack. It
reads company and lab blog feeds, AI-safety blog feeds, and the arXiv API. A **collect**
run fetches these feeds, drops anything already notified, remembers which arXiv papers
a blog post mentioned, and appends the new items to a date-keyed **daily buffer** in a
JSON state file. A **brief** run reads the whole buffer. It renders a Block Kit message,
a Markdown file and a PDF, sends and uploads them, and only then clears the buffer.

This project models the core of that pipeline:

- **State engine** (`src/state.py`):
  - module `StateModel` describes the persisted document and what each operation makes
    of it;
  - module `State` holds class `StateStore`, whose methods change its four fields in
    place, exactly as those functions say.
- **Orchestration** (`src/main.py`), in module `App`:
  - `run_collect`, with the paper split into blog-linked and keyword-matched papers, and
    the failure path of the arXiv step;
  - `run_brief`, which acknowledges the buffer only after every send and upload;
  - the mode dispatch.
- **Feed parsing**:
  - module `BlogClient` covers arXiv ID scanning, HTML stripping and the non-date part of
    `_parse_entry`;
  - module `ArxivClient` covers ID, category, author and link extraction, keyword
    matching and the query string.
- **Rendering** (`src/slack.py`), in module `Slack`: truncation, HTML escaping, the item
  views, and the section layout that the message and the Markdown share.

Modules `Common` and `Records` hold the shared helpers and record types.

The model does no I/O and reads no clock:

- the state file is a `Stored` value (missing, corrupt, or a parsed document whose
  top-level keys may be absent);
- fetches are `Fetch` values (failed, or a list of items);
- the Slack and upload results are an `Outcomes` value;
- the time is a `Clock(now, today)`. `now` is whole seconds and `today` is a day number,
  both supplied by the caller.

Timestamps are ordered as numbers, which stands for the source's comparison of ISO-8601
strings of one offset.

## Model

| member | source | states |
|---|---|---|
| StateModel.Pruned | src/state.py:74-111 | `notified_ids` keeps exactly the entries strictly newer than now − 72 h. `notified_blog_urls` keeps exactly those newer than now − 30 days. The cross-references keep exactly those whose `added_at` is present and newer than now − 30 days. The buffer keeps exactly the days at or after today − 3. Kept entries are unchanged |
| StateModel.PruneBoundaries | src/state.py:74-111 | An ID stamped exactly at the cutoff is dropped and one a second later is kept. The day exactly at the buffer cutoff is kept and the day before it is dropped |
| StateModel.PruneIdempotent | src/state.py:74-111 | Pruning twice with the same clock is pruning once |
| StateModel.PruneKeepsBufferDeduped | src/state.py:104-111 | Pruning keeps every day's lists free of duplicate natural keys |
| StateModel.Unseen | src/state.py:116-121 | The result is a sub-list of the input, holding exactly the items whose key is not notified |
| StateModel.UnseenOfConcat | src/state.py:116-121 | Filtering distributes over concatenation, so the input order is kept |
| StateModel.FilterNewPapers | src/state.py:116-121 | A paper is returned iff it is in the input and its ID is not in `notified_ids` |
| StateModel.FilterNewBlogPosts | src/state.py:136-141 | A post is returned iff it is in the input and its URL is not in `notified_blog_urls` |
| StateModel.Assign | src/state.py:128-129 | Every given key maps to the value, other keys keep their value, and no other key appears |
| StateModel.MarkedNotified | src/state.py:124-131 | Every given ID is notified with `now`. Other surviving entries are unchanged and newer than the cutoff, and every such entry survives. The result is the assignment followed by the full prune |
| StateModel.RecordPosts | src/state.py:153-161 | The cross-reference keys are the old keys plus every mentioned ID. Entries not mentioned are unchanged |
| StateModel.LatestMentionWins | src/state.py:153-161 | An ID maps to the record of the last post in the list that mentions it, stamped `now` |
| StateModel.BlogMarked | src/state.py:144-161 | Every post URL maps to `now` and other URLs keep their stamps. The URL keys grow by exactly the posts' URLs and the cross-reference keys by exactly the mentioned IDs. `notified_ids` and the buffer are untouched, so nothing is pruned |
| StateModel.LookupBlogForArxiv | src/state.py:164-168 | The record is present iff the map has the ID, and it is the stored record |
| StateModel.Consumed | src/state.py:171-173 | The lookup of the ID then gives nothing and every other lookup is unchanged. It does nothing when the ID is absent, and touches no other field |
| StateModel.CrossReferenceRoundTrip | src/state.py:144-173 | After marking, the lookup gives the last mentioning post's record. After consuming it, the lookup gives nothing |
| StateModel.AppendNew | src/state.py:178-229 | The existing list is an unchanged prefix and every appended item comes from the input. The keys become exactly the old keys plus the input's keys. A list with unique keys stays unique, so duplicates within one batch collapse too |
| StateModel.AppendNewOfKnown | src/state.py:182-186 | Appending items whose keys are all present changes nothing |
| StateModel.AppendNewIdempotent | src/state.py:178-229 | Appending the same batch twice leaves exactly one copy of each key |
| StateModel.AppendNewOfOne | src/state.py:182-186 | One item is appended exactly when its key is not yet in the list |
| StateModel.AppendNewOfConcat | src/state.py:182-186 | Appending `a + b` is appending `a`, then `b`. With the one-item case, this fixes the appended part: the first item of each new key, in input order |
| StateModel.BufferBlogPostsNoRebuffer | src/state.py:178-186 | Buffering posts whose URLs are outside a set adds no post with a URL in it |
| StateModel.BufferSafetyPostsNoRebuffer | src/state.py:189-197 | Buffering safety posts whose URLs are outside a set adds no post with a URL in it |
| StateModel.BufferArxivPapersNoRebuffer | src/state.py:200-208 | Buffering papers whose IDs are outside a set adds no paper with an ID in it |
| StateModel.BufferLinkedPapersNoRebuffer | src/state.py:211-229 | Buffering merged papers whose IDs are outside a set adds no item with an ID in it |
| StateModel.MarkNotifiedNoRebuffer | src/state.py:104-131 | Marking IDs only prunes days of the buffer, so it adds nothing to it |
| StateModel.AppendNewFrom | src/state.py:182-186 | Every item of the result was in the list or in the batch |
| StateModel.WithDay | src/state.py:38-42 | The day is present afterwards. An existing day, and the whole buffer, are untouched. A missing day is added with four empty lists |
| StateModel.BufferedBlogPosts | src/state.py:178-186 | Today's blog list is the append of the posts, and no other list or field changes. A deduplicated buffer stays deduplicated |
| StateModel.BufferedSafetyPosts | src/state.py:189-197 | The same, for today's safety list |
| StateModel.BufferedArxivPapers | src/state.py:200-208 | The same, for today's keyword-paper list, keyed by arXiv ID |
| StateModel.BufferedLinkedPapers | src/state.py:211-229 | The same, for today's linked-paper list, keyed by the paper's arXiv ID |
| StateModel.BufferBlogPostsIdempotent | src/state.py:178-186 | Buffering the same posts twice is buffering them once |
| StateModel.BufferSafetyPostsIdempotent | src/state.py:189-197 | Buffering the same safety posts twice is buffering them once |
| StateModel.BufferArxivPapersIdempotent | src/state.py:200-208 | Buffering the same papers twice is buffering them once |
| StateModel.BufferLinkedPapersIdempotent | src/state.py:211-229 | Buffering the same linked items twice is buffering them once |
| StateModel.AggregateKeysSplit | src/state.py:243-248 | The ascending-date concatenation over a set of days is the part before any date followed by the part from it on |
| StateModel.PeekOfPrunedIsSuffix | src/state.py:104-111 | What peek returns is the days before the buffer cutoff followed by the days that pruning keeps. Pruning therefore removes a prefix of the briefing |
| StateModel.PeekWithNewestDay | src/state.py:243-248 | Adding a day later than every buffered day appends its lists at the end of each category |
| StateModel.Acked | src/state.py:258-260 | The buffer is empty, peek then gives four empty lists, and the other three fields are unchanged |
| StateModel.MigrateIds | src/state.py:56-59 | A list of IDs becomes a map with exactly those keys, all stamped `now`. A map is kept |
| StateModel.LoadState | src/state.py:45-64 | A missing or corrupt file gives the all-empty default. A list-format `notified_ids` is migrated. Missing keys get empty defaults and present keys are kept |
| StateModel.MigratedIdsAreSeen | src/state.py:56-59 | After an old list-format file is loaded, no listed ID passes the new-paper filter, and each listed ID is stamped `now` |
| State.AppendUnseen | src/state.py:182-186 | The loop that grows an `existing` key set appends exactly the items of the `AppendNew` function |
| State.StateStore.FromDoc | src/state.py:45-64 | The store holds the given document |
| State.StateStore.EnsureBufferDay | src/state.py:38-42 | The buffer becomes `WithDay` of the old buffer, and nothing else changes |
| State.StateStore.PruneBuffer | src/state.py:104-111 | The buffer keeps exactly the days at or after today − 3, and nothing else changes |
| State.StateStore.PruneOldIds | src/state.py:74-101 | The new state is `Pruned` of the old one |
| State.StateStore.MarkNotified | src/state.py:124-131 | The new state is `MarkedNotified` of the old one |
| State.StateStore.MarkBlogNotified | src/state.py:144-161 | The nested loop over posts and their IDs leaves `BlogMarked` of the old state |
| State.StateStore.MarkBlogArxivLinked | src/state.py:171-173 | The new state is `Consumed` of the old one |
| State.StateStore.BufferBlogPosts | src/state.py:178-186 | The new state is `BufferedBlogPosts` of the old one |
| State.StateStore.BufferSafetyPosts | src/state.py:189-197 | The new state is `BufferedSafetyPosts` of the old one |
| State.StateStore.BufferArxivPapers | src/state.py:200-208 | The new state is `BufferedArxivPapers` of the old one |
| State.StateStore.BufferLinkedPapers | src/state.py:211-229 | The new state is `BufferedLinkedPapers` of the old one |
| State.StateStore.PeekBuffer | src/state.py:232-255 | The loop over sorted date keys returns the ascending-date concatenation of every category, and changes nothing |
| State.StateStore.AckBuffer | src/state.py:258-260 | The new state is `Acked` of the old one |
| App.SplitPapers | src/main.py:96-102 | The two lists together are as long as the batch. That each paper lands in exactly one list is `SplitIsPartition` |
| App.SplitIsPartition | src/main.py:96-102 | The keyword papers plus the papers of the linked items are, as a multiset, exactly the new papers |
| App.SplitConsumes | src/main.py:100 | After the loop the map has exactly the old keys minus the new papers' IDs, with unchanged records |
| App.SplitKeywordByLookup | src/main.py:97-102 | For distinct IDs, a paper becomes a keyword paper iff the map lacks its ID. Every keyword paper is a new paper with no cross-reference |
| App.SplitLinkedByLookup | src/main.py:97-99 | For distinct IDs, a paper whose ID the map has becomes a linked item carrying that record. Every linked item is a new paper carrying its own record |
| App.BlogUrlsNotified | src/main.py:60-65 | After the blog step every fetched blog URL is notified, and no URL is forgotten |
| App.SafetySkipsBlogUrls | src/main.py:60-79 | A safety post sharing a URL with a fetched blog post is never new for the safety step |
| App.SafetyKeepsUrls | src/main.py:74-79 | After the safety step every fetched safety URL is notified, and no URL is forgotten |
| App.BlogStepBuffers | src/main.py:60-65 | Every new blog post's URL is among today's buffered blog posts. `notified_ids` is untouched |
| App.SafetyStepKeeps | src/main.py:74-79 | The safety step leaves today's blog list and `notified_ids` alone |
| App.SafetyStepBuffers | src/main.py:74-79 | Every new safety post's URL is among today's buffered safety posts |
| App.PostStepsRecordLinks | src/main.py:60-79 | A post step records a cross-reference for every arXiv ID its new posts mention and keeps the existing ones |
| App.FailedFetchKeepsPosts | src/main.py:51-124 | When the arXiv fetch fails, the saved document still has every blog and safety URL notified. The new blog posts and the new safety posts are in today's buffer. Both batches' cross-references are recorded, and `notified_ids` is unchanged |
| App.SplitFromInput | src/main.py:96-102 | Both lists hold only papers of the batch |
| App.SplitHoldsNewIds | src/main.py:90-102 | No paper in either list has an ID that was notified before the step |
| App.BlogStepNoRebuffer | src/main.py:60-65 | The blog step buffers no post whose URL was already notified |
| App.SafetyStepNoRebuffer | src/main.py:74-79 | The safety step buffers no post whose URL was already notified |
| App.PapersStepNoRebuffer | src/main.py:90-115 | The arXiv step buffers no paper whose ID was already notified |
| App.CollectRebuffersNothing | src/main.py:51-124 | After a collect run, every buffered paper whose ID was notified, and every buffered post whose URL was notified, when the run began was already in the buffer on that day |
| App.CollectPapersConsumesAll | src/main.py:96-102 | After the arXiv step no new paper's ID is left in the cross-reference map |
| App.CollectPapersMarksAll | src/main.py:112-115 | After the arXiv step every new paper's ID is notified with the current time |
| App.CollectPostsStep | src/main.py:60-79 | The blog or safety block leaves the state the step function describes |
| App.SplitLoop | src/main.py:93-102 | The loop that appends linked items and keyword papers, consuming map entries, ends with exactly `SplitPapers` of the old map. Nothing but the map changes |
| App.CollectPapersStep | src/main.py:90-115 | The arXiv block leaves the state the step function describes |
| App.RunCollect | src/main.py:51-128 | The saved document is the blog step, then the safety step, then either the arXiv step or, on failure, nothing more. The success flag is true iff the fetch succeeded |
| App.RunBrief | src/main.py:131-185 | State is saved iff the send, the Markdown upload, and (when a PDF was made) the PDF upload all succeed. What is saved is the loaded document with an empty buffer. The message shows the peeked buffer. The Markdown file is posted iff the send succeeded. The PDF is posted iff the send and Markdown upload succeeded and a PDF was made |
| App.SelectMode | src/main.py:188-199 | Collect iff the mode is unset or "collect"; brief iff it is "brief"; no mode (an error) otherwise |
| App.RunMain | src/main.py:188-199 | An unknown mode is reported with its name. Collect mode saves the collected document. Brief mode saves the acknowledged document iff every delivery step succeeded |
| BlogClient.FindGt | src/blog_client.py:21 | The position of the first `>`, or none when there is none |
| BlogClient.RemoveTags | src/blog_client.py:21-26 | The result is no longer than the input, uses only its characters, and contains no `<…>` span with a non-empty inside |
| BlogClient.RemoveTagsOfTagFree | src/blog_client.py:21-26 | Text without tags is left as it is |
| BlogClient.RemoveTagsKeepsText | src/blog_client.py:21-26 | Text with no `<` is kept unchanged in front of whatever follows |
| BlogClient.RemoveTagsOfCons | src/blog_client.py:21-26 | A first character other than `<` is kept |
| BlogClient.RemoveTagsDropsTag | src/blog_client.py:21-26 | A `<`, one or more characters other than `>`, then a `>` is dropped whole, and scanning resumes after it |
| BlogClient.RemoveTagsKeepsUnclosed | src/blog_client.py:21-26 | A `<` with no `>` after it is kept, and so is the text that follows |
| BlogClient.RemoveTagsKeepsEmptyBrackets | src/blog_client.py:21-26 | `<>` is not a tag: the `<` is kept and scanning resumes at the `>` |
| BlogClient.StripHtml | src/blog_client.py:24-26 | The result is the tag-free text with only whitespace cut from its two ends: it has no tag and no leading or trailing whitespace |
| BlogClient.StripHtmlIdempotent | src/blog_client.py:24-26 | Stripping HTML twice is stripping it once |
| BlogClient.MatchAt | src/blog_client.py:18 | A match at the start of the text is a well-formed ID (four digits, a dot, four or five digits) that prefixes the text, and it consumes no more than the text. Dropping the version suffix is `ScanDropsVersion` |
| BlogClient.Scan | src/blog_client.py:33-34 | Every ID found is well formed |
| BlogClient.ExtractArxivIds | src/blog_client.py:29-38 | The loop with its `seen` set returns the scanned IDs deduplicated in first-occurrence order. They are distinct and well formed |
| BlogClient.ScanOfId | src/blog_client.py:18 | A text that is one ID yields exactly that ID |
| BlogClient.ScanDropsVersion | src/blog_client.py:18-34 | An ID followed by `v` and digits yields the ID without its version |
| BlogClient.ScanAcrossSpace | src/blog_client.py:33 | Scanning two texts joined by a space finds the IDs of each, in order |
| BlogClient.ScanOfJoin | src/blog_client.py:81-82 | Scanning the space-joined content parts finds exactly the parts' IDs, in order |
| BlogClient.ContentValues | src/blog_client.py:71-74 | Every non-empty value of a dict content item is included, and nothing empty is |
| BlogClient.CollectContentParts | src/blog_client.py:66-79 | The parts are the link, then the non-empty summary, then the non-empty content values, then the non-empty link hrefs |
| BlogClient.ParseEntry | src/blog_client.py:41-94 | No post iff the stripped title or the link is empty, or the date is before the cutoff. Otherwise the fields of the post are: the stripped title; the link as URL; the source; the published date or ""; the stripped summary cut to 600 characters; and the deduplicated IDs of all content parts |
| BlogClient.ParsedIdsCoverParts | src/blog_client.py:66-82 | An ID in any content part (link, summary, content value or href) is among the post's IDs |
| ArxivClient.IdAtEnd | src/arxiv_client.py:34 | A match is a well-formed ID that ends the text |
| ArxivClient.ExtractArxivId | src/arxiv_client.py:30-38 | The result is a well-formed ID, or else the entry ID unchanged |
| ArxivClient.ExtractArxivIdOfEntryId | src/arxiv_client.py:32-36 | An entry ID ending in an ID, optionally with a version and a final newline, gives that ID |
| ArxivClient.ExtractArxivIdWithoutDot | src/arxiv_client.py:37-38 | An entry ID without a dot is returned unchanged |
| ArxivClient.ExtractArxivIdEndsEntryId | src/arxiv_client.py:32-38 | Converse of `ExtractArxivIdOfEntryId`: a result other than the entry ID itself is what ends the entry ID, followed only by an optional `v` and digits and an optional final newline |
| ArxivClient.ExtractCategories | src/arxiv_client.py:41-44 | Exactly the non-empty terms are kept |
| ArxivClient.ExtractAuthors | src/arxiv_client.py:47-50 | Exactly the non-empty names are kept |
| ArxivClient.FirstHtml | src/arxiv_client.py:56-58 | The index of the first `text/html` link, or none when there is none |
| ArxivClient.ExtractLink | src/arxiv_client.py:53-62 | The href of the first `text/html` link; else the first link's href; else the entry ID when there are no links. A missing href or ID gives "" |
| ArxivClient.MatchingDisplaysMembers | src/arxiv_client.py:70-71 | A display name is matched iff some pattern with that name finds the combined text |
| ArxivClient.MatchKeywords | src/arxiv_client.py:65-74 | The loop returns the matching display names deduplicated in pattern order. They are distinct, and a name is included iff one of its patterns matches the title, summary and authors |
| ArxivClient.BuildQuery | src/arxiv_client.py:77-80 | No categories give "" and one category `c` gives `cat:c` |
| ArxivClient.BuildQuerySnoc | src/arxiv_client.py:77-80 | One more category appends `+OR+cat:c` |
| Slack.Truncate | src/slack.py:28-32 | Text within the limit is returned as it is. Otherwise, for a limit of at least 1, the result has exactly `limit` characters: the text's first `limit − 1` and an ellipsis |
| Slack.TruncateFits | src/slack.py:28-32 | For a limit of at least 1 the result fits, and it equals the text iff the text fits |
| Slack.HtmlEscapeIsCharwise | src/slack.py:434-436 | The three chained replacements equal escaping each character on its own |
| Slack.HtmlEscapeHasNoBrackets | src/slack.py:434-436 | The escaped text has no `<` or `>` |
| Slack.UnescapeOfEscape | src/slack.py:434-436 | Escaping `&` first makes the escape reversible: unescaping gives the original text back |
| Slack.Preview | src/slack.py:94-96 | A summary line appears iff the summary is non-empty. It is at most 150 characters, and a short summary is shown whole |
| Slack.BlogViewOf | src/slack.py:80-98 | A blog item shows its title, URL and source. `published` is cut to its first 10 characters, and a shorter one is kept whole. The item lists the first min(3, n) of its arXiv IDs, plus the summary preview |
| Slack.ArxivViewOf | src/slack.py:101-114 | A paper item shows its title, link, ID, comma-joined keywords and summary preview |
| Slack.LinkedViewOf | src/slack.py:117-137 | A linked item shows the paper's title and link and its arXiv ID. It links to its blog iff both its URL and title are known, and otherwise names the source |
| Slack.Shown | src/slack.py:168 | A section shows min(5, n) items |
| Slack.BriefingItems | src/slack.py:166-226 | Each section's item blocks render exactly its first min(5, n) items, in order |
| Slack.BriefingOverflows | src/slack.py:180-184 | A section has one overflow note, with count n − 5, iff n > 5 |
| Slack.BriefingHeaders | src/slack.py:166-174 | A section has one header, with count n, iff n > 0, so an empty section is omitted |
| Slack.FooterTotals | src/slack.py:229-244 | The one footer has the three counts and their sum. Safety posts are never counted |
| Slack.MarkdownAgreesWithBlocks | src/slack.py:313-409 | The Markdown document has the same items, overflow notes, headers and footer as the message |
| Slack.EmitSection | src/slack.py:166-226 | Appending one section adds exactly its head, its shown items and its overflow note |
| Slack.BuildDailyBriefingBlocks | src/slack.py:140-246 | The message is the header, the three sections and the divided footer |
| Slack.GenerateBriefingMarkdown | src/slack.py:313-409 | The document has the same layout without section dividers |

## Left out

- Network, the Slack Web API and the retries of the fetchers (`_slack_api`,
  `send_daily_briefing`, `upload_file`, `_fetch_feed`, `feedparser`) are left out. Their
  results are inputs: `Fetch` values and an `Outcomes` record.
- File I/O, JSON encoding and `save_state` are left out: loading takes a `Stored` value
  and saving returns the document. `OUT_DIR.mkdir` and `md_path.write_text` are assumed
  to succeed.
- PDF generation (`_build_pdf_html`, `pisa`) is left out; whether a PDF was made is an
  input. `_html_escape` is the only part of it modelled.
- The clock, JST and date parsing are supplied by the caller: `now`, `today`, and a
  parsed entry's date with its "before the cutoff" verdict. ISO-8601 string order is
  taken to be chronological order, including for stamps that lack microseconds.
- The source reads the clock at every call: in `_prune_old_ids` and `_prune_buffer`
  (src/state.py:77, 85 and 107), in `mark_notified` and `mark_blog_notified`
  (src/state.py:126 and 149), and `_today_jst()` in each `buffer_*` function
  (src/state.py:180, 191, 202 and 219). The model takes one `Clock` per run. A collect
  run that crosses midnight in JST can file blog posts and arXiv papers under different
  days, and its prunes can use slightly different cutoffs. The model does not capture
  either.
- The exact mrkdwn, Markdown and HTML text is left out: a rendered line is a `Block`
  carrying the data the text is built from, and the emoji, labels and arXiv URL forms
  are not kept.
- Logging is left out.
- `config.py` is not part of this model beyond three constants: FETCH_HOURS 48,
  BLOG_RETENTION_DAYS 30 and BUFFER_RETENTION_DAYS 3. Keyword patterns are opaque
  predicates, so `re.compile`, `re.escape` and the IGNORECASE flag are not modelled.
- BlogClient.MatchAt: Python's `\d` also matches non-ASCII decimal digits, but the model
  accepts only '0'–'9'.
- BlogClient.MatchAt: the optional `arxiv.org/abs/` or `arxiv.org/pdf/` prefix of the
  pattern contains no digits, so it never changes which IDs are found. It is not
  modelled.
- The record types are typed. A buffered day always has its four lists, and a stored
  cross-reference record is never the falsy empty dict, so the `if blog_info:` test is a
  presence test. A JSON top level that is not an object is not modelled.
- App.RunCollect: an exception inside the arXiv `try` block is modelled only at the
  fetch. The steps after it cannot fail in the model, so the partial state changes a
  later failure could leave are not represented. The blog and safety fetchers never
  fail, because `_fetch_from_feeds` catches errors per feed.
- App.SplitKeywordByLookup, App.SplitLinkedByLookup: the "linked iff the map has the ID"
  statement assumes the batch has distinct IDs. With a repeated ID, the first copy
  consumes the map entry and the second becomes a keyword paper. `SplitPapers` models
  that case as written.
- `_build_arxiv_item` and the linked-item builder fall back to a link built from the
  arXiv ID when a paper has no link. Because the records are typed, a paper always has
  a link, so this fallback is not modelled.
