# bandsight/feeds in Dafny

This project models the job-feed pipeline of bandsight/feeds and proves properties of the model. The pipeline has four parts:

- **Vendor collectors.** A collector turns a council's careers portal into job records. This model covers two of them:
  - the ApplyNow collector crawls listing pages and reads detail pages;
  - the Pulse collector reads a JSON API.
- **Scraper driver.** It walks the source registry and calls the vendor's collector on each start URL. A failing start URL is isolated, and the records are handed to the feed sink.
- **RSS builder.** It filters the scrape history to a date window, sorts it newest first, caps it, and renders an RSS 2.0 channel.
- **Text helpers.** The modules `Strings`, `Sequences` and `Wrappers` provide stripping, whitespace collapsing, splitting and joining, ASCII case mapping, code-point ordering, filtering and first-occurrence deduplication.

Modules:

| module | file | models |
|---|---|---|
| `ApplyNow` | `applynow.dfy` | `src/collectors/applynow.py` |
| `Feed` | `feed.dfy` | `src/feeds_site_builder.py` |
| `Pulse` | `pulse.dfy` | `src/collectors/pulse_api.py` |
| `Scraper` | `scraper.dfy` | the registry loop of `src/scraper.py` |
| `Strings`, `Sequences`, `Wrappers` | `strings.dfy`, `sequences.dfy`, `wrappers.dfy` | Python's string and list operations the core uses |

The outside world enters as parameters:

- **The portal and the libraries.** The ApplyNow portal is a finite map from URL to page. A URL missing from the map is a fetch that fails. CSS selection, the regex engine, `urljoin`/`urlparse`, date parsing, RFC 2822 formatting, SHA-1, `quote` and the Pulse HTTP/JSON call are functions held in datatypes: `Page`, `Regex`, `Urls`, `Env` and `PulseEnv`.
- **The clock.** The current time is an integer count of microseconds.
- **Collectors.** The driver gets its collectors as a map from vendor to a function. The function returns the items or the exception raised.
- **Observable side effects.** The driver's console messages and its call of the sink are recorded as a list of events.

Operations that the source writes as loops are Dafny methods with loops. Each one is proved equal to a specification function, and the properties are proved as lemmas about that function:

- ApplyNow: `scrape`, `_find_listing_cards`, `_paginate` and `_extract_with_patterns`;
- Feed: `build`'s item loop;
- Pulse: `dedupe_by_link`, `guess_band` and the row loop;
- Scraper: the driver loop.

Three facts about the code are worth knowing before reading the proofs:

- `build` writes no item for empty input; `Feed.EmptyFeed` proves a channel with zero items.
- The Pulse collector deduplicates by link alone, and the driver does not deduplicate at all.
- `scrape` has no page limit beyond its `visited` set; `ApplyNow.CrawlBounded` bounds the crawl by the number of pages of the portal.

One behaviour of the source is kept as written, because it is consistent. The fallback summary of an item is escaped when it is built, and the description line escapes it again. So the RSS description, read as HTML, shows the escaped text. `Feed.DescriptionProperties` states what the description decodes to.

## Model

| member | source | states |
|---|---|---|
| `ApplyNow.CleanTextShape` | src/collectors/applynow.py:83-86 | clean text has no whitespace at its ends and no run of two blanks; a missing node gives "" |
| `ApplyNow.CleanTextKeepsContent` | src/collectors/applynow.py:86 | cleaning keeps every non-whitespace character, in order |
| `ApplyNow.CleanTextIdempotent` | src/collectors/applynow.py:83-86 | cleaning clean text changes nothing |
| `ApplyNow.FirstHit` | src/collectors/applynow.py:113-115 | None exactly when no pattern matches; otherwise the match of a pattern all of whose predecessors fail |
| `ApplyNow.Preferred` | src/collectors/applynow.py:116-121 | the value kept from a match is stripped |
| `ApplyNow.PatternResult` | src/collectors/applynow.py:111-122 | None iff no pattern matches; otherwise the loc group if non-empty, else the sal group if non-empty, else the whole match (stripped), of the first matching pattern |
| `ApplyNow.ExtractWithPatterns` | src/collectors/applynow.py:111-122 | the loop with early returns computes `PatternResult` |
| `ApplyNow.GuessEmploymentType` | src/collectors/applynow.py:155-157 | present iff the employment patterns give a non-empty value; then exactly that value title-cased (same length, a fixed point of title-casing) |
| `ApplyNow.GuessLocation` | src/collectors/applynow.py:159-163 | present iff the location patterns give a non-empty value; then the value with its label removed, stripped |
| `ApplyNow.GuessSalary` | src/collectors/applynow.py:165-167 | definition: the salary patterns' result as `_extract_with_patterns` gives it |
| `ApplyNow.GuessBand` | src/collectors/applynow.py:169-174 | None iff no band pattern matches; otherwise the stripped whole match of the first band pattern that matches |
| `ApplyNow.ParseDetail` | src/collectors/applynow.py:234-250 | definition: the detail of a parsed page: its HTML, the employment type, location, salary and band guessed from its text, no work arrangement, and its posted and closing dates |
| `ApplyNow.DetailFor` | src/collectors/applynow.py:305-321 | work arrangement is always None; a detail page that fails to fetch or parse gives the all-None minimal detail |
| `ApplyNow.ProductiveGroup` | src/collectors/applynow.py:139-144 | the anchors with an href of the first selector group that has any; empty iff no group has one |
| `ApplyNow.ListingCardsProperties` | src/collectors/applynow.py:124-153 | cards come from the first productive selector group (none iff no group yields an anchor with an href); every card has a non-empty href; hrefs are pairwise distinct; every href of the group has a card, which is the group's first anchor with that href; cards keep the group's order |
| `ApplyNow.AnchorsWithHref` | src/collectors/applynow.py:140-142 | the loop keeps exactly the anchors with an href, in order |
| `ApplyNow.CollectCards` | src/collectors/applynow.py:139-144 | the loop with `break` yields the first productive group, and each card has an href |
| `ApplyNow.DedupeCards` | src/collectors/applynow.py:145-153 | the `seen` loop keeps the first anchor for each href |
| `ApplyNow.FindListingCards` | src/collectors/applynow.py:124-153 | `_find_listing_cards` computes the listing cards |
| `ApplyNow.NextLinkRelNext` | src/collectors/applynow.py:258-261 | the first rel=next anchor with an href decides the next page |
| `ApplyNow.NextLinkByText` | src/collectors/applynow.py:264-268 | without a usable rel=next anchor, the first anchor with text next/older/more jobs and an href decides |
| `ApplyNow.NextLinkByPager` | src/collectors/applynow.py:271-277 | otherwise only the anchor after the pager's current item gives a next page (the page itself when that anchor has no href), else None |
| `ApplyNow.NextLink` | src/collectors/applynow.py:252-277 | definition: the rel=next anchor, else the next-text anchor, else the pager's following anchor, else None |
| `ApplyNow.Paginate` | src/collectors/applynow.py:252-277 | the three loops with early returns compute `NextLink` |
| `ApplyNow.PassesGuard` | src/collectors/applynow.py:302-303 | definition: the link's host contains applynow.net.au, or the link contains /applynow/ or /job |
| `ApplyNow.CardRecord` | src/collectors/applynow.py:294-334 | definition: the record one card contributes, or None when its stripped href is empty or its link fails the guard |
| `ApplyNow.CardRecordProperties` | src/collectors/applynow.py:294-334 | a card gives a record iff its stripped href is non-empty and the joined link passes the guard; title is the clean text or None when empty; work arrangement None; a failed detail page leaves title and link and every other field None |
| `ApplyNow.ScrapeRecordsWellFormed` | src/collectors/applynow.py:301-303 | every record `scrape` returns passes the link guard, has no work arrangement and no empty title |
| `ApplyNow.CrawlFrom` | src/collectors/applynow.py:287-337 | definition: the `while` loop from a given next URL and visited set: stop when the URL is missing, empty or visited; fail when it does not fetch; else take the page's records and go on with its next link |
| `ApplyNow.CrawlVisitsFresh` | src/collectors/applynow.py:287-289 | no listing URL is fetched twice, and none that was visited before |
| `ApplyNow.CrawlFollowsLinks` | src/collectors/applynow.py:285-337 | the crawl starts at the start URL when it is followed, visits nothing iff it does not go on, and each page after the first is the previous page's next link |
| `ApplyNow.CrawlOkOutcome` | src/collectors/applynow.py:284-339 | a crawl without error fetched every page it visited and returns their records page after page, in card order |
| `ApplyNow.CrawlErrOutcome` | src/collectors/applynow.py:288-290 | a failing crawl stops at the first listing page that does not fetch, names it, and fetched all earlier ones |
| `ApplyNow.CrawlStopsAtEnd` | src/collectors/applynow.py:288 | a crawl without error stops because the last page's next link is missing, empty or already visited |
| `ApplyNow.CrawlBounded` | src/collectors/applynow.py:287-289 | the crawl fetches at most one URL more than the portal has unvisited pages |
| `ApplyNow.HreflessPagerStops` | src/collectors/applynow.py:274-275 | a pager anchor without href leads back to the visited current page, so the crawl ends there |
| `ApplyNow.RecordsOfCards` | src/collectors/applynow.py:294-334 | the card loop, with its `continue`s, computes the page's records |
| `ApplyNow.ReadListingPage` | src/collectors/applynow.py:290-337 | one pass reads the page's records and its next link |
| `ApplyNow.FollowListings` | src/collectors/applynow.py:284-339 | the `while` loop over `next_url` and `visited` performs exactly the crawl: same visits, same outcome |
| `ApplyNow.Scrape` | src/collectors/applynow.py:279-339 | `scrape(start_url)` is the crawl of the portal from the start URL |
| `Feed.WithinWindowByInstant` | src/feeds_site_builder.py:46-67 | kept iff the window is not positive, the record has no usable date, or its date is at or after the cutoff |
| `Feed.WithinWindow` | src/feeds_site_builder.py:46-67 | definition: true for a non-positive window; otherwise decided by the parseable posted date, else the parseable scrape date, else true |
| `Feed.WithinWindowPosted` | src/feeds_site_builder.py:50-56 | a parseable posted date decides alone; the scrape date does not matter |
| `Feed.WithinWindowWidens` | src/feeds_site_builder.py:46-67 | a wider window keeps every record a narrower one keeps |
| `Feed.WindowFilterIdempotent` | src/feeds_site_builder.py:149 | with a fixed now, filtering twice equals filtering once, and a kept row is an input row inside the window |
| `Feed.EscapeRoundTrip` | src/feeds_site_builder.py:70 | unescaping the three entities recovers the text |
| `Feed.EscapeShape` | src/feeds_site_builder.py:70 | escaped text has no angle bracket; text without `&`, `<`, `>` (quotes included) is unchanged |
| `Feed.SanitizeProperties` | src/feeds_site_builder.py:69-70 | "" iff the value is missing or empty; otherwise no angle bracket and unescapes to the input |
| `Feed.Sanitize` | src/feeds_site_builder.py:69-70 | definition: "" for a missing or empty value, else the value with `&`, `<`, `>` escaped |
| `Feed.GuidKeyInjective` | src/feeds_site_builder.py:72-74 | for councils without `|`, two records hash the same text iff council and link agree |
| `Feed.GuidKeyAmbiguous` | src/feeds_site_builder.py:73 | with a `|` in the council, different records get the same guid |
| `Feed.ItemGuid` | src/feeds_site_builder.py:72-74 | definition: the SHA-1 hex digest of the council, a vertical bar and the link, missing ones as "" |
| `Feed.PubInstantIsRecordInstant` | src/feeds_site_builder.py:79-96 | the publication instant is the window's record instant or now, so a dated record is in a positive window iff its pubDate is at or after the cutoff |
| `Feed.PubDate` | src/feeds_site_builder.py:79-96 | definition: the RFC 2822 date of the parseable posted date, else the parseable scrape date, else now |
| `Feed.SortNewestFirst` | src/feeds_site_builder.py:111-115 | the sort is a permutation |
| `Feed.SortDescending` | src/feeds_site_builder.py:111-115 | sorted keys never increase |
| `Feed.SortStable` | src/feeds_site_builder.py:111-115 | the records with any one key keep their input order |
| `Feed.PyPrefix` | src/feeds_site_builder.py:116 | `s[:n]` is a prefix of length min(n, len) for n >= 0 and max(0, len + n) for n < 0 |
| `Feed.SelectedProperties` | src/feeds_site_builder.py:111-116 | the selected records are newest first, a sub-multiset of the input, all of it when max_items >= len, and no later record has a greater key |
| `Feed.Build` | src/feeds_site_builder.py:98-145 | `build` returns the document |
| `Feed.AppendItems` | src/feeds_site_builder.py:116-142 | the item loop appends each selected item's lines in turn |
| `Feed.AppendWhen` | src/feeds_site_builder.py:133-140 | an optional line is appended exactly when present |
| `Feed.RenderItem` | src/feeds_site_builder.py:117-142 | the loop body produces the item's lines |
| `Feed.ItemParts` | src/feeds_site_builder.py:117-142 | definition: the lines of one item, with the defaults of lines 117-124 for missing fields |
| `Feed.ItemLinesTags` | src/feeds_site_builder.py:126-142 | an item's tags are item/title/link/guid/pubDate, then category/salary/closing/council each iff non-empty, then description and /item |
| `Feed.ItemLinesTagPresence` | src/feeds_site_builder.py:126-142 | the fixed tags are always present; category, salary, closing and council are present iff their value is non-empty |
| `Feed.ItemTagPresence` | src/feeds_site_builder.py:117-142 | every item has title, link, guid, pubDate and description; category, salary, closing, council appear iff band, salary, closing date, council are truthy |
| `Feed.ItemOpenOnce` | src/feeds_site_builder.py:126-142 | each item has exactly one `<item>` line |
| `Feed.ItemsOpenCount` | src/feeds_site_builder.py:116-142 | the item lines of n records hold n `<item>` lines |
| `Feed.FrameHasNoItem` | src/feeds_site_builder.py:100-109 | the channel's header and closing lines hold no `<item>` line |
| `Feed.ItemCount` | src/feeds_site_builder.py:116 | the document holds one `<item>` per selected record: min(len, max_items), or max(0, len + max_items) for negative max_items |
| `Feed.DocumentShape` | src/feeds_site_builder.py:100-145 | the lines open with the 8 channel header lines (title, link and description sanitized, the build date) and end with the 3 closing lines; the text starts with the XML declaration and ends with `</rss>` |
| `Feed.EmptyFeed` | src/feeds_site_builder.py:98-145 | no records give a channel with zero items |
| `Feed.ItemDescriptionLine` | src/feeds_site_builder.py:141-142 | the description line is next to last and `</item>` last |
| `Feed.DescriptionProperties` | src/feeds_site_builder.py:123-141 | the description has no angle bracket and decodes to the first 4000 characters of the summary; the summary is the description HTML when non-empty, else decodes to the " — "-join of the non-empty council/salary/band stripped of blanks and dashes |
| `Feed.Take` | src/feeds_site_builder.py:141 | `summary[:4000]` is a prefix of at most 4000 characters, the whole text when it is shorter |
| `Feed.FallbackDecodes` | src/feeds_site_builder.py:124 | the fallback summary decodes to the " — "-join of the non-empty council, salary and band, stripped of blanks and dashes |
| `Feed.DescriptionEmpty` | src/feeds_site_builder.py:124 | no description, council, salary or band gives an empty description |
| `Feed.ReportedCountMismatch` | src/feeds_site_builder.py:152 | for negative max_items the printed count is negative and differs from the items written |
| `Feed.ReportedCountAsWritten` | src/feeds_site_builder.py:152 | definition: `min(len(rows), max_items)` as printed |
| `Feed.ReportedCount` | src/feeds_site_builder.py:152 | the corrected count is a natural number equal to min(len(rows), max_items) whenever max_items >= 0 |
| `Feed.Publish` | src/feeds_site_builder.py:147-152 | `main` writes the document of the rows inside the window and reports the number of `<item>` blocks it holds, which is min(len(rows), max_items) for max_items >= 0 |
| `Pulse.DedupeByLink` | src/collectors/pulse_api.py:6-14 | the `seen` loop keeps the first row of each link |
| `Pulse.KeepIfNew` | src/collectors/pulse_api.py:10-13 | a row is kept iff its link was not seen, and its link is then seen |
| `Pulse.DedupeByLinkProperties` | src/collectors/pulse_api.py:6-14 | kept links are pairwise distinct, each kept row is the first with its link, kept rows keep input order, the set of links is unchanged, and deduplicating twice equals once |
| `Pulse.FirstBand` | src/collectors/pulse_api.py:18 | a found band number lies between the start and 8 |
| `Pulse.GuessBand` | src/collectors/pulse_api.py:16-21 | the loop with early return computes the band label |
| `Pulse.FirstBandSearch` | src/collectors/pulse_api.py:18-20 | the search finds the smallest matching band number, and none iff no band number matches |
| `Pulse.BandOfProperties` | src/collectors/pulse_api.py:16-21 | "Unknown" iff no "band b" for b in 1..8 occurs in the lower-cased title; otherwise "Band b" for the smallest such b |
| `Pulse.BandOf` | src/collectors/pulse_api.py:16-21 | definition: "Band b" for the first b in 1..8 whose "band b" occurs in the lower-cased title, else "Unknown" |
| `Pulse.Root` | src/collectors/pulse_api.py:28 | the root is the start URL up to the first "/Pulse", or all of it |
| `Pulse.ApiUrlByMerge` | src/collectors/pulse_api.py:29-30 | for a root without trailing `/`, query, fragment, dot segments or empty path segments, path merging as in section 5.2.3 of RFC 3986 gives the endpoint root + "/WebServices/RCM/Jobs/Jobs" |
| `Pulse.ApiUrl` | src/collectors/pulse_api.py:29-30 | definition: the two `urljoin` calls that give the jobs endpoint |
| `Pulse.SlugClean` | src/collectors/pulse_api.py:52 | the slug has no whitespace, `/` or `&` |
| `Pulse.SlugOfPlainTitle` | src/collectors/pulse_api.py:52 | a one-word title without `/` or `&` is its own slug |
| `Pulse.Slug` | src/collectors/pulse_api.py:52 | definition: the words joined by "-", then `/` made "-" and `&` made "and" |
| `Pulse.DetailLinkShape` | src/collectors/pulse_api.py:53 | the detail link starts with root + "/Pulse/job/" + LinkId + "/" and ends with "?source=public" |
| `Pulse.DetailLink` | src/collectors/pulse_api.py:53 | definition: root + "/Pulse/job/" + LinkId + "/" + quoted slug + "?source=public" |
| `Pulse.FieldProperties` | src/collectors/pulse_api.py:60-66 | an absent field is ""; a present one is stripped and keeps its non-whitespace characters |
| `Pulse.RecordOfProperties` | src/collectors/pulse_api.py:49-67 | each record has the council name, an empty description, a stripped title, the band `guess_band` gives for that title, and a link under root + "/Pulse/job/" + LinkId + "/"; a row without JobInfo gives an empty title and salary |
| `Pulse.RecordOf` | src/collectors/pulse_api.py:49-67 | definition: the record of one row, fields stripped or "" when absent |
| `Pulse.RecordsOf` | src/collectors/pulse_api.py:47-67 | one record per row |
| `Pulse.RecordsOfAt` | src/collectors/pulse_api.py:47-67 | the i-th record is the record of the i-th row |
| `Pulse.AppendRecords` | src/collectors/pulse_api.py:47-67 | the row loop appends each row's record |
| `Pulse.BuildRecord` | src/collectors/pulse_api.py:49-67 | the loop body builds the row's record |
| `Pulse.CollectPulseApi` | src/collectors/pulse_api.py:23-69 | `collect_pulse_api` returns the deduplicated records of the answer, or the error of the request |
| `Pulse.CollectedProperties` | src/collectors/pulse_api.py:43-69 | the collector fails iff the fetch does; on success every record has the council name, links are pairwise distinct and deduplicating again changes nothing |
| `Scraper.Run` | src/scraper.py:11-30 | `main` collects the items of every scanned entry and logs the messages, then calls the sink once with all the items |
| `Scraper.AllItems` | src/scraper.py:14-27 | definition: `all_items` after the registry loop: each scanned entry's items in order |
| `Scraper.AllEvents` | src/scraper.py:14-29 | definition: the messages the registry loop prints, in order |
| `Scraper.ScanStarts` | src/scraper.py:22-29 | the start-URL loop adds the items of the calls that return, in order |
| `Scraper.ScanOne` | src/scraper.py:23-29 | one call: announce it, then keep the items and report the count, or report the error and keep nothing |
| `Scraper.AllItemsAppend` | src/scraper.py:14-27 | entries contribute in registry order |
| `Scraper.StartItemsAppend` | src/scraper.py:22-27 | start URLs contribute in `starts` order |
| `Scraper.FailureIsolated` | src/scraper.py:24-29 | a start URL whose call raises contributes nothing, and the result is as if it were not listed |
| `Scraper.StartItemsAreResults` | src/scraper.py:22-27 | an item is collected iff it is in the result of some call that returned |
| `Scraper.IdleEntries` | src/scraper.py:15-21 | an inactive entry contributes no items and no messages; an active entry with an unknown vendor contributes only its warning |
| `Scraper.OnlyRunningEntriesCount` | src/scraper.py:14-21 | dropping the entries that are not scanned leaves the items unchanged |
| `Scraper.StartCalls` | src/scraper.py:22-25 | an entry's start-URL loop announces one call per start URL and never calls the sink |
| `Scraper.EntryCalls` | src/scraper.py:15-25 | a scanned entry calls its collector once per start URL, any other entry never |
| `Scraper.AllCalls` | src/scraper.py:14-25 | the number of collector calls is the number of start URLs of scanned entries, and the sink is not called inside the loop |
| `Scraper.SinkOnceLast` | src/scraper.py:30 | the sink is called exactly once, last, with all the items |

## Left out

- HTTP is not modelled: `_get` and its retry and backoff, `requests.get`, the status check and `time.sleep`. A fetch is an outcome looked up in the portal map or returned by `PulseEnv.fetchJobs`.
- HTML parsing and CSS selection (BeautifulSoup, `select`, `find_all`, `find_next`) are supplied as the fields of `Page`. So are `_detail_selectors`, `_extract_dates_from_detail` and `_parse_date_soft`, whose combined result is `Page.detail`: None when parsing raises.
- Regex semantics are not modelled. `Regex.search` and `Regex.sub` stand for the engine; only the first-match and group-preference policy is modelled.
- Date parsing, time zones, `formatdate` and SHA-1 are functions in `Env`. Instants are integers.
- `build`, `pubdate_for` and each `within_window` call read the clock separately. The model uses one `now` for a whole run.
- The `OverflowError` of `timedelta` for an enormous `days` is not modelled: integers are unbounded.
- `urljoin`, `urlparse().netloc` and `quote` are functions in `Urls` and `PulseEnv`. `Resolve` models only their early return for an empty reference. `Pulse.Merge` is only the path merge of section 5.2.3 of RFC 3986. It does no dot-segment removal (section 5.2.4) and does not drop empty segments as `urljoin` does. So `Pulse.ApiUrlByMerge` requires a root (`Pulse.PlainRoot`) on which neither matters.
- The Pulse request parameters and headers are not modelled: they only shape the request.
- JSON values that are not strings are not modelled. A numeric `LinkId`, or a null field that makes `.strip()` raise, falls outside the model: `JobRow` holds strings.
- `lower()` and `title()` are modelled on ASCII letters only; other letters are left unchanged. Whitespace (`split`, `strip`, `\s`) follows Python's `str.isspace` set.
- `read_jsonl`, JSON decoding, `parse_args`, the file write and `print` are file and console I/O. `Feed.Publish` returns the document and the count to report.
- `load_registry`, `append_to_rss`, `collect_generic`, `collect_pageup` and `collect_applynow` are not defined in the source. The registry is a parameter, the sink call is the final `Sink` event, and each collector is a function in the vendor table.
- A `KeyError` for an entry without `vendor` or `name` is not modelled: `Entry` always has both.
- `Scraper.Run` requires that the table's vendors are the four keys `generic`, `pageup`, `applynow` and `pulse_api`. The lemmas about the driver hold for any table.
- `ApplyNow.FollowListings` and `ApplyNow.Scrape` return the list of fetched listing URLs as a ghost value only.

## Findings

| source | as written | input that shows it | evidently intended | confidence | as-written member | corrected member |
|---|---|---|---|---|---|---|
| src/feeds_site_builder.py:152 | the message reports `min(len(rows), args.max_items)` items, while `build` writes `len(items_sorted[:max_items])` | 10 rows with `--max_items -3`: reported -3, written 7 | report the number of items written | not executed; low (only a negative `--max_items` shows it) | `Feed.ReportedCountMismatch` | `Feed.Publish` |
