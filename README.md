# Job Hunter Ultra: the fetch-filter-merge pipeline in Dafny

`app.py` is a Streamlit page that gathers job postings from the LinkedIn guest search and from the
Remotive and The Muse APIs, keeps those whose title contains one of the
whitelist terms, removes duplicate links, and shows the remaining rows as a table. This project
models its logic and proves what that logic guarantees:

- the whitelist parsing (line 36);
- the title filter `passes_filter` (lines 39-42);
- the canonical LinkedIn link (line 62);
- the three collectors, with their fail-open `try`/`except` handling (lines 46-90);
- the concatenation and keep-first deduplication by link (lines 97-103).

The modules match those parts:

- `Wrappers` (`wrappers.dfy`): `Option`, for every field a parsed card or JSON object may lack.
- `Text` (`text.dfy`): ASCII case conversion, `str.isspace`, `str.strip`, `str.split(sep)`, `sep.join` and substrings.
- `Filter` (`filter.dfy`): `re.escape`, the `(t1|t2|...)` pattern and reading it back, the case-insensitive search, and `passes_filter`.
- `Links` (`links.dfy`): `href.split('?')[0]`.
- `Whitelist` (`whitelist.dfy`): `[t.strip() for t in whitelist_input.split('\n') if t.strip()]`.
- `Collectors` (`collectors.dfy`): `fetch_linkedin`, `fetch_remotive` and `fetch_themuse`.
- `Merge` (`merge.dfy`): `drop_duplicates(subset=['Link'])`.
- `Settings` (`settings.dfy`): the three LinkedIn selectors of lines 20-27 and the search parameters built from them on line 98.
- `Pipeline` (`pipeline.dfy`): the button handler, which parses, collects, concatenates and deduplicates.

The network and the parsers are inputs to the model:

- A LinkedIn search is a function from a page request's parameters to `PageFailed` or to the cards BeautifulSoup found.
  A card's title, subtitle and link are each an `Option`.
- Each JSON API is the response it gave: `RequestFailed`, or the decoded object.
  The object's job list and every field the collector looks up are `Option`s.
  An absent job-list key is `None`; `data.get(key, [])` then gives no rows.
  A missing field is also `None`; it is exactly the case in which the lookup raises (`KeyError`, or `TypeError` for a null `company`), which ends the walk.

Each collector is an imperative method:

- `FetchLinkedIn` is the source's nested `for` loops. It leaves the crawl with a labelled `break` when the link lookup raises.
- `CollectListings` is the single loop shared by the two JSON collectors.

Each method is proved equal to a specification function: `CrawlFrom`, `ScanCards`, `ScanListings` or `ListingJobs`. The lemmas are stated about those functions. The deduplication is likewise a loop with a seen-set, `DropDuplicates`, proved equal to the function `Dedup`.

Two behaviours of `app.py` as written are kept as they are:

- An empty term list passes every title, and so does an empty title.
- A failing source is silently reduced to the rows it produced before failing. No status is reported.

## Model

| member | source | states |
|---|---|---|
| Filter.PassesFilter | app.py:39-42 | `passes_filter`: true for an empty title or term list, otherwise the search of the compiled pattern; characterised by `PassesFilterSpec`, `PassesFilterWhenTermOccurs` and `PassesFilterIgnoresCase` |
| Filter.Escape | app.py:41 | `re.escape` with the Python 3.7+ special set; characterised by `AlternativesOfEscape` and `EscapeRoundTrip` |
| Filter.BuildPattern | app.py:41 | the text `'(' + '\|'.join(...) + ')'`; characterised by `EscapeRoundTrip` |
| Filter.ParseGroup | app.py:41 | the compiled pattern read back as its literal alternatives, `None` for any other pattern; characterised by `EscapeRoundTrip` |
| Filter.Search | app.py:42 | `regex.search(...) is not None` for a group of literal alternatives; characterised by `PassesFilterSpec`, `PlusIsLiteral` and `DotIsLiteral` |
| Filter.PassesFilterSpec | app.py:39-42 | passes exactly when the title is empty, the term list is empty, or some term, lower-cased, occurs as a contiguous substring of the lower-cased title |
| Filter.PassesFilterWhenTermOccurs | app.py:41-42 | a title containing one of the terms in any letter case passes |
| Filter.PassesFilterIgnoresCase | app.py:41 | upper-casing or lower-casing the title does not change the verdict (`re.IGNORECASE`) |
| Filter.EscapeRoundTrip | app.py:41 | the pattern `'(' + '\|'.join(re.escape(t) ...) + ')'` has exactly the terms, in order, as its literal alternatives, whatever operator characters they contain |
| Filter.AlternativesOfEscape | app.py:41 | an escaped term read in front of more pattern text contributes itself, character for character, to the current alternative |
| Filter.PlusIsLiteral | app.py:41 | the term "C++" is found in "Senior c++ Developer": `+` is not a quantifier once escaped |
| Filter.DotIsLiteral | app.py:41 | the term "S.i" is not found in "Data Scientist": `.` matches only a dot once escaped |
| Text.LowerOfUpper | app.py:41 | lower-casing an upper-cased string gives the lower-cased string |
| Text.LowerOfLower | app.py:41 | lower-casing is idempotent |
| Text.Strip | app.py:36 | `str.strip()`; characterised by `StripEnds`, `StripBlank`, `StripIsSlice`, `StripChars` and `StripIdempotent` |
| Text.StripEnds | app.py:36 | a stripped string is empty or has no whitespace at either end |
| Text.StripBlank | app.py:36 | a line strips to the empty string exactly when it is all whitespace |
| Text.StripIsSlice | app.py:36 | the stripped text is the slice left after cutting a whitespace-only prefix and a whitespace-only suffix |
| Text.StripChars | app.py:36 | stripping only removes characters |
| Text.StripIdempotent | app.py:36 | stripping twice is stripping once |
| Text.SplitOn | app.py:36 | `str.split(sep)`, never empty; characterised by `SplitPiecesLackSep`, `JoinSplit`, `SplitJoin`, `SplitAppend`, `SplitNoSep` and `SplitFirstPiece` |
| Text.SplitPiecesLackSep | app.py:36 | no piece of `s.split(sep)` contains the separator |
| Text.JoinSplit | app.py:36 | joining the pieces of a split with the separator gives back the string |
| Text.SplitJoin | app.py:36 | splitting a join of separator-free pieces gives back the pieces |
| Text.SplitAppend | app.py:36 | the split of `a + sep + b` is the split of `a` followed by the split of `b` |
| Text.SplitNoSep | app.py:36 | a string without the separator splits into itself alone |
| Text.SplitFirstPiece | app.py:62 | the first piece of a split is a prefix of the string that ends at the first separator or at the end |
| Whitelist.ParseWhitelist | app.py:36 | the list comprehension over the lines of the text area; characterised by `NonBlankMembers`, `ParseWhitelistTermsClean`, `ParseWhitelistLines`, `ParseWhitelistOneLine` and `ParseWhitelistCleanLine` |
| Whitelist.NonBlankMembers | app.py:36 | the terms are exactly the stripped lines that are not empty |
| Whitelist.NonBlankAppend | app.py:36 | the terms of two runs of lines are the terms of the first run followed by those of the second |
| Whitelist.ParseWhitelistTermsClean | app.py:36 | every term is non-empty, has no whitespace at either end and holds no line break |
| Whitelist.ParseWhitelistLines | app.py:36 | the terms of `a + "\n" + b` are the terms of `a` followed by the terms of `b`: line order is kept |
| Whitelist.ParseWhitelistOneLine | app.py:36 | a single line yields its stripped text, or nothing when it is blank |
| Whitelist.ParseWhitelistCleanLine | app.py:36 | a line with no line break and no whitespace at its ends is one term, unchanged |
| Links.CanonicalLink | app.py:62 | the link has no `?`, is a prefix of the href, and is the whole href or stops right before its first `?` |
| Links.CanonicalLinkWithoutQuery | app.py:62 | an href without `?` is its own canonical link |
| Links.CanonicalLinkIdempotent | app.py:62 | canonicalising twice changes nothing |
| Links.CanonicalLinkIgnoresQuery | app.py:62 | two hrefs with the same path and different query strings have the same canonical link |
| Collectors.CrawlFrom | app.py:51-65 | the rows and requests of `fetch_linkedin` from page `i` on; characterised by the `Crawl...`, `StoppedCrawl` and `FailedPageKeepsEarlierJobs` lemmas |
| Collectors.FetchLinkedIn | app.py:46-66 | the rows collected and the requests issued are those of `CrawlFrom` over pages `0` to `pages - 1` |
| Collectors.CrawlRequests | app.py:51-52 | from page `i`, at most `pages - i` requests, at least one when a page remains, the `k`-th being the request for page `i + k` |
| Collectors.CrawlStartOffsets | app.py:52 | request `k` carries `start = 50 * k` and the role and location of the search |
| Collectors.CrawlRequestsAll | app.py:51-54 | while no page stops the crawl, every page is requested |
| Collectors.CrawlStopsAtFailure | app.py:53-65 | a page whose request or walk raises is the last page crawled: the later pages change neither rows nor requests |
| Collectors.CrawlMorePages | app.py:51-65 | crawling more pages only appends: the rows and requests of fewer pages are a prefix |
| Collectors.CrawlAppendsPage | app.py:51-65 | while no earlier page stopped the crawl, one more page appends exactly that page's rows and request |
| Collectors.StoppedCrawl | app.py:53-65 | the first page that stops the crawl leaves the rows of the earlier pages followed by the rows its own walk found before raising, and `k + 1` requests |
| Collectors.CrawlLastPage | app.py:53-65 | a page whose request raised adds no row to the pages before it |
| Collectors.FailedPageKeepsEarlierJobs | app.py:53-65 | when page `k`'s request raises, the rows are exactly those of pages `0` to `k - 1` |
| Collectors.CrawlJobsWellFormed | app.py:58-63 | every LinkedIn row has a title that passes the filter, the source LinkedIn, and a link without `?` |
| Collectors.ScanCards | app.py:56-63 | the walk over the cards of one page, and whether it raised; characterised by `ScanCardsAppend`, `IrrelevantCardIgnored`, `MissingLinkAborts`, `MissingSubtitleKept` and `ScanCardsProvenance` |
| Collectors.ScanCardsAppend | app.py:56-63 | the walk over two runs of cards is the walk over the first, then, unless it raised, the walk over the second |
| Collectors.IrrelevantCardIgnored | app.py:57-62 | a card without a title, or whose title fails the filter, changes nothing whether or not it has a link |
| Collectors.MissingLinkAborts | app.py:62-65 | a passing card without a link ends the walk, keeping the rows of the cards before it and losing those after it |
| Collectors.MissingSubtitleKept | app.py:61-63 | a passing card with a link and no subtitle is kept, with company "N/A", right after the rows before it |
| Collectors.ScanCardsProvenance | app.py:56-63 | every row of a walk is `CardJob` of a passing card of that page that has a link |
| Collectors.CardJobWellFormed | app.py:60-63 | the row of a passing card has the source LinkedIn, a passing title, and a link that is a `?`-free prefix of the href |
| Collectors.ScanListings | app.py:74-76 | the walk over a decoded job list, and whether it raised; characterised by `ScanListingsAppend`, `IrrelevantListingIgnored`, `MissingFieldAborts` and `ScanListingsProvenance` |
| Collectors.ListingJobs | app.py:70-77 | the rows of a JSON collector for one response; characterised by `ListingJobsEmpty` and `ListingJobsWellFormed` |
| Collectors.CollectListings | app.py:70-77 | the rows collected are those of `ListingJobs` on the response: none when the request raised, the walk over the list otherwise |
| Collectors.FetchRemotive | app.py:68-78 | the rows are those of the walk over the `jobs` list of the response to a search for the role |
| Collectors.FetchTheMuse | app.py:80-90 | the rows are those of the walk over the `results` list of the fixed Data Science request |
| Collectors.ScanListingsAppend | app.py:74-76 | the walk over two runs of job objects is the walk over the first, then, unless it raised, the walk over the second |
| Collectors.IrrelevantListingIgnored | app.py:74-88 | a job object whose title fails the filter changes nothing, even when its company or link is missing |
| Collectors.MissingFieldAborts | app.py:75-77 | a missing title, or a passing title with a missing company or link, ends the walk and keeps the rows before it |
| Collectors.ScanListingsProvenance | app.py:74-88 | every row of a walk is one of its job objects with all three fields present and a passing title, marked with the collector's source |
| Collectors.ListingJobsEmpty | app.py:70-77 | a request that raised, an absent list key or an empty list give no row |
| Collectors.ListingJobsWellFormed | app.py:70-89 | every row of a JSON collector has a passing title, the collector's source, and comes from an object of the decoded list |
| Merge.Dedup | app.py:103 | `drop_duplicates(subset=['Link'])`, keeping the first row of each link; characterised by `DedupFirstPositions`, `DedupLinks`, `DedupDistinct`, `DedupSubsequence`, `DedupKeepsFirst`, `DedupOfDistinct` and `DedupIdempotent` |
| Merge.DropDuplicates | app.py:103 | the rows kept by the seen-set loop are `Dedup` of the rows |
| Merge.DedupLinks | app.py:103 | the kept rows carry exactly the links of all the rows |
| Merge.DedupDistinct | app.py:103 | no two kept rows share a link |
| Merge.DedupSubsequence | app.py:103 | the kept rows are a subsequence of the rows: the order is kept |
| Merge.DedupKeepsFirst | app.py:103 | a row is kept exactly when no earlier row has its link (`keep='first'`) |
| Merge.DedupFirstPositions | app.py:103 | the kept rows are the rows at exactly the positions that are first of their link, in increasing order of position: this fixes the output completely |
| Merge.DedupOfDistinct | app.py:103 | rows with distinct links are all kept |
| Merge.DedupIdempotent | app.py:103 | deduplicating twice is deduplicating once |
| Merge.EarlierRowsWin | app.py:97-103 | when the rows of `a` precede those of `b`, every kept row whose link occurs in `a` is a row of `a` |
| Pipeline.Sweep | app.py:97-103 | the outcome of one search for given search parameters; characterised by `FoundTable`, `NothingFoundWhenAllEmpty` and `LinkedInWins` |
| Pipeline.Run | app.py:97-103 | the outcome is `Sweep` for the parameters `ParamsAsWritten` builds from the sidebar choices, the country going out as its label as line 98 does: nothing-found when the concatenated rows are empty, the deduplicated rows otherwise |
| Pipeline.ResultsWellFormed | app.py:97-100 | every concatenated row passes the parsed whitelist, and the rows come LinkedIn first, then Remotive, then The Muse |
| Pipeline.FoundTable | app.py:102-103 | the table is non-empty, has distinct links, keeps every collected link, has only passing titles and stays grouped by source in collector order |
| Pipeline.NothingFoundWhenAllEmpty | app.py:102 | nothing-found is the outcome exactly when all three collectors returned no row |
| Pipeline.LinkedInWins | app.py:98-103 | a link found by LinkedIn is shown with LinkedIn's row, never with a later source's |
| Pipeline.RemotiveBeatsTheMuse | app.py:99-103 | a link found by LinkedIn or Remotive is shown with a row of one of those two, never with The Muse's |
| Settings.LabelSentAsGeoId | app.py:26-27 | as line 98 is written, the `geoId` sent is the country's label, never a geo ID: "Brasil" goes out as `Brasil`, not `106057199` |
| Settings.ParamsSendGeoId | app.py:26 | with the country looked up in its table, the `geoId` is a geo ID, distinct countries give distinct IDs, and only "Global" gives the empty, unrestricted one |
| Settings.ParamsSendCodes | app.py:20-24 | the workplace and recency choices are sent as their table codes, distinct choices as distinct codes, and the role unchanged |

## Findings

| source | as written | input that shows it | evidently intended | confidence | as-written member | corrected member |
|---|---|---|---|---|---|---|
| app.py:98 | `fetch_linkedin(query_role, geo_id, ...)` passes the country's selectbox label as `geoId`, while the workplace and recency choices are looked up in their tables | country "Brasil": the request carries `geoId=Brasil`, not `106057199`; "Global" sends `geoId=Global` instead of no restriction | `location_options[geo_id]`, as for the other two selectors: the table of line 26 holds the LinkedIn geo IDs, and its values are otherwise unused (line 27 reads only its keys) | high, not executed | Settings.LabelSentAsGeoId | Settings.ParamsSendGeoId |

`Settings.ParamsAsWritten` is line 98 as written and `Settings.Params` the corrected lookup. `Pipeline.Run` uses `ParamsAsWritten`, as the source does. The collector lemmas hold for any search parameters, so they hold for either.

## Left out

- The Streamlit page: widgets, the spinner, the success and error messages, `st.data_editor`, the CSV download (lines 9-19, 28-35, 105-124; the selectors of lines 20-27 are modelled in `Settings`). `Run` stops at the outcome the page displays. Its inputs are the values the widgets return: the whitelist text, the role, the three selector choices and the number of pages. The slider's 1-20 range (line 28) is not enforced.
- The network: `requests.get`, its timeout, and `time_mod.sleep(0.5)` (lines 54, 64, 72, 84) are I/O and wall-clock time. Each page or response is an input that may be a failure.
- BeautifulSoup and `res.json()`. Their results are the `Card`, `RemotiveJob` and `MuseJob` records with `Option` fields.
  - `get_text(strip=True)` is taken to be the text the card holds.
  - A JSON value that is present but is not a string (a number, `null`, a nested list) is not modelled. Such a value can still pass `passes_filter` in the source because of `not title` or `str(title)`.
  - A job list that is not a list is not modelled either.
- Case-insensitive matching is modelled for ASCII letters only. Python's `re.IGNORECASE` also folds non-ASCII letters such as `Á`/`á`, and the model treats them as distinct.
- `str.strip` uses the exact code-point set of Python's `str.isspace`.
- The regular-expression engine is modelled only for the patterns this program builds: a group of escaped literals joined by `|`. `ParseGroup` rejects anything else.
- The pandas `DataFrame` and `to_csv(...).encode('utf-8-sig')` are not modelled. Only the keep-first semantics of `drop_duplicates(subset=['Link'])` is.
- Collectors.FetchTheMuse: the source never uses the role in The Muse request (line 84), so the model's response does not depend on it either.
- Collectors.FetchLinkedIn: the model also returns the page requests it issued, which the source does not expose. This makes the pagination contract statable.
