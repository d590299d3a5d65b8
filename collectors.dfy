/**
 * The three collectors `fetch_linkedin`, `fetch_remotive` and `fetch_themuse`
 * (app.py, lines 46-90).
 *
 * The network and the parsers are inputs: LinkedIn is a function from the
 * query parameters of a page request to what that request produced (an
 * exception, or the cards BeautifulSoup found on the page), and each JSON
 * API is the response it gave (an exception, or the decoded object). Every
 * field a card or a JSON object may lack is an `Option`; `None` is exactly
 * the case in which the source's lookup raises, or, for a card's title and
 * subtitle, in which `select_one` finds nothing.
 */
module Collectors {
  import opened Wrappers
  import opened Text
  import opened Filter
  import opened Links

  /** Where a row comes from: the "Origem" column. */
  datatype Source = LinkedIn | Remotive | TheMuse

  /** One result row, with the "Cargo", "Empresa", "Origem" and "Link" columns. */
  datatype Job = Job(title: string, company: string, origin: Source, link: string)

  /** The jobs one pass over a list yields, and whether an exception ended the pass early. */
  datatype Scan = Scan(jobs: seq<Job>, aborted: bool)

  /** `found` followed by what the rest of the pass yields. */
  function Then(found: seq<Job>, rest: Scan): Scan {
    Scan(found + rest.jobs, rest.aborted)
  }

  // ----- LinkedIn guest search (lines 46-66) -----

  /**
   * One `li` of a result page: the text of its `.base-search-card__title`,
   * the text of its `.base-search-card__subtitle`, and the `href` of its
   * `a.base-card__full-link` (None when the anchor or the attribute is missing).
   */
  datatype Card = Card(title: Option<string>, subtitle: Option<string>, href: Option<string>)

  /** A page request that raised, or the cards of the page it returned. */
  datatype Page = PageFailed | PageLoaded(cards: seq<Card>)

  /** The user's choices that every page request carries. */
  datatype SearchParams = SearchParams(role: string, geo: string, workplace: string, recency: string)

  /** The `params` of one page request (line 52). */
  datatype PageRequest = PageRequest(keywords: string, geoId: string, workplace: string, recency: string, start: int)

  /** Cards per result page: page `i` starts at `i * 50`. */
  const PageSize := 50

  function RequestFor(q: SearchParams, i: int): PageRequest {
    PageRequest(q.role, q.geo, q.workplace, q.recency, i * PageSize)
  }

  /** The card has a title element and its title passes the filter (lines 58-60). */
  predicate Relevant(c: Card, terms: seq<string>) {
    c.title.Some? && PassesFilter(c.title.value, terms)
  }

  /** The row a relevant card with a link becomes (lines 61-63). */
  function CardJob(c: Card): Job
    requires c.title.Some? && c.href.Some?
  {
    Job(c.title.value, c.subtitle.GetOr("N/A"), LinkedIn, CanonicalLink(c.href.value))
  }

  /**
   * The walk over the cards of one page: cards that are not relevant are
   * skipped without looking at their link; a relevant card without a link
   * raises, which ends the walk and keeps what it found so far.
   */
  function ScanCards(cards: seq<Card>, terms: seq<string>): Scan {
    if cards == [] then Scan([], false)
    else
      var c := cards[0];
      if !Relevant(c, terms) then ScanCards(cards[1..], terms)
      else if c.href.None? then Scan([], true)
      else Then([CardJob(c)], ScanCards(cards[1..], terms))
  }

  /** The rows collected and the page requests issued. */
  datatype Crawl = Crawl(jobs: seq<Job>, requests: seq<PageRequest>)

  /** What `first` collected and issued, followed by what `rest` did. */
  function Join(first: Crawl, rest: Crawl): Crawl {
    Crawl(first.jobs + rest.jobs, first.requests + rest.requests)
  }

  /** What page `req` contributes, and whether it ends the crawl. */
  function PageStep(req: PageRequest, page: Page, terms: seq<string>): (Crawl, bool) {
    match page
    case PageFailed => (Crawl([], [req]), true)
    case PageLoaded(cards) =>
      var s := ScanCards(cards, terms);
      (Crawl(s.jobs, [req]), s.aborted)
  }

  /**
   * Pages `i` to `pages - 1`: a page whose request raises, or whose walk
   * raises, ends the crawl; everything collected before is kept.
   */
  function CrawlFrom(q: SearchParams, fetch: PageRequest -> Page, terms: seq<string>, i: int, pages: int): Crawl
    decreases pages - i
  {
    if i >= pages then Crawl([], [])
    else
      var req := RequestFor(q, i);
      var (here, stop) := PageStep(req, fetch(req), terms);
      if stop then here else Join(here, CrawlFrom(q, fetch, terms, i + 1, pages))
  }

  lemma JoinAssoc(a: Crawl, b: Crawl, c: Crawl)
    ensures Join(Join(a, b), c) == Join(a, Join(b, c))
  {
    ConcatAssoc(a.jobs, b.jobs, c.jobs);
    ConcatAssoc(a.requests, b.requests, c.requests);
  }

  lemma JoinNothing(a: Crawl)
    ensures Join(a, Crawl([], [])) == a
  {
    AppendEmpty(a.jobs);
    AppendEmpty(a.requests);
  }

  /** One step of the walk over the cards from `k` on. */
  lemma ScanCardsStep(cards: seq<Card>, k: int, terms: seq<string>)
    requires 0 <= k < |cards|
    ensures ScanCards(cards[k..], terms)
         == if !Relevant(cards[k], terms) then ScanCards(cards[k + 1..], terms)
            else if cards[k].href.None? then Scan([], true)
            else Then([CardJob(cards[k])], ScanCards(cards[k + 1..], terms))
  {
    assert cards[k..][1..] == cards[k + 1..];
  }

  lemma ThenThen(a: seq<Job>, b: seq<Job>, s: Scan)
    ensures Then(a, Then(b, s)) == Then(a + b, s)
  {
    ConcatAssoc(a, b, s.jobs);
  }

  /** `fetch_linkedin(role, geo, pages, wt, tpr, terms)`, also returning the requests it issued. */
  method FetchLinkedIn(q: SearchParams, pages: int, terms: seq<string>, fetch: PageRequest -> Page)
    returns (jobs: seq<Job>, requests: seq<PageRequest>)
    ensures Crawl(jobs, requests) == CrawlFrom(q, fetch, terms, 0, pages)
  {
    jobs, requests := [], [];
    var i := 0;
    label crawl:
    while i < pages
      invariant 0 <= i
      invariant CrawlFrom(q, fetch, terms, 0, pages) == Join(Crawl(jobs, requests), CrawlFrom(q, fetch, terms, i, pages))
      decreases pages - i
    {
      var req := RequestFor(q, i);
      ghost var done := Crawl(jobs, requests);
      requests := requests + [req];
      var page := fetch(req);
      ghost var here := PageStep(req, page, terms).0;
      if page.PageFailed? {
        AppendEmpty(jobs);
        assert Join(done, here) == Crawl(jobs, requests);
        break;
      }
      var cards := page.cards;
      ghost var found: seq<Job> := [];
      var k := 0;
      assert cards[0..] == cards;
      while k < |cards|
        invariant 0 <= k <= |cards|
        invariant jobs == done.jobs + found
        invariant ScanCards(cards, terms) == Then(found, ScanCards(cards[k..], terms))
      {
        var card := cards[k];
        ScanCardsStep(cards, k, terms);
        if card.title.Some? {
          var title := card.title.value;
          if PassesFilter(title, terms) {
            var company := if card.subtitle.Some? then card.subtitle.value else "N/A";
            if card.href.None? {
              AppendEmpty(found);
              assert Join(done, here) == Crawl(jobs, requests);
              break crawl;
            }
            var link := CanonicalLink(card.href.value);
            ThenThen(found, [CardJob(card)], ScanCards(cards[k + 1..], terms));
            jobs := jobs + [Job(title, company, LinkedIn, link)];
            found := found + [Job(title, company, LinkedIn, link)];
          }
        }
        k := k + 1;
      }
      assert cards[|cards|..] == [];
      AppendEmpty(found);
      assert Join(done, here) == Crawl(jobs, requests);
      JoinAssoc(done, here, CrawlFrom(q, fetch, terms, i + 1, pages));
      i := i + 1;
    }
    JoinNothing(Crawl(jobs, requests));
  }

  // ----- what the collectors promise -----

  /** The walk over two runs of cards is the walk over the first, then, unless it raised, over the second. */
  lemma {:induction false} ScanCardsAppend(a: seq<Card>, b: seq<Card>, terms: seq<string>)
    ensures ScanCards(a + b, terms)
         == if ScanCards(a, terms).aborted then ScanCards(a, terms)
            else Then(ScanCards(a, terms).jobs, ScanCards(b, terms))
  {
    if a == [] {
      AppendEmpty(b);
    } else {
      ScanCardsAppend(a[1..], b, terms);
      DropConcat(a, b);
      if Relevant(a[0], terms) && a[0].href.Some? {
        ThenThen([CardJob(a[0])], ScanCards(a[1..], terms).jobs, ScanCards(b, terms));
      }
    }
  }

  /** A card whose title fails the filter changes nothing, whatever its link: the link is never looked up. */
  lemma IrrelevantCardIgnored(a: seq<Card>, c: Card, b: seq<Card>, terms: seq<string>)
    requires !Relevant(c, terms)
    ensures ScanCards(a + [c] + b, terms) == ScanCards(a + b, terms)
  {
    ScanCardsAppend(a, [c] + b, terms);
    ScanCardsAppend(a, b, terms);
    DropPrefix([c], b);
    ConcatAssoc(a, [c], b);
  }

  /** A relevant card without a link ends the walk: the cards after it are lost, the rows before it kept. */
  lemma MissingLinkAborts(a: seq<Card>, c: Card, b: seq<Card>, terms: seq<string>)
    requires !ScanCards(a, terms).aborted
    requires Relevant(c, terms) && c.href.None?
    ensures ScanCards(a + [c] + b, terms) == Scan(ScanCards(a, terms).jobs, true)
  {
    ScanCardsAppend(a, [c] + b, terms);
    ConcatAssoc(a, [c], b);
    AppendEmpty(ScanCards(a, terms).jobs);
  }

  /**
   * A relevant card with a link and no subtitle is kept, with "N/A" as its
   * company, right after the rows of the cards before it.
   */
  lemma MissingSubtitleKept(a: seq<Card>, c: Card, b: seq<Card>, terms: seq<string>)
    requires !ScanCards(a, terms).aborted
    requires Relevant(c, terms) && c.href.Some? && c.subtitle.None?
    ensures |ScanCards(a + [c] + b, terms).jobs| > |ScanCards(a, terms).jobs|
    ensures ScanCards(a + [c] + b, terms).jobs[|ScanCards(a, terms).jobs|]
         == Job(c.title.value, "N/A", LinkedIn, CanonicalLink(c.href.value))
  {
    ScanCardsAppend(a, [c] + b, terms);
    ConcatAssoc(a, [c], b);
    DropPrefix([c], b);
  }

  /** Every row of a walk comes from a relevant card with a link of that walk. */
  lemma {:induction false} ScanCardsProvenance(cards: seq<Card>, terms: seq<string>)
    ensures forall j :: j in ScanCards(cards, terms).jobs ==>
      exists c :: c in cards && Relevant(c, terms) && c.href.Some? && j == CardJob(c)
  {
    if cards != [] {
      ScanCardsProvenance(cards[1..], terms);
      forall c | c in cards[1..] ensures c in cards { }
    }
  }

  /** A LinkedIn row has a title that passes the filter and a link without a query string. */
  lemma CardJobWellFormed(c: Card, terms: seq<string>)
    requires Relevant(c, terms) && c.href.Some?
    ensures CardJob(c).origin == LinkedIn && PassesFilter(CardJob(c).title, terms)
    ensures '?' !in CardJob(c).link && CardJob(c).link <= c.href.value
  {
  }

  /** The requests of a crawl from page `i`: at most one per remaining page, for pages `i`, `i + 1`, ... in order. */
  lemma {:induction false} CrawlRequests(q: SearchParams, fetch: PageRequest -> Page, terms: seq<string>, i: int, pages: int)
    ensures var r := CrawlFrom(q, fetch, terms, i, pages).requests;
      (i < pages ==> 1 <= |r| <= pages - i) && (i >= pages ==> r == [])
      && forall k :: 0 <= k < |r| ==> r[k] == RequestFor(q, i + k)
    decreases pages - i
  {
    if i < pages {
      CrawlRequests(q, fetch, terms, i + 1, pages);
    }
  }

  /** Page `k` of `fetch_linkedin` asks for `start = 50 * k`. */
  lemma CrawlStartOffsets(q: SearchParams, fetch: PageRequest -> Page, terms: seq<string>, pages: int)
    ensures var r := CrawlFrom(q, fetch, terms, 0, pages).requests;
      forall k :: 0 <= k < |r| ==> r[k].start == 50 * k && r[k].keywords == q.role && r[k].geoId == q.geo
  {
    CrawlRequests(q, fetch, terms, 0, pages);
  }

  /** Page `k` stops the crawl: its request raised, or its walk raised. */
  predicate StopsAt(q: SearchParams, fetch: PageRequest -> Page, terms: seq<string>, k: int) {
    match fetch(RequestFor(q, k))
    case PageFailed => true
    case PageLoaded(cards) => ScanCards(cards, terms).aborted
  }

  /** A page that stops the crawl is the last one requested: the pages after it change nothing. */
  lemma {:induction false} CrawlStopsAtFailure(q: SearchParams, fetch: PageRequest -> Page, terms: seq<string>, i: int, k: int, pages: int)
    requires i <= k < pages && StopsAt(q, fetch, terms, k)
    ensures CrawlFrom(q, fetch, terms, i, pages) == CrawlFrom(q, fetch, terms, i, k + 1)
    decreases k - i
  {
    if i < k {
      CrawlStopsAtFailure(q, fetch, terms, i + 1, k, pages);
    }
  }

  /** Crawling more pages only appends: the rows and requests of fewer pages are kept as a prefix. */
  lemma {:induction false} CrawlMorePages(q: SearchParams, fetch: PageRequest -> Page, terms: seq<string>, i: int, k: int, pages: int)
    requires k <= pages
    ensures CrawlFrom(q, fetch, terms, i, k).jobs <= CrawlFrom(q, fetch, terms, i, pages).jobs
    ensures CrawlFrom(q, fetch, terms, i, k).requests <= CrawlFrom(q, fetch, terms, i, pages).requests
    decreases k - i
  {
    if i < k {
      CrawlMorePages(q, fetch, terms, i + 1, k, pages);
    }
  }

  /** A page whose request raised adds no row: the rows are those of the pages before it. */
  lemma FailedPageKeepsEarlierJobs(q: SearchParams, fetch: PageRequest -> Page, terms: seq<string>, k: int, pages: int)
    requires 0 <= k < pages && fetch(RequestFor(q, k)).PageFailed?
    ensures CrawlFrom(q, fetch, terms, 0, pages).jobs == CrawlFrom(q, fetch, terms, 0, k).jobs
  {
    CrawlStopsAtFailure(q, fetch, terms, 0, k, pages);
    CrawlLastPage(q, fetch, terms, 0, k);
  }

  /** Crawling one more page appends that page's rows, unless an earlier page stopped the crawl. */
  lemma {:induction false} CrawlLastPage(q: SearchParams, fetch: PageRequest -> Page, terms: seq<string>, i: int, k: int)
    requires i <= k
    ensures fetch(RequestFor(q, k)).PageFailed? ==>
      CrawlFrom(q, fetch, terms, i, k + 1).jobs == CrawlFrom(q, fetch, terms, i, k).jobs
    decreases k - i
  {
    if i < k {
      CrawlLastPage(q, fetch, terms, i + 1, k);
    }
  }

  /** While no page has stopped the crawl, one more page appends what that page contributes. */
  lemma {:induction false} CrawlAppendsPage(q: SearchParams, fetch: PageRequest -> Page, terms: seq<string>, i: int, k: int)
    requires i <= k
    requires forall j :: i <= j < k ==> !StopsAt(q, fetch, terms, j)
    ensures CrawlFrom(q, fetch, terms, i, k + 1)
         == Join(CrawlFrom(q, fetch, terms, i, k), PageStep(RequestFor(q, k), fetch(RequestFor(q, k)), terms).0)
    decreases k - i
  {
    if i < k {
      assert !StopsAt(q, fetch, terms, i);
      CrawlAppendsPage(q, fetch, terms, i + 1, k);
      var here := PageStep(RequestFor(q, i), fetch(RequestFor(q, i)), terms).0;
      JoinAssoc(here, CrawlFrom(q, fetch, terms, i + 1, k),
                PageStep(RequestFor(q, k), fetch(RequestFor(q, k)), terms).0);
    } else {
      var last := PageStep(RequestFor(q, k), fetch(RequestFor(q, k)), terms).0;
      AppendEmpty(last.jobs);
      AppendEmpty(last.requests);
    }
  }

  /** While no page stops the crawl, every page is requested. */
  lemma {:induction false} CrawlRequestsAll(q: SearchParams, fetch: PageRequest -> Page, terms: seq<string>, i: int, k: int)
    requires i <= k
    requires forall j :: i <= j < k ==> !StopsAt(q, fetch, terms, j)
    ensures |CrawlFrom(q, fetch, terms, i, k).requests| == k - i
    decreases k - i
  {
    if i < k {
      assert !StopsAt(q, fetch, terms, i);
      CrawlRequestsAll(q, fetch, terms, i + 1, k);
    }
  }

  /**
   * The first page that stops the crawl is the last one: the result is every
   * row of the pages before it, then the rows its own walk found before it
   * raised, and the requests for pages `0` to `k`.
   */
  lemma StoppedCrawl(q: SearchParams, fetch: PageRequest -> Page, terms: seq<string>, k: int, pages: int)
    requires 0 <= k < pages && StopsAt(q, fetch, terms, k)
    requires forall j :: 0 <= j < k ==> !StopsAt(q, fetch, terms, j)
    ensures var page := fetch(RequestFor(q, k));
      CrawlFrom(q, fetch, terms, 0, pages).jobs
        == CrawlFrom(q, fetch, terms, 0, k).jobs + (if page.PageFailed? then [] else ScanCards(page.cards, terms).jobs)
    ensures |CrawlFrom(q, fetch, terms, 0, pages).requests| == k + 1
  {
    CrawlStopsAtFailure(q, fetch, terms, 0, k, pages);
    CrawlAppendsPage(q, fetch, terms, 0, k);
    CrawlRequestsAll(q, fetch, terms, 0, k);
  }

  /** Every LinkedIn row passes the filter, is marked LinkedIn and has a link without a query string. */
  lemma {:induction false} CrawlJobsWellFormed(q: SearchParams, fetch: PageRequest -> Page, terms: seq<string>, i: int, pages: int)
    ensures forall j :: j in CrawlFrom(q, fetch, terms, i, pages).jobs ==>
      j.origin == LinkedIn && PassesFilter(j.title, terms) && '?' !in j.link
    decreases pages - i
  {
    if i < pages {
      CrawlJobsWellFormed(q, fetch, terms, i + 1, pages);
      var req := RequestFor(q, i);
      if fetch(req).PageLoaded? {
        var cards := fetch(req).cards;
        ScanCardsProvenance(cards, terms);
        forall j | j in ScanCards(cards, terms).jobs
          ensures j.origin == LinkedIn && PassesFilter(j.title, terms) && '?' !in j.link
        {
          var c :| c in cards && Relevant(c, terms) && c.href.Some? && j == CardJob(c);
          CardJobWellFormed(c, terms);
        }
      }
    }
  }

  // ----- the JSON APIs (lines 68-90) -----

  /**
   * The three lookups a collector makes on one JSON job object: its title,
   * its company name and its link; None where the lookup raises.
   */
  datatype Listing = Listing(title: Option<string>, company: Option<string>, link: Option<string>)

  /**
   * A request that raised (network error, undecodable body, a body that is
   * not an object) or the decoded object, whose job list is None when the
   * list key is absent and `data.get(key, [])` gives the empty list.
   */
  datatype Response<T> = RequestFailed | Received(list: Option<seq<T>>)

  /** A Remotive job object: `title`, `company_name`, `url`. */
  datatype RemotiveJob = RemotiveJob(title: Option<string>, companyName: Option<string>, url: Option<string>)

  /** A The Muse result object: `name`, `company` with its `name`, `refs` with its `landing_page`. */
  datatype MuseJob = MuseJob(name: Option<string>, company: Option<MuseCompany>, refs: Option<MuseRefs>)
  datatype MuseCompany = MuseCompany(name: Option<string>)
  datatype MuseRefs = MuseRefs(landingPage: Option<string>)

  /** `job['title']`, `job['company_name']`, `job['url']` (lines 75-76). */
  function RemotiveFields(j: RemotiveJob): Listing {
    Listing(j.title, j.companyName, j.url)
  }

  /** `job['name']`, `job['company']['name']`, `job['refs']['landing_page']` (lines 87-88). */
  function MuseFields(j: MuseJob): Listing {
    Listing(j.name,
            if j.company.Some? then j.company.value.name else None,
            if j.refs.Some? then j.refs.value.landingPage else None)
  }

  function AllFields<T>(items: seq<T>, fields: T -> Listing): (r: seq<Listing>)
    ensures |r| == |items|
  {
    seq(|items|, i requires 0 <= i < |items| => fields(items[i]))
  }

  /**
   * The walk over a JSON job list: a missing title raises (it is looked up
   * before the filter); a title that fails the filter is skipped; a passing
   * title with a missing company or link raises. Raising ends the walk and
   * keeps what it found so far.
   */
  function ScanListings(items: seq<Listing>, terms: seq<string>, origin: Source): Scan {
    if items == [] then Scan([], false)
    else
      var it := items[0];
      if it.title.None? then Scan([], true)
      else if !PassesFilter(it.title.value, terms) then ScanListings(items[1..], terms, origin)
      else if it.company.None? || it.link.None? then Scan([], true)
      else Then([Job(it.title.value, it.company.value, origin, it.link.value)],
                ScanListings(items[1..], terms, origin))
  }

  /** The rows one JSON collector returns. */
  function ListingJobs<T>(res: Response<T>, fields: T -> Listing, terms: seq<string>, origin: Source): seq<Job> {
    match res
    case RequestFailed => []
    case Received(list) => ScanListings(AllFields(list.GetOr([]), fields), terms, origin).jobs
  }

  /** One step of the walk over a JSON job list from `k` on. */
  lemma ScanListingsStep(items: seq<Listing>, k: int, terms: seq<string>, origin: Source)
    requires 0 <= k < |items|
    ensures ScanListings(items[k..], terms, origin)
         == if items[k].title.None? then Scan([], true)
            else if !PassesFilter(items[k].title.value, terms) then ScanListings(items[k + 1..], terms, origin)
            else if items[k].company.None? || items[k].link.None? then Scan([], true)
            else Then([Job(items[k].title.value, items[k].company.value, origin, items[k].link.value)],
                      ScanListings(items[k + 1..], terms, origin))
  {
    assert items[k..][1..] == items[k + 1..];
  }

  /** The `try` block shared by `fetch_remotive` and `fetch_themuse`. */
  method CollectListings<T>(res: Response<T>, fields: T -> Listing, terms: seq<string>, origin: Source)
    returns (jobs: seq<Job>)
    ensures jobs == ListingJobs(res, fields, terms, origin)
  {
    jobs := [];
    if res.Received? {
      var items := res.list.GetOr([]);
      ghost var listings := AllFields(items, fields);
      var k := 0;
      assert listings[0..] == listings;
      while k < |items|
        invariant 0 <= k <= |items|
        invariant ScanListings(listings, terms, origin)
               == Then(jobs, ScanListings(listings[k..], terms, origin))
      {
        var f := fields(items[k]);
        assert f == listings[k];
        ScanListingsStep(listings, k, terms, origin);
        if f.title.None? {
          break;
        }
        var title := f.title.value;
        if PassesFilter(title, terms) {
          if f.company.None? || f.link.None? {
            break;
          }
          var job := Job(title, f.company.value, origin, f.link.value);
          ThenThen(jobs, [job], ScanListings(listings[k + 1..], terms, origin));
          jobs := jobs + [job];
        }
        k := k + 1;
      }
      assert k == |items| ==> listings[k..] == [];
    }
  }

  // ----- what the JSON collectors promise -----

  /** The walk over two runs of job objects is the walk over the first, then, unless it raised, over the second. */
  lemma {:induction false} ScanListingsAppend(a: seq<Listing>, b: seq<Listing>, terms: seq<string>, origin: Source)
    ensures ScanListings(a + b, terms, origin)
         == if ScanListings(a, terms, origin).aborted then ScanListings(a, terms, origin)
            else Then(ScanListings(a, terms, origin).jobs, ScanListings(b, terms, origin))
  {
    if a == [] {
      AppendEmpty(b);
    } else {
      ScanListingsAppend(a[1..], b, terms, origin);
      DropConcat(a, b);
      var it := a[0];
      if it.title.Some? && PassesFilter(it.title.value, terms) && it.company.Some? && it.link.Some? {
        ThenThen([Job(it.title.value, it.company.value, origin, it.link.value)],
                 ScanListings(a[1..], terms, origin).jobs, ScanListings(b, terms, origin));
      }
    }
  }

  /** A job object whose title fails the filter changes nothing, even when its company or link is missing. */
  lemma IrrelevantListingIgnored(a: seq<Listing>, it: Listing, b: seq<Listing>, terms: seq<string>, origin: Source)
    requires it.title.Some? && !PassesFilter(it.title.value, terms)
    ensures ScanListings(a + [it] + b, terms, origin) == ScanListings(a + b, terms, origin)
  {
    ScanListingsAppend(a, [it] + b, terms, origin);
    ScanListingsAppend(a, b, terms, origin);
    DropPrefix([it], b);
    ConcatAssoc(a, [it], b);
  }

  /**
   * A job object without a title, or with a passing title and no company or
   * link, ends the walk: the objects after it are lost, the rows before it kept.
   */
  lemma MissingFieldAborts(a: seq<Listing>, it: Listing, b: seq<Listing>, terms: seq<string>, origin: Source)
    requires !ScanListings(a, terms, origin).aborted
    requires it.title.None? || (PassesFilter(it.title.value, terms) && (it.company.None? || it.link.None?))
    ensures ScanListings(a + [it] + b, terms, origin) == Scan(ScanListings(a, terms, origin).jobs, true)
  {
    ScanListingsAppend(a, [it] + b, terms, origin);
    ConcatAssoc(a, [it], b);
    AppendEmpty(ScanListings(a, terms, origin).jobs);
  }

  /**
   * Every row of a walk is one of its job objects with all three fields
   * present and a title that passes the filter, marked with the collector's source.
   */
  lemma {:induction false} ScanListingsProvenance(items: seq<Listing>, terms: seq<string>, origin: Source)
    ensures forall j :: j in ScanListings(items, terms, origin).jobs ==>
      j.origin == origin && PassesFilter(j.title, terms) &&
      Listing(Some(j.title), Some(j.company), Some(j.link)) in items
  {
    if items != [] {
      ScanListingsProvenance(items[1..], terms, origin);
      var it := items[0];
      assert it in items;
      forall l | l in items[1..] ensures l in items { }
      if it.title.Some? && it.company.Some? && it.link.Some? {
        assert it == Listing(Some(it.title.value), Some(it.company.value), Some(it.link.value));
      }
    }
  }

  /** A JSON collector whose request raised returns no row; one whose list key is absent returns no row either. */
  lemma ListingJobsEmpty<T>(res: Response<T>, fields: T -> Listing, terms: seq<string>, origin: Source)
    requires res.RequestFailed? || res.list.None? || res.list.value == []
    ensures ListingJobs(res, fields, terms, origin) == []
  {
  }

  /** Every row of a JSON collector is one of its job objects, filtered and marked with its source. */
  lemma ListingJobsWellFormed<T>(res: Response<T>, fields: T -> Listing, terms: seq<string>, origin: Source)
    ensures forall j :: j in ListingJobs(res, fields, terms, origin) ==>
      j.origin == origin && PassesFilter(j.title, terms) &&
      res.Received? && exists x :: x in res.list.GetOr([]) && fields(x) == Listing(Some(j.title), Some(j.company), Some(j.link))
  {
    if res.Received? {
      var items := res.list.GetOr([]);
      var listings := AllFields(items, fields);
      ScanListingsProvenance(listings, terms, origin);
      forall j | j in ListingJobs(res, fields, terms, origin)
        ensures exists x :: x in items && fields(x) == Listing(Some(j.title), Some(j.company), Some(j.link))
      {
        var k :| 0 <= k < |listings| && listings[k] == Listing(Some(j.title), Some(j.company), Some(j.link));
        assert items[k] in items;
      }
    }
  }

  /** `fetch_remotive(role, terms)`: the search term of the request is the role. */
  method FetchRemotive(role: string, terms: seq<string>, api: string -> Response<RemotiveJob>)
    returns (jobs: seq<Job>)
    ensures jobs == ListingJobs(api(role), RemotiveFields, terms, Remotive)
  {
    jobs := CollectListings(api(role), RemotiveFields, terms, Remotive);
  }

  /** `fetch_themuse(role, terms)`: the request is fixed and does not depend on the role. */
  method FetchTheMuse(role: string, terms: seq<string>, api: Response<MuseJob>)
    returns (jobs: seq<Job>)
    ensures jobs == ListingJobs(api, MuseFields, terms, TheMuse)
  {
    jobs := CollectListings(api, MuseFields, terms, TheMuse);
  }
}
