/**
 * The two search loops of `IndeedScraper`: `search_jobs_selenium`, which
 * drives a browser page by page, and `search_jobs_requests`, which fetches
 * result pages by offset. The browser, the HTTP server and the HTML parser
 * are given as answers (what each wait, click, query or fetch returns), so
 * that each loop is a deterministic state machine over one result list.
 */
module Scraper {
  import opened Text
  import opened Records
  import opened Captcha
  import opened Extraction

  // ---------------------------------------------------------------------------
  // Keeping the records the extractor produced
  // ---------------------------------------------------------------------------

  /** The values of the `Some` entries of `xs`, in order (the `if job_data:` filter). */
  function Present<T>(xs: seq<Option<T>>): (vs: seq<T>)
    ensures |vs| <= |xs|
  {
    if xs == [] then []
    else
      var init := Present(xs[..|xs| - 1]);
      match xs[|xs| - 1]
      case None => init
      case Some(v) => init + [v]
  }

  /** A value is kept exactly when some entry produced it. */
  lemma {:induction false} PresentMembers<T>(xs: seq<Option<T>>, v: T)
    ensures v in Present(xs) <==> Some(v) in xs
  {
    if xs != [] {
      var init := xs[..|xs| - 1];
      assert xs == init + [xs[|xs| - 1]];
      PresentMembers(init, v);
    }
  }

  /** When nothing is dropped, the kept values are the entries' values, position by position. */
  lemma {:induction false} PresentAllSome<T>(xs: seq<Option<T>>)
    requires forall i :: 0 <= i < |xs| ==> xs[i].Some?
    ensures |Present(xs)| == |xs|
    ensures forall i :: 0 <= i < |xs| ==> Present(xs)[i] == xs[i].value
  {
    if xs != [] {
      PresentAllSome(xs[..|xs| - 1]);
    }
  }

  /** Dropping `None` entries commutes with concatenation, so order is kept across pages. */
  lemma {:induction false} PresentAppend<T>(xs: seq<Option<T>>, ys: seq<Option<T>>)
    ensures Present(xs + ys) == Present(xs) + Present(ys)
    decreases |ys|
  {
    if ys == [] {
      assert xs + ys == xs;
    } else {
      assert (xs + ys)[..|xs + ys| - 1] == xs + ys[..|ys| - 1];
      PresentAppend(xs, ys[..|ys| - 1]);
    }
  }

  /** Taking one more entry appends its value, if it has one. */
  lemma PresentSnoc<T>(xs: seq<Option<T>>, i: nat)
    requires i < |xs|
    ensures Present(xs[..i + 1]) == Present(xs[..i]) + (if xs[i].Some? then [xs[i].value] else [])
  {
    assert xs[..i + 1][..i] == xs[..i];
  }

  /** An entry with no value is dropped and nothing else: the kept values around it stay in order. */
  lemma PresentSkipsNone<T>(xs: seq<Option<T>>, i: nat)
    requires i < |xs| && xs[i].None?
    ensures Present(xs) == Present(xs[..i]) + Present(xs[i + 1..])
  {
    var before, dropped, after := xs[..i], [xs[i]], xs[i + 1..];
    assert xs == before + (dropped + after);
    PresentAppend(before, dropped + after);
    PresentAppend(dropped, after);
    assert Present(dropped) == [] by {
      assert dropped[..0] == [];
    }
    assert Present(dropped + after) == Present(after) by {
      assert [] + Present(after) == Present(after);
    }
  }

  lemma AppendAssoc<T>(a: seq<T>, b: seq<T>, c: seq<T>)
    ensures a + (b + c) == (a + b) + c
  {
  }

  // ---------------------------------------------------------------------------
  // search_jobs_selenium
  // ---------------------------------------------------------------------------

  /** How waiting for and clicking the "Next Page" control turns out. */
  datatype NextControl =
    | NextTimeout              // not clickable within the wait: no more pages
    | NextFails                // the driver raised something else while clicking
    | Clicked(after: DomAnswer) // navigated; the new document as the challenge check sees it

  /** What the browser shows on one results page. */
  datatype LivePage =
    | ListingsTimeout          // no `div.job_seen_beacon` appeared within the wait
    | ListingsFail             // the driver raised something else while waiting or listing
    | Listings(fragments: seq<LiveFragment>, next: NextControl)

  /** Filling and submitting the search form. */
  datatype SearchForm =
    | FormFails                // an input or the submit button could not be found or used
    | Submitted(results: DomAnswer)

  /** Everything before the page loop. */
  datatype Setup =
    | DriverFails              // the driver could not be created: nothing to quit
    | HomeFails                // the driver exists but loading the base URL raised
    | Home(landing: DomAnswer, search: SearchForm)

  /** What a call returns to its caller: a value, or an exception. */
  datatype Outcome = Returned(jobs: seq<JobRecord>) | Raised

  /** The setup passed both challenge checks and the search was submitted. */
  predicate Ready(setup: Setup)
  {
    && setup.Home?
    && !CheckForCaptcha(setup.landing)
    && setup.search.Submitted?
    && !CheckForCaptcha(setup.search.results)
  }

  function LiveResults(fragments: seq<LiveFragment>): (rs: seq<Option<JobRecord>>)
    ensures |rs| == |fragments|
    ensures forall i :: 0 <= i < |fragments| ==> rs[i] == ExtractSelenium(fragments[i])
  {
    seq(|fragments|, i requires 0 <= i < |fragments| => ExtractSelenium(fragments[i]))
  }

  /** The records one page contributes: its listings' records, unbroken ones only, in order. */
  function LivePageRecords(pg: LivePage): seq<JobRecord>
  {
    if pg.Listings? then Present(LiveResults(pg.fragments)) else []
  }

  /** After this page the loop goes on to the next one (when there is a next one to go to). */
  predicate Proceeds(pg: LivePage)
  {
    pg.Listings? && pg.next.Clicked? && !CheckForCaptcha(pg.next.after)
  }

  /** The records the loop gathers from page `p` on, for `range(n)`. */
  function LivePages(pages: nat -> LivePage, p: nat, n: int): seq<JobRecord>
    decreases n - p
  {
    if p >= n || !pages(p).Listings? then []
    else
      LivePageRecords(pages(p)) +
      (if p < n - 1 && Proceeds(pages(p)) then LivePages(pages, p + 1, n) else [])
  }

  function SeleniumJobs(setup: Setup, pages: nat -> LivePage, n: int): seq<JobRecord>
  {
    if Ready(setup) then LivePages(pages, 0, n) else []
  }

  /**
   * `search_jobs_selenium` as its caller sees it: every failure inside is
   * caught and the gathered list returned, except that a `driver.quit()`
   * raising in the `finally` block replaces the return with that exception.
   */
  function SeleniumSearch(setup: Setup, pages: nat -> LivePage, n: int, quitRaises: bool): Outcome
  {
    if !setup.DriverFails? && quitRaises then Raised else Returned(SeleniumJobs(setup, pages, n))
  }

  /**
   * The inner `for job in jobs` loop of `search_jobs_selenium`: extract each
   * listing in turn and append the records that come back, skipping the
   * listings whose extraction fails.
   */
  method AppendLive(jobs: seq<JobRecord>, fragments: seq<LiveFragment>) returns (out: seq<JobRecord>)
    ensures out == jobs + Present(LiveResults(fragments))
  {
    out := jobs;
    ghost var results := LiveResults(fragments);
    for i := 0 to |fragments|
      invariant out == jobs + Present(results[..i])
    {
      var r := ExtractSelenium(fragments[i]);
      PresentSnoc(results, i);
      if r.Some? {
        out := out + [r.value];
      }
    }
    assert results[..|fragments|] == results;
  }

  /**
   * A listing whose extraction fails is skipped without ending the page: the
   * page's records are those of the listings before it followed by those
   * after it.
   */
  lemma BrokenListingSkipped(fragments: seq<LiveFragment>, i: nat)
    requires i < |fragments| && LiveBroken(fragments[i])
    ensures Present(LiveResults(fragments)) ==
            Present(LiveResults(fragments[..i])) + Present(LiveResults(fragments[i + 1..]))
  {
    var rs := LiveResults(fragments);
    PresentSkipsNone(rs, i);
    assert rs[..i] == LiveResults(fragments[..i]);
    assert rs[i + 1..] == LiveResults(fragments[i + 1..]);
  }

  /** `search_jobs_selenium`. */
  method SearchJobsSelenium(setup: Setup, pages: nat -> LivePage, n: int, quitRaises: bool) returns (outcome: Outcome)
    ensures outcome == SeleniumSearch(setup, pages, n, quitRaises)
  {
    var jobs: seq<JobRecord> := [];
    if Ready(setup) {
      var page: nat := 0;
      while page < n
        invariant jobs + LivePages(pages, page, n) == LivePages(pages, 0, n)
        decreases n - page
      {
        match pages(page) {
          case ListingsTimeout =>
            break;
          case ListingsFail =>
            break;
          case Listings(fragments, next) =>
            ghost var before, here := jobs, LivePageRecords(pages(page));
            jobs := AppendLive(jobs, fragments);
            if page < n - 1 {
              match next {
                case NextTimeout =>
                  break;
                case NextFails =>
                  break;
                case Clicked(after) =>
                  if CheckForCaptcha(after) {
                    break;
                  }
                  ghost var rest := LivePages(pages, page + 1, n);
                  AppendAssoc(before, here, rest);
              }
            }
        }
        page := page + 1;
      }
    }
    if !setup.DriverFails? && quitRaises {
      outcome := Raised;
    } else {
      outcome := Returned(jobs);
    }
  }

  /** A challenge on the landing page or right after submitting the search leaves the list empty. */
  lemma SeleniumChallengeBeforeLoop(setup: Setup, pages: nat -> LivePage, n: int)
    requires setup.Home?
    requires CheckForCaptcha(setup.landing) ||
             (setup.search.Submitted? && CheckForCaptcha(setup.search.results))
    ensures SeleniumJobs(setup, pages, n) == []
  {
  }

  /** The only way the call raises is the final `driver.quit()`; otherwise it returns its list. */
  lemma SeleniumRaisesOnlyOnQuit(setup: Setup, pages: nat -> LivePage, n: int, quitRaises: bool)
    ensures SeleniumSearch(setup, pages, n, quitRaises).Raised? <==> !setup.DriverFails? && quitRaises
    ensures setup.DriverFails? ==> SeleniumSearch(setup, pages, n, quitRaises) == Returned([])
  {
  }

  /** Two pages that list the same fragments, whatever their "Next Page" controls do. */
  predicate SameListings(a: LivePage, b: LivePage)
  {
    a == b || (a.Listings? && b.Listings? && a.fragments == b.fragments)
  }

  /**
   * The loop looks at no page at or beyond `n`, and on page `n - 1` it never
   * consults the "Next Page" control: two browsers that agree on the pages
   * before `n - 1` and list the same fragments on page `n - 1` give the same
   * records, however many further pages they would offer.
   */
  lemma {:induction false} LivePagesBounded(pages1: nat -> LivePage, pages2: nat -> LivePage, p: nat, n: int)
    requires forall k :: p <= k < n - 1 ==> pages1(k) == pages2(k)
    requires p <= n - 1 ==> SameListings(pages1(n - 1), pages2(n - 1))
    ensures LivePages(pages1, p, n) == LivePages(pages2, p, n)
    decreases n - p
  {
    if p < n - 1 {
      assert pages1(p) == pages2(p);
      LivePagesBounded(pages1, pages2, p + 1, n);
    }
  }

  /** The records of pages `p` up to (not including) `k`, page after page. */
  function Gathered(pages: nat -> LivePage, p: nat, k: nat): seq<JobRecord>
    decreases k - p
  {
    if p >= k then [] else LivePageRecords(pages(p)) + Gathered(pages, p + 1, k)
  }

  /** Every page `p..k-1` proceeds to the next. */
  predicate ProceedsThrough(pages: nat -> LivePage, p: nat, k: nat)
    decreases k - p
  {
    p >= k || (Proceeds(pages(p)) && ProceedsThrough(pages, p + 1, k))
  }

  lemma {:induction false} ProceedsThroughFromAll(pages: nat -> LivePage, p: nat, k: nat)
    requires forall j :: p <= j < k ==> Proceeds(pages(j))
    ensures ProceedsThrough(pages, p, k)
    decreases k - p
  {
    if p < k {
      ProceedsThroughFromAll(pages, p + 1, k);
    }
  }

  /** A page that proceeds, before the last one, is followed by the next. */
  lemma LivePagesStep(pages: nat -> LivePage, p: nat, n: int)
    requires p < n - 1 && Proceeds(pages(p))
    ensures LivePages(pages, p, n) == LivePageRecords(pages(p)) + LivePages(pages, p + 1, n)
  {
  }

  /**
   * While pages proceed, the result is their records in page order followed
   * by whatever the loop gathers from page `k` on.
   */
  lemma {:induction false} LivePagesSplit(pages: nat -> LivePage, p: nat, k: nat, n: int)
    requires p <= k < n
    requires ProceedsThrough(pages, p, k)
    ensures LivePages(pages, p, n) == Gathered(pages, p, k) + LivePages(pages, k, n)
    decreases k - p
  {
    if p < k {
      LivePagesSplit(pages, p + 1, k, n);
      LivePagesStep(pages, p, n);
      AppendAssoc(LivePageRecords(pages(p)), Gathered(pages, p + 1, k), LivePages(pages, k, n));
    }
  }

  lemma {:induction false} GatheredSnoc(pages: nat -> LivePage, p: nat, k: nat)
    requires p <= k
    ensures Gathered(pages, p, k + 1) == Gathered(pages, p, k) + LivePageRecords(pages(k))
    decreases k - p
  {
    if p < k {
      GatheredSnoc(pages, p + 1, k);
      AppendAssoc(LivePageRecords(pages(p)), Gathered(pages, p + 1, k), LivePageRecords(pages(k)));
    }
  }

  /**
   * The run ends at the first page `k` that does not proceed (its listings
   * timed out or failed, its "Next Page" control timed out or failed, or a
   * challenge appeared after the click), or at page `n - 1`: the result is
   * then exactly the records of pages `0..k`, in page order and within a
   * page in fragment order.
   */
  lemma StopsAtPage(pages: nat -> LivePage, n: int, k: nat)
    requires k < n
    requires forall j :: 0 <= j < k ==> Proceeds(pages(j))
    requires !Proceeds(pages(k)) || k == n - 1
    ensures LivePages(pages, 0, n) == Gathered(pages, 0, k + 1)
  {
    ProceedsThroughFromAll(pages, 0, k);
    LivePagesSplit(pages, 0, k, n);
    GatheredSnoc(pages, 0, k);
  }

  // ---------------------------------------------------------------------------
  // search_jobs_requests
  // ---------------------------------------------------------------------------

  /** One `session.get` of a results page. */
  datatype Request = Request(url: string, query: string, location: string, start: int, headers: map<string, string>)

  /** What fetching and parsing one results page gives. */
  datatype HttpAnswer =
    | HttpError                // `raise_for_status` raised
    | RequestFails             // the network, a timeout, or anything else raised
    | Body(text: string, listings: seq<seq<Element>>)  // the body text and its `div[data-jk]` fragments

  /**
   * The world the requests path talks to: the base URL, `urljoin`, the
   * headers `get_random_headers` hands out for each page, and the server.
   */
  datatype Site = Site(
    base: string,
    join: (string, string) -> Option<string>,
    headers: nat -> map<string, string>,
    server: Request -> HttpAnswer)

  /** The request for page `page`: offset `page * 10`, with the Do-Not-Track header forced on. */
  function PageRequest(site: Site, query: string, location: string, page: nat): (req: Request)
    ensures req.url == site.base + "/jobs" && req.query == query && req.location == location
    ensures req.start == page * 10
    ensures "DNT" in req.headers && req.headers["DNT"] == "1"
    ensures forall h :: h in site.headers(page) && h != "DNT" ==> h in req.headers && req.headers[h] == site.headers(page)[h]
    ensures req.headers.Keys == site.headers(page).Keys + {"DNT"}
  {
    Request(site.base + "/jobs", query, location, page * 10, site.headers(page)["DNT" := "1"])
  }

  function StaticResults(site: Site, listings: seq<seq<Element>>): (rs: seq<Option<JobRecord>>)
    ensures |rs| == |listings|
    ensures forall i :: 0 <= i < |listings| ==> rs[i] == ExtractStatic(site.base, site.join, listings[i])
  {
    seq(|listings|, i requires 0 <= i < |listings| => ExtractStatic(site.base, site.join, listings[i]))
  }

  /** The records and the requests of a run of the requests path. */
  datatype Fetched = Fetched(jobs: seq<JobRecord>, sent: seq<Request>)

  /** The page asks to verify that the client is not a bot. */
  predicate Walled(answer: HttpAnswer)
  {
    answer.Body? && BotWall(answer.text)
  }

  /** The records a fetched page contributes; a page that failed contributes none. */
  function AnswerRecords(site: Site, answer: HttpAnswer): seq<JobRecord>
  {
    if answer.Body? then Present(StaticResults(site, answer.listings)) else []
  }

  /** What the loop makes of one answer: a bot wall ends the run, anything else contributes its records. */
  datatype PageLook = Wall | Kept(records: seq<JobRecord>)

  function Look(site: Site, answer: HttpAnswer): (l: PageLook)
    ensures l.Wall? <==> Walled(answer)
  {
    if Walled(answer) then Wall else Kept(AnswerRecords(site, answer))
  }

  /**
   * The shape of the page loop from page `p` on, for `range(n)`: `request`
   * gives the request sent for each page and `look` what the loop makes of
   * the answer to it. Each page's request is sent; a wall stops the loop
   * after that request, otherwise the page's records come first.
   */
  function Run(request: nat -> Request, look: Request -> PageLook, p: nat, n: int): Fetched
    decreases n - p
  {
    if p >= n then Fetched([], [])
    else
      match look(request(p))
      case Wall => Fetched([], [request(p)])
      case Kept(rs) =>
        var rest := Run(request, look, p + 1, n);
        Fetched(rs + rest.jobs, [request(p)] + rest.sent)
  }

  function Requests(site: Site, query: string, location: string): nat -> Request
  {
    (j: nat) => PageRequest(site, query, location, j)
  }

  function Looks(site: Site): Request -> PageLook
  {
    r => Look(site, site.server(r))
  }

  /** The records and requests of `search_jobs_requests`'s loop from page `p` on, for `range(n)`. */
  function FetchPages(site: Site, query: string, location: string, p: nat, n: int): Fetched
  {
    Run(Requests(site, query, location), Looks(site), p, n)
  }

  /** One page of the loop, in terms of the answer to that page's request. */
  lemma FetchPagesStep(site: Site, query: string, location: string, p: nat, n: int)
    requires p < n
    ensures var req, rest := PageRequest(site, query, location, p), FetchPages(site, query, location, p + 1, n);
      FetchPages(site, query, location, p, n) ==
        if Walled(site.server(req)) then Fetched([], [req])
        else Fetched(AnswerRecords(site, site.server(req)) + rest.jobs, [req] + rest.sent)
  {
    assert Requests(site, query, location)(p) == PageRequest(site, query, location, p);
  }

  /**
   * The inner `for job in jobs` loop of `search_jobs_requests`: extract each
   * fragment and append the records that come back.
   */
  method AppendStatic(site: Site, jobs: seq<JobRecord>, listings: seq<seq<Element>>) returns (out: seq<JobRecord>)
    ensures out == jobs + Present(StaticResults(site, listings))
  {
    out := jobs;
    ghost var results := StaticResults(site, listings);
    for i := 0 to |listings|
      invariant out == jobs + Present(results[..i])
    {
      var r := ExtractStatic(site.base, site.join, listings[i]);
      PresentSnoc(results, i);
      if r.Some? {
        out := out + [r.value];
      }
    }
    assert results[..|listings|] == results;
  }

  /**
   * A listing the static extractor gives up on (its link could not be
   * joined) is skipped; the listings around it keep their records, in order.
   */
  lemma UnjoinableListingSkipped(site: Site, listings: seq<seq<Element>>, i: nat)
    requires i < |listings| && ExtractStatic(site.base, site.join, listings[i]).None?
    ensures Present(StaticResults(site, listings)) ==
            Present(StaticResults(site, listings[..i])) + Present(StaticResults(site, listings[i + 1..]))
  {
    var rs := StaticResults(site, listings);
    PresentSkipsNone(rs, i);
    assert rs[..i] == StaticResults(site, listings[..i]);
    assert rs[i + 1..] == StaticResults(site, listings[i + 1..]);
  }

  /** `search_jobs_requests`; `sent` lists the requests it makes, in order. */
  method SearchJobsRequests(site: Site, query: string, location: string, n: int)
    returns (jobs: seq<JobRecord>, sent: seq<Request>)
    ensures Fetched(jobs, sent) == FetchPages(site, query, location, 0, n)
  {
    jobs, sent := [], [];
    var page: nat := 0;
    while page < n
      invariant jobs + FetchPages(site, query, location, page, n).jobs == FetchPages(site, query, location, 0, n).jobs
      invariant sent + FetchPages(site, query, location, page, n).sent == FetchPages(site, query, location, 0, n).sent
      decreases n - page
    {
      var req := PageRequest(site, query, location, page);
      FetchPagesStep(site, query, location, page, n);
      ghost var sentBefore, rest := sent, FetchPages(site, query, location, page + 1, n);
      sent := sent + [req];
      AppendAssoc(sentBefore, [req], rest.sent);
      var answer := site.server(req);
      if answer.Body? {
        if BotWall(answer.text) {
          return;
        }
        ghost var before := jobs;
        jobs := AppendStatic(site, jobs, answer.listings);
        AppendAssoc(before, AnswerRecords(site, answer), rest.jobs);
      } else {
        // `raise_for_status` or the request itself raised: the page is skipped
        assert [] + rest.jobs == rest.jobs;
      }
      page := page + 1;
    }
  }

  /**
   * A listing whose one element is the salary element (no other lookup
   * selects it) gives its stripped text as the salary and the sentinel in
   * every other field.
   */
  lemma SalaryOnlyListing(site: Site, e: Element)
    requires Selects(FieldQuery(Salary), e)
    requires forall q :: q in StaticLookups && q != FieldQuery(Salary) ==> !Selects(q, e)
    ensures ExtractStatic(site.base, site.join, [e]) == Some(Blank.(salary := Strip(e.text)))
  {
    assert SpanWithTitle in StaticLookups && AnchorWithHref in StaticLookups;
    assert FieldQuery(Company) in StaticLookups && FieldQuery(Location) in StaticLookups;
    assert FieldQuery(Summary) in StaticLookups;
    StaticUrlWithoutAnchor(site.base, site.join, [e]);
    StaticTitleWithoutTitledSpan(site.base, site.join, [e]);
    StaticTextWithoutElement(site.base, site.join, [e], Company);
    StaticTextWithoutElement(site.base, site.join, [e], Location);
    StaticTextWithoutElement(site.base, site.join, [e], Summary);
    StaticTextIsFirstSelected(site.base, site.join, [e], Salary, 0);
  }

  /**
   * A fetched page with two listings, the first holding only a salary
   * element whose text is not the sentinel and the second empty, gives two
   * records in listing order, and only the second has the salary sentinel.
   */
  lemma SalaryMissingExample(site: Site, text: string, e: Element)
    requires Selects(FieldQuery(Salary), e)
    requires forall q :: q in StaticLookups && q != FieldQuery(Salary) ==> !Selects(q, e)
    requires Strip(e.text) != NA
    ensures var recs := AnswerRecords(site, Body(text, [[e], []]));
      && |recs| == 2
      && recs[0].salary == Strip(e.text) && recs[0].salary != NA
      && recs[1].salary == NA
  {
    SalaryOnlyListing(site, e);
    StaticAllMissing(site.base, site.join, []);
    var rs := StaticResults(site, [[e], []]);
    assert rs == [Some(Blank.(salary := Strip(e.text))), Some(Blank)];
    PresentAllSome(rs);
  }

  // The page loop's properties, for any requests and any reading of the answers.

  /** The requests for `m` consecutive pages from page `p`. */
  function RequestsFrom(request: nat -> Request, p: nat, m: nat): (reqs: seq<Request>)
    ensures |reqs| == m
    decreases m
  {
    if m == 0 then [] else [request(p)] + RequestsFrom(request, p + 1, m - 1)
  }

  lemma {:induction false} RequestsFromAt(request: nat -> Request, p: nat, m: nat, i: nat)
    requires i < m
    ensures RequestsFrom(request, p, m)[i] == request(p + i)
    decreases i
  {
    if i > 0 {
      RequestsFromAt(request, p + 1, m - 1, i - 1);
    }
  }

  /** The run sends the requests of consecutive pages from `p`, and no more than there are pages left. */
  lemma {:induction false} RunRequests(request: nat -> Request, look: Request -> PageLook, p: nat, n: int)
    ensures |Run(request, look, p, n).sent| <= (if p < n then n - p else 0)
    ensures Run(request, look, p, n).sent == RequestsFrom(request, p, |Run(request, look, p, n).sent|)
    decreases n - p
  {
    if p < n && look(request(p)).Kept? {
      RunRequests(request, look, p + 1, n);
    }
  }

  /** None of the pages `p..k-1` is a wall. */
  predicate Clear(request: nat -> Request, look: Request -> PageLook, p: nat, k: nat)
    decreases k - p
  {
    p >= k || (look(request(p)).Kept? && Clear(request, look, p + 1, k))
  }

  lemma {:induction false} ClearFromAll(request: nat -> Request, look: Request -> PageLook, p: nat, k: nat)
    requires forall j: nat :: p <= j < k ==> look(request(j)).Kept?
    ensures Clear(request, look, p, k)
    decreases k - p
  {
    if p < k {
      ClearFromAll(request, look, p + 1, k);
    }
  }

  /** The records of pages `p..k-1`, in page order. */
  function Before(request: nat -> Request, look: Request -> PageLook, p: nat, k: nat): seq<JobRecord>
    decreases k - p
  {
    if p >= k then []
    else
      var here := look(request(p));
      (if here.Kept? then here.records else []) + Before(request, look, p + 1, k)
  }

  /**
   * Until a wall, the run is the records of the pages before `k`, in page
   * order, followed by what it gathers from page `k` on, and it has sent one
   * request per page before `k`.
   */
  lemma {:induction false} RunSplit(request: nat -> Request, look: Request -> PageLook, p: nat, k: nat, n: int)
    requires p <= k <= n
    requires Clear(request, look, p, k)
    ensures Run(request, look, p, n).jobs == Before(request, look, p, k) + Run(request, look, k, n).jobs
    ensures |Run(request, look, p, n).sent| == (k - p) + |Run(request, look, k, n).sent|
    decreases k - p
  {
    if p < k {
      RunSplit(request, look, p + 1, k, n);
      var here := look(request(p)).records;
      AppendAssoc(here, Before(request, look, p + 1, k), Run(request, look, k, n).jobs);
    }
  }

  // The same properties for `search_jobs_requests`.

  /**
   * Page `i` of a run is asked for at `base + "/jobs"` with `start = i * 10`
   * and the header `DNT: 1`, whatever the answers to the earlier pages were
   * (`FetchPages` is the run whose answers come from the site's server).
   */
  lemma RequestOffsets(site: Site, query: string, location: string, look: Request -> PageLook, n: int, i: nat)
    requires i < |Run(Requests(site, query, location), look, 0, n).sent|
    ensures i < n
    ensures var req := Run(Requests(site, query, location), look, 0, n).sent[i];
      && req == PageRequest(site, query, location, i)
      && req.url == site.base + "/jobs" && req.start == i * 10
      && "DNT" in req.headers && req.headers["DNT"] == "1"
      && req.query == query && req.location == location
  {
    var request := Requests(site, query, location);
    RunRequests(request, look, 0, n);
    RequestsFromAt(request, 0, |Run(request, look, 0, n).sent|, i);
  }

  /** A page whose fetch failed adds no records and does not end the loop. */
  lemma FailedPageSkipped(site: Site, query: string, location: string, k: nat, n: int)
    requires k < n
    requires site.server(PageRequest(site, query, location, k)).HttpError? ||
             site.server(PageRequest(site, query, location, k)).RequestFails?
    ensures FetchPages(site, query, location, k, n).jobs == FetchPages(site, query, location, k + 1, n).jobs
    ensures FetchPages(site, query, location, k, n).sent ==
            [PageRequest(site, query, location, k)] + FetchPages(site, query, location, k + 1, n).sent
  {
    assert Requests(site, query, location)(k) == PageRequest(site, query, location, k);
    assert [] + FetchPages(site, query, location, k + 1, n).jobs == FetchPages(site, query, location, k + 1, n).jobs;
  }

  /** The records of the pages `p..k-1` fetched, in page order. */
  function FetchedBefore(site: Site, query: string, location: string, p: nat, k: nat): seq<JobRecord>
  {
    Before(Requests(site, query, location), Looks(site), p, k)
  }

  /** No page before `k` asks to verify the client. */
  lemma ClearOfSite(site: Site, query: string, location: string, k: nat)
    requires forall j: nat :: j < k ==> !Walled(site.server(PageRequest(site, query, location, j)))
    ensures Clear(Requests(site, query, location), Looks(site), 0, k)
  {
    var request, look := Requests(site, query, location), Looks(site);
    forall j: nat | j < k
      ensures look(request(j)).Kept?
    {
      assert request(j) == PageRequest(site, query, location, j);
    }
    ClearFromAll(request, look, 0, k);
  }

  /**
   * A page that asks to verify the client ends the run: the result is the
   * records of the pages before it and nothing after, and that page was the
   * last one requested.
   */
  lemma BotWallEndsRun(site: Site, query: string, location: string, k: nat, n: int)
    requires k < n
    requires forall j: nat :: j < k ==> !Walled(site.server(PageRequest(site, query, location, j)))
    requires Walled(site.server(PageRequest(site, query, location, k)))
    ensures FetchPages(site, query, location, 0, n).jobs == FetchedBefore(site, query, location, 0, k)
    ensures |FetchPages(site, query, location, 0, n).sent| == k + 1
  {
    var request, look := Requests(site, query, location), Looks(site);
    ClearOfSite(site, query, location, k);
    RunSplit(request, look, 0, k, n);
    assert request(k) == PageRequest(site, query, location, k);
    assert Run(request, look, k, n) == Fetched([], [request(k)]);
  }

  /** Without a bot wall every page is requested, and the result is all their records in page order. */
  lemma NoBotWallFetchesAll(site: Site, query: string, location: string, n: nat)
    requires forall j: nat :: j < n ==> !Walled(site.server(PageRequest(site, query, location, j)))
    ensures FetchPages(site, query, location, 0, n).jobs == FetchedBefore(site, query, location, 0, n)
    ensures |FetchPages(site, query, location, 0, n).sent| == n
  {
    ClearOfSite(site, query, location, n);
    RunSplit(Requests(site, query, location), Looks(site), 0, n, n);
  }
}
