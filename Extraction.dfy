/**
 * The two per-listing extractors of Indeed_scaper.py: `extract_job_data_selenium`
 * over a live element handle and `extract_job_data_requests` over a parsed
 * static fragment. Each field comes from its own lookup; a missing element
 * gives the sentinel for that field only, and any other failure gives no
 * record at all.
 */
module Extraction {
  import opened Text
  import opened Records

  // ---------------------------------------------------------------------------
  // Rendered (Selenium) path
  // ---------------------------------------------------------------------------

  /**
   * What one `find_element` lookup on a live listing answers: the element's
   * value (its visible text, or for the link its `href` attribute), the
   * `NoSuchElementException` that the extractor treats as absence, or any
   * other driver failure.
   */
  datatype Answer = Found(value: string) | Missing | Fails

  /**
   * A live listing element, as the six lookups of the extractor see it:
   * `h2.jobTitle a span`, the company-name, text-location and
   * attribute_snippet_testid test ids, `div.job-snippet`, and `h2.jobTitle a`.
   */
  datatype LiveFragment = LiveFragment(
    title: Answer,
    company: Answer,
    location: Answer,
    salary: Answer,
    summary: Answer,
    link: Answer)

  /** Some lookup raised something other than "no such element". */
  predicate LiveBroken(f: LiveFragment)
  {
    f.title.Fails? || f.company.Fails? || f.location.Fails? ||
    f.salary.Fails? || f.summary.Fails? || f.link.Fails?
  }

  /** A text field: the element's text stripped, or the sentinel. */
  function LiveText(a: Answer): string
    requires !a.Fails?
  {
    if a.Found? then Strip(a.value) else NA
  }

  /** The url field: the raw `href` value, not stripped, or the sentinel. */
  function LiveHref(a: Answer): string
    requires !a.Fails?
  {
    if a.Found? then a.value else NA
  }

  /** `extract_job_data_selenium`. */
  function ExtractSelenium(f: LiveFragment): (r: Option<JobRecord>)
    ensures r.None? <==> LiveBroken(f)
  {
    if LiveBroken(f) then None
    else Some(JobRecord(
      LiveText(f.title),
      LiveText(f.company),
      LiveText(f.location),
      LiveText(f.salary),
      LiveText(f.summary),
      LiveHref(f.link)))
  }

  /**
   * Field by field: a found element gives its stripped text (the url its raw
   * href), a missing one gives the sentinel.
   */
  lemma SeleniumFields(f: LiveFragment)
    requires !LiveBroken(f)
    ensures ExtractSelenium(f).Some?
    ensures var r := ExtractSelenium(f).value;
      && (f.title.Found? ==> r.title == Strip(f.title.value))
      && (f.title.Missing? ==> r.title == NA)
      && (f.company.Found? ==> r.company == Strip(f.company.value))
      && (f.company.Missing? ==> r.company == NA)
      && (f.location.Found? ==> r.location == Strip(f.location.value))
      && (f.location.Missing? ==> r.location == NA)
      && (f.salary.Found? ==> r.salary == Strip(f.salary.value))
      && (f.salary.Missing? ==> r.salary == NA)
      && (f.summary.Found? ==> r.summary == Strip(f.summary.value))
      && (f.summary.Missing? ==> r.summary == NA)
      && (f.link.Found? ==> r.url == f.link.value)
      && (f.link.Missing? ==> r.url == NA)
  {
  }

  /** A listing where every lookup misses still yields a record, all sentinels. */
  lemma SeleniumAllMissing()
    ensures ExtractSelenium(LiveFragment(Missing, Missing, Missing, Missing, Missing, Missing)) == Some(Blank)
  {
  }

  /**
   * Isolation: making one lookup miss changes that one field to the sentinel
   * and leaves the other five as they were (shown for each field in turn).
   */
  lemma SeleniumIsolation(f: LiveFragment)
    requires !LiveBroken(f)
    ensures ExtractSelenium(f.(title := Missing)) == Some(ExtractSelenium(f).value.(title := NA))
    ensures ExtractSelenium(f.(company := Missing)) == Some(ExtractSelenium(f).value.(company := NA))
    ensures ExtractSelenium(f.(location := Missing)) == Some(ExtractSelenium(f).value.(location := NA))
    ensures ExtractSelenium(f.(salary := Missing)) == Some(ExtractSelenium(f).value.(salary := NA))
    ensures ExtractSelenium(f.(summary := Missing)) == Some(ExtractSelenium(f).value.(summary := NA))
    ensures ExtractSelenium(f.(link := Missing)) == Some(ExtractSelenium(f).value.(url := NA))
  {
  }

  // ---------------------------------------------------------------------------
  // Static (requests + BeautifulSoup) path
  // ---------------------------------------------------------------------------

  /**
   * A parsed element: tag name, attributes other than `class`, the
   * individual class names, and its `.text` (the text of all descendants).
   */
  datatype Element = Element(tag: string, attrs: map<string, string>, classes: seq<string>, text: string)

  /** The `find` queries `extract_job_data_requests` makes. */
  datatype Query =
    | SpanWithTitle                 // find('span', {'title': True})
    | SpanTestId(id: string)        // find('span', {'data-testid': id})
    | DivTestId(id: string)         // find('div', {'data-testid': id})
    | DivClass(name: string)        // find('div', class_=name)
    | AnchorWithHref                // find('a', href=True)

  predicate Selects(q: Query, e: Element)
  {
    match q
    case SpanWithTitle => e.tag == "span" && "title" in e.attrs
    case SpanTestId(id) => e.tag == "span" && "data-testid" in e.attrs && e.attrs["data-testid"] == id
    case DivTestId(id) => e.tag == "div" && "data-testid" in e.attrs && e.attrs["data-testid"] == id
    case DivClass(name) => e.tag == "div" && name in e.classes
    case AnchorWithHref => e.tag == "a" && "href" in e.attrs
  }

  /**
   * BeautifulSoup's `find` over a fragment's descendants in document order:
   * the index of the first element the query selects, or `|elems|` if none.
   */
  function FindFirst(elems: seq<Element>, q: Query): (k: nat)
    ensures k <= |elems|
    ensures k < |elems| ==> Selects(q, elems[k])
    ensures forall j :: 0 <= j < k ==> !Selects(q, elems[j])
  {
    if elems == [] then 0
    else if Selects(q, elems[0]) then 0
    else 1 + FindFirst(elems[1..], q)
  }

  /** The four fields the static extractor fills from an element's stripped text. */
  datatype TextField = Company | Location | Salary | Summary

  /** The lookup each text field is filled from. */
  function FieldQuery(f: TextField): Query
  {
    match f
    case Company => SpanTestId("company-name")
    case Location => DivTestId("text-location")
    case Salary => DivTestId("attribute_snippet_testid")
    case Summary => DivClass("job-snippet")
  }

  /** A record's text field. */
  function FieldOf(r: JobRecord, f: TextField): string
  {
    match f
    case Company => r.company
    case Location => r.location
    case Salary => r.salary
    case Summary => r.summary
  }

  /** The six lookups the static extractor makes, in the order it makes them. */
  const StaticLookups: seq<Query> :=
    [SpanWithTitle, FieldQuery(Company), FieldQuery(Location), FieldQuery(Salary), FieldQuery(Summary), AnchorWithHref]

  /** `elem.text.strip() if elem else 'N/A'` for a query. */
  function StaticText(elems: seq<Element>, q: Query): string
  {
    var k := FindFirst(elems, q);
    if k < |elems| then Strip(elems[k].text) else NA
  }

  /** The title: the `title` attribute of the first titled span, not its text, and not stripped. */
  function StaticTitle(elems: seq<Element>): string
  {
    var k := FindFirst(elems, SpanWithTitle);
    if k < |elems| then elems[k].attrs["title"] else NA
  }

  /** The href of the first anchor carrying one, when that href is non-empty. */
  function FirstHref(elems: seq<Element>): Option<string>
  {
    var k := FindFirst(elems, AnchorWithHref);
    if k < |elems| && elems[k].attrs["href"] != "" then Some(elems[k].attrs["href"]) else None
  }

  /**
   * `extract_job_data_requests`. `base` is the scraper's base URL and
   * `join` stands for `urljoin`, answering `None` where it raises; that
   * failure is the one way this extractor returns no record.
   */
  function ExtractStatic(base: string, join: (string, string) -> Option<string>, elems: seq<Element>): (r: Option<JobRecord>)
    ensures r.None? <==> FirstHref(elems).Some? && join(base, FirstHref(elems).value).None?
  {
    var title := StaticTitle(elems);
    var company := StaticText(elems, FieldQuery(Company));
    var location := StaticText(elems, FieldQuery(Location));
    var salary := StaticText(elems, FieldQuery(Salary));
    var summary := StaticText(elems, FieldQuery(Summary));
    match FirstHref(elems)
    case None => Some(JobRecord(title, company, location, salary, summary, NA))
    case Some(href) =>
      match join(base, href)
      case None => None
      case Some(url) => Some(JobRecord(title, company, location, salary, summary, url))
  }

  /** The index of the first selected element is where `FindFirst` stops. */
  lemma FindFirstAt(elems: seq<Element>, q: Query, k: nat)
    requires k < |elems| && Selects(q, elems[k])
    requires forall j :: 0 <= j < k ==> !Selects(q, elems[j])
    ensures FindFirst(elems, q) == k
  {
  }

  /** When no element is selected, `FindFirst` runs off the end. */
  lemma FindFirstNone(elems: seq<Element>, q: Query)
    requires forall j :: 0 <= j < |elems| ==> !Selects(q, elems[j])
    ensures FindFirst(elems, q) == |elems|
  {
  }

  /**
   * The static title is the `title` attribute of the first span carrying
   * one (its value as is, even when empty or padded with spaces).
   */
  lemma StaticTitleIsFirstTitledSpan(base: string, join: (string, string) -> Option<string>, elems: seq<Element>, k: nat)
    requires k < |elems| && Selects(SpanWithTitle, elems[k])
    requires forall j :: 0 <= j < k ==> !Selects(SpanWithTitle, elems[j])
    requires ExtractStatic(base, join, elems).Some?
    ensures ExtractStatic(base, join, elems).value.title == elems[k].attrs["title"]
  {
    FindFirstAt(elems, SpanWithTitle, k);
  }

  /** Without a span carrying a `title` attribute the title is the sentinel. */
  lemma StaticTitleWithoutTitledSpan(base: string, join: (string, string) -> Option<string>, elems: seq<Element>)
    requires forall j :: 0 <= j < |elems| ==> !Selects(SpanWithTitle, elems[j])
    requires ExtractStatic(base, join, elems).Some?
    ensures ExtractStatic(base, join, elems).value.title == NA
  {
    FindFirstNone(elems, SpanWithTitle);
  }

  /**
   * Company, location, salary and summary are each the stripped text of the
   * first element their own lookup selects, whatever else the fragment holds.
   */
  lemma StaticTextIsFirstSelected(base: string, join: (string, string) -> Option<string>, elems: seq<Element>,
                                  f: TextField, k: nat)
    requires k < |elems| && Selects(FieldQuery(f), elems[k])
    requires forall j :: 0 <= j < k ==> !Selects(FieldQuery(f), elems[j])
    requires ExtractStatic(base, join, elems).Some?
    ensures FieldOf(ExtractStatic(base, join, elems).value, f) == Strip(elems[k].text)
  {
    FindFirstAt(elems, FieldQuery(f), k);
  }

  /** A text field whose lookup selects nothing is the sentinel, whatever else the fragment holds. */
  lemma StaticTextWithoutElement(base: string, join: (string, string) -> Option<string>, elems: seq<Element>,
                                 f: TextField)
    requires forall j :: 0 <= j < |elems| ==> !Selects(FieldQuery(f), elems[j])
    requires ExtractStatic(base, join, elems).Some?
    ensures FieldOf(ExtractStatic(base, join, elems).value, f) == NA
  {
    FindFirstNone(elems, FieldQuery(f));
  }

  /**
   * The static url is `urljoin(base, href)` for the href of the first anchor
   * carrying one, when it is non-empty; otherwise the sentinel. An empty
   * first href gives the sentinel even if a later anchor has a usable one.
   */
  lemma StaticUrlIsJoinedFirstHref(base: string, join: (string, string) -> Option<string>, elems: seq<Element>, k: nat)
    requires k < |elems| && Selects(AnchorWithHref, elems[k])
    requires forall j :: 0 <= j < k ==> !Selects(AnchorWithHref, elems[j])
    requires ExtractStatic(base, join, elems).Some?
    ensures elems[k].attrs["href"] == "" ==> ExtractStatic(base, join, elems).value.url == NA
    ensures elems[k].attrs["href"] != "" ==>
      join(base, elems[k].attrs["href"]) == Some(ExtractStatic(base, join, elems).value.url)
  {
    FindFirstAt(elems, AnchorWithHref, k);
  }

  /** Without any anchor carrying an href the url is the sentinel and a record always comes back. */
  lemma StaticUrlWithoutAnchor(base: string, join: (string, string) -> Option<string>, elems: seq<Element>)
    requires forall j :: 0 <= j < |elems| ==> !Selects(AnchorWithHref, elems[j])
    ensures ExtractStatic(base, join, elems).Some?
    ensures ExtractStatic(base, join, elems).value.url == NA
  {
    FindFirstNone(elems, AnchorWithHref);
  }

  /**
   * A fragment none of whose elements any of the six lookups selects (it may
   * hold any other elements) gives the all-sentinel record.
   */
  lemma StaticAllMissing(base: string, join: (string, string) -> Option<string>, elems: seq<Element>)
    requires forall q, j :: q in StaticLookups && 0 <= j < |elems| ==> !Selects(q, elems[j])
    ensures ExtractStatic(base, join, elems) == Some(Blank)
  {
    forall q | q in StaticLookups
      ensures FindFirst(elems, q) == |elems|
    {
      FindFirstNone(elems, q);
    }
    assert SpanWithTitle in StaticLookups && AnchorWithHref in StaticLookups;
    assert FieldQuery(Company) in StaticLookups && FieldQuery(Location) in StaticLookups;
    assert FieldQuery(Salary) in StaticLookups && FieldQuery(Summary) in StaticLookups;
  }
}
