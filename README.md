# Indeed job scraper — a Dafny model of its extraction and paging core

The scraper searches a job board for a job title and a location in two ways:

- It drives a browser through the search form and the result pages (`search_jobs_selenium`).
- As a backup, it fetches result pages over HTTP by offset and parses them (`search_jobs_requests`).

Each listing that extracts cleanly becomes a six-field job record (title, company, location, salary, summary, url); a listing whose extraction raises is skipped. A field whose element is absent holds the sentinel `"N/A"`. The records are saved as CSV and JSON. When they come from the browser search, the first three are also shown: a summary over 150 characters is cut, and an `"N/A"` summary is left out.

The browser, the HTTP server, the HTML parser and `urljoin` are inputs to this model: they are the answers each wait, click, lookup, fetch or join gives. Given those answers, everything the scraper decides is modelled and proved:

- which records it builds, field by field;
- which listings it keeps, and in what order;
- when each loop stops, and which requests it sends;
- when it falls back to the backup path;
- what it writes, and what the writers log.

Modules:

- `Text`: Python's `str.strip()` with Python's whitespace set, `str.lower()` on ASCII, and the substring test.
- `Records`: the job record, the sentinel, the CSV column order, and the dict view of a record.
- `Captcha`: `check_for_captcha`, and the backup path's bot-wall test on the response body.
- `Extraction`: both per-listing extractors, `extract_job_data_selenium` and `extract_job_data_requests`.
- `Scraper`: both page loops. Each is an imperative method proved against a specification function, with lemmas on that function.
- `Output`: `save_to_csv` and `save_to_json` over a `Disk` object that holds the files and the log.
- `Entry`: the script's `__main__` block.

## Model

| member | source | states |
|---|---|---|
| Text.StripTrims | Indeed_scaper.py:96 | a stripped text has no whitespace at either end, and it is empty exactly when the text was all whitespace |
| Text.StripRecoversCore | Indeed_scaper.py:176 | stripping any whitespace from around a trimmed core gives back exactly that core |
| Text.StripIdempotent | Indeed_scaper.py:96 | stripping an already stripped text changes nothing |
| Text.LeadingSpacesRun | Indeed_scaper.py:96 | what strip removes at the front is the whole leading whitespace run and nothing past it |
| Text.TrailingSpacesRun | Indeed_scaper.py:96 | what strip removes at the back is the whole trailing whitespace run and nothing before it |
| Text.Lower | Indeed_scaper.py:151 | lower-casing keeps the length and maps each character on its own |
| Text.LowerIdempotent | Indeed_scaper.py:151 | lower-casing a lower-cased text changes nothing |
| Text.ContainsIffOccurs | Indeed_scaper.py:151 | the `in` test holds exactly when the phrase occurs at some position |
| Records.AsDict | Indeed_scaper.py:93-130 | a record as a dict has exactly the six keys title, company, location, salary, summary, url |
| Records.AsDictInjective | Indeed_scaper.py:171-190 | two records with the same dict are the same record, so the dict view loses no field |
| Captcha.Matches | utils.py:16 | the query selects exactly the elements whose text mentions CAPTCHA or the bot phrase, and nothing else |
| Captcha.CheckForCaptcha | utils.py:13-19 | true exactly when some element mentions a challenge; false whenever the query itself fails |
| Captcha.BotWallIffPhraseOccurs | Indeed_scaper.py:151 | the body test holds exactly when the bot phrase occurs in the lower-cased body, and upper-case letters in the body do not change the verdict |
| Extraction.ExtractSelenium | Indeed_scaper.py:90-133 | no record exactly when some lookup failed with something other than "no such element" |
| Extraction.SeleniumFields | Indeed_scaper.py:94-128 | each text field is the found element's stripped text or the sentinel; the url is the raw href, not stripped, or the sentinel |
| Extraction.SeleniumAllMissing | Indeed_scaper.py:93-130 | a listing where every lookup misses still gives a record, with every field the sentinel |
| Extraction.SeleniumIsolation | Indeed_scaper.py:94-128 | a missing element changes only its own field, to the sentinel; the other five fields stay as they were |
| Extraction.FindFirst | Indeed_scaper.py:172-187 | `find` returns the first element in document order that the query selects, or none if no element is selected |
| Extraction.ExtractStatic | Indeed_scaper.py:168-193 | no record exactly when there is a non-empty first href and joining it to the base URL fails |
| Extraction.StaticTitleIsFirstTitledSpan | Indeed_scaper.py:172-173 | the title is the `title` attribute of the first span that has one, taken as is |
| Extraction.StaticTitleWithoutTitledSpan | Indeed_scaper.py:172-173 | without a span that has a `title` attribute, the title is the sentinel |
| Extraction.StaticTextIsFirstSelected | Indeed_scaper.py:175-185 | company, location, salary and summary are each the stripped text of the first element their own lookup selects, whatever the other fields find |
| Extraction.StaticTextWithoutElement | Indeed_scaper.py:175-185 | a text field whose lookup selects no element is the sentinel, whatever the other fields find |
| Extraction.StaticUrlIsJoinedFirstHref | Indeed_scaper.py:187-188 | the url is the base URL joined with the first anchor's href when that href is non-empty, and the sentinel when it is empty |
| Extraction.StaticUrlWithoutAnchor | Indeed_scaper.py:187-188 | without an anchor that has an href, a record always comes back and its url is the sentinel |
| Extraction.StaticAllMissing | Indeed_scaper.py:171-190 | a listing none of whose elements any of the six lookups selects, whatever other elements it holds, gives the all-sentinel record, never no record |
| Scraper.PresentMembers | Indeed_scaper.py:60-61 | a record is kept exactly when some listing's extraction produced it |
| Scraper.PresentAllSome | Indeed_scaper.py:157-158 | when no extraction fails, the kept records are all the extractions, in listing order |
| Scraper.PresentAppend | Indeed_scaper.py:57-61 | keeping the records of two runs of listings in turn is keeping the records of the whole run, so order is kept |
| Scraper.PresentSnoc | Indeed_scaper.py:60-61 | one more listing appends its record, if it has one, at the end |
| Scraper.PresentSkipsNone | Indeed_scaper.py:60-61 | a listing with no record is dropped, and the records before and after it stay in order |
| Scraper.BrokenListingSkipped | Indeed_scaper.py:57-64 | a listing whose extraction fails is skipped without ending the page |
| Scraper.AppendLive | Indeed_scaper.py:57-64 | the inner loop appends the page's kept records, in listing order, to the list gathered so far |
| Scraper.SearchJobsSelenium | Indeed_scaper.py:18-88 | the browser search returns the records of the pages its loop reached, or raises when `driver.quit()` fails |
| Scraper.SeleniumChallengeBeforeLoop | Indeed_scaper.py:27-48 | a challenge on the landing page or right after the search is submitted leaves the list empty |
| Scraper.SeleniumRaisesOnlyOnQuit | Indeed_scaper.py:83-88 | the call raises only when a driver exists and its `quit()` raises; without a driver it returns the empty list |
| Scraper.LivePagesBounded | Indeed_scaper.py:50-66 | the loop looks at no page from `num_pages` on, and it never uses the next control on the last page |
| Scraper.LivePagesSplit | Indeed_scaper.py:50-81 | while pages proceed, the result is their records in page order, followed by what the loop gathers from then on |
| Scraper.GatheredSnoc | Indeed_scaper.py:50-61 | the records of a run of pages, extended by one page, are that page's records appended at the end |
| Scraper.StopsAtPage | Indeed_scaper.py:50-81 | at the first page that does not proceed, or at the last page, the run ends with exactly the records of the pages up to and including it, in page order |
| Scraper.PageRequest | Indeed_scaper.py:140-148 | page `p` is requested at `base + "/jobs"` with offset `p * 10`, the header `DNT: 1`, and every other random header kept |
| Scraper.AppendStatic | Indeed_scaper.py:155-158 | the inner loop appends the page's kept records, in listing order, to the list gathered so far |
| Scraper.SearchJobsRequests | Indeed_scaper.py:135-166 | the backup search returns the records, and sends the requests, of its page loop |
| Scraper.FetchPagesStep | Indeed_scaper.py:138-165 | one page either ends the run after its request, when it is a bot wall, or adds its records ahead of the later pages |
| Scraper.RequestsFromAt | Indeed_scaper.py:138-144 | the i-th of the requests for consecutive pages from `p` is the one for page `p + i` |
| Scraper.RunRequests | Indeed_scaper.py:138-148 | the loop sends the requests for consecutive pages from where it starts, one per page, and no more than there are pages left |
| Scraper.RunSplit | Indeed_scaper.py:138-165 | until a wall, the result is the records of the pages fetched so far, in page order, then what the rest of the loop gathers; one request is sent per page |
| Scraper.ClearFromAll | Indeed_scaper.py:151-153 | when no page in a range is a wall, the loop passes through every page of that range |
| Scraper.RequestOffsets | Indeed_scaper.py:140-148 | whatever the answers, the i-th request of a run is for page `i`, at `base + "/jobs"`, with `start = i * 10` and `DNT: 1` |
| Scraper.FailedPageSkipped | Indeed_scaper.py:160-165 | a page whose fetch raised adds no records and does not end the loop |
| Scraper.ClearOfSite | Indeed_scaper.py:151-153 | pages before `k` with no bot phrase in their bodies let the loop pass through all of them |
| Scraper.BotWallEndsRun | Indeed_scaper.py:151-153 | a bot wall on page `k` ends the run: the result is the records of the pages before it, and that page was the last one requested |
| Scraper.NoBotWallFetchesAll | Indeed_scaper.py:138-166 | without a bot wall, every page is requested and the result is all their records, in page order |
| Scraper.UnjoinableListingSkipped | Indeed_scaper.py:155-158 | a listing whose link cannot be joined is skipped, and the listings around it keep their records in order |
| Scraper.SalaryOnlyListing | Indeed_scaper.py:171-190 | a listing whose one element is the salary element gives a record with that element's stripped text as salary and the sentinel in every other field |
| Scraper.SalaryMissingExample | Indeed_scaper.py:154-158 | with two listings, the first holding only a salary element whose stripped text is not the sentinel and the second none, the result is two records, the first with that text as salary and the second with the sentinel |
| Output.Row | utils.py:29-32 | the row written for a job, its dict's values looked up in column order, is the record's six fields title, company, location, salary, summary, url |
| Output.CsvRoundTrip | utils.py:27-32 | reading the written file back under its header gives the jobs that were saved, in order |
| Output.RowsRoundTrip | utils.py:31-32 | reading the data rows back gives the jobs, in order |
| Output.SaveToCsv | utils.py:21-34 | an empty list writes nothing and logs a warning; otherwise the file holds the header then one row per job, and the count is logged |
| Output.FromObject | utils.py:42-43 | an object reads back as a job exactly when it has all six keys |
| Output.FromObjectAsDict | utils.py:42-43 | a job's object reads back as that job |
| Output.JsonRoundTrip | utils.py:42-43 | reading the saved array back gives the jobs, in order |
| Output.SaveToJson | utils.py:36-45 | an empty list writes nothing and logs a warning; otherwise the file holds the jobs' array, and the count is logged |
| Entry.Shorten | Indeed_scaper.py:225 | a summary of at most 150 characters is shown unchanged; a longer one is shown as its first 150 characters plus "...", 153 characters in all |
| Entry.PreviewShowsFirstJobs | Indeed_scaper.py:216-227 | the preview shows the first three jobs, or all of them if there are fewer, in order, every field as found; a sentinel summary gets no Summary line, any other summary is shown shortened |
| Entry.RunScraper | Indeed_scaper.py:195-236 | the browser search is tried first, and `jobs` becomes `[]` if it raises. Browser results are saved under the primary names and previewed. The backup search runs only when the browser found nothing, and its results are saved under the backup names, or nothing is written when it also found nothing |
| Entry.FallbackWhenBrowserEmpty | Indeed_scaper.py:206-212 | a failing `quit()`, a missing driver or a challenge on the landing page leaves `jobs` empty, which is what sends the script to the backup path |
| Entry.TwoPagesExample | Indeed_scaper.py:50-88 | two listing pages, the first proceeding and the second with no next control, give both pages' records in order |

## Left out

- Browser and driver construction (`setup_selenium_driver`), the HTTP session and `get_random_headers` are in init.py, which is not part of this model. Driver creation is one outcome of `Setup`, and the random headers for each page are an input.
- `human_delay` is only a sleep for a random time. It changes nothing the model observes.
- Selenium, XPath, CSS, BeautifulSoup and `requests` are given as answers rather than modelled:
  - a wait times out or yields the listings;
  - a lookup finds an element, misses, or fails;
  - a fetch raises an HTTP error, raises something else, or yields the body text and its `div[data-jk]` listings.
- `urljoin` is an input function, which answers "none" where it raises. Reference resolution is not modelled. `BASE_URL` comes from constants.py, which is not part of this model.
- Text.Lower: only ASCII letters are lower-cased. Python's `str.lower()` also folds other scripts, which can matter only for bodies whose non-ASCII letters spell the bot phrase.
- Extraction.LiveHref: Selenium's `get_attribute('href')` can return `None`. The model always gives a string.
- Extraction.FindFirst: `find` is modelled over the listing's descendants in document order. The HTML parser's tree building is not modelled.
- Output.SaveToCsv: CSV quoting and escaping are not modelled. A row is the sequence of its cell values.
- Output.SaveToJson: JSON indentation and encoding are not modelled. The file is the array of objects.
- Opening a file can fail, and that failure propagates out of both writers. The model's file writes always succeed.
- Logging and console output are not modelled, apart from two things:
  - the writers' two kinds of log line, as values;
  - the preview's content: each shown job's fields, with the Summary line absent for the sentinel.
- Entry.RunScraper: the counts the script prints are not modelled.
- Scraper.SearchJobsSelenium: how the job title and location are typed into the search form is not modelled. Filling and submitting the form either fails or yields the results document.
- Scraper.SeleniumRaisesOnlyOnQuit: the `except Exception` of the browser search (Indeed_scaper.py:83) does not cover its `finally` block (85-87), so a `driver.quit()` that raises there propagates to the caller, which turns it into an empty list, and the backup path then runs.
- Captcha.CheckForCaptcha: the rendered-page check is case-sensitive, because it uses XPath `contains`. Only the backup path's body test ignores case.
