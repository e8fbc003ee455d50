/**
 * The script entry point of Indeed_scaper.py: search with the browser
 * first, fall back to plain HTTP requests only when that found nothing,
 * save what was found under the primary or the backup file names, and show
 * the first three jobs with long summaries shortened.
 */
module Entry {
  import opened Records
  import opened Captcha
  import opened Extraction
  import opened Scraper
  import opened Output

  const SearchTitle: string := "Python Developer"
  const SearchLocation: string := "Delhi"
  const NumPages: nat := 3

  const CsvName: string := "indeed_jobs.csv"
  const JsonName: string := "indeed_jobs.json"
  const BackupCsvName: string := "indeed_jobs_backup.csv"
  const BackupJsonName: string := "indeed_jobs_backup.json"

  /** How many characters of a summary are shown before it is cut. */
  const SummaryWidth: nat := 150

  /** `summary[:150] + "..." if len(summary) > 150 else summary`. */
  function Shorten(summary: string): (shown: string)
    ensures |summary| <= SummaryWidth ==> shown == summary
    ensures |summary| > SummaryWidth ==> |shown| == SummaryWidth + 3
    ensures |shown| <= SummaryWidth + 3
    ensures |summary| > SummaryWidth ==> shown[..SummaryWidth] == summary[..SummaryWidth] && shown[SummaryWidth..] == "..."
  {
    if |summary| > SummaryWidth then summary[..SummaryWidth] + "..." else summary
  }

  /**
   * One job as the preview prints it, field by field in printing order. The
   * summary line is printed only for a summary other than the sentinel.
   */
  datatype ShownJob = ShownJob(
    title: string,
    company: string,
    location: string,
    salary: string,
    summary: Option<string>,   // `None`: no Summary line is printed
    url: string)

  function Show(job: JobRecord): ShownJob
  {
    ShownJob(job.title, job.company, job.location, job.salary,
             if job.summary != NA then Some(Shorten(job.summary)) else None,
             job.url)
  }

  /** The jobs shown after a successful browser search: the first three. */
  function Preview(jobs: seq<JobRecord>): seq<ShownJob>
  {
    var k := if |jobs| < 3 then |jobs| else 3;
    seq(k, i requires 0 <= i < k => Show(jobs[i]))
  }

  /**
   * The preview lists at most three jobs, the first ones of the list in
   * order, each with every field as found, except that a sentinel summary
   * gets no Summary line and any other summary is shown shortened.
   */
  lemma PreviewShowsFirstJobs(jobs: seq<JobRecord>)
    ensures |Preview(jobs)| == (if |jobs| < 3 then |jobs| else 3)
    ensures forall i :: 0 <= i < |Preview(jobs)| ==>
      && Preview(jobs)[i].title == jobs[i].title
      && Preview(jobs)[i].company == jobs[i].company
      && Preview(jobs)[i].location == jobs[i].location
      && Preview(jobs)[i].salary == jobs[i].salary
      && Preview(jobs)[i].url == jobs[i].url
      && (Preview(jobs)[i].summary.None? <==> jobs[i].summary == NA)
      && (jobs[i].summary != NA ==> Preview(jobs)[i].summary == Some(Shorten(jobs[i].summary)))
  {
  }

  /** What the browser search leaves in `jobs`: its list, or `[]` when the call raised. */
  function BrowserJobs(setup: Setup, pages: nat -> LivePage, quitRaises: bool): seq<JobRecord>
  {
    match SeleniumSearch(setup, pages, NumPages, quitRaises)
    case Raised => []
    case Returned(jobs) => jobs
  }

  /** What one run of the script shows and sends. */
  datatype Report = Report(
    jobs: seq<JobRecord>,      // the final value of `jobs`
    usedBackup: bool,          // the requests path ran
    preview: seq<ShownJob>,    // the jobs listed on screen
    sent: seq<Request>)        // the HTTP requests the backup path made

  /** The script's `__main__` block. */
  method RunScraper(disk: Disk, setup: Setup, pages: nat -> LivePage, quitRaises: bool, site: Site)
    returns (report: Report)
    modifies disk
    ensures var first := BrowserJobs(setup, pages, quitRaises);
      first != [] ==>
        && report == Report(first, false, Preview(first), [])
        && disk.files == old(disk.files)[CsvName := Csv([Columns] + Rows(first))][JsonName := Json(JsonObjects(first))]
        && disk.log == old(disk.log) + [Saved(|first|, CsvName), Saved(|first|, JsonName)]
    ensures var first, backup := BrowserJobs(setup, pages, quitRaises), FetchPages(site, SearchTitle, SearchLocation, 0, NumPages);
      first == [] ==>
        && report == Report(backup.jobs, true, [], backup.sent)
        && (backup.jobs == [] ==> disk.files == old(disk.files) && disk.log == old(disk.log))
        && (backup.jobs != [] ==>
              && disk.files == old(disk.files)[BackupCsvName := Csv([Columns] + Rows(backup.jobs))]
                                              [BackupJsonName := Json(JsonObjects(backup.jobs))]
              && disk.log == old(disk.log) + [Saved(|backup.jobs|, BackupCsvName), Saved(|backup.jobs|, BackupJsonName)])
  {
    var outcome := SearchJobsSelenium(setup, pages, NumPages, quitRaises);
    var jobs := if outcome.Raised? then [] else outcome.jobs;
    if jobs != [] {
      SaveToCsv(disk, jobs, CsvName, true);
      SaveToJson(disk, jobs, JsonName, true);
      report := Report(jobs, false, Preview(jobs), []);
    } else {
      var sent;
      jobs, sent := SearchJobsRequests(site, SearchTitle, SearchLocation, NumPages);
      if jobs != [] {
        SaveToCsv(disk, jobs, BackupCsvName, true);
        SaveToJson(disk, jobs, BackupJsonName, true);
      }
      report := Report(jobs, true, [], sent);
    }
  }

  /**
   * The backup path runs exactly when the browser search gave nothing: it
   * raised on `driver.quit()`, a challenge stopped it before the first page,
   * or every page it saw was empty or failed.
   */
  lemma FallbackWhenBrowserEmpty(setup: Setup, pages: nat -> LivePage, quitRaises: bool)
    ensures !setup.DriverFails? && quitRaises ==> BrowserJobs(setup, pages, quitRaises) == []
    ensures setup.DriverFails? ==> BrowserJobs(setup, pages, quitRaises) == []
    ensures setup.Home? && CheckForCaptcha(setup.landing) ==> BrowserJobs(setup, pages, quitRaises) == []
    ensures !quitRaises && Ready(setup) ==> BrowserJobs(setup, pages, quitRaises) == LivePages(pages, 0, NumPages)
  {
  }

  /**
   * A browser that shows two result pages of listings, the second without
   * a next control, yields the records of both pages in order, and the
   * backup path is not used.
   */
  lemma TwoPagesExample(setup: Setup, f1: LiveFragment, f2: LiveFragment, pages: nat -> LivePage)
    requires Ready(setup)
    requires !LiveBroken(f1) && !LiveBroken(f2)
    requires pages(0) == Listings([f1], Clicked(Elements([])))
    requires pages(1) == Listings([f2], NextTimeout)
    ensures BrowserJobs(setup, pages, false) == [ExtractSelenium(f1).value, ExtractSelenium(f2).value]
  {
    var r1, r2 := ExtractSelenium(f1).value, ExtractSelenium(f2).value;
    assert LiveResults([f1]) == [Some(r1)];
    assert LiveResults([f2]) == [Some(r2)];
    assert Present([Some(r1)]) == [r1] by {
      assert [Some(r1)][..0] == [];
    }
    assert Present([Some(r2)]) == [r2] by {
      assert [Some(r2)][..0] == [];
    }
    assert !CheckForCaptcha(Elements([]));
    assert LivePages(pages, 1, NumPages) == [r2];
    assert LivePages(pages, 0, NumPages) == [r1] + [r2];
  }
}
