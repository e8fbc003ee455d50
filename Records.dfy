/**
 * The job record both extractors build, the "N/A" sentinel, and the
 * dictionary view of a record that the CSV and JSON writers consume.
 */
module Records {

  datatype Option<T> = None | Some(value: T)

  /** The placeholder stored for a field whose element was not found. */
  const NA: string := "N/A"

  /**
   * One job listing. The scraper builds it as a Python dict filled key by
   * key; every path that returns a dict fills all six keys, so a record
   * with six named fields is the same value.
   */
  datatype JobRecord = JobRecord(
    title: string,
    company: string,
    location: string,
    salary: string,
    summary: string,
    url: string)

  /** The record whose every field is the sentinel. */
  const Blank: JobRecord := JobRecord(NA, NA, NA, NA, NA, NA)

  /** The dict keys, in the column order the CSV writer uses. */
  const Columns: seq<string> := ["title", "company", "location", "salary", "summary", "url"]

  /** The record as the dict the scraper hands to the writers. */
  function AsDict(r: JobRecord): (d: map<string, string>)
    ensures d.Keys == set c | c in Columns
    ensures forall c :: c in Columns ==> c in d
  {
    map["title" := r.title, "company" := r.company, "location" := r.location,
        "salary" := r.salary, "summary" := r.summary, "url" := r.url]
  }

  /** The dict view loses nothing: a record is determined by its dict. */
  lemma AsDictInjective(r1: JobRecord, r2: JobRecord)
    requires AsDict(r1) == AsDict(r2)
    ensures r1 == r2
  {
    assert AsDict(r1)["title"] == AsDict(r2)["title"];
    assert AsDict(r1)["company"] == AsDict(r2)["company"];
    assert AsDict(r1)["location"] == AsDict(r2)["location"];
    assert AsDict(r1)["salary"] == AsDict(r2)["salary"];
    assert AsDict(r1)["summary"] == AsDict(r2)["summary"];
    assert AsDict(r1)["url"] == AsDict(r2)["url"];
  }
}
