/**
 * `save_to_csv` and `save_to_json` of utils.py. The file system and the
 * logger are one object whose state the writers change: the files by name,
 * and the log lines in the order they were emitted.
 */
module Output {
  import opened Records

  /** What a saved file holds: CSV rows (the header first), or the JSON array of job objects. */
  datatype FileContent = Csv(rows: seq<seq<string>>) | Json(objects: seq<map<string, string>>)

  /** The two kinds of log line the writers emit (`warning` and `info`). */
  datatype LogLine =
    | NoData(format: string)                  // "No job data to save to <format>"
    | Saved(count: nat, filename: string)     // "Saved <count> jobs to <filename>"

  class Disk {
    var files: map<string, FileContent>
    var log: seq<LogLine>

    constructor()
      ensures files == map[] && log == []
    {
      files := map[];
      log := [];
    }
  }

  /**
   * One CSV row as `csv.DictWriter` writes a job dict: the dict's values
   * looked up in column order, which are the record's six fields in
   * declaration order.
   */
  function Row(job: JobRecord): (row: seq<string>)
    ensures row == [job.title, job.company, job.location, job.salary, job.summary, job.url]
  {
    var d := AsDict(job);
    seq(|Columns|, c requires 0 <= c < |Columns| => d[Columns[c]])
  }

  /** The data rows of the file, one per job, in the order of the list. */
  function Rows(jobs: seq<JobRecord>): (rows: seq<seq<string>>)
    ensures |rows| == |jobs|
    ensures forall i :: 0 <= i < |jobs| ==> rows[i] == Row(jobs[i])
  {
    seq(|jobs|, i requires 0 <= i < |jobs| => Row(jobs[i]))
  }

  /** Reading a row back, under the header, gives the job that was written. */
  function FromRow(row: seq<string>): (r: Option<JobRecord>)
    ensures r.Some? <==> |row| == |Columns|
  {
    if |row| == |Columns| then Some(JobRecord(row[0], row[1], row[2], row[3], row[4], row[5])) else None
  }

  /** Reading a whole file back: the header must be the columns, then one job per row. */
  function ReadCsv(rows: seq<seq<string>>): Option<seq<JobRecord>>
  {
    if rows == [] || rows[0] != Columns then None
    else ReadRows(rows[1..])
  }

  function ReadRows(rows: seq<seq<string>>): Option<seq<JobRecord>>
  {
    if rows == [] then Some([])
    else
      match (FromRow(rows[0]), ReadRows(rows[1..]))
      case (Some(j), Some(js)) => Some([j] + js)
      case _ => None
  }

  /** Nothing is lost in the CSV: reading the written rows back gives the jobs, in order. */
  lemma CsvRoundTrip(jobs: seq<JobRecord>)
    ensures ReadCsv([Columns] + Rows(jobs)) == Some(jobs)
  {
    assert ([Columns] + Rows(jobs))[1..] == Rows(jobs);
    RowsRoundTrip(jobs);
  }

  lemma {:induction false} RowsRoundTrip(jobs: seq<JobRecord>)
    ensures ReadRows(Rows(jobs)) == Some(jobs)
  {
    if jobs != [] {
      assert Rows(jobs)[1..] == Rows(jobs[1..]);
      RowsRoundTrip(jobs[1..]);
      assert [jobs[0]] + jobs[1..] == jobs;
    }
  }

  /**
   * `save_to_csv`: an empty list writes nothing and warns (when there is a
   * logger); otherwise the file is replaced by the header and one row per
   * job, and the count is logged.
   */
  method SaveToCsv(disk: Disk, jobs: seq<JobRecord>, filename: string, hasLogger: bool)
    modifies disk
    ensures jobs == [] ==> disk.files == old(disk.files)
    ensures jobs == [] ==> disk.log == old(disk.log) + (if hasLogger then [NoData("CSV")] else [])
    ensures jobs != [] ==> disk.files == old(disk.files)[filename := Csv([Columns] + Rows(jobs))]
    ensures jobs != [] ==> disk.log == old(disk.log) + (if hasLogger then [Saved(|jobs|, filename)] else [])
  {
    if jobs == [] {
      if hasLogger {
        disk.log := disk.log + [NoData("CSV")];
      }
      return;
    }
    var rows := [Columns];
    for i := 0 to |jobs|
      invariant rows == [Columns] + Rows(jobs[..i])
    {
      rows := rows + [Row(jobs[i])];
      assert Rows(jobs[..i + 1]) == Rows(jobs[..i]) + [Row(jobs[i])];
    }
    assert jobs[..|jobs|] == jobs;
    disk.files := disk.files[filename := Csv(rows)];
    if hasLogger {
      disk.log := disk.log + [Saved(|jobs|, filename)];
    }
  }

  /** The JSON array `json.dump` writes: one object per job, in order. */
  function JsonObjects(jobs: seq<JobRecord>): (objs: seq<map<string, string>>)
    ensures |objs| == |jobs|
    ensures forall i :: 0 <= i < |jobs| ==> objs[i] == AsDict(jobs[i])
  {
    seq(|jobs|, i requires 0 <= i < |jobs| => AsDict(jobs[i]))
  }

  /** Reading a JSON object back: all six keys must be there. */
  function FromObject(obj: map<string, string>): (r: Option<JobRecord>)
    ensures r.Some? <==> forall c :: c in Columns ==> c in obj
  {
    if "title" in obj && "company" in obj && "location" in obj && "salary" in obj && "summary" in obj && "url" in obj
    then Some(JobRecord(obj["title"], obj["company"], obj["location"], obj["salary"], obj["summary"], obj["url"]))
    else None
  }

  /** A job's object reads back as that job. */
  lemma FromObjectAsDict(job: JobRecord)
    ensures FromObject(AsDict(job)) == Some(job)
  {
    var d := AsDict(job);
    assert "title" in d && "company" in d && "location" in d && "salary" in d && "summary" in d && "url" in d;
  }

  /** Reading the whole array back: every object must carry all six keys. */
  function ReadJson(objs: seq<map<string, string>>): Option<seq<JobRecord>>
  {
    if objs == [] then Some([])
    else
      match (FromObject(objs[0]), ReadJson(objs[1..]))
      case (Some(j), Some(js)) => Some([j] + js)
      case _ => None
  }

  /** Nothing is lost in the JSON either: reading the array back gives the jobs, in order. */
  lemma {:induction false} JsonRoundTrip(jobs: seq<JobRecord>)
    ensures ReadJson(JsonObjects(jobs)) == Some(jobs)
  {
    if jobs != [] {
      FromObjectAsDict(jobs[0]);
      assert JsonObjects(jobs)[1..] == JsonObjects(jobs[1..]);
      JsonRoundTrip(jobs[1..]);
      assert [jobs[0]] + jobs[1..] == jobs;
    }
  }

  /**
   * `save_to_json`: an empty list writes nothing and warns (when there is a
   * logger); otherwise the file is replaced by the array of job objects and
   * the count is logged.
   */
  method SaveToJson(disk: Disk, jobs: seq<JobRecord>, filename: string, hasLogger: bool)
    modifies disk
    ensures jobs == [] ==> disk.files == old(disk.files)
    ensures jobs == [] ==> disk.log == old(disk.log) + (if hasLogger then [NoData("JSON")] else [])
    ensures jobs != [] ==> disk.files == old(disk.files)[filename := Json(JsonObjects(jobs))]
    ensures jobs != [] ==> disk.log == old(disk.log) + (if hasLogger then [Saved(|jobs|, filename)] else [])
  {
    if jobs == [] {
      if hasLogger {
        disk.log := disk.log + [NoData("JSON")];
      }
      return;
    }
    disk.files := disk.files[filename := Json(JsonObjects(jobs))];
    if hasLogger {
      disk.log := disk.log + [Saved(|jobs|, filename)];
    }
  }
}
