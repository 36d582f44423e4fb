/** The two data files of the page (Mindset/app.py:17-19, 31-59): `reflections.csv`
    with one (timestamp, reflection) row per submission, and `progress.json` with one
    {date, progress} object per save.  Each file is a field holding None while the file
    does not exist. */
module Storage {
  import opened Wrappers
  import opened AppendLog
  import DailyQuote

  /** A timestamp as `datetime.now().isoformat()` renders it. */
  type Timestamp = string

  /** One row of reflections.csv: the columns "timestamp" and "reflection". */
  datatype ReflectionRow = ReflectionRow(timestamp: Timestamp, reflection: string)

  /** One object of progress.json: the keys "date" and "progress". */
  datatype ProgressEntry = ProgressEntry(date: DailyQuote.Date, progress: int)

  /** The working directory the page reads and writes. */
  class Files {
    var reflectionsFile: Option<seq<ReflectionRow>>
    var progressFile: Option<seq<ProgressEntry>>

    constructor (reflections: Option<seq<ReflectionRow>>, progress: Option<seq<ProgressEntry>>)
      ensures reflectionsFile == reflections && progressFile == progress
    {
      reflectionsFile := reflections;
      progressFile := progress;
    }

    /** save_reflection: read the table (or start from the new row alone when the file
        is missing), concatenate one row (now, reflection), write the table back. */
    method SaveReflection(reflection: string, now: Timestamp)
      modifies this`reflectionsFile
      ensures reflectionsFile == Some(Appended(old(reflectionsFile), ReflectionRow(now, reflection)))
    {
      var newEntry := [ReflectionRow(now, reflection)];
      var table;
      if reflectionsFile.Some? {
        table := reflectionsFile.value + newEntry;
      } else {
        table := newEntry;
      }
      reflectionsFile := Some(table);
    }

    /** save_progress: load the list (empty when the file is missing), append
        {date: today, progress}, dump the list back. */
    method SaveProgress(progress: int, today: DailyQuote.Date)
      modifies this`progressFile
      ensures progressFile == Some(Appended(old(progressFile), ProgressEntry(today, progress)))
    {
      var data: seq<ProgressEntry>;
      if progressFile.Some? {
        data := progressFile.value;
      } else {
        data := [];
      }
      data := data + [ProgressEntry(today, progress)];
      progressFile := Some(data);
    }

    /** load_past_progress: the stored list as it is, or [] when the file is missing. */
    method LoadPastProgress() returns (history: seq<ProgressEntry>)
      ensures progressFile.None? ==> history == []
      ensures progressFile.Some? ==> history == progressFile.value
      ensures history == Existing(progressFile)
    {
      if progressFile.Some? {
        return progressFile.value;
      }
      return [];
    }
  }
}
