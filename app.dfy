/** The event handlers of `main` (Mindset/app.py:194-229) that touch the data files:
    the reflection submit button, the save-progress button and the history section.
    Widgets, layout and styling are not modelled; a button press is a method call and
    the message the page shows is its result. */
module App {
  import opened Wrappers
  import opened AppendLog
  import DailyQuote
  import opened Storage

  /** A message the page shows: `st.success` or `st.warning`. */
  datatype Notice = Success(message: string) | Warning(message: string)

  const THANKS := "Thank you for sharing! Keep growing! \U{1F331}"
  const PLEASE_WRITE := "Please write something before submitting."
  const PROGRESS_SAVED := "Your progress has been saved! \U{1F4C8}"
  const NO_PROGRESS := "No progress data available yet."

  /** The range of the progress slider. */
  const SLIDER_MIN := 0
  const SLIDER_MAX := 100

  /** The "Submit Reflection" button: an empty text area is refused with a warning and
      nothing is written; any other text (whitespace included, since only the empty
      string is falsy) is saved as one new row. */
  method SubmitReflection(files: Files, userReflection: string, now: Timestamp) returns (notice: Notice)
    modifies files`reflectionsFile
    ensures userReflection == "" ==> notice == Warning(PLEASE_WRITE)
    ensures userReflection == "" ==> files.reflectionsFile == old(files.reflectionsFile)
    ensures userReflection != "" ==> notice == Success(THANKS)
    ensures userReflection != "" ==>
      files.reflectionsFile == Some(Appended(old(files.reflectionsFile), ReflectionRow(now, userReflection)))
  {
    if userReflection != "" {
      files.SaveReflection(userReflection, now);
      notice := Success(THANKS);
    } else {
      notice := Warning(PLEASE_WRITE);
    }
  }

  /** The "Save Progress" button: the slider value, always within 0..100, is saved
      with today's date. */
  method SaveProgressClicked(files: Files, progress: int, today: DailyQuote.Date) returns (notice: Notice)
    requires SLIDER_MIN <= progress <= SLIDER_MAX
    modifies files`progressFile
    ensures notice == Success(PROGRESS_SAVED)
    ensures files.progressFile == Some(Appended(old(files.progressFile), ProgressEntry(today, progress)))
  {
    files.SaveProgress(progress, today);
    notice := Success(PROGRESS_SAVED);
  }

  /** What the "Growth Timeline" section shows: a chart of the stored entries, or a
      note when there are none. */
  datatype History = Timeline(points: seq<ProgressEntry>) | NoData(message: string)

  /** The history section: load the entries; an empty list (or a missing file) shows
      the note, anything else is charted as it is, in stored order. */
  method ShowHistory(files: Files) returns (h: History)
    ensures h.NoData? <==> Existing(files.progressFile) == []
    ensures h.NoData? ==> h.message == NO_PROGRESS
    ensures h.Timeline? ==> h.points == Existing(files.progressFile)
  {
    var pastProgress := files.LoadPastProgress();
    if pastProgress != [] {
      h := Timeline(pastProgress);
    } else {
      h := NoData(NO_PROGRESS);
    }
  }
}
