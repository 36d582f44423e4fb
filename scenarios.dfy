/** Client code: short sessions run against fresh objects, showing what the contracts
    of the session cache, the data files and the handlers let a caller conclude. */
module Scenarios {
  import opened Wrappers
  import opened DailyQuote
  import opened Storage
  import opened App

  /** A directory with neither data file: the history section shows the note. */
  method FreshEnvironment() returns (h: History)
    ensures h == NoData(NO_PROGRESS)
  {
    var files := new Files(None, None);
    h := ShowHistory(files);
  }

  /** Two saves on the same date, from no file: both entries are kept, distinct and
      in call order. */
  method SameDateSavesKept(today: Date, first: int, second: int) returns (history: seq<ProgressEntry>)
    ensures history == [ProgressEntry(today, first), ProgressEntry(today, second)]
  {
    var files := new Files(None, None);
    files.SaveProgress(first, today);
    files.SaveProgress(second, today);
    history := files.LoadPastProgress();
  }

  /** One submitted reflection, from no file: the file holds exactly that row, the
      text verbatim. */
  method OneReflection(text: string, now: Timestamp) returns (notice: Notice, rows: Option<seq<ReflectionRow>>)
    requires text != ""
    ensures notice == Success(THANKS)
    ensures rows == Some([ReflectionRow(now, text)])
  {
    var files := new Files(None, None);
    notice := SubmitReflection(files, text, now);
    rows := files.reflectionsFile;
  }

  /** An empty submission on top of existing rows: a warning, and the file as it was. */
  method EmptySubmission(existing: Option<seq<ReflectionRow>>, now: Timestamp)
    returns (notice: Notice, rows: Option<seq<ReflectionRow>>)
    ensures notice == Warning(PLEASE_WRITE)
    ensures rows == existing
  {
    var files := new Files(existing, None);
    notice := SubmitReflection(files, "", now);
    rows := files.reflectionsFile;
  }

  /** Two renders of a new session on the same day show the first pick twice. */
  method QuoteStableWithinDay(today: Date, choice1: nat, choice2: nat) returns (first: string, second: string)
    requires choice1 < |QUOTES| && choice2 < |QUOTES|
    ensures first == second == QUOTES[choice1]
  {
    var session := new SessionState();
    first := session.GetDailyQuote(today, choice1);
    second := session.GetDailyQuote(today, choice2);
  }

  /** A render on a later day picks again and records the new date. */
  method QuoteRefreshedNextDay(day1: Date, day2: Date, choice1: nat, choice2: nat)
    returns (first: string, second: string, cachedDate: Option<Date>)
    requires choice1 < |QUOTES| && choice2 < |QUOTES|
    requires day1 != day2
    ensures first == QUOTES[choice1] && second == QUOTES[choice2]
    ensures cachedDate == Some(day2)
  {
    var session := new SessionState();
    first := session.GetDailyQuote(day1, choice1);
    second := session.GetDailyQuote(day2, choice2);
    cachedDate := session.quoteDate;
  }
}
