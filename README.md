# Mindset: daily quote and progress logs

A Dafny model of the behaviour behind the "ThriveHub" growth-mindset page
(`Mindset/app.py`), a single Streamlit page. Everything else on the page is
presentation. The model covers:

- **the daily quote**: a fixed list of five quotes and a per-session cache of two
  session-state keys, `"quote"` and `"quote_date"`. `get_daily_quote` picks a new
  quote when the cache is empty or dated another day, and otherwise returns the
  cached one. This is modelled as the class `DailyQuote.SessionState`, specified by
  the function `DailyQuote.DailyQuote`. The functions `QuotesShown` and `CacheAfter`
  replay a whole session of page renders, and lemmas about them state the
  once-per-day guarantee.
- **the two data files**: `reflections.csv` and `progress.json`, modelled as the
  class `Storage.Files`. Each file is a field of type `Option<seq<Entry>>`, where
  `None` means the file does not exist. Each save is a full read-modify-write: a
  missing file reads as the empty sequence, one entry is appended, and the whole
  sequence is written back. `AppendLog` holds this pattern once for both files,
  together with the lemmas about any number of saves (`SaveAll`).
- **the handlers in `main`**: the reflection submit guard, the save-progress button
  and the history section, in module `App`. `Scenarios` contains short client
  sessions run against fresh objects.

The clock reads (`date.today().isoformat()`, `datetime.now().isoformat()`) become
parameters `today` and `now`. `random.choice(QUOTES)` becomes the parameter `choice`,
the index it draws, with `choice < |QUOTES|`.

## Model

| member | source | states |
|---|---|---|
| DailyQuote.QuotesNonEmpty | Mindset/app.py:9-15 | the quote list has five entries, so the random pick always has something to choose from |
| DailyQuote.DailyQuote | Mindset/app.py:22-28 | after a call the cache holds the returned quote dated today; a quote cached today is returned and the cache is unchanged; otherwise the random pick is returned; from a valid cache the result is in QUOTES and the cache stays valid |
| DailyQuote.SessionState.constructor | Mindset/app.py:25 | a new session has neither "quote" nor "quote_date" |
| DailyQuote.SessionState.GetDailyQuote | Mindset/app.py:22-28 | the session fields are updated in place as `DailyQuote` prescribes, the returned quote is in QUOTES, and the session invariant is kept |
| DailyQuote.QuotesShown | Mindset/app.py:22-28 | a session of N renders shows N quotes, each a member of QUOTES |
| DailyQuote.CacheAfter | Mindset/app.py:26-27 | after a non-empty series of renders the cached date is the date of the last render, and the cache stays valid |
| DailyQuote.LastShownIsCached | Mindset/app.py:26-28 | the quote left in the cache is the last quote shown |
| DailyQuote.SameDaySameQuote | Mindset/app.py:23-25 | two consecutive renders on the same day show the same quote, whatever the second random pick would be |
| DailyQuote.OneQuotePerDay | Mindset/app.py:23-25 | when all renders of a session fall on one day, every one shows the first quote of that day |
| DailyQuote.NewDayNewPick | Mindset/app.py:25-27 | a render on a different date from the previous one shows the fresh random pick |
| AppendLog.Appended | Mindset/app.py:44-49 | one save writes back the old entries, unchanged and in order, followed by exactly one new entry |
| AppendLog.SaveAllExtends | Mindset/app.py:44-59 | after any series of saves, reading the file gives the old entries followed by the saved ones in call order |
| AppendLog.SavesFromNothing | Mindset/app.py:47-59 | from a missing file, N saves read back as exactly those N entries in order, with duplicates kept |
| AppendLog.SaveCreatesFile | Mindset/app.py:37-39 | the first save creates the file, and later saves never remove it |
| AppendLog.SavesKeepPrefix | Mindset/app.py:34-36 | saves never change or reorder what was already stored: the old entries stay a prefix |
| Storage.Files.constructor | Mindset/app.py:17-19 | the data files start as given, either missing or holding a sequence of entries |
| Storage.Files.SaveReflection | Mindset/app.py:31-39 | the reflections table becomes the old rows followed by one row (now, reflection); a missing file yields exactly that one row |
| Storage.Files.SaveProgress | Mindset/app.py:42-51 | the progress list becomes the old list followed by {date: today, progress}; a missing file yields a one-element list |
| Storage.Files.LoadPastProgress | Mindset/app.py:54-59 | returns [] when the file is missing and the stored list as it is otherwise |
| App.SubmitReflection | Mindset/app.py:194-199 | an empty text shows the warning and writes nothing; any other text shows the thanks and writes exactly one row |
| App.SaveProgressClicked | Mindset/app.py:203-220 | a slider value in 0..100 is saved with today's date and the saved notice is shown |
| App.ShowHistory | Mindset/app.py:224-229 | the note is shown exactly when there are no stored entries; otherwise the chart gets the stored entries in stored order |
| Scenarios.FreshEnvironment | Mindset/app.py:54-59 | with no files, the history section shows "No progress data available yet." |
| Scenarios.SameDateSavesKept | Mindset/app.py:42-59 | two saves on the same date load back as two distinct entries in call order |
| Scenarios.OneReflection | Mindset/app.py:194-196 | one non-empty submission on a missing file yields exactly one row with that timestamp and text |
| Scenarios.EmptySubmission | Mindset/app.py:198-199 | an empty submission shows the warning and leaves existing rows as they were |
| Scenarios.QuoteStableWithinDay | Mindset/app.py:23-28 | two renders of a new session on one day show the first pick twice |
| Scenarios.QuoteRefreshedNextDay | Mindset/app.py:25-27 | a render on another day shows the new pick and the cache records the new date |

## Left out

- Page rendering: page config, CSS, header, footer, the progress-bar HTML, `st.line_chart` and the current-time card. These are presentation with no logic to state. `App.ShowHistory` keeps only the choice between chart and note.
- File formats: `os.path.exists`, `pd.read_csv`/`to_csv` and `json.load`/`dump` are foreign library calls. A file is modelled as the sequence of entries it decodes to. So the model does not capture pandas re-reading the CSV with type inference. For example, a reflection `007` read back becomes the integer 7, and an empty cell becomes NaN. Both are then written back changed on the next save. The model keeps every text verbatim.
- Malformed files: an existing file that does not parse, or a JSON file that holds something other than a list, raises an exception the page does not handle. Nothing is specified for it.
- Clock and randomness: today's date and the current timestamp are parameters. The random quote is an index parameter. The uniform distribution of `random.choice` is not modelled, only that the pick comes from QUOTES.
- Concurrency: two sessions writing the same file at once can lose an update. The page is single-user, and the model is sequential.
- Storage.Files.LoadPastProgress: the loaded list is typed as progress entries. The model assumes the file holds what `save_progress` wrote.
- The slider's range: it is a widget bound. It appears only as the precondition of `App.SaveProgressClicked`. `Storage.Files.SaveProgress` stores any integer unchanged, including 0 and 100.
