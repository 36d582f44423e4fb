/** The daily quote (Mindset/app.py:9-28): a fixed, non-empty list of quotes and a
    per-session cache that holds one of them together with the calendar date on which
    it was picked.  The clock read `datetime.date.today().isoformat()` becomes the
    parameter `today`; `random.choice(QUOTES)` becomes the parameter `choice`, the
    index it picks. */
module DailyQuote {
  import opened Wrappers

  /** A calendar date in ISO-8601 form, as `date.isoformat()` renders it; the cache
      only ever compares two of them for equality. */
  type Date = string

  /** The motivational quotes the page draws from. */
  const QUOTES: seq<string> := [
    "Failure is simply the opportunity to begin again, this time more intelligently. – Henry Ford",
    "Success is not final, failure is not fatal: It is the courage to continue that counts. – Winston Churchill",
    "Hardships often prepare ordinary people for an extraordinary destiny. – C.S. Lewis",
    "Believe you can and you're halfway there. – Theodore Roosevelt",
    "Your limitation—it's only your imagination."
  ]

  /** The two session-state entries, "quote" and "quote_date"; None is a missing key. */
  datatype QuoteCache = QuoteCache(quote: Option<string>, quoteDate: Option<Date>)

  /** The session invariant: a cached quote was drawn from QUOTES. */
  predicate CacheValid(c: QuoteCache) {
    c.quote.Some? ==> c.quote.value in QUOTES
  }

  /** The refresh test: no quote cached yet, or one cached on another day
      (a missing "quote_date" never equals today). */
  predicate NeedsNewQuote(c: QuoteCache, today: Date) {
    c.quote.None? || c.quoteDate != Some(today)
  }

  /** One call of get_daily_quote on a session whose cache is `c`: the quote it returns
      and the cache it leaves behind. */
  function DailyQuote(c: QuoteCache, today: Date, choice: nat): (r: (string, QuoteCache))
    requires choice < |QUOTES|
    // afterwards the cache holds exactly the quote returned, dated today
    ensures r.1 == QuoteCache(Some(r.0), Some(today))
    ensures !NeedsNewQuote(r.1, today)
    // a quote already cached today is returned and the cache is left as it was
    ensures !NeedsNewQuote(c, today) ==> r.0 == c.quote.value && r.1 == c
    // otherwise the random pick is returned
    ensures NeedsNewQuote(c, today) ==> r.0 == QUOTES[choice]
    // the result always comes from QUOTES, and the cache stays valid
    ensures CacheValid(c) ==> r.0 in QUOTES && CacheValid(r.1)
  {
    if NeedsNewQuote(c, today) then
      var q := QUOTES[choice];
      (q, QuoteCache(Some(q), Some(today)))
    else
      (c.quote.value, c)
  }

  /** The list of quotes is never empty, so the random pick always has something
      to choose from. */
  lemma QuotesNonEmpty()
    ensures |QUOTES| == 5
  {
  }

  /** A page render: the clock reading and the random index of one call. */
  datatype Call = Call(today: Date, choice: nat)

  predicate ChoicesInRange(calls: seq<Call>) {
    forall k | 0 <= k < |calls| :: calls[k].choice < |QUOTES|
  }

  /** The quotes shown by successive calls of get_daily_quote in one session that
      starts with cache `c`. */
  function QuotesShown(c: QuoteCache, calls: seq<Call>): (shown: seq<string>)
    requires ChoicesInRange(calls)
    ensures |shown| == |calls|
    ensures CacheValid(c) ==> forall k | 0 <= k < |shown| :: shown[k] in QUOTES
    decreases |calls|
  {
    if |calls| == 0 then []
    else
      var (q, next) := DailyQuote(c, calls[0].today, calls[0].choice);
      [q] + QuotesShown(next, calls[1..])
  }

  /** The cache left behind by those calls. */
  function CacheAfter(c: QuoteCache, calls: seq<Call>): (after: QuoteCache)
    requires ChoicesInRange(calls)
    ensures |calls| > 0 ==> after.quoteDate == Some(calls[|calls| - 1].today)
    ensures CacheValid(c) ==> CacheValid(after)
    decreases |calls|
  {
    if |calls| == 0 then c
    else CacheAfter(DailyQuote(c, calls[0].today, calls[0].choice).1, calls[1..])
  }

  /** The last quote shown is the one left in the cache. */
  lemma {:induction false} LastShownIsCached(c: QuoteCache, calls: seq<Call>)
    requires ChoicesInRange(calls) && |calls| > 0
    ensures CacheAfter(c, calls).quote == Some(QuotesShown(c, calls)[|calls| - 1])
    decreases |calls|
  {
    var r := DailyQuote(c, calls[0].today, calls[0].choice);
    if |calls| > 1 {
      LastShownIsCached(r.1, calls[1..]);
    }
  }

  /** Two consecutive renders on the same day show the same quote, whatever the
      second random pick would have been. */
  lemma {:induction false} SameDaySameQuote(c: QuoteCache, calls: seq<Call>, k: nat)
    requires ChoicesInRange(calls)
    requires k + 1 < |calls| && calls[k].today == calls[k + 1].today
    ensures QuotesShown(c, calls)[k] == QuotesShown(c, calls)[k + 1]
    decreases k
  {
    var r := DailyQuote(c, calls[0].today, calls[0].choice);
    var rest := calls[1..];
    if k == 0 {
      assert QuotesShown(r.1, rest)[0] == DailyQuote(r.1, rest[0].today, rest[0].choice).0;
    } else {
      SameDaySameQuote(r.1, rest, k - 1);
    }
  }

  /** Within one calendar day, every render of a session shows the first quote of
      that day. */
  lemma {:induction false} OneQuotePerDay(c: QuoteCache, calls: seq<Call>, j: nat)
    requires ChoicesInRange(calls)
    requires forall k | 0 <= k < |calls| :: calls[k].today == calls[0].today
    requires j < |calls|
    ensures QuotesShown(c, calls)[j] == QuotesShown(c, calls)[0]
  {
    if j > 0 {
      OneQuotePerDay(c, calls, j - 1);
      SameDaySameQuote(c, calls, j - 1);
    }
  }

  /** When the calendar date moves on between two renders, the second one shows a
      freshly picked quote. */
  lemma {:induction false} NewDayNewPick(c: QuoteCache, calls: seq<Call>, k: nat)
    requires ChoicesInRange(calls)
    requires k + 1 < |calls| && calls[k].today != calls[k + 1].today
    ensures QuotesShown(c, calls)[k + 1] == QUOTES[calls[k + 1].choice]
    decreases k
  {
    var r := DailyQuote(c, calls[0].today, calls[0].choice);
    var rest := calls[1..];
    if k == 0 {
      assert QuotesShown(r.1, rest)[0] == DailyQuote(r.1, rest[0].today, rest[0].choice).0;
    } else {
      NewDayNewPick(r.1, rest, k - 1);
    }
  }

  /** The session state of one browser session: Streamlit's `st.session_state`,
      restricted to the two keys get_daily_quote uses. */
  class SessionState {
    var quote: Option<string>
    var quoteDate: Option<Date>

    function Cached(): QuoteCache
      reads this
    {
      QuoteCache(quote, quoteDate)
    }

    ghost predicate Valid()
      reads this
    {
      CacheValid(Cached())
    }

    /** A new session: neither key is set. */
    constructor ()
      ensures Valid()
      ensures quote == None && quoteDate == None
    {
      quote := None;
      quoteDate := None;
    }

    /** get_daily_quote: refresh the cache when it is empty or stale, then return the
        cached quote. */
    method GetDailyQuote(today: Date, choice: nat) returns (q: string)
      requires Valid()
      requires choice < |QUOTES|
      modifies this
      ensures Valid()
      ensures q in QUOTES
      ensures (q, Cached()) == DailyQuote(old(Cached()), today, choice)
    {
      if quote.None? || quoteDate != Some(today) {
        quote := Some(QUOTES[choice]);
        quoteDate := Some(today);
      }
      q := quote.value;
    }
  }
}
