/** The control logic of main() in main_reader/rss_reader.py: choose the limit, fetch and
    normalise the feed, save it to the cache, optionally replace it by the cached news of a
    date, and keep the first `limit` articles. */
module Reader {
  import opened Results
  import opened Calendar
  import opened Validators
  import opened Articles
  import opened Normalizer
  import opened CacheStore

  /** The command-line arguments main() reads: the feed URL, --limit and --date, each of
      the last two absent (None) or given as text. */
  datatype Args = Args(source: string, limit: Option<string>, date: Option<string>)

  /** How one run ends: SystemExit with its message, an uncaught exception, or the list of
      news handed to the printer together with the "not found" line printed before it. */
  datatype RunOutcome =
    | Exit(message: string)
    | Crash(exception: string)
    | Shown(news: seq<Article>, notice: Option<string>)

  /** The limit of rss_reader.py:29-32: check_limit of --limit when it is given and not
      empty, otherwise 0 (no limit). */
  function SelectLimit(arg: Option<string>): (r: Result<int, string>)
    ensures !Truthy(arg) ==> r == Success(0)
    ensures Truthy(arg) ==> r == CheckLimit(arg.value) && (r.Success? ==> r.value >= 1)
  {
    if Truthy(arg) then CheckLimit(arg.value) else Success(0)
  }

  /** news[:limit] when limit > 0 (rss_reader.py:48-50). */
  function Truncate(news: seq<Article>, limit: int): (r: seq<Article>)
    ensures limit > 0 ==> |r| == (if limit < |news| then limit else |news|)
    ensures limit <= 0 ==> r == news
    ensures r == news[..|r|]
  {
    if limit > 0 && limit < |news| then news[..limit] else news
  }

  function ApplyLimit(out: RunOutcome, limit: int): (r: RunOutcome)
    ensures r.Shown? <==> out.Shown?
    ensures !out.Shown? ==> r == out
    ensures out.Shown? ==> r.notice == out.notice && r.news == Truncate(out.news, limit)
  {
    match out
    case Shown(news, notice) => Shown(Truncate(news, limit), notice)
    case _ => out
  }

  function NotFoundNotice(date: string): string
  {
    "Cached news not found for the date " + date
  }

  /** The message Python gives when get_cashed_news is called with two arguments. */
  const MissingUrlArgument := "TypeError: get_cashed_news() missing 1 required positional argument: 'url'"

  /** The date branch as written (rss_reader.py:40-45): get_cashed_news(args.date, connection)
      passes two arguments to a function of three, so the call raises TypeError before its
      body runs, and `except ValueError` does not catch it. */
  function CachePathAsWritten(saved: seq<Row>, date: string): (out: RunOutcome)
    ensures out == Crash(MissingUrlArgument)
  {
    Crash(MissingUrlArgument)
  }

  /** The date branch with the url argument absent (None), the call the branch evidently
      means: the cached news of the date, or the date-format exit; an empty result is
      shown with the "not found" notice. */
  function CachePath(saved: seq<Row>, date: string): (out: RunOutcome)
    ensures CheckDate(date).Failure? ==> out == Exit(DateFormatMessage)
    ensures CheckDate(date).Success? ==> out == Shown(Retrieve(saved, date, None),
                                                      if Retrieve(saved, date, None) == [] then Some(NotFoundNotice(date)) else None)
  {
    match CachedNews(saved, date, None)
    case Failure(message) => Exit(message)
    case Success(cached) => Shown(cached, if |cached| == 0 then Some(NotFoundNotice(date)) else None)
  }

  /** The fetched entries can be normalised and every resulting article has a parsed date,
      which save_news needs for strftime. */
  predicate Saveable(fetched: FetchOutcome, parse: string -> Option<DateTime>)
  {
    FetchReadable(fetched) && (fetched.Feed? ==> AllStorable(Normalized(fetched.entries, parse)))
  }

  /** One run of main() on a table holding rows after init_database: its outcome and the
      table it leaves. */
  function Pipeline(rows: seq<Row>, args: Args, fetched: FetchOutcome, parse: string -> Option<DateTime>): (r: (RunOutcome, seq<Row>))
    requires SelectLimit(args.limit).Success? ==> Saveable(fetched, parse)
    ensures !r.0.Crash?
    ensures r.0.Exit? ==> r.0.message in {LimitNotANumber, LimitNotPositive, SourceUnavailable, CheckLink, DateFormatMessage}
    ensures r.1 != rows ==>
      SelectLimit(args.limit).Success? && fetched.Feed? && r.1 == SaveAll(rows, Normalized(fetched.entries, parse), args.source)
  {
    var limit := SelectLimit(args.limit);
    if limit.Failure? then (Exit(limit.error), rows)
    else
      var live := GetNews(fetched, parse);
      if live.Failure? then (Exit(live.error), rows)
      else
        var saved := SaveAll(rows, live.value, args.source);
        (Presented(saved, args, live.value, limit.value), saved)
  }

  /** What main shows once the live articles are saved: them, or with --date the cached news
      of that date, cut to the limit. */
  function Presented(saved: seq<Row>, args: Args, live: seq<Article>, limit: int): (r: RunOutcome)
    ensures !r.Crash?
    ensures r.Exit? ==> r == Exit(DateFormatMessage) && Truthy(args.date)
    ensures !Truthy(args.date) ==> r == Shown(Truncate(live, limit), None)
  {
    var path := if Truthy(args.date) then CachePath(saved, args.date.value) else Shown(live, None);
    ApplyLimit(path, limit)
  }

  /** main() (rss_reader.py:25-50), without logging and printing. */
  method Run(db: NewsDb, args: Args, fetched: FetchOutcome, parse: string -> Option<DateTime>) returns (out: RunOutcome)
    requires db.Valid() && (SelectLimit(args.limit).Success? ==> Saveable(fetched, parse))
    modifies db
    ensures db.Valid() && db.created
    ensures (out, db.rows) == Pipeline(old(db.rows), args, fetched, parse)
  {
    db.InitDatabase();
    var limit := 0;
    if Truthy(args.limit) {
      var checked := CheckLimit(args.limit.value);
      if checked.Failure? {
        return Exit(checked.error);
      }
      limit := checked.value;
    }
    assert SelectLimit(args.limit) == Success(limit);
    var live := GetNews(fetched, parse);
    if live.Failure? {
      return Exit(live.error);
    }
    var news := live.value;
    assert news == Normalized(fetched.entries, parse);
    db.SaveNews(news, args.source);
    out := Present(db, args, news, limit);
  }

  /** The end of main (rss_reader.py:40-50): the date branch, then the truncation. */
  method Present(db: NewsDb, args: Args, live: seq<Article>, limit: int) returns (out: RunOutcome)
    requires db.Valid() && db.created
    ensures out == Presented(db.rows, args, live, limit)
  {
    var shown := Shown(live, None);
    if Truthy(args.date) {
      shown := ReadCache(db, args.date.value);
      if !shown.Shown? {
        return shown;
      }
    }
    var news := shown.news;
    if limit > 0 && limit < |news| {
      news := news[..limit];
    }
    return Shown(news, shown.notice);
  }

  /** The date branch of main (rss_reader.py:40-45), reading the cache over all feeds. */
  method ReadCache(db: NewsDb, date: string) returns (out: RunOutcome)
    requires db.Valid() && db.created
    ensures out == CachePath(db.rows, date)
  {
    var cached := db.GetCashedNews(date, None);
    if cached.Failure? {
      return Exit(cached.error);
    }
    var notice := None;
    if |cached.value| == 0 {
      notice := Some(NotFoundNotice(date));
    }
    return Shown(cached.value, notice);
  }

  // ---------------------------------------------------------------- properties of a run

  /** A bad --limit stops the run before the feed is fetched; an unreachable or empty feed
      stops it before anything is saved. Either way the table is left as it was. */
  lemma EarlyExitsLeaveTable(rows: seq<Row>, args: Args, fetched: FetchOutcome, parse: string -> Option<DateTime>)
    requires SelectLimit(args.limit).Success? ==> Saveable(fetched, parse)
    ensures Truthy(args.limit) && CheckLimit(args.limit.value).Failure? ==>
      Pipeline(rows, args, fetched, parse) == (Exit(CheckLimit(args.limit.value).error), rows)
    ensures SelectLimit(args.limit).Success? && fetched.TransportError? ==>
      Pipeline(rows, args, fetched, parse) == (Exit(SourceUnavailable), rows)
    ensures SelectLimit(args.limit).Success? && fetched == Feed([]) ==>
      Pipeline(rows, args, fetched, parse) == (Exit(CheckLink), rows)
  {
  }

  /** Once the feed is read, its articles are saved stamped with the feed URL, on both
      paths, before the cache is consulted. */
  lemma LiveNewsSavedFirst(rows: seq<Row>, args: Args, fetched: FetchOutcome, parse: string -> Option<DateTime>)
    requires Saveable(fetched, parse)
    requires SelectLimit(args.limit).Success? && fetched.Feed? && fetched.entries != []
    ensures Pipeline(rows, args, fetched, parse).1 == SaveAll(rows, Normalized(fetched.entries, parse), args.source)
  {
  }

  /** Without --date the run shows the fetched articles in feed order, cut to the limit;
      with it, the cached news of that date read from the table just written, cut to the
      same limit. */
  lemma PathsShareTheLimit(rows: seq<Row>, args: Args, fetched: FetchOutcome, parse: string -> Option<DateTime>)
    requires Saveable(fetched, parse)
    requires SelectLimit(args.limit).Success? && fetched.Feed? && fetched.entries != []
    ensures var limit, live := SelectLimit(args.limit).value, Normalized(fetched.entries, parse);
      var saved := SaveAll(rows, live, args.source);
      Pipeline(rows, args, fetched, parse).0 ==
        if Truthy(args.date) then ApplyLimit(CachePath(saved, args.date.value), limit)
        else Shown(Truncate(live, limit), None)
  {
  }

  /** With no limit, an article of the feed whose date key is the requested date, and which
      no later article of the feed replaces, is among the cached news shown: the save
      precedes the read. */
  lemma FetchedArticleVisibleInCache(rows: seq<Row>, args: Args, fetched: FetchOutcome, parse: string -> Option<DateTime>, i: int)
    requires Saveable(fetched, parse)
    requires !Truthy(args.limit) && fetched.Feed? && 0 <= i < |fetched.entries|
    requires var live := Normalized(fetched.entries, parse);
      forall j :: i < j < |live| ==> live[j].link != live[i].link
    requires Truthy(args.date) && args.date.value == DateKey(Normalized(fetched.entries, parse)[i].date.value.date)
    ensures var out := Pipeline(rows, args, fetched, parse).0;
      out.Shown? && Normalized(fetched.entries, parse)[i] in out.news && out.notice.None?
  {
    var live := Normalized(fetched.entries, parse);
    var saved := SaveAll(rows, live, args.source);
    SavedItemIsRetrievable(rows, live, args.source, i);
    DateKeyRoundTrip(live[i].date.value.date);
  }

  /** With a date and nothing cached for it, the run shows an empty list with the
      "not found" notice instead of failing. */
  lemma NotFoundIsNotAnError(rows: seq<Row>, args: Args, fetched: FetchOutcome, parse: string -> Option<DateTime>)
    requires Saveable(fetched, parse)
    requires SelectLimit(args.limit).Success? && fetched.Feed? && fetched.entries != []
    requires Truthy(args.date) && CheckDate(args.date.value).Success?
    requires forall x :: x in SaveAll(rows, Normalized(fetched.entries, parse), args.source) ==> x.date != args.date.value
    ensures Pipeline(rows, args, fetched, parse).0 == Shown([], Some(NotFoundNotice(args.date.value)))
  {
    RetrieveEmpty(SaveAll(rows, Normalized(fetched.entries, parse), args.source), args.date.value, None);
  }

  // ---------------------------------------------------------------- the date branch as written

  /** As written, the date branch never reaches the cache: whatever the table and the date,
      it crashes, where the intended call returns news, an empty list or the date exit. */
  lemma DateBranchAsWrittenCrashes(saved: seq<Row>, date: string)
    ensures CachePathAsWritten(saved, date).Crash?
    ensures !CachePath(saved, date).Crash?
  {
  }

  /** A concrete run of the branch on a table holding one article of 19 September 2022. */
  lemma DateBranchCounterexample(fullDate: DateTime)
    ensures var saved := [Row("T", "L", fullDate, "20220919", "S", "I", "feedB")];
      CachePathAsWritten(saved, "20220919") == Crash(MissingUrlArgument)
      && CachePath(saved, "20220919") == Shown([Article("T", "L", Some(fullDate), "S", "I")], None)
  {
    ScopedToOtherFeedExample(fullDate);
    var saved := [Row("T", "L", fullDate, "20220919", "S", "I", "feedB")];
    assert CachedNews(saved, "20220919", None).value != [];
  }
}
