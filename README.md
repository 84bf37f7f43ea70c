# rss_reader — a Dafny model of the reader's core

rss_reader is a command-line RSS reader. It fetches a feed and turns each entry into an
`Article` record. Any field an entry lacks is filled with the placeholder `---`. Every
article is written to a local SQLite cache keyed by the article's link. The `--date
YYYYMMDD` option is meant to show the cached news of that day instead of the live feed.
As written, though, it always raises TypeError after the save, because the cache is called
with one argument too few; see "## Findings". `--limit N` keeps the first N articles.

This project models that core in Dafny and proves what it promises:

- the two argument validators, `check_limit` and `check_date`;
- the normalisation of feed entries into articles;
- the `Article` record: equality by link, its text form and its dictionary form;
- the cache: creating the table, saving by `INSERT OR REPLACE`, and reading by date key and feed;
- the control flow of `main`.

Modules, one per file:

| file | module | models |
|---|---|---|
| results.dfy | `Results` | `Option`, `Result`, Python truthiness of an optional string |
| strings.dfy | `Strings` | decimal digits, zero-padded numbers, counting a character |
| calendar.dfy | `Calendar` | Gregorian dates as `datetime` accepts them, the weekday, `strftime('%Y%m%d')` and `strftime('%a, %d %B, %Y')` |
| validators.dfy | `Validators` | `check_limit` (Python `int()`), `check_date` (`strptime(date, '%Y%m%d')`) |
| articles.dfy | `Articles` | `Article.__init__`, `__eq__`, `date_str`, `__str__`, `to_dict` |
| normalizer.dfy | `Normalizer` | `create_articles` (a loop method), `get_news` |
| cache_store.dfy | `CacheStore` | table `news` as a sequence of rows; class `NewsDb` with `init_database`, `save_news`, `get_cashed_news` |
| reader.dfy | `Reader` | `main`: limit selection, fetch, save, the date branch, truncation |

The following become parameters or inputs:

- Fetching: `feedparser.parse` becomes a `FetchOutcome` input, either a transport error or the parsed entries.
- Date parsing: `dateparser.parse` becomes a parameter `parse: string -> Option<DateTime>`.
- The database: the SQLite connection becomes a `NewsDb` object whose rows are a `seq<Row>` in storage order.

The Python exceptions the core does not catch are preconditions of the members that would raise them:

- a `KeyError`, `TypeError` or `IndexError` on a malformed entry;
- `strftime` on a date that `dateparser` could not read;
- a query on a table that does not exist.

## Model

| member | source | states |
|---|---|---|
| Strings.DecimalRoundTrip | main_reader/helper.py:23 | reading the decimal digits of n back gives n |
| Strings.TwoDigits | main_reader/helper.py:118 | `%m`/`%d`: exactly two digits that spell n |
| Strings.FourDigits | main_reader/helper.py:118 | `%Y`: exactly four digits that spell n |
| Calendar.Ordinal | main_reader/article.py:16 | the day number of a date (`toordinal`) is at least 1, and 0001-01-01 is day 1; `NextDayOrdinal` gives the step from day to day |
| Calendar.DaysInMonth | main_reader/helper.py:36 | 28 to 31 days; 29 only in a leap February, 28 only in a common February, 30 exactly in April, June, September and November |
| Calendar.NextDay | main_reader/article.py:16 | the day after a valid date other than 9999-12-31 is again a valid date |
| Calendar.DaysBeforeNextYear | main_reader/article.py:16 | the closed-form count of days before a year grows by that year's length, 365 or 366 |
| Calendar.NextDayOrdinal | main_reader/article.py:16 | consecutive calendar days have consecutive day numbers (`toordinal`) |
| Calendar.WeekdayOfNextDay | main_reader/article.py:16 | the weekday behind `%a` advances by one each day, Sunday wrapping to Monday |
| Calendar.Weekday | main_reader/article.py:16 | the weekday is one of the seven, Monday being 0 |
| Calendar.DateKey | main_reader/helper.py:118 | `strftime('%Y%m%d')` is eight digits whose YYYY, MM and DD slices spell the year, month and day |
| Calendar.LongDate | main_reader/article.py:16 | `strftime('%a, %d %B, %Y')` is 14 characters plus the month name |
| Calendar.LongDateShape | main_reader/article.py:14-16 | the display date is the weekday abbreviation, ", ", the zero-padded day, a space, the full month name, ", " and the four-digit year, and holds no line break |
| Calendar.WeekdayExample | tests/test_article.py:5-6 | 5 September 2022 is a Monday |
| Calendar.LongDateExamples | tests/test_article.py:5-6 | 2022-09-05 is displayed as "Mon, 05 September, 2022" |
| Validators.ParseInt | main_reader/helper.py:23 | `int()` succeeds exactly on one or more digits, optionally after one sign |
| Validators.CheckLimit | main_reader/helper.py:19-30 | accepts exactly the integers of at least 1 and returns that value; otherwise exactly one of the two messages, "a number" when `int()` fails and "greater than 0" when the number is below 1 |
| Validators.CheckLimitAcceptsPositive | main_reader/helper.py:19-30 | every positive integer, written with or without "+", is accepted as itself |
| Validators.CheckLimitRejectsNonPositive | main_reader/helper.py:27-28 | 0 and every negative integer are refused with the "greater than 0" message |
| Validators.CheckLimitExamples | tests/test_helper.py:92-118 | "2" gives 2; "one" and "" are not numbers; "-1" and "0" are not positive |
| Validators.MonthDay | main_reader/helper.py:36 | a month/day split of the text after the year gives a month from 1 to 12 and a day from 1 to 31 |
| Validators.ParseYmd | main_reader/helper.py:36 | what `strptime` accepts has 6 to 8 characters, a four-digit year that is its first four characters, and is a real calendar date |
| Validators.CheckDate | main_reader/helper.py:33-39 | returns true exactly when `strptime` reads a date; otherwise the "YYYYMMDD" message |
| Validators.TwoDigitTokens | main_reader/helper.py:36 | a two-digit month token spells 01 to 12, a two-digit day token 01 to 31, and each is worth the number it spells |
| Validators.DateKeyRoundTrip | main_reader/helper.py:118 | the stored date key of any date passes `check_date` and parses back to that same date |
| Validators.EightDigitDates | main_reader/helper.py:33-39 | on eight-digit text, `check_date` accepts exactly the YYYY/MM/DD fields that name a real date |
| Validators.CheckDateAcceptsExample | tests/test_helper.py:219-221 | "20220919" is accepted |
| Validators.CheckDateRejectsExamples | tests/test_helper.py:223-230 | "55555555", "2022-09-19" and the non-date "20230229" are refused with the format message |
| Validators.ShortMonthExample | main_reader/helper.py:36 | `strptime` also reads a one-digit month: "2022919" is 19 September 2022 |
| Articles.NewArticle | main_reader/article.py:7-12 | fields are kept as given; the date is what the date parser returns for the date text |
| Articles.Equals | main_reader/article.py:18-22 | only an Article can be equal to an Article; `EqualsIffSameLink` gives the link test |
| Articles.EqualsIffSameLink | main_reader/article.py:18-21 | two articles are equal exactly when their links are, whatever their other fields |
| Articles.NeverEqualsNonArticle | main_reader/article.py:20-22 | an article never equals a value of another type |
| Articles.EqualsIsEquivalence | main_reader/article.py:18-22 | equality is reflexive, symmetric and transitive |
| Articles.DateStr | main_reader/article.py:14-16 | the display date of an article is one line and opens with its weekday abbreviation |
| Articles.ToText | main_reader/article.py:24-30 | the text form opens with "Title: " and ends with a line break |
| Articles.ToDict | main_reader/article.py:32-41 | the dictionary has exactly the keys Title, Link, Date, Source and Image, holding the title, link, display date, source and image |
| Articles.ToTextMatchesDict | main_reader/article.py:24-41 | the text form is the five labelled lines carrying the dictionary's values under the same names |
| Articles.ToTextHasFiveLines | main_reader/article.py:24-30 | when no field holds a line break, the text form has exactly five line breaks |
| Articles.ToDictExample | tests/test_article.py:25-32 | the test article's dictionary, with the date "Mon, 05 September, 2022" |
| Normalizer.Normalize | main_reader/helper.py:48-62 | each field is the entry's value, or "---" when the entry lacks it; source is the source's title, image is the first media url |
| Normalizer.Normalized | main_reader/helper.py:42-65 | one article per entry, in entry order; in particular no entries give no articles, as test_empty_news expects |
| Normalizer.CreateArticles | main_reader/helper.py:42-65 | the append loop returns exactly the normalised entries |
| Normalizer.EmptyEntryGivesSentinels | main_reader/helper.py:44-62 | an entry without the five fields is readable and becomes placeholders throughout |
| Normalizer.NormalizeExample | tests/test_helper.py:27-44 | an entry with all fields becomes the article of its title, link, published date, source title and first media url |
| Normalizer.GetNews | main_reader/helper.py:68-80 | a transport error gives "Source isn't available"; an empty feed gives the check-link message, and only an empty feed does; otherwise exactly the normalised entries, one article per entry |
| CacheStore.RowOf | main_reader/helper.py:118-120 | a saved row carries the item's link and parsed date, the feed url and the date key of that date |
| CacheStore.WithoutLink | main_reader/helper.py:108 | removing the row of a link keeps every other row and no row of that link |
| CacheStore.Upsert | main_reader/helper.py:119 | `INSERT OR REPLACE`: the new row comes last, and the table holds it plus exactly the old rows of other links |
| CacheStore.SaveAll | main_reader/helper.py:117-120 | every row after a save was there before, or carries the feed url and a link of the batch |
| CacheStore.Lookup | main_reader/helper.py:108 | the first row of a link is a row of the table; there is none exactly when no row carries the link |
| CacheStore.LastWithLink | main_reader/helper.py:117-120 | the last item of a batch with a link belongs to the batch and carries that link |
| CacheStore.Without | main_reader/helper.py:117-120 | the rows whose link is outside a set, and only those |
| CacheStore.WithoutLinkKeepsUnique | main_reader/helper.py:108 | removing a link's row keeps links unique |
| CacheStore.UpsertKeepsUnique | main_reader/helper.py:119 | `INSERT OR REPLACE` keeps the UNIQUE constraint on link |
| CacheStore.SaveAllKeepsUnique | main_reader/helper.py:114-121 | saving a batch keeps links unique |
| CacheStore.LookupAppend | main_reader/helper.py:108 | the first row of a link in a concatenation is found in the first part if it is there |
| CacheStore.LookupWithoutLink | main_reader/helper.py:119 | after the delete of `INSERT OR REPLACE`, its link has no row and other links are unaffected |
| CacheStore.LookupUpsert | main_reader/helper.py:119 | after one upsert, its link has the new row and other links keep theirs |
| CacheStore.SaveAllLastWriteWins | main_reader/helper.py:114-121 | after a save, a link of the batch holds the row of its last item in the batch; any other link keeps its row, or its absence |
| CacheStore.LastWithLinkFound | main_reader/helper.py:117-120 | a batch has an item with a link exactly when the link is among the batch's links |
| CacheStore.LastWithLinkAt | main_reader/helper.py:117-120 | an item that no later item shares its link with is the last item with that link |
| CacheStore.WithoutAppend | main_reader/helper.py:117-120 | filtering out a set of links distributes over concatenation |
| CacheStore.WithoutAfterWithoutLink | main_reader/helper.py:119 | deleting a row of a filtered-out link changes nothing among the other rows |
| CacheStore.SaveAllKeepsOthers | main_reader/helper.py:114-121 | rows whose links the batch does not carry survive a save unchanged and in order |
| CacheStore.SaveAllRows | main_reader/helper.py:114-121 | a row is in the saved table exactly when it is the row of the last batch item with its link, or, for links outside the batch, it was there before |
| CacheStore.LookupUnique | main_reader/helper.py:108 | with unique links, a row is in the table exactly when the lookup of its link returns it |
| CacheStore.Selected | main_reader/helper.py:93-98 | a selected row has the requested date key; without a url, that is the whole test |
| CacheStore.Matching | main_reader/helper.py:93-98 | the selected rows are exactly the table's rows with the date key and, when a url is given, that url |
| CacheStore.ArticleOf | main_reader/helper.py:101-102 | a fetched record becomes an article with the row's link and stored date |
| CacheStore.Retrieve | main_reader/helper.py:99-103 | one article per selected row, in table order |
| CacheStore.CachedNews | main_reader/helper.py:89-103 | fails with the date message exactly when `check_date` fails; otherwise the retrieved articles |
| CacheStore.CachedNewsIgnoresTableOnBadDate | main_reader/helper.py:91 | a malformed date is refused before the table is read, whatever it holds |
| CacheStore.RetrieveMembers | main_reader/helper.py:93-103 | an article is retrieved exactly when it is the article of some selected row |
| CacheStore.RetrieveEmpty | main_reader/helper.py:93-103 | nothing is retrieved exactly when no row is selected |
| CacheStore.ArticleOfRowOf | main_reader/helper.py:102 | an article saved and read back is the same article |
| CacheStore.SavedItemIsRetrievable | main_reader/helper.py:89-121 | an item saved last under its link is found by its date key, both with the feed url and without a url |
| CacheStore.ScopedToOtherFeedExample | tests/test_helper.py:148-171 | a row of feed B is not found for feed A, but is found when no url is given |
| CacheStore.NewsDb.constructor | main_reader/rss_reader.py:24 | a connection to a database file, with or without the table |
| CacheStore.NewsDb.InitDatabase | main_reader/helper.py:106-111 | afterwards the table exists and its rows are those it had (CREATE TABLE IF NOT EXISTS) |
| CacheStore.NewsDb.SaveNews | main_reader/helper.py:114-121 | the table becomes the upsert of each item in turn, and links stay unique |
| CacheStore.NewsDb.GetCashedNews | main_reader/helper.py:89-103 | returns the date message or the articles of the selected rows, as `CachedNews` |
| Reader.SelectLimit | main_reader/rss_reader.py:29-32 | no `--limit`, or an empty one, means 0; otherwise the limit is `check_limit`'s verdict, at least 1 when accepted |
| Reader.Truncate | main_reader/rss_reader.py:48-50 | a positive limit keeps the first `min(limit, n)` articles, a zero limit keeps all; the result is a prefix of the input |
| Reader.ApplyLimit | main_reader/rss_reader.py:48-50 | only a shown list is cut; the outcome kind and the notice are unchanged |
| Reader.CachePathAsWritten | main_reader/rss_reader.py:40-46 | the date branch as written always raises the uncaught TypeError |
| Reader.CachePath | main_reader/rss_reader.py:40-45 | the date exit for a malformed date; otherwise the cached news of the date over all feeds, with the "not found" notice exactly when there is none |
| Reader.ReadCache | main_reader/rss_reader.py:40-45 | reading the cache for the date over all feeds gives exactly the intended branch's outcome, `CachePath` of the table |
| Reader.Presented | main_reader/rss_reader.py:40-50 | after the save the result never crashes; it exits only with the date message when a date is given; without a date it is the live articles cut to the limit |
| Reader.Present | main_reader/rss_reader.py:40-50 | the date branch followed by the truncation: the live articles, or the cached news of the date, cut to the limit |
| Reader.Pipeline | main_reader/rss_reader.py:25-50 | a run with the intended date branch never crashes; every exit carries one of the five messages; the table changes only by saving the normalised feed under its url, after an accepted limit |
| Reader.Run | main_reader/rss_reader.py:25-50 | `main` step by step, with the intended date branch: the table is created, and the outcome and the final table are those of `Pipeline` |
| Reader.EarlyExitsLeaveTable | main_reader/rss_reader.py:29-39 | a bad limit exits with its message whatever the feed; an unreachable or empty feed exits with its message; either way the table is left as it was |
| Reader.LiveNewsSavedFirst | main_reader/rss_reader.py:38-39 | once the feed is read, its articles are saved under the feed url, whatever the date argument |
| Reader.PathsShareTheLimit | main_reader/rss_reader.py:38-50 | without a date the live articles are shown; with one, the cached news of the just-written table; both are cut to the same limit |
| Reader.FetchedArticleVisibleInCache | main_reader/rss_reader.py:38-45 | with no limit, a fetched article dated on the requested day and not superseded within the feed is among the cached news shown, with no "not found" notice |
| Reader.NotFoundIsNotAnError | main_reader/rss_reader.py:43-45 | a valid date with nothing cached shows an empty list with the "not found" notice |
| Reader.DateBranchAsWrittenCrashes | main_reader/rss_reader.py:40-46 | as written, the branch crashes for every table and date, where the intended call never does |
| Reader.DateBranchCounterexample | main_reader/rss_reader.py:43 | on a table with one row for 20220919, the branch as written crashes, while the intended call returns that row's article |

## Left out

- Network access and `feedparser`: a fetch is an input, either a transport error or the parsed entries.
- `dateparser`: free-form date parsing is the parameter `parse`, an uninterpreted function.
- SQLite internals: no transactions, commits or file paths; the `news.db` location on disk is not modelled.
- SQLite row order: the table is a sequence in storage order, and `SELECT` is assumed to return rows in that order.
- Stored `full_date`: a `datetime` bound into SQLite comes back as text, which `Article` re-parses. The model stores the `DateTime` itself, assuming the re-parse gives back the same date.
- Command-line parsing (`parce_command_line_arguments`), `--version`, `--json`, `--verbose`, logging, `make_json`, the HTML/PDF export (`add_article_html`, `save_news_html`, `save_news_pdf`), `check_directory_exists` and the print loops: these are output formatting and I/O.
- The top-level helper.py and setup.py are not part of this model.
- Uncaught Python exceptions are preconditions, not modelled outcomes: a malformed feed entry, an article whose date did not parse (strftime on None), and a query before the table exists.
- Normalizer.WellFormed: also requires title, link and published to be text. For published, `dateparser.parse` raises TypeError on anything else. For title and link, create_articles itself stores any value; a non-text value fails only later, when save_news binds it or `__str__` concatenates it. The model does not represent non-text titles or links.
- Reader.Run: `Run`, `Pipeline` and `Present` take the intended date branch, which reads the cache over all feeds (url None). `main` as written raises TypeError after the save on every non-empty `--date`. Only `Reader.CachePathAsWritten` models that call as written; see "## Findings".
- The `except ValueError` of the date branch is not modelled: the date check raises SystemExit, not ValueError, so that handler is never reached.
- Validators.ParseInt, Validators.CheckLimit: model `int()` on ASCII digits with an optional sign. They do not strip surrounding whitespace, accept underscores between digits or read non-ASCII Unicode digits, as Python's `int()` does. They also accept numerals of any length. Python 3.11 and later, and the 3.7-3.10 security releases, refuse more than 4300 digits (`sys.int_info.default_max_str_digits`) with ValueError, so check_limit would answer "should be a number" where the model accepts the number.
- ParseYmd: reads ASCII digits only; `strptime`'s `\d` would also match other Unicode decimal digits.
- DateKey: years below 1000 are padded to four digits; on some platforms `%Y` does not pad them.
- Calendar.LongDateShape: `%a` and `%B` are the C-locale names; other locales are not modelled.

## Findings

| source | as written | input that shows it | evidently intended | confidence | as-written member | corrected member |
|---|---|---|---|---|---|---|
| main_reader/rss_reader.py:43 | `get_cashed_news(args.date, connection)` passes two arguments to a function of three (`date, connection, url`), so every run with a non-empty `--date` raises TypeError. `except ValueError` does not catch it, and the cache is never read. | `--date 20220919` on any table, for example one holding a row dated 20220919 | the date branch reads the cache for the date across all feeds (`url` absent, as tests/test_helper.py:162-171 calls it) | high, not executed | Reader.CachePathAsWritten | Reader.CachePath |
