/** The news cache of main_reader/helper.py (init_database, save_news, get_cashed_news):
    one table whose rows are unique by link, written by INSERT OR REPLACE and read by an
    exact match on the date key, optionally narrowed to the feed the row came from. */
module CacheStore {
  import opened Results
  import opened Calendar
  import opened Validators
  import opened Articles

  /** A row of table news (helper.py:108-109): title, link (UNIQUE), full_date, date (the
      YYYYMMDD key), source, image and url (the feed it was fetched from). */
  datatype Row = Row(title: string, link: string, fullDate: DateTime, date: string,
                     source: string, image: string, url: string)

  /** The UNIQUE constraint on link. */
  predicate UniqueLinks(rows: seq<Row>)
  {
    forall i, j :: 0 <= i < j < |rows| ==> rows[i].link != rows[j].link
  }

  /** An article save_news can write: strftime needs its parsed date. */
  predicate Storable(a: Article)
  {
    a.date.Some? && ValidDate(a.date.value.date)
  }

  predicate AllStorable(items: seq<Article>)
  {
    forall i :: 0 <= i < |items| ==> Storable(items[i])
  }

  /** The values save_news binds for one item (helper.py:118-120). */
  function RowOf(a: Article, url: string): (r: Row)
    requires Storable(a)
    ensures r.link == a.link && r.url == url && r.fullDate == a.date.value
    ensures r.date == DateKey(a.date.value.date) && |r.date| == 8
  {
    Row(a.title, a.link, a.date.value, DateKey(a.date.value.date), a.source, a.image, url)
  }

  /** The table without its row for link, the other rows in their order. */
  function WithoutLink(rows: seq<Row>, link: string): (r: seq<Row>)
    ensures forall x :: x in r <==> x in rows && x.link != link
    decreases |rows|
  {
    if rows == [] then []
    else if rows[0].link == link then WithoutLink(rows[1..], link)
    else [rows[0]] + WithoutLink(rows[1..], link)
  }

  /** INSERT OR REPLACE of one row: SQLite deletes the row that clashes on link and inserts
      the new one after the others. */
  function Upsert(rows: seq<Row>, row: Row): (r: seq<Row>)
    ensures |r| > 0 && r[|r| - 1] == row
    ensures forall x :: x in r <==> x == row || (x in rows && x.link != row.link)
  {
    WithoutLink(rows, row.link) + [row]
  }

  /** The table after the upsert loop of save_news (helper.py:117-120), item by item. */
  function SaveAll(rows: seq<Row>, items: seq<Article>, url: string): (r: seq<Row>)
    requires AllStorable(items)
    ensures forall x :: x in r ==> x in rows || (x.url == url && x.link in Links(items))
    decreases |items|
  {
    if items == [] then rows
    else Upsert(SaveAll(rows, items[..|items| - 1], url), RowOf(items[|items| - 1], url))
  }

  /** Saving one more item of the batch is one more upsert. */
  lemma SaveAllSnoc(rows: seq<Row>, items: seq<Article>, url: string, i: int)
    requires AllStorable(items) && 0 <= i < |items|
    ensures SaveAll(rows, items[..i + 1], url) == Upsert(SaveAll(rows, items[..i], url), RowOf(items[i], url))
  {
    assert items[..i + 1][..i] == items[..i];
  }

  /** The links of a batch of items. */
  function Links(items: seq<Article>): set<string>
    decreases |items|
  {
    if items == [] then {} else Links(items[..|items| - 1]) + {items[|items| - 1].link}
  }

  /** The item of the batch that carries link and comes last, if any. */
  function LastWithLink(items: seq<Article>, link: string): (r: Option<Article>)
    ensures r.Some? ==> r.value in items && r.value.link == link
    decreases |items|
  {
    if items == [] then None
    else if items[|items| - 1].link == link then Some(items[|items| - 1])
    else LastWithLink(items[..|items| - 1], link)
  }

  /** The first row of the table with link, if any. */
  function Lookup(rows: seq<Row>, link: string): (r: Option<Row>)
    ensures r.Some? ==> r.value in rows && r.value.link == link
    ensures r.None? <==> forall x :: x in rows ==> x.link != link
    decreases |rows|
  {
    if rows == [] then None
    else if rows[0].link == link then Some(rows[0])
    else Lookup(rows[1..], link)
  }

  /** The rows whose link is not in links, in table order. */
  function Without(rows: seq<Row>, links: set<string>): (r: seq<Row>)
    ensures forall x :: x in r <==> x in rows && x.link !in links
    decreases |rows|
  {
    if rows == [] then []
    else (if rows[0].link in links then [] else [rows[0]]) + Without(rows[1..], links)
  }

  // ---------------------------------------------------------------- uniqueness

  lemma {:induction false} WithoutLinkKeepsUnique(rows: seq<Row>, link: string)
    requires UniqueLinks(rows)
    ensures UniqueLinks(WithoutLink(rows, link))
    decreases |rows|
  {
    if rows != [] {
      var rest := rows[1..];
      assert UniqueLinks(rest) by {
        forall i, j | 0 <= i < j < |rest| ensures rest[i].link != rest[j].link {
          assert rest[i] == rows[i + 1] && rest[j] == rows[j + 1];
        }
      }
      WithoutLinkKeepsUnique(rest, link);
      if rows[0].link != link {
        var tail := WithoutLink(rest, link);
        forall x | x in tail ensures x.link != rows[0].link {
          var k :| 0 <= k < |rest| && rest[k] == x;
          assert rows[k + 1] == x;
        }
        var r := [rows[0]] + tail;
        forall i, j | 0 <= i < j < |r| ensures r[i].link != r[j].link {
          if i == 0 {
            assert r[j] == tail[j - 1] && r[j] in tail;
          } else {
            assert r[i] == tail[i - 1] && r[j] == tail[j - 1];
          }
        }
      }
    }
  }

  /** An upsert keeps links unique. */
  lemma UpsertKeepsUnique(rows: seq<Row>, row: Row)
    requires UniqueLinks(rows)
    ensures UniqueLinks(Upsert(rows, row))
  {
    WithoutLinkKeepsUnique(rows, row.link);
    var w := WithoutLink(rows, row.link);
    var r := w + [row];
    forall i, j | 0 <= i < j < |r| ensures r[i].link != r[j].link {
      if j == |w| {
        assert r[i] == w[i] && r[i] in w;
      } else {
        assert r[i] == w[i] && r[j] == w[j];
      }
    }
  }

  /** save_news keeps links unique, whatever the batch holds, duplicates included. */
  lemma {:induction false} SaveAllKeepsUnique(rows: seq<Row>, items: seq<Article>, url: string)
    requires UniqueLinks(rows) && AllStorable(items)
    ensures UniqueLinks(SaveAll(rows, items, url))
    decreases |items|
  {
    if items != [] {
      SaveAllKeepsUnique(rows, items[..|items| - 1], url);
      UpsertKeepsUnique(SaveAll(rows, items[..|items| - 1], url), RowOf(items[|items| - 1], url));
    }
  }

  // ---------------------------------------------------------------- last write wins

  lemma {:induction false} LookupAppend(a: seq<Row>, b: seq<Row>, link: string)
    ensures Lookup(a + b, link) == if Lookup(a, link).Some? then Lookup(a, link) else Lookup(b, link)
    decreases |a|
  {
    if a == [] {
      assert a + b == b;
    } else {
      assert (a + b)[1..] == a[1..] + b;
      LookupAppend(a[1..], b, link);
    }
  }

  lemma {:induction false} LookupWithoutLink(rows: seq<Row>, gone: string, link: string)
    ensures Lookup(WithoutLink(rows, gone), link) == if link == gone then None else Lookup(rows, link)
    decreases |rows|
  {
    if rows != [] {
      LookupWithoutLink(rows[1..], gone, link);
      if rows[0].link != gone {
        LookupAppend([rows[0]], WithoutLink(rows[1..], gone), link);
      }
    }
  }

  lemma LookupUpsert(rows: seq<Row>, row: Row, link: string)
    ensures Lookup(Upsert(rows, row), link) == if link == row.link then Some(row) else Lookup(rows, link)
  {
    LookupAppend(WithoutLink(rows, row.link), [row], link);
    LookupWithoutLink(rows, row.link, link);
  }

  /** After save_news, the row for a link of the batch holds the last item with that link,
      stamped with url and the date key of that item's date; any other link keeps its row,
      or its absence. */
  lemma {:induction false} SaveAllLastWriteWins(rows: seq<Row>, items: seq<Article>, url: string, link: string)
    requires AllStorable(items)
    ensures var found := LastWithLink(items, link);
      Lookup(SaveAll(rows, items, url), link) == if found.Some? then Some(RowOf(found.value, url)) else Lookup(rows, link)
    decreases |items|
  {
    if items != [] {
      var init, last := items[..|items| - 1], items[|items| - 1];
      var prev, row := SaveAll(rows, init, url), RowOf(last, url);
      assert SaveAll(rows, items, url) == Upsert(prev, row);
      assert LastWithLink(items, link) == if last.link == link then Some(last) else LastWithLink(init, link);
      SaveAllLastWriteWins(rows, init, url, link);
      LookupUpsert(prev, row, link);
    }
  }

  lemma {:induction false} LastWithLinkFound(items: seq<Article>, link: string)
    ensures LastWithLink(items, link).Some? <==> link in Links(items)
    decreases |items|
  {
    if items != [] {
      LastWithLinkFound(items[..|items| - 1], link);
    }
  }

  lemma {:induction false} LastWithLinkAt(items: seq<Article>, i: int)
    requires 0 <= i < |items|
    requires forall j :: i < j < |items| ==> items[j].link != items[i].link
    ensures LastWithLink(items, items[i].link) == Some(items[i])
    decreases |items|
  {
    if i < |items| - 1 {
      var init := items[..|items| - 1];
      assert init[i] == items[i];
      LastWithLinkAt(init, i);
    }
  }

  // ---------------------------------------------------------------- untouched rows

  lemma {:induction false} WithoutAppend(a: seq<Row>, b: seq<Row>, links: set<string>)
    ensures Without(a + b, links) == Without(a, links) + Without(b, links)
    decreases |a|
  {
    if a == [] {
      assert a + b == b;
    } else {
      assert (a + b)[1..] == a[1..] + b;
      WithoutAppend(a[1..], b, links);
    }
  }

  lemma {:induction false} WithoutAfterWithoutLink(rows: seq<Row>, link: string, links: set<string>)
    requires link in links
    ensures Without(WithoutLink(rows, link), links) == Without(rows, links)
    decreases |rows|
  {
    if rows != [] {
      WithoutAfterWithoutLink(rows[1..], link, links);
      if rows[0].link != link {
        WithoutAppend([rows[0]], WithoutLink(rows[1..], link), links);
      }
    }
  }

  /** save_news leaves every row whose link is not in the batch as it was, in its order. */
  lemma {:induction false} SaveAllKeepsOthers(rows: seq<Row>, items: seq<Article>, url: string, links: set<string>)
    requires AllStorable(items) && Links(items) <= links
    ensures Without(SaveAll(rows, items, url), links) == Without(rows, links)
    decreases |items|
  {
    if items != [] {
      var init := items[..|items| - 1];
      var row := RowOf(items[|items| - 1], url);
      var before := SaveAll(rows, init, url);
      SaveAllKeepsOthers(rows, init, url, links);
      WithoutAppend(WithoutLink(before, row.link), [row], links);
      WithoutAfterWithoutLink(before, row.link, links);
      assert Without([row], links) == [];
    }
  }

  /** Every row after save_news either was there before with a link outside the batch, or
      is the row of the last item of the batch with its link. */
  lemma SaveAllRows(rows: seq<Row>, items: seq<Article>, url: string, row: Row)
    requires UniqueLinks(rows) && AllStorable(items)
    ensures var found := LastWithLink(items, row.link);
      row in SaveAll(rows, items, url) <==>
        if found.Some? then row == RowOf(found.value, url) else row in rows
  {
    var saved := SaveAll(rows, items, url);
    SaveAllKeepsUnique(rows, items, url);
    SaveAllLastWriteWins(rows, items, url, row.link);
    LookupUnique(saved, row);
    LookupUnique(rows, row);
  }

  lemma LookupUnique(rows: seq<Row>, row: Row)
    requires UniqueLinks(rows)
    ensures row in rows <==> Lookup(rows, row.link) == Some(row)
  {
    if row in rows {
      var k :| 0 <= k < |rows| && rows[k] == row;
      var found := Lookup(rows, row.link);
      var m :| 0 <= m < |rows| && rows[m] == found.value;
      assert m == k;
    }
  }

  // ---------------------------------------------------------------- reading

  /** The WHERE clause of get_cashed_news (helper.py:93-98): the date key, and the url
      only when url is truthy. */
  predicate Selected(row: Row, date: string, url: Option<string>)
    ensures Selected(row, date, url) ==> row.date == date
    ensures !Truthy(url) ==> (Selected(row, date, url) <==> row.date == date)
  {
    row.date == date && (Truthy(url) ==> row.url == url.value)
  }

  /** The rows the SELECT returns, in table order. */
  function Matching(rows: seq<Row>, date: string, url: Option<string>): (r: seq<Row>)
    ensures forall x :: x in r <==> x in rows && Selected(x, date, url)
    decreases |rows|
  {
    if rows == [] then []
    else (if Selected(rows[0], date, url) then [rows[0]] else []) + Matching(rows[1..], date, url)
  }

  /** Article(title, link, full_date, source, image) for a fetched record (helper.py:102). */
  function ArticleOf(row: Row): (a: Article)
    ensures a.link == row.link && a.date == Some(row.fullDate)
  {
    Article(row.title, row.link, Some(row.fullDate), row.source, row.image)
  }

  /** The articles get_cashed_news returns for the selected rows. */
  function Retrieve(rows: seq<Row>, date: string, url: Option<string>): (r: seq<Article>)
    ensures var m := Matching(rows, date, url);
      |r| == |m| && forall i :: 0 <= i < |m| ==> r[i] == ArticleOf(m[i])
  {
    var m := Matching(rows, date, url);
    seq(|m|, i requires 0 <= i < |m| => ArticleOf(m[i]))
  }

  /** get_cashed_news (helper.py:89-103) as a value: the date is checked first. */
  function CachedNews(rows: seq<Row>, date: string, url: Option<string>): (r: Result<seq<Article>, string>)
    ensures r.Failure? <==> CheckDate(date).Failure?
    ensures r.Failure? ==> r.error == DateFormatMessage
    ensures r.Success? ==> r.value == Retrieve(rows, date, url)
  {
    if CheckDate(date).Failure? then Failure(DateFormatMessage) else Success(Retrieve(rows, date, url))
  }

  /** A malformed date is refused whatever the table holds. */
  lemma CachedNewsIgnoresTableOnBadDate(rows: seq<Row>, other: seq<Row>, date: string, url: Option<string>)
    requires CheckDate(date).Failure?
    ensures CachedNews(rows, date, url) == CachedNews(other, date, url) == Failure(DateFormatMessage)
  {
  }

  /** An article comes back from the cache exactly when some stored row is selected and
      reads as that article. */
  lemma RetrieveMembers(rows: seq<Row>, date: string, url: Option<string>, a: Article)
    ensures a in Retrieve(rows, date, url) <==> exists x :: x in rows && Selected(x, date, url) && a == ArticleOf(x)
  {
    var m := Matching(rows, date, url);
    var r := Retrieve(rows, date, url);
    if a in r {
      var k :| 0 <= k < |r| && r[k] == a;
      assert m[k] in m;
    }
    if exists x :: x in rows && Selected(x, date, url) && a == ArticleOf(x) {
      var x :| x in rows && Selected(x, date, url) && a == ArticleOf(x);
      var k :| 0 <= k < |m| && m[k] == x;
      assert r[k] == a;
    }
  }

  /** No cached news for a date is an empty result, not an error. */
  lemma RetrieveEmpty(rows: seq<Row>, date: string, url: Option<string>)
    ensures Retrieve(rows, date, url) == [] <==> forall x :: x in rows ==> !Selected(x, date, url)
  {
    var m := Matching(rows, date, url);
    if m != [] {
      assert m[0] in m;
    }
  }

  /** A stored row reads back as the article it was written from, field for field. */
  lemma ArticleOfRowOf(a: Article, url: string)
    requires Storable(a)
    ensures ArticleOf(RowOf(a, url)) == a
  {
  }

  /** Round trip: after save_news, each item that is the last of the batch with its link
      comes back from get_cashed_news for its own date key, unscoped and scoped to the
      feed it was saved from. */
  lemma SavedItemIsRetrievable(rows: seq<Row>, items: seq<Article>, url: string, i: int)
    requires AllStorable(items) && 0 <= i < |items|
    requires forall j :: i < j < |items| ==> items[j].link != items[i].link
    ensures var saved, key := SaveAll(rows, items, url), DateKey(items[i].date.value.date);
      items[i] in Retrieve(saved, key, Some(url)) && items[i] in Retrieve(saved, key, None)
  {
    var saved, key := SaveAll(rows, items, url), DateKey(items[i].date.value.date);
    var row := RowOf(items[i], url);
    LastWithLinkAt(items, i);
    SaveAllLastWriteWins(rows, items, url, items[i].link);
    assert row in saved;
    ArticleOfRowOf(items[i], url);
    RetrieveMembers(saved, key, Some(url), items[i]);
    RetrieveMembers(saved, key, None, items[i]);
  }

  lemma ScopedToOtherFeedExample(fullDate: DateTime)
    ensures var rows := [Row("T", "L", fullDate, "20220919", "S", "I", "feedB")];
      CachedNews(rows, "20220919", Some("feedA")) == Success([])
      && CachedNews(rows, "20220919", None) == Success([Article("T", "L", Some(fullDate), "S", "I")])
  {
    CheckDateAcceptsExample();
    var rows := [Row("T", "L", fullDate, "20220919", "S", "I", "feedB")];
    assert rows[1..] == [];
    assert Matching(rows, "20220919", Some("feedA")) == [];
    assert Matching(rows, "20220919", None) == [rows[0]];
    assert Retrieve(rows, "20220919", None) == [ArticleOf(rows[0])];
  }

  // ---------------------------------------------------------------- the table

  /** The database: whether table news exists, and its rows in storage order. */
  class NewsDb {
    var created: bool
    var rows: seq<Row>

    ghost predicate Valid()
      reads this
    {
      (!created ==> rows == []) && UniqueLinks(rows)
    }

    /** A connection to a database file, with or without the table. */
    constructor (tableExists: bool, stored: seq<Row>)
      requires (!tableExists ==> stored == []) && UniqueLinks(stored)
      ensures Valid() && created == tableExists && rows == stored
    {
      created := tableExists;
      rows := stored;
    }

    /** init_database (helper.py:106-111): CREATE TABLE IF NOT EXISTS. */
    method InitDatabase()
      requires Valid()
      modifies this
      ensures Valid() && created && rows == old(rows)
    {
      if !created {
        created := true;
        rows := [];
      }
    }

    /** save_news (helper.py:114-121). */
    method SaveNews(items: seq<Article>, url: string)
      requires Valid() && created && AllStorable(items)
      modifies this
      ensures Valid() && created
      ensures rows == SaveAll(old(rows), items, url)
    {
      for i := 0 to |items|
        invariant created && UniqueLinks(rows)
        invariant rows == SaveAll(old(rows), items[..i], url)
      {
        var item := items[i];
        var newDate := DateKey(item.date.value.date);
        var row := Row(item.title, item.link, item.date.value, newDate, item.source, item.image, url);
        assert row == RowOf(items[i], url);
        UpsertKeepsUnique(rows, row);
        SaveAllSnoc(old(rows), items, url, i);
        rows := Upsert(rows, row);
      }
      assert items[..|items|] == items;
    }

    /** get_cashed_news (helper.py:89-103). */
    method GetCashedNews(date: string, url: Option<string>) returns (r: Result<seq<Article>, string>)
      requires Valid() && created
      ensures r == CachedNews(rows, date, url)
    {
      var checked := CheckDate(date);
      if checked.Failure? {
        return Failure(checked.error);
      }
      var records := Matching(rows, date, url);
      var articles := [];
      for i := 0 to |records|
        invariant |articles| == i
        invariant forall k :: 0 <= k < i ==> articles[k] == ArticleOf(records[k])
      {
        articles := articles + [ArticleOf(records[i])];
      }
      assert articles == Retrieve(rows, date, url);
      return Success(articles);
    }
  }
}
