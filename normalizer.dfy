/** create_articles and get_news of main_reader/helper.py: raw feed entries become Articles,
    field by field, with "---" for whatever an entry lacks. */
module Normalizer {
  import opened Results
  import opened Calendar
  import opened Articles

  /** The placeholder stored for a missing field (helper.py:44). */
  const Sentinel := "---"

  const SourceUnavailable := "Source isn't available"
  const CheckLink := "Please, check the entered link is correct!"

  /** A value of a parsed feed entry: text, a nested dictionary (the source descriptor), or
      a list of dictionaries (media_content). */
  datatype FeedValue = Str(text: string) | Dict(fields: map<string, string>) | DictList(items: seq<map<string, string>>)

  /** A raw entry as feedparser yields it: a string-keyed dictionary. */
  type Entry = map<string, FeedValue>

  /** entry.get(key, '---') */
  function Get(e: Entry, key: string): FeedValue
  {
    if key in e then e[key] else Str(Sentinel)
  }

  /** The entries create_articles reads without raising: title, link and published are text;
      a source other than '---' is a dictionary with a title; a media_content other than
      '---' is a non-empty list whose first dictionary has a url. */
  predicate WellFormed(e: Entry)
  {
    && Get(e, "title").Str? && Get(e, "link").Str? && Get(e, "published").Str?
    && (Get(e, "source") == Str(Sentinel) || (Get(e, "source").Dict? && "title" in Get(e, "source").fields))
    && (Get(e, "media_content") == Str(Sentinel)
        || (Get(e, "media_content").DictList? && |Get(e, "media_content").items| > 0
            && "url" in Get(e, "media_content").items[0]))
  }

  /** One loop iteration of create_articles (helper.py:48-62). */
  function Normalize(e: Entry, parse: string -> Option<DateTime>): (a: Article)
    requires WellFormed(e)
    ensures a.title == (if "title" in e then e["title"].text else Sentinel)
    ensures a.link == (if "link" in e then e["link"].text else Sentinel)
    ensures a.date == parse(if "published" in e then e["published"].text else Sentinel)
    ensures a.source == (if "source" in e && e["source"] != Str(Sentinel) then e["source"].fields["title"] else Sentinel)
    ensures a.image == (if "media_content" in e && e["media_content"] != Str(Sentinel)
                        then e["media_content"].items[0]["url"] else Sentinel)
  {
    var source := Get(e, "source");
    var media := Get(e, "media_content");
    var sourceTitle := if source != Str(Sentinel) then source.fields["title"] else Sentinel;
    var image := if media != Str(Sentinel) then media.items[0]["url"] else Sentinel;
    NewArticle(Get(e, "title").text, Get(e, "link").text, Get(e, "published").text, sourceTitle, image, parse)
  }

  predicate AllWellFormed(entries: seq<Entry>)
  {
    forall i :: 0 <= i < |entries| ==> WellFormed(entries[i])
  }

  /** What create_articles returns: article i is built from entry i. */
  function Normalized(entries: seq<Entry>, parse: string -> Option<DateTime>): (r: seq<Article>)
    requires AllWellFormed(entries)
    ensures |r| == |entries|
    ensures forall i :: 0 <= i < |entries| ==> r[i] == Normalize(entries[i], parse)
  {
    seq(|entries|, i requires 0 <= i < |entries| => Normalize(entries[i], parse))
  }

  /** create_articles (helper.py:42-65): the append loop over the entries. */
  method CreateArticles(entries: seq<Entry>, parse: string -> Option<DateTime>) returns (articles: seq<Article>)
    requires AllWellFormed(entries)
    ensures articles == Normalized(entries, parse)
  {
    articles := [];
    for i := 0 to |entries|
      invariant |articles| == i
      invariant forall k :: 0 <= k < i ==> articles[k] == Normalize(entries[k], parse)
    {
      articles := articles + [Normalize(entries[i], parse)];
    }
  }

  /** An entry that has none of the five fields becomes an Article of placeholders. */
  lemma EmptyEntryGivesSentinels(parse: string -> Option<DateTime>)
    ensures WellFormed(map[])
    ensures Normalize(map[], parse) == Article(Sentinel, Sentinel, parse(Sentinel), Sentinel, Sentinel)
  {
  }

  lemma NormalizeExample(parse: string -> Option<DateTime>)
    ensures var e: Entry := map["title" := Str("T"), "link" := Str("L"), "published" := Str("2022-09-18T17:11:56Z"),
                                "source" := Dict(map["title" := "S"]), "media_content" := DictList([map["url" := "I"]])];
      WellFormed(e) && Normalize(e, parse) == Article("T", "L", parse("2022-09-18T17:11:56Z"), "S", "I")
  {
  }

  /** What feedparser.parse produced for the link: a transport error (URLError), or the
      parsed entries. */
  datatype FetchOutcome = TransportError | Feed(entries: seq<Entry>)

  predicate FetchReadable(f: FetchOutcome)
  {
    f.Feed? ==> AllWellFormed(f.entries)
  }

  /** get_news (helper.py:68-80). */
  function GetNews(f: FetchOutcome, parse: string -> Option<DateTime>): (r: Result<seq<Article>, string>)
    requires FetchReadable(f)
    ensures f.TransportError? ==> r == Failure(SourceUnavailable)
    ensures f.Feed? ==> (r == Failure(CheckLink) <==> f.entries == [])
    ensures r.Success? ==> f.Feed? && |r.value| == |f.entries| > 0
    ensures r.Success? ==> r.value == Normalized(f.entries, parse)
    ensures r.Success? ==> forall i :: 0 <= i < |r.value| ==> r.value[i] == Normalize(f.entries[i], parse)
    ensures f.Feed? && f.entries != [] ==> r.Success?
  {
    match f
    case TransportError => Failure(SourceUnavailable)
    case Feed(entries) =>
      var articles := Normalized(entries, parse);
      if |articles| == 0 then Failure(CheckLink) else Success(articles)
  }
}
