/** The Article record of main_reader/article.py: five fields assigned once, identity by
    link, and two renderings (text and dictionary) that share one date format. */
module Articles {
  import opened Results
  import opened Strings
  import opened Calendar

  /** date is what dateparser.parse returned for the article's date text: None when it
      could not read it. */
  datatype Article = Article(title: string, link: string, date: Option<DateTime>, source: string, image: string)

  /** Article.__init__ (article.py:7-12); the free-form date parser is a parameter. */
  function NewArticle(title: string, link: string, dateText: string, source: string, image: string,
                      parse: string -> Option<DateTime>): (a: Article)
    ensures a.title == title && a.link == link && a.source == source && a.image == image
    ensures a.date == parse(dateText)
  {
    Article(title, link, parse(dateText), source, image)
  }

  /** The other operand of ==, which Python does not restrict to Articles. */
  datatype Operand = AnArticle(article: Article) | NotAnArticle(typeName: string)

  /** Article.__eq__ (article.py:18-22): only another Article can be equal. */
  predicate Equals(a: Article, other: Operand)
    ensures Equals(a, other) ==> other.AnArticle?
  {
    match other
    case AnArticle(b) => a.link == b.link
    case NotAnArticle(_) => false
  }

  /** Two articles are equal exactly when their links are, whatever their other fields. */
  lemma EqualsIffSameLink(a: Article, b: Article, a': Article, b': Article)
    requires a'.link == a.link && b'.link == b.link
    ensures Equals(a, AnArticle(b)) <==> a.link == b.link
    ensures Equals(a, AnArticle(b)) == Equals(a', AnArticle(b'))
  {
  }

  lemma NeverEqualsNonArticle(a: Article, name: string)
    ensures !Equals(a, NotAnArticle(name))
  {
  }

  /** Equality of articles is an equivalence relation. */
  lemma EqualsIsEquivalence(a: Article, b: Article, c: Article)
    ensures Equals(a, AnArticle(a))
    ensures Equals(a, AnArticle(b)) ==> Equals(b, AnArticle(a))
    ensures Equals(a, AnArticle(b)) && Equals(b, AnArticle(c)) ==> Equals(a, AnArticle(c))
  {
  }

  /** date_str("%a, %d %B, %Y") (article.py:14-16), the only format the reader passes it;
      strftime needs a parsed date. */
  function DateStr(a: Article): (s: string)
    requires a.date.Some? && ValidDate(a.date.value.date)
    ensures OneLine(s)
    ensures |s| > 3 && s[..3] == WeekdayAbbreviations[Weekday(a.date.value.date)]
  {
    LongDateShape(a.date.value.date);
    LongDate(a.date.value.date)
  }

  /** Article.__str__ (article.py:24-30): it opens with the title line and ends with a
      line break. */
  function ToText(a: Article): (t: string)
    requires a.date.Some? && ValidDate(a.date.value.date)
    ensures |t| > 7 && t[..7] == "Title: " && t[|t| - 1] == '\n'
  {
    "Title: " + a.title + "\n"
      + "Link: " + a.link + "\n"
      + "Date: " + DateStr(a) + "\n"
      + "Source: " + a.source + "\n"
      + "Image: " + a.image + "\n"
  }

  /** Article.to_dict (article.py:32-41). */
  function ToDict(a: Article): (d: map<string, string>)
    requires a.date.Some? && ValidDate(a.date.value.date)
    ensures d.Keys == {"Title", "Link", "Date", "Source", "Image"}
    ensures d["Title"] == a.title && d["Link"] == a.link && d["Date"] == DateStr(a)
    ensures d["Source"] == a.source && d["Image"] == a.image
  {
    map["Title" := a.title, "Link" := a.link, "Date" := DateStr(a), "Source" := a.source, "Image" := a.image]
  }

  predicate OneLine(s: string)
  {
    '\n' !in s
  }

  /** The text form is the five labelled lines, each ending in a line break, and they carry
      the same values as the dictionary form under the same names. */
  lemma ToTextMatchesDict(a: Article)
    requires a.date.Some? && ValidDate(a.date.value.date)
    ensures var d := ToDict(a);
      ToText(a) == "Title: " + d["Title"] + "\n" + "Link: " + d["Link"] + "\n" + "Date: " + d["Date"] + "\n"
        + "Source: " + d["Source"] + "\n" + "Image: " + d["Image"] + "\n"
  {
  }

  /** Appending "tag value" and a line break adds exactly one line break when neither
      the tag nor the value holds one. */
  lemma {:induction false} LineCount(prefix: string, tag: string, value: string)
    requires OneLine(tag) && OneLine(value)
    ensures Count(prefix + tag + value + "\n", '\n') == Count(prefix, '\n') + 1
  {
    CountAbsent(tag, '\n');
    CountAbsent(value, '\n');
    CountAppend(prefix, tag, '\n');
    CountAppend(prefix + tag, value, '\n');
    CountAppend(prefix + tag + value, "\n", '\n');
  }

  /** When no field holds a line break, the text form is exactly five lines, the last of
      them ending the text. */
  lemma {:induction false} ToTextHasFiveLines(a: Article)
    requires a.date.Some? && ValidDate(a.date.value.date)
    requires OneLine(a.title) && OneLine(a.link) && OneLine(a.source) && OneLine(a.image)
    ensures Count(ToText(a), '\n') == 5
  {
    var date := DateStr(a);
    assert OneLine(date);
    var s1 := "Title: " + a.title + "\n";
    var s2 := s1 + "Link: " + a.link + "\n";
    var s3 := s2 + "Date: " + date + "\n";
    var s4 := s3 + "Source: " + a.source + "\n";
    var s5 := s4 + "Image: " + a.image + "\n";
    assert ToText(a) == s5;
    assert "" + "Title: " == "Title: ";
    LineCount("", "Title: ", a.title);
    LineCount(s1, "Link: ", a.link);
    LineCount(s2, "Date: ", date);
    LineCount(s3, "Source: ", a.source);
    LineCount(s4, "Image: ", a.image);
  }

  lemma ToDictExample(parse: string -> Option<DateTime>)
    requires parse("2022-09-05T22:27:25Z") == Some(DateTime(Date(2022, 9, 5), 22, 27, 25))
    ensures var a := NewArticle("test_title", "test_link", "2022-09-05T22:27:25Z", "test_source", "test_image", parse);
      ToDict(a) == map["Title" := "test_title", "Link" := "test_link", "Date" := "Mon, 05 September, 2022",
                       "Source" := "test_source", "Image" := "test_image"]
  {
    LongDateExamples();
  }
}
