/** The pure parts of the news client: the look-back timeframe parser, the
    symbol normaliser, and the filter that turns the decoded news response
    into dated articles within the look-back window. */
module Tiingo {
  import opened Common
  import opened Text
  import opened Models

  /** The length in microseconds of one unit of a timeframe suffix
      (seconds, minutes, hours, days, weeks), or None for any other text. */
  function UnitMicros(unit: string): (r: Option<int>)
    ensures r.Some? ==> r.value >= MicrosPerSecond
  {
    if unit == "s" then Some(MicrosPerSecond)
    else if unit == "m" then Some(60 * MicrosPerSecond)
    else if unit == "h" then Some(3600 * MicrosPerSecond)
    else if unit == "d" then Some(MicrosPerDay)
    else if unit == "w" then Some(7 * MicrosPerDay)
    else None
  }

  /** `_parse_timeframe`, as a duration in microseconds: the trimmed,
      lower-cased text is a number of days when it is all digits, and
      otherwise its digits followed by the text after that many characters,
      which must be a unit; blank text, an unknown unit and a zero quantity
      with a unit are errors. */
  function ParseTimeframe(value: string): (r: Result<int>)
    ensures Strip(value) == [] ==> r.Err?
    ensures r.Ok? ==> r.value >= 0
  {
    ParseCleaned(Lower(Strip(value)))
  }

  /** The parser on text already trimmed and lower-cased. */
  function ParseCleaned(v: string): (r: Result<int>)
    ensures v == [] ==> r.Err?
    ensures r.Ok? ==> r.value >= 0
  {
    if v == [] then Err("Timeframe must be non-empty.")
    else if AllDigits(v) then Ok(ParseNat(v) * MicrosPerDay)
    else
      var number := DigitsOf(v);
      var unit := v[|number|..];
      if number == [] || UnitMicros(unit).None? then Err("Unsupported timeframe value: " + v)
      else
        var quantity := ParseNat(number);
        if quantity <= 0 then Err("Timeframe quantity must be positive.")
        else Ok(quantity * UnitMicros(unit).value)
  }

  /** Decimal digits and lower-case letters are already clean. */
  lemma CleanText(s: string)
    requires s != [] && forall i :: 0 <= i < |s| ==> IsDigit(s[i]) || 'a' <= s[i] <= 'z'
    ensures Lower(Strip(s)) == s
  {
    assert !IsSpace(s[0]) && !IsSpace(s[|s| - 1]);
    StripTrimmed(s);
  }

  /** A bare number is that many days. */
  lemma DaysRoundTrip(n: nat)
    ensures ParseTimeframe(NatToString(n)) == Ok(n * MicrosPerDay)
  {
    var s := NatToString(n);
    CleanText(s);
    ParseNatToString(n);
  }

  /** The decimal text of a quantity followed by a unit letter reads back as
      that many units, and is refused for a quantity of zero. */
  lemma UnitRoundTrip(n: nat, unit: char)
    requires UnitMicros([unit]).Some?
    ensures ParseTimeframe(NatToString(n) + [unit]) ==
              if n > 0 then Ok(n * UnitMicros([unit]).value) else Err("Timeframe quantity must be positive.")
  {
    var digits := NatToString(n);
    var s := digits + [unit];
    assert 'a' <= unit <= 'z';
    CleanText(s);
    assert !AllDigits(s) by { assert !IsDigit(s[|s| - 1]); }
    DigitsOfSnoc(digits, unit);
    DigitsOfAll(digits);
    assert DigitsOf(s) == digits;
    assert s[|digits|..] == [unit];
    ParseNatToString(n);
  }

  /** What the parser accepts with a unit is exactly digits followed by one
      unit letter: a non-digit anywhere before the end is refused. */
  lemma AcceptedShape(v: string)
    requires ParseCleaned(v).Ok? && !AllDigits(v)
    ensures |v| >= 2 && AllDigits(v[..|v| - 1]) && UnitMicros([v[|v| - 1]]).Some?
  {
    var number := DigitsOf(v);
    var unit := v[|number|..];
    assert UnitMicros(unit).Some?;
    assert |unit| == 1;
    assert unit == [v[|v| - 1]];
    var init := v[..|v| - 1];
    assert v == init + [v[|v| - 1]];
    DigitsOfSnoc(init, v[|v| - 1]);
    assert !IsDigit(v[|v| - 1]);
    DigitsOfLength(init);
  }

  /** `s[:-3]` when `s` ends in ".US", `s` otherwise. */
  function WithoutListing(s: string): (r: string)
    ensures EndsWith(s, ".US") ==> |r| == |s| - 3
    ensures !EndsWith(s, ".US") ==> r == s
    ensures |r| <= |s| && r == s[..|r|]
  {
    if EndsWith(s, ".US") then s[..|s| - 3] else s
  }

  /** `normalize_symbol`: trimmed and upper case, an error when blank, one
      trailing ".US" removed, and every "." replaced by "-". */
  function NormalizeSymbol(symbol: string): (r: Result<string>)
    ensures r.Err? <==> Strip(symbol) == []
    ensures r.Ok? ==> r.value == ReplaceChar(WithoutListing(Upper(Strip(symbol))), '.', '-')
  {
    var s := Upper(Strip(symbol));
    if s == [] then Err("Ticker symbol must be non-empty")
    else Ok(ReplaceChar(WithoutListing(s), '.', '-'))
  }

  /** Replacing "." by "-" in upper-case text leaves upper-case text without "." */
  lemma ReplacedUpper(s: string)
    requires Upper(s) == s
    ensures var n := ReplaceChar(s, '.', '-');
            '.' !in n && Upper(n) == n
  {
    var n := ReplaceChar(s, '.', '-');
    forall i | 0 <= i < |n|
      ensures UpperChar(n[i]) == n[i] && n[i] != '.'
    {
      assert UpperChar(s[i]) == s[i];
    }
  }

  /** A normalised symbol has no "." and no lower-case letter. */
  lemma NormalizedForm(symbol: string)
    requires Strip(symbol) != []
    ensures '.' !in NormalizeSymbol(symbol).value && Upper(NormalizeSymbol(symbol).value) == NormalizeSymbol(symbol).value
  {
    var s := Upper(Strip(symbol));
    UpperIdempotent(Strip(symbol));
    var b := WithoutListing(s);
    forall i | 0 <= i < |b|
      ensures UpperChar(b[i]) == b[i]
    {
      assert b[i] == s[i];
    }
    assert Upper(b) == b;
    ReplacedUpper(b);
  }

  /** Normalising a normalised symbol that is not blank and has no
      whitespace at its ends changes nothing. */
  lemma NormalizeIdempotent(symbol: string)
    requires NormalizeSymbol(symbol).Ok?
    requires var n := NormalizeSymbol(symbol).value;
             n != [] && !IsSpace(n[0]) && !IsSpace(n[|n| - 1])
    ensures NormalizeSymbol(NormalizeSymbol(symbol).value) == NormalizeSymbol(symbol)
  {
    var n := NormalizeSymbol(symbol).value;
    NormalizedForm(symbol);
    StripTrimmed(n);
    assert Upper(Strip(n)) == n;
    if |n| >= 3 {
      assert n[|n| - 3] != '.';
      assert n[|n| - 3..] != ".US";
    }
    assert WithoutListing(n) == n;
    var m := ReplaceChar(n, '.', '-');
    forall i | 0 <= i < |n|
      ensures m[i] == n[i]
    {
      assert n[i] != '.';
    }
    assert m == n;
  }

  /** The library routines the news filter relies on: `_parse_datetime` of a
      truthy value, and `str()` of a value that is not text. */
  datatype NewsParsing = NewsParsing(parseDate: Json -> Option<Instant>, show: Json -> string)

  /** `a.get(k1) or a.get(k2) or ...`: the first truthy value, else the last one. */
  function FirstTruthy(fields: seq<(string, Json)>, keys: seq<string>): (r: Json)
    ensures Truthy(r) <==> exists i :: 0 <= i < |keys| && Truthy(GetOr(fields, keys[i], JNull))
    ensures keys == [] ==> r == JNull
    ensures keys != [] ==>
              exists i :: (0 <= i < |keys| && r == GetOr(fields, keys[i], JNull)
                           && (Truthy(r) || i == |keys| - 1)
                           && forall j :: 0 <= j < i ==> !Truthy(GetOr(fields, keys[j], JNull)))
  {
    if keys == [] then JNull
    else if |keys| == 1 then GetOr(fields, keys[0], JNull)
    else
      var v := GetOr(fields, keys[0], JNull);
      if Truthy(v) then v
      else
        var rest := FirstTruthy(fields, keys[1..]);
        assert forall i :: 1 <= i < |keys| ==> keys[i] == keys[1..][i - 1];
        rest
  }

  /** `str(value)`. */
  function Show(value: Json, np: NewsParsing): string {
    if value.JStr? then value.s else np.show(value)
  }

  /** A `str | None` field of the article: null is None, text is kept, any
      other value fails validation. */
  function OptionalText(value: Json): Result<Option<string>> {
    match value
    case JNull => Ok(None)
    case JStr(s) => Ok(Some(s))
    case _ => Err("ValidationError: expected a string")
  }

  /** The publication instant of an entry: the first truthy date field, parsed. */
  function PublishedAt(fields: seq<(string, Json)>, np: NewsParsing): Option<Instant> {
    var v := FirstTruthy(fields, ["publishedDate", "publicationTime", "pubDate", "date"]);
    if Truthy(v) then np.parseDate(v) else None
  }

  /** One entry of the response: skipped (None) when it is not an object, has
      no date, or is older than the cutoff; otherwise the article, with
      "Untitled" for a missing title and "" for a missing link. */
  function ArticleOf(entry: Json, cutoff: Option<Instant>, np: NewsParsing): (r: Result<Option<NewsItem>>)
    ensures !entry.JObj? ==> r == Ok(None)
    ensures r.Ok? && r.value.Some? ==>
              entry.JObj? && PublishedAt(entry.fields, np) == Some(r.value.value.publishedAt)
              && (cutoff.Some? ==> r.value.value.publishedAt >= cutoff.value)
              && r.value.value.sentiment.None?
    ensures entry.JObj? && !Truthy(GetOr(entry.fields, "title", JNull)) && r.Ok? && r.value.Some? ==>
              r.value.value.title == "Untitled"
  {
    if !entry.JObj? then Ok(None)
    else
      var fields := entry.fields;
      match PublishedAt(fields, np)
      case None => Ok(None)
      case Some(published) =>
        if cutoff.Some? && published < cutoff.value then Ok(None)
        else
          var title := GetOr(fields, "title", JNull);
          var url := FirstTruthy(fields, ["url", "articleUrl"]);
          var site :- OptionalText(FirstTruthy(fields, ["source", "sourceName"]));
          var summary :- OptionalText(FirstTruthy(fields, ["description", "summary"]));
          Ok(Some(NewsItem(if Truthy(title) then Show(title, np) else "Untitled",
                           if Truthy(url) then Show(url, np) else "",
                           published, site, None, summary)))
  }

  /** `ArticleOf` with the cutoff and library routines fixed. */
  function Article(cutoff: Option<Instant>, np: NewsParsing): Json -> Result<Option<NewsItem>> {
    entry => ArticleOf(entry, cutoff, np)
  }

  /** The outcomes of `f` on the entries, in order, skipping entries it
      maps to None; the first entry it fails on is the error. */
  function Collect<T>(entries: seq<Json>, f: Json -> Result<Option<T>>): (r: Result<seq<T>>)
    ensures r.Ok? ==> |r.value| <= |entries|
  {
    if entries == [] then Ok([])
    else
      var before := Collect(entries[..|entries| - 1], f);
      if before.Err? then before
      else
        match f(entries[|entries| - 1])
        case Err(e) => Err(e)
        case Ok(None) => before
        case Ok(Some(item)) => Ok(before.value + [item])
  }

  /** Once a prefix of the entries has failed, the whole list fails with
      the same error. */
  lemma {:induction false} CollectErrExtends<T>(entries: seq<Json>, k: nat, f: Json -> Result<Option<T>>)
    requires k <= |entries| && Collect(entries[..k], f).Err?
    ensures Collect(entries, f) == Collect(entries[..k], f)
    decreases |entries| - k
  {
    if k < |entries| {
      assert entries[..k + 1][..k] == entries[..k];
      CollectErrExtends(entries, k + 1, f);
    } else {
      assert entries[..k] == entries;
    }
  }

  /** When the list succeeds every entry does, and an item is returned
      exactly when some entry yields it. */
  lemma {:induction false} CollectMembers<T>(entries: seq<Json>, f: Json -> Result<Option<T>>)
    requires Collect(entries, f).Ok?
    ensures forall i :: 0 <= i < |entries| ==> f(entries[i]).Ok?
    ensures forall item :: item in Collect(entries, f).value <==>
              exists i :: 0 <= i < |entries| && f(entries[i]) == Ok(Some(item))
  {
    if entries != [] {
      var init := entries[..|entries| - 1];
      CollectMembers(init, f);
      assert forall i :: 0 <= i < |init| ==> init[i] == entries[i];
      forall item
        ensures item in Collect(entries, f).value <==>
                exists i :: 0 <= i < |entries| && f(entries[i]) == Ok(Some(item))
      {
        if f(entries[|entries| - 1]) == Ok(Some(item)) {
          assert item in Collect(entries, f).value;
        }
      }
    }
  }

  /** The articles of the response entries, in order. */
  function Articles(entries: seq<Json>, cutoff: Option<Instant>, np: NewsParsing): Result<seq<NewsItem>> {
    Collect(entries, Article(cutoff, np))
  }

  /** Every returned article comes from an object entry with that
      publication date, and lies within the look-back window. */
  lemma ArticlesWithinWindow(entries: seq<Json>, cutoff: Option<Instant>, np: NewsParsing)
    requires Articles(entries, cutoff, np).Ok?
    ensures forall item :: item in Articles(entries, cutoff, np).value ==>
              exists i :: 0 <= i < |entries| && entries[i].JObj?
                          && PublishedAt(entries[i].fields, np) == Some(item.publishedAt)
    ensures forall item :: item in Articles(entries, cutoff, np).value && cutoff.Some? ==> item.publishedAt >= cutoff.value
  {
    CollectMembers(entries, Article(cutoff, np));
    forall item | item in Articles(entries, cutoff, np).value
      ensures exists i :: 0 <= i < |entries| && entries[i].JObj?
                          && PublishedAt(entries[i].fields, np) == Some(item.publishedAt)
      ensures cutoff.Some? ==> item.publishedAt >= cutoff.value
    {
      var i :| 0 <= i < |entries| && Article(cutoff, np)(entries[i]) == Ok(Some(item));
      assert ArticleOf(entries[i], cutoff, np) == Ok(Some(item));
    }
  }

  /** `items[:limit]` when the limit is positive, every item otherwise. */
  function Limited(items: seq<NewsItem>, limit: int): (r: seq<NewsItem>)
    ensures limit > 0 ==> |r| <= limit
    ensures |r| <= |items| && r == items[..|r|]
    ensures limit <= 0 || |items| <= limit ==> r == items
  {
    if limit > 0 && |items| > limit then items[..limit] else items
  }

  /** The look-back cutoff: `now` less the timeframe, or none without one. */
  function Cutoff(timeframe: Option<string>, now: Instant): Result<Option<Instant>> {
    if timeframe.None? || timeframe.value == [] then Ok(None)
    else
      var delta :- ParseTimeframe(timeframe.value);
      Ok(Some(now - delta))
  }

  /** What `get_news` returns for a decoded response. */
  function News(symbol: string, limit: int, timeframe: Option<string>, now: Instant, response: Json, np: NewsParsing)
    : Result<seq<NewsItem>>
  {
    var _ :- NormalizeSymbol(symbol);
    var cutoff :- Cutoff(timeframe, now);
    if !response.JArr? then Err("Unexpected Tiingo news response format.")
    else
      var items :- Articles(response.items, cutoff, np);
      Ok(Limited(items, limit))
  }

  /** The loop of `get_news` over the response entries. */
  method FilterArticles(entries: seq<Json>, cutoff: Option<Instant>, np: NewsParsing) returns (r: Result<seq<NewsItem>>)
    ensures r == Articles(entries, cutoff, np)
  {
    var items: seq<NewsItem> := [];
    for i := 0 to |entries|
      invariant Collect(entries[..i], Article(cutoff, np)) == Ok(items)
    {
      assert entries[..i + 1][..i] == entries[..i];
      var article := Article(cutoff, np)(entries[i]);
      if article.Err? {
        CollectErrExtends(entries, i + 1, Article(cutoff, np));
        return Err(article.error);
      }
      if article.value.Some? {
        items := items + [article.value.value];
      }
    }
    assert entries[..|entries|] == entries;
    return Ok(items);
  }

  /** `get_news` after the request: the symbol and timeframe are checked,
      then each entry of the response list is filtered in turn, and the
      articles are cut to the limit. */
  method GetNews(symbol: string, limit: int, timeframe: Option<string>, now: Instant, response: Json, np: NewsParsing)
    returns (r: Result<seq<NewsItem>>)
    ensures r == News(symbol, limit, timeframe, now, response, np)
  {
    var normalized := NormalizeSymbol(symbol);
    if normalized.Err? {
      return Err(normalized.error);
    }
    var cutoff := Cutoff(timeframe, now);
    if cutoff.Err? {
      return Err(cutoff.error);
    }
    if !response.JArr? {
      return Err("Unexpected Tiingo news response format.");
    }
    var items := FilterArticles(response.items, cutoff.value, np);
    if items.Err? {
      return Err(items.error);
    }
    return Ok(Limited(items.value, limit));
  }

  /** A successful `get_news` has a valid symbol, returns at most `limit`
      articles when the limit is positive, and with a timeframe only
      articles published no earlier than `now` less the timeframe. */
  lemma NewsFacts(symbol: string, limit: int, timeframe: Option<string>, now: Instant, response: Json, np: NewsParsing)
    requires News(symbol, limit, timeframe, now, response, np).Ok?
    ensures Strip(symbol) != [] && response.JArr?
    ensures limit > 0 ==> |News(symbol, limit, timeframe, now, response, np).value| <= limit
    ensures timeframe.Some? && timeframe.value != [] ==>
              ParseTimeframe(timeframe.value).Ok?
              && forall item :: item in News(symbol, limit, timeframe, now, response, np).value ==>
                   item.publishedAt >= now - ParseTimeframe(timeframe.value).value
  {
    var cutoff := Cutoff(timeframe, now).value;
    var all := Articles(response.items, cutoff, np).value;
    var r := News(symbol, limit, timeframe, now, response, np).value;
    assert r == Limited(all, limit);
    ArticlesWithinWindow(response.items, cutoff, np);
    forall item | item in r
      ensures item in all
    {
      var k :| 0 <= k < |r| && r[k] == item;
      assert all[k] == item;
    }
  }
}
