/** The tool layer over the market-data client: ticker normalisation, the
    payload of one ticker (metrics with an end-of-day fallback, estimates,
    growth figures and news, each failure recorded under its own key), the
    payloads of several tickers, and the screened, capped shortlist update. */
module Tools {
  import opened Common
  import opened Text
  import opened Models
  import Eodhd
  import Screener
  import Sorting

  // ---------- _normalize_tickers ----------

  /** `entry.upper().strip()`. */
  function Sym(entry: string): string {
    Strip(Upper(entry))
  }

  /** The symbol of every entry, in order. */
  function Syms(values: seq<string>): (r: seq<string>)
    ensures |r| == |values| && forall i :: 0 <= i < |values| ==> r[i] == Sym(values[i])
  {
    seq(|values|, i requires 0 <= i < |values| => Sym(values[i]))
  }

  /** Each non-empty symbol, kept where it first occurs. */
  function Dedup(symbols: seq<string>): seq<string> {
    if symbols == [] then []
    else
      var prev := Dedup(symbols[..|symbols| - 1]);
      var s := symbols[|symbols| - 1];
      if s == [] || s in prev then prev else prev + [s]
  }

  /** What `_normalize_tickers` returns. */
  function Normalized(values: seq<string>): seq<string> {
    Dedup(Syms(values))
  }

  /** `_normalize_tickers`, with its `seen` set. */
  method NormalizeTickers(values: seq<string>) returns (normalized: seq<string>)
    ensures normalized == Normalized(values)
  {
    normalized := [];
    var seen: set<string> := {};
    ghost var symbols := Syms(values);
    for i := 0 to |values|
      invariant normalized == Dedup(symbols[..i])
      invariant forall s :: s in seen <==> s in normalized
    {
      var symbol := Sym(values[i]);
      DedupStep(symbols, i);
      if symbol == [] || symbol in seen {
        continue;
      }
      seen := seen + {symbol};
      normalized := normalized + [symbol];
    }
    assert symbols[..|values|] == symbols;
  }

  /** One step of the loop over the symbols. */
  lemma DedupStep(symbols: seq<string>, i: nat)
    requires i < |symbols|
    ensures Dedup(symbols[..i + 1])
            == if symbols[i] == [] || symbols[i] in Dedup(symbols[..i]) then Dedup(symbols[..i])
               else Dedup(symbols[..i]) + [symbols[i]]
  {
    assert symbols[..i + 1] == symbols[..i] + [symbols[i]];
    DedupSnoc(symbols[..i], symbols[i]);
  }

  lemma DedupSnoc(symbols: seq<string>, s: string)
    ensures Dedup(symbols + [s]) == if s == [] || s in Dedup(symbols) then Dedup(symbols) else Dedup(symbols) + [s]
  {
    assert (symbols + [s])[..|symbols|] == symbols;
  }

  /** The kept symbols are distinct and non-empty, and they are exactly the
      non-empty symbols of the input. */
  lemma {:induction false} DedupFacts(symbols: seq<string>)
    ensures forall i, j :: 0 <= i < j < |Dedup(symbols)| ==> Dedup(symbols)[i] != Dedup(symbols)[j]
    ensures forall s :: s in Dedup(symbols) <==> s in symbols && s != []
  {
    if symbols != [] {
      var init := symbols[..|symbols| - 1];
      DedupFacts(init);
      assert symbols == init + [symbols[|symbols| - 1]];
    }
  }

  /** First-occurrence order: what is kept from a prefix of the input is a
      prefix of what is kept from all of it. */
  lemma {:induction false} DedupPrefix(symbols: seq<string>, k: nat)
    requires k <= |symbols|
    ensures Dedup(symbols[..k]) <= Dedup(symbols)
    decreases |symbols| - k
  {
    if k < |symbols| {
      var init := symbols[..|symbols| - 1];
      assert init[..k] == symbols[..k];
      DedupPrefix(init, k);
    } else {
      assert symbols[..k] == symbols;
    }
  }

  /** Distinct non-empty symbols are kept as they are. */
  lemma {:induction false} DedupDistinct(symbols: seq<string>)
    requires forall i, j :: 0 <= i < j < |symbols| ==> symbols[i] != symbols[j]
    requires forall i :: 0 <= i < |symbols| ==> symbols[i] != []
    ensures Dedup(symbols) == symbols
  {
    if symbols != [] {
      var init := symbols[..|symbols| - 1];
      DedupDistinct(init);
      assert symbols[|symbols| - 1] !in init;
      assert symbols == init + [symbols[|symbols| - 1]];
    }
  }

  /** A symbol is upper case with no surrounding whitespace. */
  lemma SymFixed(v: string)
    ensures Upper(Sym(v)) == Sym(v) && Strip(Sym(v)) == Sym(v)
  {
    var u := Upper(v);
    var s := Strip(u);
    StripChars(u);
    forall i | 0 <= i < |s|
      ensures UpperChar(s[i]) == s[i]
    {
      assert s[i] in u;
      var j :| 0 <= j < |u| && u[j] == s[i];
      assert u[j] == UpperChar(v[j]);
    }
    assert Upper(s) == s;
    StripTrimmed(s);
  }

  /** `_normalize_tickers` keeps the trimmed, upper-case form of every
      non-blank entry, once each, and nothing else. */
  lemma NormalizedFacts(values: seq<string>)
    ensures forall i, j :: 0 <= i < j < |Normalized(values)| ==> Normalized(values)[i] != Normalized(values)[j]
    ensures forall s :: s in Normalized(values) <==> s != [] && exists i :: 0 <= i < |values| && s == Sym(values[i])
    ensures forall s :: s in Normalized(values) ==> Upper(s) == s && Strip(s) == s
  {
    var symbols := Syms(values);
    DedupFacts(symbols);
    forall s | s in Normalized(values)
      ensures Upper(s) == s && Strip(s) == s
    {
      var i :| 0 <= i < |symbols| && symbols[i] == s;
      SymFixed(values[i]);
    }
  }

  /** Normalising twice is normalising once. */
  lemma NormalizeIdempotent(values: seq<string>)
    ensures Normalized(Normalized(values)) == Normalized(values)
  {
    var r := Normalized(values);
    NormalizedFacts(values);
    forall i | 0 <= i < |r|
      ensures Sym(r[i]) == r[i] && r[i] != []
    {
      assert r[i] in r;
    }
    assert Syms(r) == r;
    DedupDistinct(r);
  }

  // ---------- _fetch_ticker_payload ----------

  /** The three tables `get_estimate_data` returns. */
  datatype Estimates = Estimates(recommendations: Json, earnings: Json, revenue: Json)

  /** What the news call gives: the dumped items, a provider error, which
      the payload records, or another exception, which the payload step does
      not catch: the ValueError of a blank symbol or the validation error of
      an article whose source or description is not text. */
  datatype NewsReply = Items(items: seq<Json>) | Failed(message: string) | Raised(message: string)

  /** The market-data client's calls, each returning its value or failing
      with the message of the provider error. Metrics come as the dumped
      metrics record. */
  datatype Provider = Provider(
    fundamentals: string -> Result<Json>,
    eodMetrics: string -> Result<Json>,
    estimates: string -> Result<Estimates>,
    growth: string -> Result<Json>,
    news: (string, int, string) -> NewsReply,
    search: string -> Result<seq<seq<(string, Json)>>>)

  const DefaultNewsTimeframe: string := "7d"
  const EodNote: string := "Detailed fundamentals were unavailable; returned a recent end-of-day price snapshot from Yahoo Finance."

  /** The metrics of a symbol and where they came from: the fundamentals, or
      the end-of-day snapshot when those fail; the fallback's error when
      both fail. */
  function MetricsOf(p: Provider, symbol: string): (r: Result<(Json, string)>)
    ensures r.Ok? ==> r.value.1 in {"fundamentals", "end_of_day"}
    ensures r.Ok? <==> p.fundamentals(symbol).Ok? || p.eodMetrics(symbol).Ok?
    ensures r.Ok? && r.value.1 == "end_of_day" ==> p.fundamentals(symbol).Err?
  {
    match p.fundamentals(symbol)
    case Ok(m) => Ok((m, "fundamentals"))
    case Err(_) =>
      match p.eodMetrics(symbol)
      case Ok(m) => Ok((m, "end_of_day"))
      case Err(e) => Err(e)
  }

  function MaxInt(a: int, b: int): int { if a >= b then a else b }

  /** The payload dict of one ticker: each field is one key it may hold,
      None while the key is absent. */
  datatype Payload = Payload(
    ticker: string,
    metrics: Option<Json>,
    dataSource: Option<string>,
    note: Option<string>,
    metricsError: Option<string>,
    recommendationsSummary: Option<Json>,
    earningsEstimate: Option<Json>,
    revenueEstimate: Option<Json>,
    estimatesError: Option<string>,
    growthEstimates: Option<Json>,
    growthEstimatesError: Option<string>,
    news: Option<seq<Json>>,
    newsError: Option<string>,
    success: Option<bool>,
    error: Option<string>)

  /** `{"ticker": symbol}`. */
  function Fresh(symbol: string): Payload {
    Payload(symbol, None, None, None, None, None, None, None, None, None, None, None, None, None, None)
  }

  /** `_fetch_ticker_payload`: the payload dict built key by key; an
      exception the news step does not catch ends the call with no payload. */
  method FetchTickerPayload(p: Provider, ticker: string, fetchMetrics: bool := true, fetchEstimates: bool := true,
                            fetchGrowth: bool := false, fetchNews: bool := false, newsLimit: int := 5,
                            newsTimeframe: string := DefaultNewsTimeframe)
    returns (r: Result<Payload>)
    ensures r.Err? <==> fetchNews && p.news(Sym(ticker), MaxInt(newsLimit, 0), newsTimeframe).Raised?
    ensures r.Err? ==> r.error == p.news(Sym(ticker), MaxInt(newsLimit, 0), newsTimeframe).message
    ensures r.Ok? ==> r.value.ticker == Sym(ticker)
    ensures r.Ok? ==> r.value.success == Some(!fetchMetrics || MetricsOf(p, Sym(ticker)).Ok?)
    ensures r.Ok? && fetchMetrics && MetricsOf(p, Sym(ticker)).Ok? ==>
              r.value.metrics == Some(MetricsOf(p, Sym(ticker)).value.0)
              && r.value.dataSource == Some(MetricsOf(p, Sym(ticker)).value.1)
              && r.value.metricsError.None? && r.value.error.None?
    ensures r.Ok? && fetchMetrics && MetricsOf(p, Sym(ticker)).Err? ==>
              var e := MetricsOf(p, Sym(ticker)).error;
              r.value.metrics.None? && r.value.dataSource.None? && r.value.metricsError == Some(e)
              && r.value.error == Some(if e == "" then "Unable to fetch metrics." else e)
    ensures r.Ok? && !fetchMetrics ==>
              r.value.metrics.None? && r.value.dataSource.None? && r.value.metricsError.None? && r.value.error.None?
    ensures r.Ok? ==>
              (r.value.note.Some? <==> fetchMetrics && MetricsOf(p, Sym(ticker)).Ok? && MetricsOf(p, Sym(ticker)).value.1 == "end_of_day")
    ensures r.Ok? ==> (r.value.estimatesError.Some? <==> fetchEstimates && p.estimates(Sym(ticker)).Err?)
    ensures r.Ok? ==> (r.value.recommendationsSummary.Some? <==> fetchEstimates && p.estimates(Sym(ticker)).Ok?)
    ensures r.Ok? && fetchEstimates && p.estimates(Sym(ticker)).Ok? ==>
              var e := p.estimates(Sym(ticker)).value;
              r.value.recommendationsSummary == Some(e.recommendations) && r.value.earningsEstimate == Some(e.earnings)
              && r.value.revenueEstimate == Some(e.revenue)
    ensures r.Ok? ==> (r.value.growthEstimatesError.Some? <==> fetchGrowth && p.growth(Sym(ticker)).Err?)
    ensures r.Ok? ==> (r.value.growthEstimates.Some? <==> fetchGrowth && p.growth(Sym(ticker)).Ok?)
    ensures r.Ok? && fetchGrowth && p.growth(Sym(ticker)).Ok? ==> r.value.growthEstimates == Some(p.growth(Sym(ticker)).value)
    ensures r.Ok? ==> (r.value.newsError.Some? <==> fetchNews && p.news(Sym(ticker), MaxInt(newsLimit, 0), newsTimeframe).Failed?)
    ensures r.Ok? ==> (r.value.news.Some? <==> fetchNews && p.news(Sym(ticker), MaxInt(newsLimit, 0), newsTimeframe).Items?)
    ensures r.Ok? && fetchNews && p.news(Sym(ticker), MaxInt(newsLimit, 0), newsTimeframe).Items? ==>
              r.value.news == Some(p.news(Sym(ticker), MaxInt(newsLimit, 0), newsTimeframe).items)
  {
    var symbol := Sym(ticker);
    var payload := Fresh(symbol);
    var metricsSuccess, metricsError;
    payload, metricsSuccess, metricsError := AddMetrics(p, symbol, fetchMetrics, payload);
    payload := AddEstimates(p, symbol, fetchEstimates, payload);
    payload := AddGrowth(p, symbol, fetchGrowth, payload);
    var withNews := AddNews(p, symbol, fetchNews, newsLimit, newsTimeframe, payload);
    if withNews.Err? {
      return Err(withNews.error);
    }
    payload := withNews.value;
    if fetchMetrics {
      payload := payload.(success := Some(metricsSuccess));
      if !metricsSuccess && payload.error.None? {
        var message := if metricsError.Some? && metricsError.value != "" then metricsError.value else "Unable to fetch metrics.";
        payload := payload.(error := Some(message));
      }
    } else {
      payload := payload.(success := Some(true));
    }
    r := Ok(payload);
  }

  /** The metrics step: the fundamentals, else the end-of-day snapshot with
      a note, else the fallback's error; only the metrics keys change. */
  method AddMetrics(p: Provider, symbol: string, fetch: bool, payload: Payload)
    returns (r: Payload, success: bool, error: Option<string>)
    ensures r.(metrics := payload.metrics, dataSource := payload.dataSource, note := payload.note,
               metricsError := payload.metricsError) == payload
    ensures !fetch ==> r == payload && success && error.None?
    ensures fetch ==> (success <==> MetricsOf(p, symbol).Ok?)
    ensures fetch && success ==>
              error.None? && r.metricsError == payload.metricsError
              && r.metrics == Some(MetricsOf(p, symbol).value.0) && r.dataSource == Some(MetricsOf(p, symbol).value.1)
              && (r.note.Some? <==> payload.note.Some? || MetricsOf(p, symbol).value.1 == "end_of_day")
    ensures fetch && !success ==>
              error == Some(MetricsOf(p, symbol).error) && r.metricsError == error
              && r.metrics == payload.metrics && r.dataSource == payload.dataSource && r.note == payload.note
  {
    if !fetch {
      return payload, true, None;
    }
    match p.fundamentals(symbol)
    case Ok(metrics) =>
      r := payload.(metrics := Some(metrics), dataSource := Some("fundamentals"));
      return r, true, None;
    case Err(_) =>
      match p.eodMetrics(symbol)
      case Ok(metrics) =>
        r := payload.(metrics := Some(metrics), dataSource := Some("end_of_day"), note := Some(EodNote));
        return r, true, None;
      case Err(fallback) =>
        r := payload.(metricsError := Some(fallback));
        return r, false, Some(fallback);
  }

  /** The estimates step: the three tables merged in, or the error; only the
      estimates keys change. */
  method AddEstimates(p: Provider, symbol: string, fetch: bool, payload: Payload) returns (r: Payload)
    ensures r.(recommendationsSummary := payload.recommendationsSummary, earningsEstimate := payload.earningsEstimate,
               revenueEstimate := payload.revenueEstimate, estimatesError := payload.estimatesError) == payload
    ensures !fetch ==> r == payload
    ensures fetch && p.estimates(symbol).Ok? ==>
              var e := p.estimates(symbol).value;
              r.recommendationsSummary == Some(e.recommendations) && r.earningsEstimate == Some(e.earnings)
              && r.revenueEstimate == Some(e.revenue) && r.estimatesError == payload.estimatesError
    ensures fetch && p.estimates(symbol).Err? ==>
              r.estimatesError == Some(p.estimates(symbol).error)
              && r.recommendationsSummary == payload.recommendationsSummary
  {
    if !fetch {
      return payload;
    }
    match p.estimates(symbol)
    case Ok(estimates) =>
      r := payload.(recommendationsSummary := Some(estimates.recommendations),
                    earningsEstimate := Some(estimates.earnings), revenueEstimate := Some(estimates.revenue));
    case Err(e) =>
      r := payload.(estimatesError := Some(e));
  }

  /** The growth step: the figures, or the error; only the growth keys change. */
  method AddGrowth(p: Provider, symbol: string, fetch: bool, payload: Payload) returns (r: Payload)
    ensures r.(growthEstimates := payload.growthEstimates, growthEstimatesError := payload.growthEstimatesError) == payload
    ensures !fetch ==> r == payload
    ensures fetch && p.growth(symbol).Ok? ==>
              r.growthEstimates == Some(p.growth(symbol).value) && r.growthEstimatesError == payload.growthEstimatesError
    ensures fetch && p.growth(symbol).Err? ==>
              r.growthEstimatesError == Some(p.growth(symbol).error) && r.growthEstimates == payload.growthEstimates
  {
    if !fetch {
      return payload;
    }
    match p.growth(symbol)
    case Ok(growth) =>
      r := payload.(growthEstimates := Some(growth));
    case Err(e) =>
      r := payload.(growthEstimatesError := Some(e));
  }

  /** The news step: the items fetched with the limit raised to at least 0,
      or the provider error; only the news keys change. Any other exception
      from the call escapes. */
  method AddNews(p: Provider, symbol: string, fetch: bool, newsLimit: int, timeframe: string, payload: Payload)
    returns (r: Result<Payload>)
    ensures !fetch ==> r == Ok(payload)
    ensures r.Err? <==> fetch && p.news(symbol, MaxInt(newsLimit, 0), timeframe).Raised?
    ensures r.Err? ==> r.error == p.news(symbol, MaxInt(newsLimit, 0), timeframe).message
    ensures r.Ok? ==> r.value.(news := payload.news, newsError := payload.newsError) == payload
    ensures fetch && p.news(symbol, MaxInt(newsLimit, 0), timeframe).Items? ==>
              r.Ok? && r.value.news == Some(p.news(symbol, MaxInt(newsLimit, 0), timeframe).items)
              && r.value.newsError == payload.newsError
    ensures fetch && p.news(symbol, MaxInt(newsLimit, 0), timeframe).Failed? ==>
              r.Ok? && r.value.newsError == Some(p.news(symbol, MaxInt(newsLimit, 0), timeframe).message)
              && r.value.news == payload.news
  {
    if !fetch {
      return Ok(payload);
    }
    var limit := MaxInt(newsLimit, 0);
    match p.news(symbol, limit, timeframe)
    case Items(items) =>
      r := Ok(payload.(news := Some(items)));
    case Failed(e) =>
      r := Ok(payload.(newsError := Some(e)));
    case Raised(e) =>
      r := Err(e);
  }

  // ---------- fetch_multiple_ticker_details ----------

  /** What the payload of a fully fetched symbol says: its symbol, success
      exactly when metrics were obtained, and each optional part present or
      failed as the provider answered. */
  predicate DetailsOf(p: Provider, symbol: string, payload: Payload, estimates: bool, growth: bool,
                      limit: int, timeframe: string) {
    payload.ticker == symbol
    && payload.success == Some(MetricsOf(p, symbol).Ok?)
    && (payload.estimatesError.Some? <==> estimates && p.estimates(symbol).Err?)
    && (payload.growthEstimatesError.Some? <==> growth && p.growth(symbol).Err?)
    && (payload.news.Some? <==> p.news(symbol, limit, timeframe).Items?)
    && (payload.newsError.Some? <==> p.news(symbol, limit, timeframe).Failed?)
  }

  /** A symbol `_normalize_tickers` produced normalises to itself. */
  lemma NormalizedSym(values: seq<string>, i: nat)
    requires i < |Normalized(values)|
    ensures Sym(Normalized(values)[i]) == Normalized(values)[i]
  {
    NormalizedFacts(values);
    assert Normalized(values)[i] in Normalized(values);
  }

  /** The first of the symbols whose news call raises, if any. */
  function FirstRaised(p: Provider, symbols: seq<string>, limit: int, timeframe: string): (r: Option<nat>)
    ensures r.Some? ==> r.value < |symbols| && p.news(symbols[r.value], limit, timeframe).Raised?
                        && forall j :: 0 <= j < r.value ==> !p.news(symbols[j], limit, timeframe).Raised?
    ensures r.None? <==> forall j :: 0 <= j < |symbols| ==> !p.news(symbols[j], limit, timeframe).Raised?
  {
    if symbols == [] then None
    else if p.news(symbols[0], limit, timeframe).Raised? then Some(0)
    else
      match FirstRaised(p, symbols[1..], limit, timeframe)
      case None => None
      case Some(k) => Some(k + 1)
  }

  /** `fetch_multiple_ticker_details`: the tickers are normalised, and the
      reply lists one payload per normalised ticker in that order (none for
      an input without tickers), each with metrics and news asked for and
      the news limit raised to at least 0; when a news call raises, the
      gathered call raises too, with the first such symbol's exception. */
  method FetchMultipleTickerDetails(p: Provider, tickers: seq<string>, newsLimit: int := 5,
                                    newsTimeframe: string := DefaultNewsTimeframe, includeGrowthEstimates: bool := true,
                                    includeEstimates: bool := true)
    returns (r: Result<seq<Payload>>)
    ensures r.Err? <==> FirstRaised(p, Normalized(tickers), MaxInt(newsLimit, 0), newsTimeframe).Some?
    ensures r.Err? ==>
              var k := FirstRaised(p, Normalized(tickers), MaxInt(newsLimit, 0), newsTimeframe).value;
              r.error == p.news(Normalized(tickers)[k], MaxInt(newsLimit, 0), newsTimeframe).message
    ensures r.Ok? ==> |r.value| == |Normalized(tickers)|
    ensures r.Ok? ==> forall i :: 0 <= i < |r.value| ==>
              DetailsOf(p, Normalized(tickers)[i], r.value[i], includeEstimates, includeGrowthEstimates,
                        MaxInt(newsLimit, 0), newsTimeframe)
  {
    var normalized := NormalizeTickers(tickers);
    if normalized == [] {
      return Ok([]);
    }
    var limit := MaxInt(newsLimit, 0);
    var results := [];
    for i := 0 to |normalized|
      invariant |results| == i
      invariant forall j :: 0 <= j < i ==> !p.news(normalized[j], limit, newsTimeframe).Raised?
      invariant forall j :: 0 <= j < i ==>
                  DetailsOf(p, normalized[j], results[j], includeEstimates, includeGrowthEstimates, limit, newsTimeframe)
    {
      NormalizedSym(tickers, i);
      var payload := Fetch(p, normalized[i], includeEstimates, includeGrowthEstimates, limit, newsTimeframe);
      if payload.Err? {
        FirstRaisedAt(p, normalized, limit, newsTimeframe, i);
        return Err(payload.error);
      }
      results := results + [payload.value];
    }
    assert FirstRaised(p, normalized, limit, newsTimeframe).None?;
    r := Ok(results);
  }

  /** The inner `fetch` of `fetch_multiple_ticker_details`: the payload of
      one normalised symbol with metrics and news asked for. */
  method Fetch(p: Provider, symbol: string, estimates: bool, growth: bool, limit: int, timeframe: string)
    returns (r: Result<Payload>)
    requires Sym(symbol) == symbol && limit >= 0
    ensures r.Err? <==> p.news(symbol, limit, timeframe).Raised?
    ensures r.Err? ==> r.error == p.news(symbol, limit, timeframe).message
    ensures r.Ok? ==> DetailsOf(p, symbol, r.value, estimates, growth, limit, timeframe)
  {
    r := FetchTickerPayload(p, symbol, true, estimates, growth, true, limit, timeframe);
  }

  /** A symbol whose news call raises, with none before it raising, is the
      first such symbol. */
  lemma {:induction false} FirstRaisedAt(p: Provider, symbols: seq<string>, limit: int, timeframe: string, i: nat)
    requires i < |symbols| && p.news(symbols[i], limit, timeframe).Raised?
    requires forall j :: 0 <= j < i ==> !p.news(symbols[j], limit, timeframe).Raised?
    ensures FirstRaised(p, symbols, limit, timeframe) == Some(i)
  {
    if i > 0 {
      FirstRaisedAt(p, symbols[1..], limit, timeframe, i - 1);
    }
  }

  // ---------- update_ticker_shortlist: candidates and search results ----------

  /** `str.isalnum()` for one character, ASCII letters and digits. */
  predicate IsAlnum(c: char) {
    IsAsciiLetter(c) || IsDigit(c)
  }

  /** The letters and digits of a text, in order. */
  function AlnumOf(s: string): (r: string)
    ensures forall c :: c in r <==> c in s && IsAlnum(c)
  {
    if s == [] then []
    else
      assert s == s[..|s| - 1] + [s[|s| - 1]];
      AlnumOf(s[..|s| - 1]) + (if IsAlnum(s[|s| - 1]) then [s[|s| - 1]] else [])
  }

  /** `_sanitize_name`: the upper-cased letters and digits of a text, and ""
      for a value that is not text. */
  function SanitizeName(value: Json): (r: string)
    ensures !value.JStr? ==> r == []
    ensures forall c :: c in r ==> IsAlnum(c) && UpperChar(c) == c
  {
    if value.JStr? then
      var u := Upper(value.s);
      assert forall c :: c in u ==> UpperChar(c) == c by {
        forall c | c in u
          ensures UpperChar(c) == c
        {
          var i :| 0 <= i < |u| && u[i] == c;
          assert c == UpperChar(value.s[i]);
        }
      }
      AlnumOf(u)
    else []
  }

  /** The candidates as symbols: every non-blank candidate, upper-cased and
      trimmed. */
  function CandidateSymbols(candidates: seq<string>): set<string> {
    set t | t in candidates && Strip(t) != [] && Sym(t) != [] :: Sym(t)
  }

  /** The candidates as names: the non-empty sanitised form of every
      non-blank candidate. */
  function CandidateNames(candidates: seq<string>): set<string> {
    set t | t in candidates && Strip(t) != [] && SanitizeName(JStr(t)) != [] :: SanitizeName(JStr(t))
  }

  /** The symbols of the existing shortlist, as names. */
  function ExistingNames(existing: seq<string>): set<string> {
    set t | t in existing && t != [] && SanitizeName(JStr(t)) != [] :: SanitizeName(JStr(t))
  }

  /** The search terms: every trimmed non-blank candidate, and the existing
      symbols when they are included. */
  function SearchTerms(candidates: seq<string>, existing: seq<string>, includeExisting: bool): set<string> {
    (set t | t in candidates && Strip(t) != [] :: Strip(t)) + (if includeExisting then set t | t in existing else {})
  }

  /** A search hit's symbol and market cap. */
  datatype Listing = Listing(symbol: string, marketCap: real)

  /** `a or b`. */
  function Or(a: Json, b: Json): Json {
    if Truthy(a) then a else b
  }

  /** A hit is kept when there is nothing to match against, or its symbol is
      a candidate, or its sanitised name is a candidate name, or that name
      and a candidate name contain one another. */
  predicate Matches(symbol: string, name: string, symbols: set<string>, names: set<string>) {
    (symbols == {} && names == {})
    || Upper(Strip(symbol)) in symbols
    || name in names
    || (name != [] && exists cand :: cand in names && (Contains(name, cand) || Contains(cand, name)))
  }

  /** The market cap of a hit: `marketCap` (or `marketcap` when that is
      falsy) as a float, else `marketCapInMillions` times a million when
      that key is present. */
  function MarketCap(entry: seq<(string, Json)>, rt: Runtime): (r: Option<real>)
    ensures Eodhd.CoerceFloat(Or(GetOr(entry, "marketCap", JNull), GetOr(entry, "marketcap", JNull)), rt).Some? ==>
              r == Eodhd.CoerceFloat(Or(GetOr(entry, "marketCap", JNull), GetOr(entry, "marketcap", JNull)), rt)
    ensures Get(entry, "marketCapInMillions").None? ==>
              r == Eodhd.CoerceFloat(Or(GetOr(entry, "marketCap", JNull), GetOr(entry, "marketcap", JNull)), rt)
    ensures r.Some? && Eodhd.CoerceFloat(Or(GetOr(entry, "marketCap", JNull), GetOr(entry, "marketcap", JNull)), rt).None? ==>
              && Get(entry, "marketCapInMillions").Some?
              && Eodhd.CoerceFloat(GetOr(entry, "marketCapInMillions", JNull), rt) == Some(r.value / 1_000_000.0)
    ensures r.None? <==>
              && Eodhd.CoerceFloat(Or(GetOr(entry, "marketCap", JNull), GetOr(entry, "marketcap", JNull)), rt).None?
              && (Get(entry, "marketCapInMillions").None?
                  || Eodhd.CoerceFloat(GetOr(entry, "marketCapInMillions", JNull), rt).None?)
  {
    var direct := Eodhd.CoerceFloat(Or(GetOr(entry, "marketCap", JNull), GetOr(entry, "marketcap", JNull)), rt);
    if direct.None? && Get(entry, "marketCapInMillions").Some? then
      match Eodhd.CoerceFloat(GetOr(entry, "marketCapInMillions", JNull), rt)
      case Some(m) => Some(m * 1_000_000.0)
      case None => None
    else direct
  }

  /** The listing a search hit contributes, if any: a hit whose symbol is not
      text, or that matches no candidate, contributes none. */
  function ListingOf(entry: seq<(string, Json)>, symbols: set<string>, names: set<string>, rt: Runtime): (r: Option<Listing>)
    ensures r.Some? ==> Or(GetOr(entry, "ticker", JNull), GetOr(entry, "symbol", JNull)).JStr?
    ensures r.Some? ==> r.value.marketCap == MarketCap(entry, rt).GetOr(0.0)
  {
    var symbol := Or(GetOr(entry, "ticker", JNull), GetOr(entry, "symbol", JNull));
    if !symbol.JStr? then None
    else
      var name := SanitizeName(Or(GetOr(entry, "name", JNull), GetOr(entry, "NAME", JNull)));
      if !Matches(symbol.s, name, symbols, names) then None
      else Some(Listing(Upper(Strip(symbol.s)), MarketCap(entry, rt).GetOr(0.0)))
  }

  /** The listings of the hits, in order. */
  function Accepted(hits: seq<seq<(string, Json)>>, symbols: set<string>, names: set<string>, rt: Runtime): seq<Listing> {
    if hits == [] then []
    else
      var last := ListingOf(hits[|hits| - 1], symbols, names, rt);
      Accepted(hits[..|hits| - 1], symbols, names, rt) + (if last.Some? then [last.value] else [])
  }

  /** The hit loop as written: `_coerce_float` is called but never imported
      into the tool module, so the first hit that passes the match raises
      NameError; a hit skipped before that line contributes nothing. */
  function ListingOfAsWritten(entry: seq<(string, Json)>, symbols: set<string>, names: set<string>, rt: Runtime): (r: Result<Option<Listing>>)
    ensures r.Err? <==> ListingOf(entry, symbols, names, rt).Some?
    ensures r.Ok? ==> r.value.None?
  {
    var symbol := Or(GetOr(entry, "ticker", JNull), GetOr(entry, "symbol", JNull));
    if !symbol.JStr? then Ok(None)
    else
      var name := SanitizeName(Or(GetOr(entry, "name", JNull), GetOr(entry, "NAME", JNull)));
      if !Matches(symbol.s, name, symbols, names) then Ok(None)
      else Err("NameError: name '_coerce_float' is not defined")
  }

  /** The listings of the hits as written: the first accepted hit raises. */
  function AcceptedAsWritten(hits: seq<seq<(string, Json)>>, symbols: set<string>, names: set<string>, rt: Runtime): Result<seq<Listing>> {
    if hits == [] then Ok([])
    else
      match AcceptedAsWritten(hits[..|hits| - 1], symbols, names, rt)
      case Err(e) => Err(e)
      case Ok(prev) =>
        match ListingOfAsWritten(hits[|hits| - 1], symbols, names, rt)
        case Err(e) => Err(e)
        case Ok(l) => Ok(prev + (if l.Some? then [l.value] else []))
  }

  /** As written, the search loop finishes only when it accepts no hit, and
      raises exactly when the intended loop would keep some listing. */
  lemma {:induction false} AcceptedAsWrittenRaises(hits: seq<seq<(string, Json)>>, symbols: set<string>, names: set<string>, rt: Runtime)
    ensures AcceptedAsWritten(hits, symbols, names, rt).Err? <==> Accepted(hits, symbols, names, rt) != []
    ensures AcceptedAsWritten(hits, symbols, names, rt).Ok? ==> AcceptedAsWritten(hits, symbols, names, rt).value == []
  {
    if hits != [] {
      AcceptedAsWrittenRaises(hits[..|hits| - 1], symbols, names, rt);
    }
  }

  /** With nothing to match against, a single hit with a text ticker makes
      the shortlist update raise. */
  lemma FirstHitRaises(rt: Runtime)
    ensures AcceptedAsWritten([[("ticker", JStr("AAPL"))]], {}, {}, rt).Err?
  {
    var hit := [("ticker", JStr("AAPL"))];
    assert GetOr(hit, "ticker", JNull) == JStr("AAPL");
    assert ([] + [hit])[..0] == [];
  }

  // ---------- the merged entries ----------

  /** Distinct, non-empty symbols: the keys of `filtered_entries`. */
  predicate Keyed(filtered: seq<Listing>) {
    (forall i, j :: 0 <= i < j < |filtered| ==> filtered[i].symbol != filtered[j].symbol)
    && forall i :: 0 <= i < |filtered| ==> filtered[i].symbol != []
  }

  /** The position of a symbol's entry. */
  function Lookup(filtered: seq<Listing>, symbol: string): (r: Option<nat>)
    ensures r.Some? ==> r.value < |filtered| && filtered[r.value].symbol == symbol
    ensures r.None? ==> forall i :: 0 <= i < |filtered| ==> filtered[i].symbol != symbol
  {
    if filtered == [] then None
    else if filtered[|filtered| - 1].symbol == symbol then Some(|filtered| - 1)
    else Lookup(filtered[..|filtered| - 1], symbol)
  }

  /** `filtered_entries.get(symbol)`. */
  function Entry(filtered: seq<Listing>, symbol: string): Option<Listing> {
    match Lookup(filtered, symbol)
    case Some(i) => Some(filtered[i])
    case None => None
  }

  lemma EntryAt(filtered: seq<Listing>, i: nat)
    requires Keyed(filtered) && i < |filtered|
    ensures Entry(filtered, filtered[i].symbol) == Some(filtered[i])
  {
  }

  /** `_maybe_add_entry`: an empty symbol is ignored; a new symbol is
      appended; a known one has its entry replaced only by a strictly larger
      market cap, in place. */
  function MaybeAdd(filtered: seq<Listing>, listing: Listing): seq<Listing> {
    if listing.symbol == [] then filtered
    else
      match Lookup(filtered, listing.symbol)
      case Some(i) => if filtered[i].marketCap < listing.marketCap then filtered[i := listing] else filtered
      case None => filtered + [listing]
  }

  /** The entry `_maybe_add_entry` leaves for a symbol. */
  function Preferred(prior: Option<Listing>, listing: Listing): Option<Listing> {
    if prior.None? || prior.value.marketCap < listing.marketCap then Some(listing) else prior
  }

  /** Adding keeps the symbols distinct and non-empty, changes the entry of
      the added symbol only, and keeps the larger market cap there, the
      earlier entry on a tie. */
  lemma MaybeAddEntry(filtered: seq<Listing>, listing: Listing)
    requires Keyed(filtered)
    ensures Keyed(MaybeAdd(filtered, listing))
    ensures forall s :: s != [] ==>
              Entry(MaybeAdd(filtered, listing), s)
              == if s == listing.symbol then Preferred(Entry(filtered, s), listing) else Entry(filtered, s)
  {
    var r := MaybeAdd(filtered, listing);
    if listing.symbol != [] {
      assert Keyed(r);
      forall s | s != []
        ensures Entry(r, s) == if s == listing.symbol then Preferred(Entry(filtered, s), listing) else Entry(filtered, s)
      {
        match Lookup(filtered, s)
        case Some(j) =>
          EntryAt(filtered, j);
          assert r[j].symbol == s;
          EntryAt(r, j);
        case None =>
          if s == listing.symbol {
            assert r[|r| - 1] == listing;
            EntryAt(r, |r| - 1);
          } else {
            assert forall i :: 0 <= i < |r| ==> r[i].symbol != s;
          }
      }
    }
  }

  /** The entries left by `_maybe_add_entry` over the listings in order. */
  function Merge(listings: seq<Listing>): seq<Listing> {
    if listings == [] then [] else MaybeAdd(Merge(listings[..|listings| - 1]), listings[|listings| - 1])
  }

  /** A symbol's entry as the merge intends it: the first listing of the
      symbol with the largest market cap. */
  function Kept(listings: seq<Listing>, symbol: string): Option<Listing> {
    if listings == [] then None
    else
      var prev := Kept(listings[..|listings| - 1], symbol);
      var last := listings[|listings| - 1];
      if last.symbol == symbol then Preferred(prev, last) else prev
  }

  /** `listings[i]` is a listing of `symbol` with the largest market cap,
      and every earlier listing of it has a smaller one. */
  predicate FirstLargest(listings: seq<Listing>, symbol: string, i: int) {
    0 <= i < |listings| && listings[i].symbol == symbol
    && forall j :: 0 <= j < |listings| && listings[j].symbol == symbol ==>
         listings[j].marketCap <= listings[i].marketCap
         && (j < i ==> listings[j].marketCap < listings[i].marketCap)
  }

  /** The kept listing of a symbol is one of its listings, no listing of it
      has a larger market cap, and every earlier one has a smaller cap. */
  lemma {:induction false} KeptFacts(listings: seq<Listing>, symbol: string)
    ensures Kept(listings, symbol).None? <==> forall i :: 0 <= i < |listings| ==> listings[i].symbol != symbol
    ensures Kept(listings, symbol).Some? ==>
              exists i :: FirstLargest(listings, symbol, i) && listings[i] == Kept(listings, symbol).value
  {
    if listings != [] {
      var init := listings[..|listings| - 1];
      var last := listings[|listings| - 1];
      KeptFacts(init, symbol);
      assert listings == init + [last];
      var k := Kept(listings, symbol);
      if k.Some? && k != Kept(init, symbol) {
        KeptLast(init, last, symbol);
      } else if k.Some? {
        var i :| FirstLargest(init, symbol, i) && init[i] == k.value;
        KeptEarlier(init, last, symbol, i);
      }
    }
  }

  /** A last listing that displaces the kept one is the first largest. */
  lemma KeptLast(init: seq<Listing>, last: Listing, symbol: string)
    requires last.symbol == symbol
    requires Kept(init, symbol).None? ==> forall i :: 0 <= i < |init| ==> init[i].symbol != symbol
    requires Kept(init, symbol).Some? ==>
               exists i :: FirstLargest(init, symbol, i) && init[i] == Kept(init, symbol).value
    requires Preferred(Kept(init, symbol), last) != Kept(init, symbol)
    ensures FirstLargest(init + [last], symbol, |init|)
  {
    var ls := init + [last];
    if Kept(init, symbol).Some? {
      var i :| FirstLargest(init, symbol, i) && init[i] == Kept(init, symbol).value;
      assert init[i].marketCap < last.marketCap;
    }
    forall j | 0 <= j < |ls| && ls[j].symbol == symbol
      ensures ls[j].marketCap <= last.marketCap && (j < |init| ==> ls[j].marketCap < last.marketCap)
    {
      if j < |init| {
        assert ls[j] == init[j];
      }
    }
  }

  /** A kept listing that the last one does not displace stays the first largest. */
  lemma KeptEarlier(init: seq<Listing>, last: Listing, symbol: string, i: int)
    requires FirstLargest(init, symbol, i)
    requires last.symbol == symbol ==> last.marketCap <= init[i].marketCap
    ensures FirstLargest(init + [last], symbol, i)
  {
    var ls := init + [last];
    forall j | 0 <= j < |ls| && ls[j].symbol == symbol
      ensures ls[j].marketCap <= ls[i].marketCap && (j < i ==> ls[j].marketCap < ls[i].marketCap)
    {
      if j < |init| {
        assert ls[j] == init[j];
      }
    }
  }

  /** The merged entries have distinct, non-empty symbols, and each
      symbol's entry is the one it is meant to keep. */
  lemma {:induction false} MergeKeeps(listings: seq<Listing>)
    ensures Keyed(Merge(listings))
    ensures forall s :: s != [] ==> Entry(Merge(listings), s) == Kept(listings, s)
  {
    if listings != [] {
      var init := listings[..|listings| - 1];
      MergeKeeps(init);
      MaybeAddEntry(Merge(init), listings[|listings| - 1]);
    }
  }

  // ---------- search terms and hits ----------

  /** The search terms as a list, in the order they are gathered. */
  function TermList(candidates: seq<string>, existing: seq<string>, includeExisting: bool): (r: seq<string>)
    ensures forall t :: t in r <==> t in SearchTerms(candidates, existing, includeExisting)
  {
    TrimmedTerms(candidates);
    Trimmed(candidates) + (if includeExisting then existing else [])
  }

  /** The non-blank candidates, trimmed. */
  function Trimmed(candidates: seq<string>): (r: seq<string>)
  {
    if candidates == [] then []
    else
      var last := candidates[|candidates| - 1];
      Trimmed(candidates[..|candidates| - 1]) + (if Strip(last) != [] then [Strip(last)] else [])
  }

  /** The trimmed list holds exactly the trimmed non-blank candidates. */
  lemma {:induction false} TrimmedTerms(candidates: seq<string>)
    ensures forall t :: t in Trimmed(candidates) <==> t in (set c | c in candidates && Strip(c) != [] :: Strip(c))
  {
    if candidates != [] {
      var init := candidates[..|candidates| - 1];
      var last := candidates[|candidates| - 1];
      assert candidates == init + [last];
      TrimmedTerms(init);
      var r := Trimmed(candidates);
      assert r == Trimmed(init) + (if Strip(last) != [] then [Strip(last)] else []);
      forall t | t in (set c | c in candidates && Strip(c) != [] :: Strip(c))
        ensures t in r
      {
        var c :| c in candidates && Strip(c) != [] && t == Strip(c);
        if c != last {
          assert c in init;
          assert t in (set c | c in init && Strip(c) != [] :: Strip(c));
        }
      }
      forall t | t in r
        ensures t in (set c | c in candidates && Strip(c) != [] :: Strip(c))
      {
        if t in Trimmed(init) {
          var c :| c in init && Strip(c) != [] && t == Strip(c);
          assert c in candidates;
        } else {
          assert t == Strip(last) && last in candidates;
        }
      }
    }
  }

  /** The terms without repeats, first occurrence kept. */
  function Uniq(terms: seq<string>): (r: seq<string>)
    ensures forall t :: t in r <==> t in terms
  {
    if terms == [] then []
    else
      var init := terms[..|terms| - 1];
      var last := terms[|terms| - 1];
      assert terms == init + [last];
      var kept := Uniq(init);
      if last in kept then kept else kept + [last]
  }

  /** `sorted(search_terms)`: each term once, in code-point order. */
  function OrderedTerms(candidates: seq<string>, existing: seq<string>, includeExisting: bool): seq<string> {
    Sorting.SortBy(Uniq(TermList(candidates, existing, includeExisting)), Sorting.StrLe)
  }

  /** The ordered terms are sorted, and are exactly the search terms. */
  lemma OrderedTermsFacts(candidates: seq<string>, existing: seq<string>, includeExisting: bool)
    ensures Sorting.Sorted(OrderedTerms(candidates, existing, includeExisting), Sorting.StrLe)
    ensures forall t :: t in OrderedTerms(candidates, existing, includeExisting)
                        <==> t in SearchTerms(candidates, existing, includeExisting)
  {
    var u := Uniq(TermList(candidates, existing, includeExisting));
    Sorting.StrLeIsPreorder();
    Sorting.SortBySorted(u, Sorting.StrLe);
    forall t
      ensures t in Sorting.SortBy(u, Sorting.StrLe) <==> t in u
    {
      assert t in Sorting.SortBy(u, Sorting.StrLe) <==> t in multiset(Sorting.SortBy(u, Sorting.StrLe));
      assert t in u <==> t in multiset(u);
    }
  }

  /** The hits of one search: none when it fails. */
  function HitsOf(p: Provider, term: string): seq<seq<(string, Json)>> {
    match p.search(term)
    case Ok(hits) => hits
    case Err(_) => []
  }

  /** `search_results`: the hits of every term, in term order. */
  function AllHits(p: Provider, terms: seq<string>): seq<seq<(string, Json)>> {
    if terms == [] then [] else AllHits(p, terms[..|terms| - 1]) + HitsOf(p, terms[|terms| - 1])
  }

  /** The search loop: every term's hits, a failed search adding none. */
  method Search(p: Provider, terms: seq<string>) returns (hits: seq<seq<(string, Json)>>)
    ensures hits == AllHits(p, terms)
  {
    hits := [];
    for i := 0 to |terms|
      invariant hits == AllHits(p, terms[..i])
    {
      assert terms[..i + 1][..i] == terms[..i];
      var found := p.search(terms[i]);
      if found.Ok? {
        hits := hits + found.value;
      }
    }
    assert terms[..|terms|] == terms;
  }

  /** The entry loop: each hit that matches a candidate is offered to
      `_maybe_add_entry`, in order. */
  method Gather(hits: seq<seq<(string, Json)>>, symbols: set<string>, names: set<string>, rt: Runtime)
    returns (filtered: seq<Listing>)
    ensures filtered == Merge(Accepted(hits, symbols, names, rt))
  {
    filtered := [];
    for i := 0 to |hits|
      invariant filtered == Merge(Accepted(hits[..i], symbols, names, rt))
    {
      assert hits[..i + 1][..i] == hits[..i];
      var listing := ListingOf(hits[i], symbols, names, rt);
      ghost var before := Accepted(hits[..i], symbols, names, rt);
      if listing.Some? {
        assert Accepted(hits[..i + 1], symbols, names, rt) == before + [listing.value];
        assert (before + [listing.value])[..|before|] == before;
        filtered := MaybeAdd(filtered, listing.value);
      } else {
        assert Accepted(hits[..i + 1], symbols, names, rt) == before + [];
        assert before + [] == before;
      }
    }
    assert hits[..|hits|] == hits;
  }

  /** The entries once the direct candidates are in: the merged entries
      first, then one entry with market cap 0 for each candidate symbol
      the search did not bring, so every candidate symbol has an entry. */
  predicate Completed(filtered: seq<Listing>, merged: seq<Listing>, direct: set<string>) {
    |merged| <= |filtered| && filtered[..|merged|] == merged && Keyed(filtered)
    && (forall i :: |merged| <= i < |filtered| ==> filtered[i].marketCap == 0.0 && filtered[i].symbol in direct)
    && forall d :: d in direct ==> d in SymbolsOf(filtered)
  }

  /** The direct-candidate loop, in the set's iteration order. */
  method AddDirect(merged: seq<Listing>, direct: set<string>) returns (filtered: seq<Listing>)
    requires Keyed(merged) && [] !in direct
    ensures Completed(filtered, merged, direct)
  {
    filtered := merged;
    var remaining := direct;
    while remaining != {}
      invariant remaining <= direct
      invariant |merged| <= |filtered| && filtered[..|merged|] == merged && Keyed(filtered)
      invariant forall i :: |merged| <= i < |filtered| ==> filtered[i].marketCap == 0.0 && filtered[i].symbol in direct
      invariant forall d :: d in direct - remaining ==> d in SymbolsOf(filtered)
      decreases |remaining|
    {
      var d :| d in remaining;
      ghost var prev, before := filtered, remaining;
      remaining := remaining - {d};
      match Lookup(filtered, d)
      case Some(k) =>
        assert SymbolsOf(filtered)[k] == d;
      case None =>
        filtered := filtered + [Listing(d, 0.0)];
        assert SymbolsOf(filtered) == SymbolsOf(prev) + [d];
        assert filtered[..|merged|] == prev[..|merged|];
    }
  }

  /** The ranking key: `item.get("market_cap") or 0.0`. */
  function CapOf(l: Listing): real {
    l.marketCap
  }

  // ---------- the selection ----------

  /** The screener's settings for one update. */
  datatype Screen = Screen(minMarketCap: real, maxPe: real, maxForwardPe: real, maxBeta: real,
                           requireDividend: bool, excluded: set<string>)

  /** What `evaluate` accepts: valid metrics that raise no threshold reason
      and whose sector text holds no excluded keyword. */
  predicate Passes(screen: Screen, metrics: Json, rt: Runtime) {
    var v := ValidateMetrics(metrics, rt);
    v.Ok?
    && Screener.ThresholdReasons(v.value, screen.minMarketCap, screen.maxPe, screen.maxForwardPe, screen.maxBeta,
                        screen.requireDividend) == []
    && forall k :: k in screen.excluded && k != [] ==> !Contains(Screener.SectorText(v.value), k)
  }

  /** A symbol is shortlisted when its metrics fetch succeeds with non-empty
      metrics that pass the screener. */
  predicate Eligible(p: Provider, screen: Screen, rt: Runtime, symbol: string) {
    var fetched := MetricsOf(p, Sym(symbol));
    fetched.Ok? && Truthy(fetched.value.0) && Passes(screen, fetched.value.0, rt)
  }

  /** One row of `selection_details`. */
  datatype Detail = Detail(ticker: string, marketCap: Json, dividendYield: Json, peRatio: Json)

  /** The row of a shortlisted symbol: `metrics.get(...)` of three keys. */
  function RowOf(symbol: string, metrics: Json): Detail {
    var fields := if metrics.JObj? then metrics.fields else [];
    Detail(symbol, GetOr(fields, "market_cap", JNull), GetOr(fields, "dividend_yield", JNull),
           GetOr(fields, "pe_ratio", JNull))
  }

  /** The row of a shortlisted symbol, read from its fetched metrics. */
  function DetailFor(p: Provider, symbol: string): Detail {
    match MetricsOf(p, Sym(symbol))
    case Ok((m, _)) => RowOf(symbol, m)
    case Err(_) => RowOf(symbol, JNull)
  }

  /** The entries the selection loop shortlists, and how many payloads it
      fetched. */
  datatype Selection = Selection(picked: seq<Listing>, evaluated: nat)

  /** The selection loop from an entry on: stop once `room` entries are
      shortlisted; skip a symbol already seen; otherwise fetch it, and
      shortlist it when `ok` accepts it. */
  function Scan(entries: seq<Listing>, seen: set<string>, room: nat, ok: string -> bool): Selection
    decreases |entries|
  {
    if entries == [] || room == 0 then Selection([], 0)
    else
      var symbol := entries[0].symbol;
      if symbol in seen then Scan(entries[1..], seen, room, ok)
      else if ok(symbol) then
        var rest := Scan(entries[1..], seen + {symbol}, room - 1, ok);
        Selection([entries[0]] + rest.picked, rest.evaluated + 1)
      else
        var rest := Scan(entries[1..], seen + {symbol}, room, ok);
        Selection(rest.picked, rest.evaluated + 1)
  }

  /** The acceptance test of the selection loop. */
  function EligibleIn(p: Provider, screen: Screen, rt: Runtime): string -> bool {
    symbol => Eligible(p, screen, rt, symbol)
  }

  function SymbolsOf(picked: seq<Listing>): (r: seq<string>)
    ensures |r| == |picked| && forall i :: 0 <= i < |picked| ==> r[i] == picked[i].symbol
  {
    seq(|picked|, i requires 0 <= i < |picked| => picked[i].symbol)
  }

  /** The row of each shortlisted entry, in order. */
  function RowsOf(picked: seq<Listing>, rowOf: string -> Detail): (r: seq<Detail>)
    ensures |r| == |picked|
  {
    if picked == [] then []
    else RowsOf(picked[..|picked| - 1], rowOf) + [rowOf(picked[|picked| - 1].symbol)]
  }

  /** The rows the selection loop reads from the fetched metrics. */
  function DetailIn(p: Provider): string -> Detail {
    symbol => DetailFor(p, symbol)
  }

  /** The selection takes at most `room` entries and fetches at most one
      payload per entry. */
  lemma {:induction false} ScanBounds(entries: seq<Listing>, seen: set<string>, room: nat, ok: string -> bool)
    ensures |Scan(entries, seen, room, ok).picked| <= room
    ensures Scan(entries, seen, room, ok).evaluated <= |entries|
    decreases |entries|
  {
    if entries != [] && room != 0 {
      var symbol := entries[0].symbol;
      if symbol in seen {
        ScanBounds(entries[1..], seen, room, ok);
      } else if ok(symbol) {
        ScanBounds(entries[1..], seen + {symbol}, room - 1, ok);
      } else {
        ScanBounds(entries[1..], seen + {symbol}, room, ok);
      }
    }
  }

  /** Every picked entry is one of the entries, accepted, with a symbol not
      in `seen`. */
  predicate PicksFrom(picked: seq<Listing>, entries: seq<Listing>, seen: set<string>, ok: string -> bool) {
    forall i :: 0 <= i < |picked| ==> picked[i] in entries && picked[i].symbol !in seen && ok(picked[i].symbol)
  }

  /** No symbol twice. */
  predicate DistinctSymbols(picked: seq<Listing>) {
    forall i, j :: 0 <= i < j < |picked| ==> picked[i].symbol != picked[j].symbol
  }

  /** The selection picks accepted entries with symbols not seen before, and
      never one symbol twice. */
  lemma {:induction false} ScanPicks(entries: seq<Listing>, seen: set<string>, room: nat, ok: string -> bool)
    ensures PicksFrom(Scan(entries, seen, room, ok).picked, entries, seen, ok)
    ensures DistinctSymbols(Scan(entries, seen, room, ok).picked)
    decreases |entries|
  {
    if entries != [] && room != 0 {
      var symbol := entries[0].symbol;
      var tail := entries[1..];
      assert forall x :: x in tail ==> x in entries;
      var picked := Scan(entries, seen, room, ok).picked;
      if symbol in seen {
        assert picked == Scan(tail, seen, room, ok).picked;
        ScanPicks(tail, seen, room, ok);
      } else if ok(symbol) {
        ScanPicks(tail, seen + {symbol}, room - 1, ok);
        var rest := Scan(tail, seen + {symbol}, room - 1, ok).picked;
        assert picked == [entries[0]] + rest;
        assert forall i :: 1 <= i < |picked| ==> picked[i] == rest[i - 1];
      } else {
        assert picked == Scan(tail, seen + {symbol}, room, ok).picked;
        ScanPicks(tail, seen + {symbol}, room, ok);
      }
    }
  }

  /** A selection that stops short of `room` has taken every accepted
      symbol it was not told to skip. */
  lemma {:induction false} ScanComplete(entries: seq<Listing>, seen: set<string>, room: nat, ok: string -> bool)
    requires |Scan(entries, seen, room, ok).picked| < room
    ensures forall i :: 0 <= i < |entries| && entries[i].symbol !in seen && ok(entries[i].symbol)
                        ==> entries[i].symbol in SymbolsOf(Scan(entries, seen, room, ok).picked)
    decreases |entries|
  {
    if entries != [] {
      var symbol := entries[0].symbol;
      var tail := entries[1..];
      assert forall i :: 1 <= i < |entries| ==> entries[i] == tail[i - 1];
      var picked := Scan(entries, seen, room, ok).picked;
      if symbol in seen {
        assert Scan(entries, seen, room, ok) == Scan(tail, seen, room, ok);
        ScanComplete(tail, seen, room, ok);
      } else if ok(symbol) {
        ScanComplete(tail, seen + {symbol}, room - 1, ok);
        var rest := Scan(tail, seen + {symbol}, room - 1, ok).picked;
        assert SymbolsOf(picked) == [symbol] + SymbolsOf(rest);
      } else {
        ScanComplete(tail, seen + {symbol}, room, ok);
      }
    }
  }

  /** The shortlist keeps the ranking's order: from entries ranked by
      market cap, the picked entries' caps never increase. */
  lemma {:induction false} ScanRanked(entries: seq<Listing>, seen: set<string>, room: nat, ok: string -> bool)
    requires Sorting.Sorted(entries, Sorting.DescendingBy(CapOf))
    ensures Sorting.Sorted(Scan(entries, seen, room, ok).picked, Sorting.DescendingBy(CapOf))
    decreases |entries|
  {
    if entries != [] && room != 0 {
      var symbol := entries[0].symbol;
      var tail := entries[1..];
      assert Sorting.Sorted(tail, Sorting.DescendingBy(CapOf)) by {
        forall i, j | 0 <= i < j < |tail| ensures Sorting.DescendingBy(CapOf)(tail[i], tail[j]) {
          assert tail[i] == entries[i + 1] && tail[j] == entries[j + 1];
        }
      }
      if symbol in seen {
        ScanRanked(tail, seen, room, ok);
      } else if ok(symbol) {
        ScanRanked(tail, seen + {symbol}, room - 1, ok);
        ScanPicks(tail, seen + {symbol}, room - 1, ok);
        var rest := Scan(tail, seen + {symbol}, room - 1, ok).picked;
        forall i | 0 <= i < |rest| ensures entries[0].marketCap >= rest[i].marketCap {
          assert rest[i] in tail;
          var k :| 0 <= k < |tail| && tail[k] == rest[i];
          assert entries[k + 1] == rest[i];
          assert Sorting.DescendingBy(CapOf)(entries[0], entries[k + 1]);
          assert CapOf(entries[0]) >= CapOf(entries[k + 1]);
        }
        var picked := Scan(entries, seen, room, ok).picked;
        assert picked == [entries[0]] + rest;
        forall i, j | 0 <= i < j < |picked| ensures Sorting.DescendingBy(CapOf)(picked[i], picked[j]) {
          if i > 0 {
            assert picked[i] == rest[i - 1] && picked[j] == rest[j - 1];
          } else {
            assert picked[j] == rest[j - 1];
          }
        }
      } else {
        ScanRanked(tail, seen + {symbol}, room, ok);
      }
    }
  }

  /** One step of the selection loop: from a state that, with the rest of
      the selection, makes up `whole`, the entry at `i` either is skipped or
      is fetched and then picked or not, and the new state again makes up
      `whole` with the rest. */
  lemma ScanAdvance(sorted: seq<Listing>, i: nat, seen: set<string>, room: nat, ok: string -> bool)
    requires i < |sorted| && 0 < room
    ensures var symbol, here, rest := sorted[i].symbol, Scan(sorted[i..], seen, room, ok), sorted[i + 1..];
            && (symbol in seen ==> here == Scan(rest, seen, room, ok))
            && (symbol !in seen && ok(symbol) ==>
                  var next := Scan(rest, seen + {symbol}, room - 1, ok);
                  here == Selection([sorted[i]] + next.picked, next.evaluated + 1))
            && (symbol !in seen && !ok(symbol) ==>
                  var next := Scan(rest, seen + {symbol}, room, ok);
                  here == Selection(next.picked, next.evaluated + 1))
  {
    assert sorted[i..][0] == sorted[i] && sorted[i..][1..] == sorted[i + 1..];
  }

  /** One step of the selection loop in terms of the whole scan: what is
      still to be picked after entry i, given what has been picked before it. */
  lemma ScanTail(sorted: seq<Listing>, i: nat, seen: set<string>, room: nat, ok: string -> bool,
                 whole: Selection, picked: seq<Listing>, evaluated: nat)
    requires i < |sorted| && 0 < room
    requires whole.picked == picked + Scan(sorted[i..], seen, room, ok).picked
    requires whole.evaluated == evaluated + Scan(sorted[i..], seen, room, ok).evaluated
    ensures var symbol := sorted[i].symbol;
            symbol in seen ==>
              var next := Scan(sorted[i + 1..], seen, room, ok);
              whole.picked == picked + next.picked && whole.evaluated == evaluated + next.evaluated
    ensures var symbol := sorted[i].symbol;
            symbol !in seen && ok(symbol) ==>
              var next := Scan(sorted[i + 1..], seen + {symbol}, room - 1, ok);
              whole.picked == (picked + [sorted[i]]) + next.picked && whole.evaluated == evaluated + 1 + next.evaluated
    ensures var symbol := sorted[i].symbol;
            symbol !in seen && !ok(symbol) ==>
              var next := Scan(sorted[i + 1..], seen + {symbol}, room, ok);
              whole.picked == picked + next.picked && whole.evaluated == evaluated + 1 + next.evaluated
  {
    ScanAdvance(sorted, i, seen, room, ok);
    var symbol := sorted[i].symbol;
    if symbol !in seen && ok(symbol) {
      var next := Scan(sorted[i + 1..], seen + {symbol}, room - 1, ok);
      assert (picked + [sorted[i]]) + next.picked == picked + ([sorted[i]] + next.picked);
    }
  }

  /** The symbols of the shortlisted entries, built one entry at a time. */
  function Names(picked: seq<Listing>): (r: seq<string>)
    ensures |r| == |picked|
  {
    if picked == [] then [] else Names(picked[..|picked| - 1]) + [picked[|picked| - 1].symbol]
  }

  lemma {:induction false} NamesAreSymbols(picked: seq<Listing>)
    ensures Names(picked) == SymbolsOf(picked)
  {
    if picked != [] {
      NamesAreSymbols(picked[..|picked| - 1]);
    }
  }

  /** Appending a listing appends its symbol. */
  lemma NamesSnoc(picked: seq<Listing>, l: Listing)
    ensures Names(picked + [l]) == Names(picked) + [l.symbol]
  {
    assert (picked + [l])[..|picked|] == picked;
  }

  /** Appending a listing appends its row. */
  lemma RowsSnoc(picked: seq<Listing>, l: Listing, rowOf: string -> Detail)
    ensures RowsOf(picked + [l], rowOf) == RowsOf(picked, rowOf) + [rowOf(l.symbol)]
  {
    assert (picked + [l])[..|picked|] == picked;
  }

  /** The screener is built with the thresholds and keywords of `screen`. */
  predicate Applies(screener: Screener.TickerScreener, screen: Screen) {
    && screener.minMarketCap == screen.minMarketCap && screener.maxPeRatio == screen.maxPe
    && screener.maxForwardPe == screen.maxForwardPe && screener.maxBeta == screen.maxBeta
    && screener.requireDividend == screen.requireDividend && screener.excludedCache == screen.excluded
  }

  /** `ok` accepts exactly the eligible symbols. */
  ghost predicate Decides(p: Provider, screen: Screen, rt: Runtime, ok: string -> bool) {
    forall symbol {:trigger Eligible(p, screen, rt, symbol)} :: ok(symbol) == Eligible(p, screen, rt, symbol)
  }

  /** `rowOf` gives the row read from each symbol's fetched metrics. */
  ghost predicate Reads(p: Provider, rowOf: string -> Detail) {
    forall symbol {:trigger DetailFor(p, symbol)} :: rowOf(symbol) == DetailFor(p, symbol)
  }

  /** The screening of one symbol in the selection loop: fetch its payload
      with metrics only, and accept it when the fetch succeeds with
      non-empty metrics that `evaluate` accepts. */
  method Vet(p: Provider, screener: Screener.TickerScreener, screen: Screen, symbol: string, rt: Runtime,
             ghost ok: string -> bool, ghost rowOf: string -> Detail)
    returns (accepted: bool, row: Detail)
    requires Applies(screener, screen) && Decides(p, screen, rt, ok) && Reads(p, rowOf)
    ensures accepted == ok(symbol)
    ensures accepted ==> row == rowOf(symbol)
  {
    assert ok(symbol) == Eligible(p, screen, rt, symbol);
    assert rowOf(symbol) == DetailFor(p, symbol);
    var fetched := FetchTickerPayload(p, symbol, true, false, false, false);
    var payload := fetched.value;
    accepted, row := false, RowOf(symbol, JNull);
    if payload.success == Some(true) && payload.metrics.Some? && Truthy(payload.metrics.value) {
      var candidate, _ := screener.Evaluate(payload.metrics.value, rt);
      accepted := candidate;
      row := RowOf(symbol, payload.metrics.value);
    }
  }

  /** The selection loop over the ranked entries: stops at `maxCompanies`
      shortlisted, fetches metrics only for each new symbol, and shortlists
      it when the fetch succeeds with metrics the screener accepts. */
  method Select(p: Provider, screener: Screener.TickerScreener, screen: Screen, sorted: seq<Listing>, maxCompanies: nat, rt: Runtime,
                ghost ok: string -> bool, ghost rowOf: string -> Detail)
    returns (shortlist: seq<string>, details: seq<Detail>, evaluated: nat)
    requires Applies(screener, screen) && Decides(p, screen, rt, ok) && Reads(p, rowOf)
    ensures var r := Scan(sorted, {}, maxCompanies, ok);
            shortlist == SymbolsOf(r.picked) && details == RowsOf(r.picked, rowOf) && evaluated == r.evaluated
  {
    shortlist, details, evaluated := [], [], 0;
    ghost var whole := Scan(sorted, {}, maxCompanies, ok);
    ghost var picked: seq<Listing> := [];
    ghost var room: nat := maxCompanies;
    var seen: set<string> := {};
    var i := 0;
    assert sorted[0..] == sorted;
    while i < |sorted|
      invariant i <= |sorted| && |picked| <= maxCompanies && room == maxCompanies - |picked|
      invariant shortlist == Names(picked) && details == RowsOf(picked, rowOf)
      invariant whole.picked == picked + Scan(sorted[i..], seen, room, ok).picked
      invariant whole.evaluated == evaluated + Scan(sorted[i..], seen, room, ok).evaluated
    {
      if |shortlist| >= maxCompanies {
        break;
      }
      var symbol := sorted[i].symbol;
      ScanTail(sorted, i, seen, room, ok, whole, picked, evaluated);
      if symbol in seen {
        i := i + 1;
        continue;
      }
      seen := seen + {symbol};
      var accepted, row := Vet(p, screener, screen, symbol, rt, ok, rowOf);
      evaluated := evaluated + 1;
      if accepted {
        NamesSnoc(picked, sorted[i]);
        RowsSnoc(picked, sorted[i], rowOf);
        shortlist := shortlist + [symbol];
        details := details + [row];
        picked := picked + [sorted[i]];
        room := room - 1;
      }
      i := i + 1;
    }
    assert Scan(sorted[i..], seen, room, ok) == Selection([], 0);
    assert picked + [] == picked;
    NamesAreSymbols(picked);
  }

  // ---------- the shortlist file ----------

  /** `str(item)` for a text item; other items are not modelled and read as "". */
  function TextOf(item: Json): string {
    if item.JStr? then item.s else []
  }

  /** Every ticker upper-cased. */
  function Uppers(tickers: seq<string>): (r: seq<string>)
    ensures |r| == |tickers| && forall i :: 0 <= i < |tickers| ==> r[i] == Upper(tickers[i])
  {
    seq(|tickers|, i requires 0 <= i < |tickers| => Upper(tickers[i]))
  }

  /** `load_ticker_shortlist` on the file's decoded content: a missing file
      and a content that is not a list are errors; otherwise every item,
      upper-cased. */
  function Decoded(file: Option<Json>): (r: Result<seq<string>>)
    ensures r.Ok? <==> file.Some? && file.value.JArr?
    ensures r.Ok? ==> |r.value| == |file.value.items|
  {
    match file
    case None => Err("Missing required file: shortlist.json")
    case Some(JArr(items)) => Ok(seq(|items|, i requires 0 <= i < |items| => Upper(TextOf(items[i]))))
    case Some(_) => Err("shortlist.json must contain a list of tickers.")
  }

  /** What `save_ticker_shortlist` writes: the tickers, upper-cased, as a list. */
  function Encoded(tickers: seq<string>): (r: Json)
    ensures r.JArr? && |r.items| == |tickers|
  {
    JArr(seq(|tickers|, i requires 0 <= i < |tickers| => JStr(Upper(tickers[i]))))
  }

  /** Loading a saved shortlist gives back the tickers, upper-cased; saving
      and loading again changes nothing more. */
  lemma SavedLoads(tickers: seq<string>)
    ensures Decoded(Some(Encoded(tickers))) == Ok(Uppers(tickers))
    ensures Decoded(Some(Encoded(Uppers(tickers)))) == Decoded(Some(Encoded(tickers)))
  {
    var loaded := Decoded(Some(Encoded(tickers))).value;
    assert loaded == Uppers(tickers) by {
      forall i | 0 <= i < |tickers| ensures loaded[i] == Upper(tickers[i]) {
        UpperIdempotent(tickers[i]);
      }
    }
    var again := Decoded(Some(Encoded(Uppers(tickers)))).value;
    assert again == loaded by {
      forall i | 0 <= i < |tickers| ensures again[i] == loaded[i] {
        UpperIdempotent(tickers[i]);
      }
    }
  }

  /** `shortlist.json`: its decoded content, or None when it is missing. */
  class ShortlistStore {
    var file: Option<Json>

    constructor (file: Option<Json>)
      ensures this.file == file
    {
      this.file := file;
    }

    /** `save_ticker_shortlist`: the file now holds the tickers, upper-cased. */
    method Save(tickers: seq<string>)
      modifies this
      ensures file == Some(Encoded(tickers))
    {
      var items: seq<Json> := [];
      for i := 0 to |tickers|
        invariant items == Encoded(tickers[..i]).items
      {
        items := items + [JStr(Upper(tickers[i]))];
      }
      assert tickers[..|tickers|] == tickers;
      file := Some(JArr(items));
    }
  }

  // ---------- update_ticker_shortlist ----------

  const MaxCompaniesError := "max_companies must be a positive integer."

  /** The outcome of the update. */
  datatype ShortlistOutcome =
    | Refused(error: string)
    | Shortlisted(shortlist: seq<string>, details: seq<Detail>, evaluated: nat)

  /** The existing shortlist as symbols: none when it is not included or
      cannot be loaded. */
  function ExistingOf(file: Option<Json>, includeExisting: bool): (r: seq<string>)
    ensures !includeExisting || Decoded(file).Err? ==> r == []
  {
    if includeExisting && Decoded(file).Ok? then
      var loaded := Decoded(file).value;
      seq(|loaded|, i requires 0 <= i < |loaded| => Sym(loaded[i]))
    else []
  }

  /** The symbols matched against: the candidates and the existing ones. */
  function MatchSymbols(candidates: seq<string>, existing: seq<string>): set<string> {
    CandidateSymbols(candidates) + (set t | t in existing && t != [])
  }

  /** The names matched against: the candidates' and the existing ones'. */
  function MatchNames(candidates: seq<string>, existing: seq<string>): set<string> {
    CandidateNames(candidates) + ExistingNames(existing)
  }

  /** The screener the update builds, with the default excluded sectors. */
  function ScreenOf(minMarketCap: real, maxPe: real, maxForwardPe: real, maxBeta: real, requireDividend: bool): Screen {
    Screen(minMarketCap, maxPe, maxForwardPe, maxBeta, requireDividend, Screener.NormalizeKeywords(Screener.DefaultExcluded))
  }

  /** The merged search entries for the candidates and existing symbols. */
  function MergedEntries(p: Provider, candidates: seq<string>, existing: seq<string>, includeExisting: bool, rt: Runtime): seq<Listing> {
    var hits := AllHits(p, OrderedTerms(candidates, existing, includeExisting));
    Merge(Accepted(hits, MatchSymbols(candidates, existing), MatchNames(candidates, existing), rt))
  }

  /** The ranking: `sorted(..., key=market_cap, reverse=True)`, stable. */
  function Ranking(filtered: seq<Listing>): seq<Listing> {
    Sorting.SortBy(filtered, Sorting.DescendingBy(CapOf))
  }

  /** The outcome of selecting from ranked entries. */
  function OutcomeOf(p: Provider, sel: Selection): ShortlistOutcome {
    Shortlisted(SymbolsOf(sel.picked), RowsOf(sel.picked, DetailIn(p)), sel.evaluated)
  }

  /** What the update promises of the shortlist it selects from entries:
      at most `maxCompanies` symbols, no symbol twice, each one an accepted
      entry, in non-increasing market-cap order, at most one fetch per entry;
      and a shortlist shorter than the cap holds every accepted entry. */
  lemma ShortlistFacts(filtered: seq<Listing>, maxCompanies: nat, ok: string -> bool)
    ensures |Scan(Ranking(filtered), {}, maxCompanies, ok).picked| <= maxCompanies
    ensures Scan(Ranking(filtered), {}, maxCompanies, ok).evaluated <= |filtered|
    ensures DistinctSymbols(Scan(Ranking(filtered), {}, maxCompanies, ok).picked)
    ensures PicksFrom(Scan(Ranking(filtered), {}, maxCompanies, ok).picked, filtered, {}, ok)
    ensures Sorting.Sorted(Scan(Ranking(filtered), {}, maxCompanies, ok).picked, Sorting.DescendingBy(CapOf))
    ensures |Scan(Ranking(filtered), {}, maxCompanies, ok).picked| < maxCompanies ==>
              forall i :: 0 <= i < |filtered| && ok(filtered[i].symbol) ==>
                filtered[i].symbol in SymbolsOf(Scan(Ranking(filtered), {}, maxCompanies, ok).picked)
  {
    var ranked := Ranking(filtered);
    Sorting.DescendingIsPreorder(CapOf);
    Sorting.SortBySorted(filtered, Sorting.DescendingBy(CapOf));
    assert forall x :: x in ranked <==> x in filtered by {
      forall x ensures x in ranked <==> x in filtered {
        assert x in ranked <==> x in multiset(ranked);
        assert x in filtered <==> x in multiset(filtered);
      }
    }
    ScanBounds(ranked, {}, maxCompanies, ok);
    ScanPicks(ranked, {}, maxCompanies, ok);
    ScanRanked(ranked, {}, maxCompanies, ok);
    var picked := Scan(ranked, {}, maxCompanies, ok).picked;
    if |picked| < maxCompanies {
      ScanComplete(ranked, {}, maxCompanies, ok);
      forall i | 0 <= i < |filtered| && ok(filtered[i].symbol)
        ensures filtered[i].symbol in SymbolsOf(picked)
      {
        assert filtered[i] in ranked;
        var j :| 0 <= j < |ranked| && ranked[j] == filtered[i];
      }
    }
  }

  /** `update_ticker_shortlist`: refuses a non-positive cap; otherwise searches
      every term, keeps the matching hits with the largest market cap per
      symbol, adds the direct candidates, ranks by market cap and selects up
      to `maxCompanies` symbols the screener accepts, then saves them. */
  method UpdateTickerShortlist(p: Provider, store: ShortlistStore, candidates: seq<string>, rt: Runtime,
                               minMarketCap: real := 10_000_000_000.0, maxPe: real := 35.0,
                               maxForwardPe: real := 35.0, maxBeta: real := 1.4, requireDividend: bool := true,
                               includeExisting: bool := true, maxCompanies: int := 10)
    returns (outcome: ShortlistOutcome)
    modifies store
    ensures maxCompanies <= 0 ==> outcome == Refused(MaxCompaniesError) && store.file == old(store.file)
    ensures maxCompanies > 0 ==> outcome.Shortlisted? && store.file == Some(Encoded(outcome.shortlist))
    ensures maxCompanies > 0 ==>
              var existing := ExistingOf(old(store.file), includeExisting);
              var screen := ScreenOf(minMarketCap, maxPe, maxForwardPe, maxBeta, requireDividend);
              exists filtered :: Completed(filtered, MergedEntries(p, candidates, existing, includeExisting, rt),
                                           MatchSymbols(candidates, existing))
                                 && outcome == OutcomeOf(p, Scan(Ranking(filtered), {}, maxCompanies, EligibleIn(p, screen, rt)))
  {
    if maxCompanies <= 0 {
      return Refused(MaxCompaniesError);
    }
    var screener := new Screener.TickerScreener(minMarketCap, maxPe, maxForwardPe, maxBeta, requireDividend);
    var screen := ScreenOf(minMarketCap, maxPe, maxForwardPe, maxBeta, requireDividend);
    var existing := ExistingOf(store.file, includeExisting);
    var symbols := MatchSymbols(candidates, existing);
    var names := MatchNames(candidates, existing);
    var hits := Search(p, OrderedTerms(candidates, existing, includeExisting));
    var merged := Gather(hits, symbols, names, rt);
    MergeKeeps(Accepted(hits, symbols, names, rt));
    var filtered := AddDirect(merged, symbols);
    var sorted := Ranking(filtered);
    var shortlist, details, evaluated := Select(p, screener, screen, sorted, maxCompanies, rt, EligibleIn(p, screen, rt), DetailIn(p));
    store.Save(shortlist);
    outcome := Shortlisted(shortlist, details, evaluated);
    assert Completed(filtered, merged, symbols);
  }
}
