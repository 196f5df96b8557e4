/** The decision engine: three scores in [0, 1] from the fundamentals and the
    news insights, their fixed blend, the position-aware recommendation table,
    and the first-BUY lookup in the thesis log that gives the holding period. */
module Engine {
  import opened Common
  import opened DecisionModels
  import opened DecisionLog
  import ClaudeAgent
  import Text

  /** The numeric fundamentals the scores read; a key that is absent stands for
      a missing field or one set to None. */
  type Fundamentals = map<string, real>

  /** `float(fundamentals.get(key, default) or default)`: a missing or zero value
      gives the default. */
  function Field(f: Fundamentals, key: string, default: real): real {
    if key in f && f[key] != 0.0 then f[key] else default
  }

  const MinHoldingDays: int := 90

  /** The stability score: low debt, a beta near 0.8, and earnings stability. */
  function ScoreStability(f: Fundamentals): (r: real)
    ensures 0.0 <= r <= 1.0
    ensures f == map[] ==> r == 4.0 / 15.0
  {
    var debtToEquity := Field(f, "DebtToEquity", 100.0);
    var beta := Field(f, "Beta", 1.5);
    var earningsStability := Field(f, "EarningsStability", 0.5);
    var debtScore := MaxReal(0.0, 1.0 - MinReal(debtToEquity / 2.0, 1.0));
    var betaScore := MaxReal(0.0, 1.0 - MinReal(AbsReal(beta - 0.8) / 1.2, 1.0));
    var stability := debtScore * 0.4 + betaScore * 0.4 + earningsStability * 0.2;
    Clamp01(stability)
  }

  /** A zero stability field counts as a missing one. */
  lemma StabilityZeroIsMissing(f: Fundamentals, key: string)
    requires key in {"DebtToEquity", "Beta", "EarningsStability"}
    ensures ScoreStability(f[key := 0.0]) == ScoreStability(f - {key})
  {
  }

  /** Lower debt never lowers the stability score. */
  lemma StabilityFallsWithDebt(f: Fundamentals, low: real, high: real)
    requires 0.0 < low <= high
    ensures ScoreStability(f["DebtToEquity" := low]) >= ScoreStability(f["DebtToEquity" := high])
  {
  }

  /** The quantitative score: dividend yield, payout ratio near 50, net margin,
      return on assets and on equity. */
  function ScoreQuantitative(f: Fundamentals): (r: real)
    ensures 0.0 <= r <= 1.0
    ensures f == map[] ==> r == 0.0
  {
    var dividendYield := Field(f, "DividendYield", 0.0);
    var payoutRatio := Field(f, "PayoutRatio", 0.0);
    var netMargin := Field(f, "NetProfitMargin", 0.0);
    var roa := Field(f, "ReturnOnAssetsTTM", 0.0);
    var roe := Field(f, "ReturnOnEquityTTM", 0.0);
    var score := MinReal(dividendYield / 6.0, 1.0) * 0.3
      + (1.0 - MinReal(AbsReal(payoutRatio - 50.0) / 50.0, 1.0)) * 0.2
      + MinReal(MaxReal(netMargin, 0.0) / 30.0, 1.0) * 0.2
      + MinReal(MaxReal(roa, 0.0) / 15.0, 1.0) * 0.15
      + MinReal(MaxReal(roe, 0.0) / 20.0, 1.0) * 0.15;
    Clamp01(score)
  }

  /** Every component at its cap gives the full score. */
  lemma QuantitativeFull(f: Fundamentals)
    requires Field(f, "DividendYield", 0.0) >= 6.0 && Field(f, "PayoutRatio", 0.0) == 50.0
    requires Field(f, "NetProfitMargin", 0.0) >= 30.0
    requires Field(f, "ReturnOnAssetsTTM", 0.0) >= 15.0 && Field(f, "ReturnOnEquityTTM", 0.0) >= 20.0
    ensures ScoreQuantitative(f) == 1.0
  {
  }

  /** The value of one insight's sentiment. */
  function SentimentValue(sentiment: string): (v: real)
    ensures v in {0.25, 0.5, 0.75}
  {
    if sentiment == "positive" then 0.75 else if sentiment == "negative" then 0.25 else 0.5
  }

  function SentimentSum(insights: seq<NarrativeInsight>): real {
    if insights == [] then 0.0
    else SentimentSum(insights[..|insights| - 1]) + SentimentValue(insights[|insights| - 1].sentiment)
  }

  /** The qualitative score: 0.5 without insights, else the mean sentiment value. */
  function Qualitative(insights: seq<NarrativeInsight>): real {
    if insights == [] then 0.5 else Clamp01(SentimentSum(insights) / |insights| as real)
  }

  lemma {:induction false} SentimentSumBounds(insights: seq<NarrativeInsight>)
    ensures 0.25 * |insights| as real <= SentimentSum(insights) <= 0.75 * |insights| as real
  {
    if insights != [] {
      SentimentSumBounds(insights[..|insights| - 1]);
    }
  }

  /** The qualitative score lies in [0.25, 0.75]. */
  lemma QualitativeBounds(insights: seq<NarrativeInsight>)
    ensures 0.25 <= Qualitative(insights) <= 0.75
  {
    if insights != [] {
      SentimentSumBounds(insights);
      MeanBounds(SentimentSum(insights), |insights| as real, 0.25, 0.75);
    }
  }

  /** A sum between `lo` and `hi` times a positive count has its mean
      between them. */
  lemma MeanBounds(sum: real, n: real, lo: real, hi: real)
    requires n > 0.0 && lo * n <= sum <= hi * n
    ensures lo <= sum / n <= hi
  {
    var q := sum / n;
    assert q * n == sum;
    assert (q - lo) * n >= 0.0;
    assert (hi - q) * n >= 0.0;
  }

  /** The fixed blend of the three scores: the conviction of a thesis. */
  function Blend(quantitative: real, qualitative: real, stability: real): real {
    0.5 * quantitative + 0.35 * qualitative + 0.15 * stability
  }

  lemma BlendInUnit(quantitative: real, qualitative: real, stability: real)
    requires InUnit(quantitative) && InUnit(qualitative) && InUnit(stability)
    ensures InUnit(Blend(quantitative, qualitative, stability))
  {
  }

  /** The recommendation table: a held ticker is never BUY and is HOLD within
      the minimum holding period; after it, HOLD, TRIM or EXIT by the blend. A
      ticker not held is BUY or HOLD, never TRIM or EXIT. */
  function Recommend(blended: real, isHeld: bool, holdingDays: int): (r: Recommendation)
    ensures isHeld ==> r != BUY
    ensures isHeld && holdingDays < MinHoldingDays ==> r == HOLD
    ensures isHeld && holdingDays >= MinHoldingDays ==>
      (r == HOLD <==> blended >= 0.45) && (r == TRIM <==> 0.35 <= blended < 0.45) && (r == EXIT <==> blended < 0.35)
    ensures !isHeld ==> (r == BUY <==> blended >= 0.75) && (r == HOLD <==> blended < 0.75)
  {
    if isHeld then
      if holdingDays < MinHoldingDays then
        if blended >= 0.35 then HOLD else HOLD
      else if blended >= 0.65 then HOLD
      else if blended >= 0.45 then HOLD
      else if blended >= 0.35 then TRIM
      else EXIT
    else if blended >= 0.75 then BUY
    else if blended >= 0.60 then HOLD
    else HOLD
  }

  /** How far a recommendation goes towards selling. */
  function Severity(r: Recommendation): nat {
    match r
    case BUY => 0
    case HOLD => 1
    case TRIM => 2
    case EXIT => 3
  }

  /** A higher blend never gives a more severe recommendation. */
  lemma RecommendMonotone(low: real, high: real, isHeld: bool, holdingDays: int)
    requires low <= high
    ensures Severity(Recommend(high, isHeld, holdingDays)) <= Severity(Recommend(low, isHeld, holdingDays))
  {
  }

  /** The first-BUY lookup over the lines of the thesis log: the time of the
      first record, in file order, for `ticker` with recommendation "buy" and a
      non-empty `ts`. A line that is not JSON ends the scan with None, as does
      a `ts` that is not an ISO-8601 time; a record that is not an object, or a
      `ts` that is not a string, raises. */
  function FirstBuy(lines: seq<LogLine>, ticker: string, rt: Runtime): Result<Option<Stamp>> {
    if lines == [] then Ok(None)
    else
      match lines[0]
      case Malformed(_) => Ok(None)
      case Record(v) =>
        if !v.JObj? then Err("AttributeError: log record is not a mapping")
        else if IsBuyOf(v.fields, ticker) && Truthy(GetOr(v.fields, "ts", JNull)) then
          var ts := GetOr(v.fields, "ts", JNull);
          if !ts.JStr? then Err("TypeError: fromisoformat: argument must be str")
          else
            match rt.fromIso(ts.s)
            case None => Ok(None)
            case Some(t) => Ok(Some(t))
        else FirstBuy(lines[1..], ticker, rt)
  }

  predicate IsBuyOf(fields: seq<(string, Json)>, ticker: string) {
    Get(fields, "ticker") == Some(JStr(ticker)) && Get(fields, "recommendation") == Some(JStr("buy"))
  }

  /** Lines the scan reads through without stopping. */
  predicate PassesScan(lines: seq<LogLine>, ticker: string) {
    forall i :: 0 <= i < |lines| ==>
      lines[i].Record? && lines[i].value.JObj?
      && !(IsBuyOf(lines[i].value.fields, ticker) && Truthy(GetOr(lines[i].value.fields, "ts", JNull)))
  }

  lemma {:induction false} FirstBuyPasses(lines: seq<LogLine>, rest: seq<LogLine>, ticker: string, rt: Runtime)
    requires PassesScan(lines, ticker)
    ensures FirstBuy(lines + rest, ticker, rt) == FirstBuy(rest, ticker, rt)
  {
    if lines != [] {
      assert (lines + rest)[0] == lines[0] && (lines + rest)[1..] == lines[1..] + rest;
      assert lines[0].Record? && lines[0].value.JObj?;
      assert PassesScan(lines[1..], ticker) by {
        forall i | 0 <= i < |lines[1..]| ensures lines[1..][i] == lines[i + 1] {}
      }
      assert FirstBuy(lines + rest, ticker, rt) == FirstBuy(lines[1..] + rest, ticker, rt);
      FirstBuyPasses(lines[1..], rest, ticker, rt);
    } else {
      assert lines + rest == rest;
    }
  }

  /** The log only grows at the end, and a first purchase once found (or an
      error once met) stays what later appends find. */
  lemma {:induction false} FirstBuyStable(lines: seq<LogLine>, more: seq<LogLine>, ticker: string, rt: Runtime)
    requires FirstBuy(lines, ticker, rt).Err? || FirstBuy(lines, ticker, rt).value.Some?
    ensures FirstBuy(lines + more, ticker, rt) == FirstBuy(lines, ticker, rt)
  {
    assert lines != [];
    assert (lines + more)[0] == lines[0];
    if lines[0].Record? && lines[0].value.JObj?
       && !(IsBuyOf(lines[0].value.fields, ticker) && Truthy(GetOr(lines[0].value.fields, "ts", JNull))) {
      assert (lines + more)[1..] == lines[1..] + more;
      FirstBuyStable(lines[1..], more, ticker, rt);
    }
  }

  /** The thesis log line `JsonlLogger.Append` writes for a thesis at time `ts`. */
  function ThesisLine(t: Thesis, ts: string): LogLine {
    Record(JObj(Stamped(ThesisJson(t).fields, ts)))
  }

  /** Logging a thesis that is not a BUY of `ticker` leaves the scan going. */
  lemma LoggedOtherPasses(t: Thesis, ts: string, ticker: string)
    requires t.recommendation != BUY || t.ticker != ticker
    ensures PassesScan([ThesisLine(t, ts)], ticker)
  {
  }

  /** Once the first BUY thesis of a ticker is logged, the holding period counts
      from the time it was logged, provided the time reads back from its ISO
      text. */
  lemma LoggedBuyIsFound(lines: seq<LogLine>, t: Thesis, now: Instant, rt: Runtime)
    requires PassesScan(lines, t.ticker)
    requires t.recommendation == BUY
    requires rt.fromIso(rt.toIso(now)) == Some(Stamp(now, false)) && rt.toIso(now) != ""
    ensures FirstBuy(lines + [ThesisLine(t, rt.toIso(now))], t.ticker, rt) == Ok(Some(Stamp(now, false)))
  {
    var line := ThesisLine(t, rt.toIso(now));
    FirstBuyPasses(lines, [line], t.ticker, rt);
    ThesisLineReads(t, rt.toIso(now));
    assert FirstBuy([line], t.ticker, rt) == Ok(Some(Stamp(now, false)));
  }

  /** What the first-BUY scan reads from a logged thesis line. */
  lemma ThesisLineReads(t: Thesis, ts: string)
    ensures ThesisLine(t, ts).Record? && ThesisLine(t, ts).value.JObj?
    ensures IsBuyOf(ThesisLine(t, ts).value.fields, t.ticker) <==> t.recommendation == BUY
    ensures GetOr(ThesisLine(t, ts).value.fields, "ts", JNull) == JStr(ts)
  {
    var fields := ThesisJson(t).fields;
    assert t.recommendation.Value() == "buy" <==> t.recommendation == BUY;
    assert Get(Stamped(fields, ts), "ticker") == Get(fields, "ticker");
    assert Get(Stamped(fields, ts), "recommendation") == Get(fields, "recommendation");
  }

  /** A field of a position dict: missing, present with None, or a value. */
  datatype Slot<T> = Missing | Null | Present(value: T)

  /** A position as the engine keeps it: `get("ticker")` is None for a missing
      or null ticker; quantity and average price keep the three cases apart. */
  datatype Position = Position(ticker: Option<string>, quantity: Slot<int>, averagePrice: Slot<real>)

  /** `f"Currently held: {pos.get('quantity', 0)} shares at avg
      ${pos.get('average_price', 0):.2f}. "`: a missing field reads 0, a null
      quantity prints as None, and a null average price cannot be formatted. */
  function PositionLine(pos: Position, rt: Runtime): (r: Result<string>)
    ensures r.Err? <==> pos.averagePrice.Null?
    ensures r.Ok? ==> |r.value| > 0 && r.value[0] == 'C'
    ensures r.Ok? && pos.quantity.Missing? && pos.averagePrice.Missing? ==>
              r.value == "Currently held: 0 shares at avg $" + rt.fixed2(0.0) + ". "
  {
    var quantity := match pos.quantity
      case Missing => "0"
      case Null => "None"
      case Present(q) => Text.IntToString(q);
    match pos.averagePrice
    case Null => Err("TypeError: unsupported format string passed to NoneType.__format__")
    case Missing => Ok("Currently held: " + quantity + " shares at avg $" + rt.fixed2(0.0) + ". ")
    case Present(price) => Ok("Currently held: " + quantity + " shares at avg $" + rt.fixed2(price) + ". ")
  }

  /** The rationale lines of `evaluate`, for the held position (if any) and
      the first purchase found (if any): six lines, and a seventh with the
      holding period when a held ticker's first purchase is known. A first
      purchase stamped with a UTC offset cannot be subtracted from the naive
      current time. */
  function RationaleLines(ticker: string, quantitative: real, qualitative: real, stability: real,
                          held: Option<Position>, first: Option<Stamp>, now: Instant, rt: Runtime): (r: Result<seq<string>>)
    ensures r.Err? <==> held.Some? && (held.value.averagePrice.Null? || (first.Some? && first.value.aware))
    ensures r.Ok? ==> |r.value| == if held.Some? && first.Some? then 7 else 6
    ensures r.Ok? ==> r.value[0] == "Long-term investment analysis for " + ticker + ":"
    ensures r.Ok? ==> (r.value[1] == "Not currently held." <==> held.None?)
    ensures r.Ok? ==> r.value[5] == "Blended conviction: " + rt.fixed2(Blend(quantitative, qualitative, stability))
    ensures r.Ok? && held.Some? && first.Some? ==>
              r.value[6] == "Holding period: " + Text.IntToString(DaysBetween(first.value.at, now))
                            + " days (min threshold: " + Text.IntToString(MinHoldingDays) + " days)"
  {
    var info :- if held.Some? then PositionLine(held.value, rt) else Ok("");
    var lines := [
      "Long-term investment analysis for " + ticker + ":",
      if info != "" then info else "Not currently held.",
      "Quantitative score: " + rt.fixed2(quantitative) + " (dividend yield, profitability, ROA/ROE)",
      "Qualitative score: " + rt.fixed2(qualitative) + " (recent news sentiment)",
      "Stability score: " + rt.fixed2(stability) + " (debt levels, beta, earnings consistency)",
      "Blended conviction: " + rt.fixed2(Blend(quantitative, qualitative, stability))
    ];
    if held.Some? && first.Some? then
      var elapsed :- Elapsed(first.value, now);
      Ok(lines + ["Holding period: " + Text.IntToString(DaysBetween(first.value.at, now))
                  + " days (min threshold: " + Text.IntToString(MinHoldingDays) + " days)"])
    else Ok(lines)
  }

  /** `{pos.get("ticker"): pos for pos in positions}`: one entry per ticker. */
  function IndexPositions(ps: seq<Position>): (m: map<Option<string>, Position>)
    ensures forall i :: 0 <= i < |ps| ==> ps[i].ticker in m
    ensures forall k :: k in m ==> exists i :: 0 <= i < |ps| && ps[i].ticker == k
  {
    if ps == [] then map[]
    else IndexPositions(ps[..|ps| - 1])[ps[|ps| - 1].ticker := ps[|ps| - 1]]
  }

  /** Of several positions with one ticker, the last one is kept. */
  lemma {:induction false} IndexPositionsLastWins(ps: seq<Position>, i: nat)
    requires i < |ps|
    requires forall j :: i < j < |ps| ==> ps[j].ticker != ps[i].ticker
    ensures IndexPositions(ps)[ps[i].ticker] == ps[i]
  {
    if i < |ps| - 1 {
      IndexPositionsLastWins(ps[..|ps| - 1], i);
    }
  }

  /** `NarrativeInsight(...)` of each insight item, in order; a field that is
      not a string fails validation. */
  function Insights(items: seq<ClaudeAgent.InsightItem>): (r: Result<seq<NarrativeInsight>>)
    ensures r.Ok? ==> |r.value| == |items|
    ensures r.Ok? ==> forall i :: 0 <= i < |items| ==> items[i].sentiment == JStr(r.value[i].sentiment)
  {
    if items == [] then Ok([])
    else
      var rest :- Insights(items[..|items| - 1]);
      var it := items[|items| - 1];
      if it.headline.JStr? && it.sentiment.JStr? && it.summary.JStr? then
        Ok(rest + [NarrativeInsight(it.headline.s, it.sentiment.s, it.summary.s)])
      else Err("ValidationError: insight fields must be strings")
  }

  /** The insights validate exactly when every item's three text fields are strings. */
  lemma {:induction false} InsightsOk(items: seq<ClaudeAgent.InsightItem>)
    ensures Insights(items).Ok? <==>
      forall i :: 0 <= i < |items| ==> items[i].headline.JStr? && items[i].sentiment.JStr? && items[i].summary.JStr?
  {
    if items != [] {
      InsightsOk(items[..|items| - 1]);
    }
  }

  /** The truthy values, in order: `if item.get("catalyst"): catalysts.append(...)`. */
  function TruthyValues(values: seq<Json>): (r: seq<Json>)
    ensures |r| <= |values|
  {
    if values == [] then []
    else
      var last := values[|values| - 1];
      TruthyValues(values[..|values| - 1]) + (if Truthy(last) then [last] else [])
  }

  /** The kept values are exactly the truthy ones. */
  lemma {:induction false} TruthyValuesFilter(values: seq<Json>)
    ensures forall x :: x in TruthyValues(values) <==> x in values && Truthy(x)
  {
    if values != [] {
      var init, last := values[..|values| - 1], values[|values| - 1];
      TruthyValuesFilter(init);
      assert values == init + [last];
    }
  }

  /** The strings of a `List[str]` field; any other value fails validation. */
  function AsStrings(values: seq<Json>): (r: Result<seq<string>>)
    ensures r.Ok? <==> forall x :: x in values ==> x.JStr?
    ensures r.Ok? ==> |r.value| == |values| && forall i :: 0 <= i < |values| ==> values[i] == JStr(r.value[i])
  {
    if values == [] then Ok([])
    else if !values[0].JStr? then Err("ValidationError: catalysts and risks must be strings")
    else
      var rest := AsStrings(values[1..]);
      if rest.Err? then
        assert exists x :: x in values[1..] && !x.JStr?;
        rest
      else Ok([values[0].s] + rest.value)
  }

  function Catalysts(items: seq<ClaudeAgent.InsightItem>): seq<Json> {
    seq(|items|, i requires 0 <= i < |items| => items[i].catalyst)
  }

  function Risks(items: seq<ClaudeAgent.InsightItem>): seq<Json> {
    seq(|items|, i requires 0 <= i < |items| => items[i].risk)
  }

  /** The loop of `evaluate` over the insight items: the insights, then the
      truthy catalysts and risks. */
  method CollectInsights(items: seq<ClaudeAgent.InsightItem>)
    returns (r: Result<(seq<NarrativeInsight>, seq<Json>, seq<Json>)>)
    ensures r.Ok? <==> Insights(items).Ok?
    ensures r.Ok? ==> r.value == (Insights(items).value, TruthyValues(Catalysts(items)), TruthyValues(Risks(items)))
  {
    var insights: seq<NarrativeInsight> := [];
    var catalysts: seq<Json> := [];
    var risks: seq<Json> := [];
    for i := 0 to |items|
      invariant Insights(items[..i]) == Ok(insights)
      invariant catalysts == TruthyValues(Catalysts(items[..i]))
      invariant risks == TruthyValues(Risks(items[..i]))
    {
      var item := items[i];
      if !(item.headline.JStr? && item.sentiment.JStr? && item.summary.JStr?) {
        InsightsStep(items, i);
        InsightsPrefixErr(items, i + 1);
        return Err("ValidationError: insight fields must be strings");
      }
      InsightsStep(items, i);
      ItemStep(items, i);
      insights := insights + [NarrativeInsight(item.headline.s, item.sentiment.s, item.summary.s)];
      if Truthy(item.catalyst) {
        catalysts := catalysts + [item.catalyst];
      }
      if Truthy(item.risk) {
        risks := risks + [item.risk];
      }
    }
    assert items[..|items|] == items;
    r := Ok((insights, catalysts, risks));
  }

  /** One more item validates, or fails, the insights of a prefix. */
  lemma InsightsStep(items: seq<ClaudeAgent.InsightItem>, i: nat)
    requires i < |items| && Insights(items[..i]).Ok?
    ensures var it := items[i];
            Insights(items[..i + 1])
            == if it.headline.JStr? && it.sentiment.JStr? && it.summary.JStr?
               then Ok(Insights(items[..i]).value + [NarrativeInsight(it.headline.s, it.sentiment.s, it.summary.s)])
               else Err("ValidationError: insight fields must be strings")
  {
    assert items[..i + 1][..i] == items[..i];
  }

  /** One more item adds its catalyst and its risk when they are truthy. */
  lemma ItemStep(items: seq<ClaudeAgent.InsightItem>, i: nat)
    requires i < |items|
    ensures TruthyValues(Catalysts(items[..i + 1]))
            == TruthyValues(Catalysts(items[..i])) + (if Truthy(items[i].catalyst) then [items[i].catalyst] else [])
    ensures TruthyValues(Risks(items[..i + 1]))
            == TruthyValues(Risks(items[..i])) + (if Truthy(items[i].risk) then [items[i].risk] else [])
  {
    assert Catalysts(items[..i + 1]) == Catalysts(items[..i]) + [items[i].catalyst];
    assert Risks(items[..i + 1]) == Risks(items[..i]) + [items[i].risk];
    TruthySnoc(Catalysts(items[..i]), items[i].catalyst);
    TruthySnoc(Risks(items[..i]), items[i].risk);
  }

  lemma TruthySnoc(values: seq<Json>, x: Json)
    ensures TruthyValues(values + [x]) == TruthyValues(values) + (if Truthy(x) then [x] else [])
  {
    assert (values + [x])[..|values|] == values;
  }

  /** A failing prefix makes the whole list fail. */
  lemma InsightsPrefixErr(items: seq<ClaudeAgent.InsightItem>, n: nat)
    requires n <= |items| && Insights(items[..n]).Err?
    ensures Insights(items).Err?
  {
    InsightsOk(items[..n]);
    InsightsOk(items);
  }

  /** Blends scores into a thesis for one ticker. */
  class DecisionEngine {
    const positions: map<Option<string>, Position>
    const thesisLog: LogFile
    const ask: (string, seq<ClaudeAgent.ArticlePayload>) -> Result<seq<ClaudeAgent.Block>>
    const decode: string -> Option<Json>

    constructor (ps: seq<Position>, thesisLog: LogFile,
                 ask: (string, seq<ClaudeAgent.ArticlePayload>) -> Result<seq<ClaudeAgent.Block>>,
                 decode: string -> Option<Json>)
      ensures positions == IndexPositions(ps) && this.thesisLog == thesisLog
      ensures this.ask == ask && this.decode == decode
    {
      positions := IndexPositions(ps);
      this.thesisLog := thesisLog;
      this.ask := ask;
      this.decode := decode;
    }

    /** `_score_qualitative`: the loop that maps sentiments to values, then
        their mean. */
    method ScoreQualitative(insights: seq<NarrativeInsight>) returns (q: real)
      ensures q == Qualitative(insights)
      ensures 0.25 <= q <= 0.75
      ensures insights == [] ==> q == 0.5
    {
      var mapped: seq<real> := [];
      var total := 0.0;
      for i := 0 to |insights|
        invariant |mapped| == i
        invariant total == SentimentSum(insights[..i])
      {
        assert insights[..i + 1][..i] == insights[..i];
        var v := if insights[i].sentiment == "positive" then 0.75
                 else if insights[i].sentiment == "negative" then 0.25
                 else 0.5;
        mapped := mapped + [v];
        total := total + v;
      }
      assert insights[..|insights|] == insights;
      QualitativeBounds(insights);
      if mapped == [] {
        return 0.5;
      }
      q := Clamp01(total / |mapped| as real);
    }

    /** `_get_first_purchase_date`: a missing log gives None; otherwise the
        lines are read in order with an early return. */
    method FirstPurchaseDate(ticker: string, rt: Runtime) returns (r: Result<Option<Stamp>>)
      ensures r == (if thesisLog.present then FirstBuy(thesisLog.lines, ticker, rt) else Ok(None))
    {
      if !thesisLog.present {
        return Ok(None);
      }
      var lines := thesisLog.lines;
      var i := 0;
      while i < |lines|
        invariant 0 <= i <= |lines|
        invariant FirstBuy(lines[i..], ticker, rt) == FirstBuy(lines, ticker, rt)
      {
        assert lines[i..][0] == lines[i] && lines[i..][1..] == lines[i + 1..];
        match lines[i]
        case Malformed(_) =>
          return Ok(None);
        case Record(record) =>
          if !record.JObj? {
            return Err("AttributeError: log record is not a mapping");
          }
          if IsBuyOf(record.fields, ticker) {
            var ts := GetOr(record.fields, "ts", JNull);
            if Truthy(ts) {
              if !ts.JStr? {
                return Err("TypeError: fromisoformat: argument must be str");
              }
              var parsed := rt.fromIso(ts.s);
              if parsed.None? {
                return Ok(None);
              }
              return Ok(Some(parsed.value));
            }
          }
        i := i + 1;
      }
      r := Ok(None);
    }

    /** The holding period in whole days, 0 when no first purchase is known;
        a first purchase stamped with a UTC offset raises. */
    method HoldingDays(ticker: string, now: Instant, rt: Runtime) returns (r: Result<int>)
      ensures r == HeldDays(if thesisLog.present then FirstBuy(thesisLog.lines, ticker, rt) else Ok(None), now)
    {
      var firstPurchase := FirstPurchaseDate(ticker, rt);
      if firstPurchase.Err? {
        return Err(firstPurchase.error);
      }
      if firstPurchase.value.Some? {
        if firstPurchase.value.value.aware {
          return Err(MixedSubtraction);
        }
        return Ok(DaysBetween(firstPurchase.value.value.at, now));
      }
      return Ok(0);
    }

    /** `_derive_recommendation`: the table applied to the blend, with the
        holding period looked up only for a held ticker. */
    method DeriveRecommendation(ticker: string, quantitative: real, qualitative: real, stability: real,
                                isHeld: bool, now: Instant, rt: Runtime)
      returns (r: Result<Recommendation>)
      ensures r == RecommendationFor(ticker, Blend(quantitative, qualitative, stability), isHeld, now, rt)
      ensures r.Ok? && isHeld ==> r.value != BUY
      ensures r.Ok? && !isHeld ==> r.value in {BUY, HOLD}
    {
      var blended := 0.5 * quantitative + 0.35 * qualitative + 0.15 * stability;
      var holdingDays := 0;
      if isHeld {
        var days := HoldingDays(ticker, now, rt);
        if days.Err? {
          return Err(days.error);
        }
        holdingDays := days.value;
      }
      return Ok(Recommend(blended, isHeld, holdingDays));
    }

    ghost function RecommendationFor(ticker: string, blended: real, isHeld: bool, now: Instant, rt: Runtime): Result<Recommendation>
      reads this, thesisLog
    {
      if !isHeld then Ok(Recommend(blended, false, 0))
      else
        var days :- HeldDays(if thesisLog.present then FirstBuy(thesisLog.lines, ticker, rt) else Ok(None), now);
        Ok(Recommend(blended, true, days))
    }

    /** The first purchase of a ticker the log shows, if the lookup finds one. */
    ghost function KnownPurchase(ticker: string, rt: Runtime): Option<Stamp>
      reads this, thesisLog
    {
      if !thesisLog.present then None
      else
        match FirstBuy(thesisLog.lines, ticker, rt)
        case Ok(Some(t)) => Some(t)
        case _ => None
    }

    /** A held ticker whose recommendation can be derived has no first
        purchase stamped with a UTC offset. */
    lemma DerivedNotAware(ticker: string, blended: real, now: Instant, rt: Runtime)
      requires RecommendationFor(ticker, blended, true, now, rt).Ok?
      ensures !(KnownPurchase(ticker, rt).Some? && KnownPurchase(ticker, rt).value.aware)
    {
    }

    /** The rationale lines for a ticker, held or not. */
    ghost function RationaleFor(ticker: string, quantitative: real, qualitative: real, stability: real,
                                isHeld: bool, now: Instant, rt: Runtime): Result<seq<string>>
      requires isHeld ==> Some(ticker) in positions
      reads this, thesisLog
    {
      RationaleLines(ticker, quantitative, qualitative, stability,
                     if isHeld then Some(positions[Some(ticker)]) else None,
                     if isHeld then KnownPurchase(ticker, rt) else None, now, rt)
    }

    /** The rationale text: the analysis lines, the position line, and the
        holding period of a held ticker when a first purchase is known. */
    method Rationale(ticker: string, quantitative: real, qualitative: real, stability: real,
                     isHeld: bool, now: Instant, rt: Runtime) returns (r: Result<string>)
      requires isHeld ==> Some(ticker) in positions
      ensures var lines := RationaleFor(ticker, quantitative, qualitative, stability, isHeld, now, rt);
              (r.Ok? <==> lines.Ok?) && (r.Ok? ==> r.value == Text.Join(lines.value, "\n"))
      ensures r.Err? <==> isHeld && (positions[Some(ticker)].averagePrice.Null?
                                     || (KnownPurchase(ticker, rt).Some? && KnownPurchase(ticker, rt).value.aware))
    {
      var positionInfo := "";
      if isHeld {
        var pos := positions[Some(ticker)];
        var line := PositionLine(pos, rt);
        if line.Err? {
          return Err(line.error);
        }
        positionInfo := line.value;
      }
      var conviction := Blend(quantitative, qualitative, stability);
      var rationaleLines := [
        "Long-term investment analysis for " + ticker + ":",
        if positionInfo != "" then positionInfo else "Not currently held.",
        "Quantitative score: " + rt.fixed2(quantitative) + " (dividend yield, profitability, ROA/ROE)",
        "Qualitative score: " + rt.fixed2(qualitative) + " (recent news sentiment)",
        "Stability score: " + rt.fixed2(stability) + " (debt levels, beta, earnings consistency)",
        "Blended conviction: " + rt.fixed2(conviction)
      ];
      if isHeld {
        var firstPurchase := FirstPurchaseDate(ticker, rt);
        if firstPurchase.Ok? && firstPurchase.value.Some? {
          if firstPurchase.value.value.aware {
            return Err(MixedSubtraction);
          }
          var holdingDays := DaysBetween(firstPurchase.value.value.at, now);
          rationaleLines := rationaleLines + ["Holding period: " + Text.IntToString(holdingDays)
            + " days (min threshold: " + Text.IntToString(MinHoldingDays) + " days)"];
        }
      }
      r := Ok(Text.Join(rationaleLines, "\n"));
    }

    /** The part of `evaluate` after the news is summarised: the three scores,
        the position line, the recommendation, the rationale and the thesis. */
    method Judge(ticker: string, fundamentals: Fundamentals, insights: seq<NarrativeInsight>,
                 catalysts: seq<Json>, risks: seq<Json>, now: Instant, rt: Runtime)
      returns (r: Result<Thesis>)
      ensures r.Ok? ==> ValidThesis(r.value) && r.value.ticker == ticker && r.value.insights == insights
      ensures r.Ok? ==> r.value.quantitativeScore == ScoreQuantitative(fundamentals)
      ensures r.Ok? ==> r.value.qualitativeScore == Qualitative(insights)
      ensures r.Ok? ==>
        r.value.conviction == Blend(r.value.quantitativeScore, r.value.qualitativeScore, ScoreStability(fundamentals))
      ensures r.Ok? ==>
        Ok(r.value.recommendation) == RecommendationFor(ticker, r.value.conviction, Some(ticker) in positions, now, rt)
      ensures r.Ok? && Some(ticker) in positions ==> r.value.recommendation != BUY
      ensures r.Ok? ==> Ok(r.value.catalysts) == AsStrings(catalysts) && Ok(r.value.risks) == AsStrings(risks)
      ensures r.Ok? ==>
        var lines := RationaleFor(ticker, r.value.quantitativeScore, r.value.qualitativeScore, ScoreStability(fundamentals),
                                  Some(ticker) in positions, now, rt);
        lines.Ok? && r.value.rationale == Text.Join(lines.value, "\n")
      ensures Some(ticker) in positions && positions[Some(ticker)].averagePrice.Null? ==> r.Err?
      ensures r.Ok? <==>
        && !(Some(ticker) in positions && positions[Some(ticker)].averagePrice.Null?)
        && RecommendationFor(ticker, Blend(ScoreQuantitative(fundamentals), Qualitative(insights), ScoreStability(fundamentals)),
                             Some(ticker) in positions, now, rt).Ok?
        && AsStrings(catalysts).Ok? && AsStrings(risks).Ok?
    {
      var quantitative := ScoreQuantitative(fundamentals);
      var qualitative := ScoreQualitative(insights);
      var stability := ScoreStability(fundamentals);
      var assessed := Assess(ticker, quantitative, qualitative, stability, now, rt);
      if assessed.Err? {
        return Err(assessed.error);
      }
      var (recommendation, rationale) := assessed.value;
      var catalystStrings := AsStrings(catalysts);
      var riskStrings := AsStrings(risks);
      if catalystStrings.Err? {
        return Err(catalystStrings.error);
      }
      if riskStrings.Err? {
        return Err(riskStrings.error);
      }
      var conviction := Blend(quantitative, qualitative, stability);
      BlendInUnit(quantitative, qualitative, stability);
      assert InUnit(conviction) && InUnit(quantitative) && InUnit(qualitative);
      r := MakeThesis(ticker, recommendation, conviction, quantitative, qualitative,
                      rationale, riskStrings.value, catalystStrings.value, insights);
    }

    /** The steps of `evaluate` that depend on the held position: a held
        position without an average price fails its line, then the
        recommendation is derived and the rationale built. */
    method Assess(ticker: string, quantitative: real, qualitative: real, stability: real, now: Instant, rt: Runtime)
      returns (r: Result<(Recommendation, string)>)
      ensures var held := Some(ticker) in positions;
              r.Ok? <==> !(held && positions[Some(ticker)].averagePrice.Null?)
                         && RecommendationFor(ticker, Blend(quantitative, qualitative, stability), held, now, rt).Ok?
      ensures r.Ok? ==>
                Ok(r.value.0) == RecommendationFor(ticker, Blend(quantitative, qualitative, stability),
                                                   Some(ticker) in positions, now, rt)
      ensures r.Ok? && Some(ticker) in positions ==> r.value.0 != BUY
      ensures r.Ok? ==>
                var lines := RationaleFor(ticker, quantitative, qualitative, stability, Some(ticker) in positions, now, rt);
                lines.Ok? && r.value.1 == Text.Join(lines.value, "\n")
    {
      var isHeld := Some(ticker) in positions;
      if isHeld && positions[Some(ticker)].averagePrice.Null? {
        var line := PositionLine(positions[Some(ticker)], rt);
        return Err(line.error);
      }
      var recommendation := DeriveRecommendation(ticker, quantitative, qualitative, stability, isHeld, now, rt);
      if recommendation.Err? {
        return Err(recommendation.error);
      }
      if isHeld {
        DerivedNotAware(ticker, Blend(quantitative, qualitative, stability), now, rt);
      }
      var rationale := Rationale(ticker, quantitative, qualitative, stability, isHeld, now, rt);
      r := Ok((recommendation.value, rationale.value));
    }

    /** `evaluate`: summarise the news, score, recommend, and build the thesis
        whose conviction is the blend of the three scores. A held ticker is
        never recommended for purchase. */
    method Evaluate(ticker: string, fundamentals: Fundamentals, news: seq<Json>, now: Instant, rt: Runtime)
      returns (r: Result<Thesis>)
      ensures ClaudeAgent.Summary(ticker, news, ask, decode).Err? ==> r.Err?
      ensures r.Ok? ==> ValidThesis(r.value) && r.value.ticker == ticker
      ensures r.Ok? ==> ClaudeAgent.Summary(ticker, news, ask, decode).Ok?
      ensures r.Ok? ==> Insights(ClaudeAgent.Summary(ticker, news, ask, decode).value) == Ok(r.value.insights)
      ensures r.Ok? ==> r.value.quantitativeScore == ScoreQuantitative(fundamentals)
      ensures r.Ok? ==> r.value.qualitativeScore == Qualitative(r.value.insights)
      ensures r.Ok? ==>
        r.value.conviction == Blend(r.value.quantitativeScore, r.value.qualitativeScore, ScoreStability(fundamentals))
      ensures r.Ok? ==>
        Ok(r.value.recommendation) == RecommendationFor(ticker, r.value.conviction, Some(ticker) in positions, now, rt)
      ensures r.Ok? && Some(ticker) in positions ==> r.value.recommendation != BUY
      ensures r.Ok? ==>
        Ok(r.value.catalysts) == AsStrings(TruthyValues(Catalysts(ClaudeAgent.Summary(ticker, news, ask, decode).value)))
        && Ok(r.value.risks) == AsStrings(TruthyValues(Risks(ClaudeAgent.Summary(ticker, news, ask, decode).value)))
      ensures r.Ok? ==>
        var lines := RationaleFor(ticker, r.value.quantitativeScore, r.value.qualitativeScore, ScoreStability(fundamentals),
                                  Some(ticker) in positions, now, rt);
        lines.Ok? && r.value.rationale == Text.Join(lines.value, "\n")
      ensures Some(ticker) in positions && positions[Some(ticker)].averagePrice.Null? ==> r.Err?
      ensures r.Ok? <==>
        && ClaudeAgent.Summary(ticker, news, ask, decode).Ok?
        && var items := ClaudeAgent.Summary(ticker, news, ask, decode).value;
        && Insights(items).Ok?
        && !(Some(ticker) in positions && positions[Some(ticker)].averagePrice.Null?)
        && RecommendationFor(ticker, Blend(ScoreQuantitative(fundamentals), Qualitative(Insights(items).value), ScoreStability(fundamentals)),
                             Some(ticker) in positions, now, rt).Ok?
        && AsStrings(TruthyValues(Catalysts(items))).Ok? && AsStrings(TruthyValues(Risks(items))).Ok?
    {
      var payload := ClaudeAgent.SummarizeNews(ticker, news, ask, decode);
      if payload.Err? {
        return Err(payload.error);
      }
      var collected := CollectInsights(payload.value);
      if collected.Err? {
        return Err(collected.error);
      }
      var (insights, catalysts, risks) := collected.value;
      r := Judge(ticker, fundamentals, insights, catalysts, risks, now, rt);
    }
  }

  /** The holding period from a first-purchase lookup. */
  function HeldDays(first: Result<Option<Stamp>>, now: Instant): Result<int> {
    match first
    case Err(e) => Err(e)
    case Ok(None) => Ok(0)
    case Ok(Some(t)) => if t.aware then Err(MixedSubtraction) else Ok(DaysBetween(t.at, now))
  }
}
