/** The validated domain records of the advice server: holdings and the
    portfolio, a ticker's metrics, the fear-and-greed reading, and an action
    recommendation. Each constructor that validates is a function returning
    the record or the validation error. */
module Models {
  import opened Common

  datatype Holding = Holding(ticker: string, name: string, shares: real, averageCost: real, targetWeight: Option<real>)

  predicate ValidHolding(h: Holding) {
    h.shares >= 0.0 && h.averageCost >= 0.0
    && (h.targetWeight.Some? ==> 0.0 <= h.targetWeight.value <= 1.0)
  }

  /** `Holding(...)`: shares and average cost non-negative, a target weight
      absent or in [0, 1]. */
  function MakeHolding(ticker: string, name: string, shares: real, averageCost: real, targetWeight: Option<real>)
    : (r: Result<Holding>)
    ensures r.Ok? <==> ValidHolding(Holding(ticker, name, shares, averageCost, targetWeight))
    ensures r.Ok? ==> r.value == Holding(ticker, name, shares, averageCost, targetWeight)
  {
    var h := Holding(ticker, name, shares, averageCost, targetWeight);
    if ValidHolding(h) then Ok(h) else Err("ValidationError: holding field out of range")
  }

  datatype Portfolio = Portfolio(currency: string, availableFunds: real, holdings: seq<Holding>)

  predicate ValidPortfolio(p: Portfolio) {
    |p.currency| == 3 && p.availableFunds >= 0.0
    && forall i :: 0 <= i < |p.holdings| ==> ValidHolding(p.holdings[i])
  }

  /** `Portfolio(...)`: currency "USD" and funds 0 when not given; a
      three-character currency and non-negative funds required. */
  function MakePortfolio(currency: Option<string>, availableFunds: Option<real>, holdings: seq<Holding>)
    : (r: Result<Portfolio>)
    requires forall i :: 0 <= i < |holdings| ==> ValidHolding(holdings[i])
    ensures r.Ok? <==> |currency.GetOr("USD")| == 3 && availableFunds.GetOr(0.0) >= 0.0
    ensures r.Ok? ==> ValidPortfolio(r.value) && r.value.holdings == holdings
    ensures r.Ok? ==> r.value.currency == currency.GetOr("USD") && r.value.availableFunds == availableFunds.GetOr(0.0)
  {
    var p := Portfolio(currency.GetOr("USD"), availableFunds.GetOr(0.0), holdings);
    if ValidPortfolio(p) then Ok(p) else Err("ValidationError: portfolio field out of range")
  }

  /** The portfolio every field left to its default. */
  lemma DefaultPortfolio()
    ensures MakePortfolio(None, None, []) == Ok(Portfolio("USD", 0.0, []))
  {
  }

  datatype TickerMetrics = TickerMetrics(
    ticker: string,
    companyName: Option<string>,
    sector: Option<string>,
    industry: Option<string>,
    latestClose: Option<real>,
    marketCap: Option<real>,
    peRatio: Option<real>,
    forwardPe: Option<real>,
    dividendYield: Option<real>,
    returnOnEquity: Option<real>,
    debtToEquity: Option<real>,
    beta: Option<real>,
    analystRating: Option<string>,
    summary: Option<string>)

  predicate NonNegative(x: Option<real>) {
    x.None? || x.value >= 0.0
  }

  predicate ValidMetrics(m: TickerMetrics) {
    NonNegative(m.latestClose) && NonNegative(m.marketCap) && NonNegative(m.peRatio)
    && NonNegative(m.forwardPe) && NonNegative(m.dividendYield)
  }

  /** A float field: absent or null is None, a number is taken as it is, a
      boolean as 1.0 or 0.0, a string when it parses as a float. */
  function FloatField(fields: seq<(string, Json)>, key: string, rt: Runtime): (r: Result<Option<real>>)
    ensures Get(fields, key).None? || Get(fields, key) == Some(JNull) ==> r == Ok(None)
    ensures Get(fields, key).Some? && Get(fields, key).value.JNum? ==> r == Ok(Some(Get(fields, key).value.n))
  {
    match Get(fields, key)
    case None => Ok(None)
    case Some(v) =>
      match v
      case JNull => Ok(None)
      case JNum(n) => Ok(Some(n))
      case JBool(b) => Ok(Some(if b then 1.0 else 0.0))
      case JStr(s) =>
        (match rt.parseFloat(s)
         case Some(x) => Ok(Some(x))
         case None => Err("ValidationError: " + key + ": Input should be a valid number"))
      case _ => Err("ValidationError: " + key + ": Input should be a valid number")
  }

  /** A float field that must not be negative. */
  function NonNegativeField(fields: seq<(string, Json)>, key: string, rt: Runtime): (r: Result<Option<real>>)
    ensures r.Ok? ==> NonNegative(r.value)
    ensures r.Ok? ==> FloatField(fields, key, rt) == r
  {
    var x :- FloatField(fields, key, rt);
    if NonNegative(x) then Ok(x)
    else Err("ValidationError: " + key + ": Input should be greater than or equal to 0")
  }

  /** An optional string field: no coercion from other kinds. */
  function StringField(fields: seq<(string, Json)>, key: string): (r: Result<Option<string>>)
    ensures Get(fields, key).None? || Get(fields, key) == Some(JNull) ==> r == Ok(None)
    ensures r.Ok? && r.value.Some? ==> Get(fields, key) == Some(JStr(r.value.value))
  {
    match Get(fields, key)
    case None => Ok(None)
    case Some(JNull) => Ok(None)
    case Some(JStr(s)) => Ok(Some(s))
    case Some(_) => Err("ValidationError: " + key + ": Input should be a valid string")
  }

  /** `TickerMetrics.model_validate(data)`: a dict with a string ticker; the
      close, market cap, P/E ratios and dividend yield non-negative when given;
      other keys ignored. */
  function ValidateMetrics(data: Json, rt: Runtime): (r: Result<TickerMetrics>)
    ensures r.Ok? ==> ValidMetrics(r.value)
    ensures r.Ok? ==> data.JObj? && Get(data.fields, "ticker") == Some(JStr(r.value.ticker))
    ensures r.Ok? ==> FloatField(data.fields, "market_cap", rt) == Ok(r.value.marketCap)
                      && FloatField(data.fields, "pe_ratio", rt) == Ok(r.value.peRatio)
                      && FloatField(data.fields, "forward_pe", rt) == Ok(r.value.forwardPe)
                      && FloatField(data.fields, "dividend_yield", rt) == Ok(r.value.dividendYield)
                      && FloatField(data.fields, "beta", rt) == Ok(r.value.beta)
    ensures !data.JObj? ==> r.Err?
  {
    if !data.JObj? then Err("ValidationError: Input should be a valid dictionary")
    else
      var f := data.fields;
      match Get(f, "ticker")
      case Some(JStr(ticker)) =>
        var companyName :- StringField(f, "company_name");
        var sector :- StringField(f, "sector");
        var industry :- StringField(f, "industry");
        var latestClose :- NonNegativeField(f, "latest_close", rt);
        var marketCap :- NonNegativeField(f, "market_cap", rt);
        var peRatio :- NonNegativeField(f, "pe_ratio", rt);
        var forwardPe :- NonNegativeField(f, "forward_pe", rt);
        var dividendYield :- NonNegativeField(f, "dividend_yield", rt);
        var returnOnEquity :- FloatField(f, "return_on_equity", rt);
        var debtToEquity :- FloatField(f, "debt_to_equity", rt);
        var beta :- FloatField(f, "beta", rt);
        var analystRating :- StringField(f, "analyst_rating");
        var summary :- StringField(f, "summary");
        Ok(TickerMetrics(ticker, companyName, sector, industry, latestClose, marketCap, peRatio,
                         forwardPe, dividendYield, returnOnEquity, debtToEquity, beta, analystRating, summary))
      case None => Err("ValidationError: ticker: Field required")
      case Some(_) => Err("ValidationError: ticker: Input should be a valid string")
  }

  /** A negative market cap is refused, so the screener never sees one. */
  lemma NegativeMarketCapRefused(data: Json, rt: Runtime)
    requires data.JObj? && Get(data.fields, "market_cap").Some?
    requires Get(data.fields, "market_cap").value.JNum? && Get(data.fields, "market_cap").value.n < 0.0
    ensures ValidateMetrics(data, rt).Err?
  {
  }

  /** A news article: published at an instant, with optional site, sentiment and summary. */
  datatype NewsItem = NewsItem(
    title: string,
    url: string,
    publishedAt: Instant,
    site: Option<string>,
    sentiment: Option<string>,
    summary: Option<string>)

  /** The five ratings of the fear-and-greed index. */
  datatype Rating = ExtremeFear | Fear | Neutral | Greed | ExtremeGreed {
    function Label(): string {
      match this
      case ExtremeFear => "Extreme Fear"
      case Fear => "Fear"
      case Neutral => "Neutral"
      case Greed => "Greed"
      case ExtremeGreed => "Extreme Greed"
    }
  }

  /** Distinct ratings have distinct labels. */
  lemma LabelsDistinct(a: Rating, b: Rating)
    ensures a.Label() == b.Label() ==> a == b
  {
  }

  datatype FearGreedIndex = FearGreedIndex(
    value: int,
    rating: Rating,
    description: string,
    previousClose: Option<int>,
    previous1Week: Option<int>,
    previous1Month: Option<int>,
    previous1Year: Option<int>)

  datatype Action = Buy | Hold | Trim | Watch {
    function Value(): string {
      match this
      case Buy => "buy"
      case Hold => "hold"
      case Trim => "trim"
      case Watch => "watch"
    }
  }

  datatype Conviction = Low | Medium | High {
    function Value(): string {
      match this
      case Low => "low"
      case Medium => "medium"
      case High => "high"
    }
  }

  datatype ActionRecommendation = ActionRecommendation(ticker: string, action: Action, conviction: Conviction, rationale: string)

  /** The report the advice composer builds. */
  datatype AdviceReport = AdviceReport(
    generatedAt: Instant,
    strategySummary: string,
    portfolioOverview: string,
    fearGreedIndex: Option<FearGreedIndex>,
    holdingEvaluations: seq<ActionRecommendation>,
    shortlistOpportunities: seq<ActionRecommendation>,
    cashManagementPlan: Option<string>)
}
