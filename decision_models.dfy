/** The records of a thesis: the four recommendations, a narrative insight drawn
    from the news, and the thesis itself with its validated score bounds. */
module DecisionModels {
  import opened Common

  /** The recommendation of a thesis; `Value` is its wire string. */
  datatype Recommendation = BUY | HOLD | TRIM | EXIT {
    function Value(): string {
      match this
      case BUY => "buy"
      case HOLD => "hold"
      case TRIM => "trim"
      case EXIT => "exit"
    }
  }

  /** `Recommendation(value)`: the member with wire string `value`, or None
      where the enum raises ValueError. */
  function ParseRecommendation(value: string): (r: Option<Recommendation>)
    ensures r.Some? ==> r.value.Value() == value
  {
    match value
    case "buy" => Some(BUY)
    case "hold" => Some(HOLD)
    case "trim" => Some(TRIM)
    case "exit" => Some(EXIT)
    case _ => None
  }

  /** Every recommendation reads back from its wire string, so the four wire
      strings are distinct and are the only ones accepted. */
  lemma RecommendationRoundTrip(r: Recommendation)
    ensures ParseRecommendation(r.Value()) == Some(r)
  {
  }

  lemma ParseRecommendationOnlyWireStrings(value: string)
    ensures ParseRecommendation(value).Some? <==> value in {"buy", "hold", "trim", "exit"}
  {
  }

  datatype NarrativeInsight = NarrativeInsight(headline: string, sentiment: string, summary: string)

  datatype Thesis = Thesis(
    ticker: string,
    recommendation: Recommendation,
    conviction: real,
    quantitativeScore: real,
    qualitativeScore: real,
    rationale: string,
    risks: seq<string>,
    catalysts: seq<string>,
    insights: seq<NarrativeInsight>,
    suggestedAction: Option<string>)

  /** The field bounds the model class enforces. */
  predicate InUnit(x: real) { 0.0 <= x <= 1.0 }

  predicate ValidThesis(t: Thesis) {
    InUnit(t.conviction) && InUnit(t.quantitativeScore) && InUnit(t.qualitativeScore)
  }

  /** `Thesis(...)` with `suggested_action` left to its default: a validation
      error unless the three scores lie in [0, 1]. */
  function MakeThesis(ticker: string, recommendation: Recommendation, conviction: real,
                      quantitative: real, qualitative: real, rationale: string,
                      risks: seq<string>, catalysts: seq<string>,
                      insights: seq<NarrativeInsight>): (r: Result<Thesis>)
    ensures r.Ok? <==> InUnit(conviction) && InUnit(quantitative) && InUnit(qualitative)
    ensures r.Ok? ==> ValidThesis(r.value) && r.value.suggestedAction == None
    ensures r.Ok? ==> r.value.ticker == ticker && r.value.recommendation == recommendation
    ensures r.Ok? ==> r.value.conviction == conviction && r.value.risks == risks
    ensures r.Ok? ==> r.value.catalysts == catalysts && r.value.insights == insights
    ensures r.Ok? ==> r.value.quantitativeScore == quantitative && r.value.qualitativeScore == qualitative
    ensures r.Ok? ==> r.value.rationale == rationale
  {
    if InUnit(conviction) && InUnit(quantitative) && InUnit(qualitative) then
      Ok(Thesis(ticker, recommendation, conviction, quantitative, qualitative, rationale,
                risks, catalysts, insights, None))
    else Err("ValidationError: thesis scores must lie in [0, 1]")
  }

  function StringsJson(xs: seq<string>): (j: Json)
    ensures j.JArr? && |j.items| == |xs|
    ensures forall i :: 0 <= i < |xs| ==> j.items[i] == JStr(xs[i])
  {
    JArr(seq(|xs|, i requires 0 <= i < |xs| => JStr(xs[i])))
  }

  function InsightJson(i: NarrativeInsight): Json {
    JObj([("headline", JStr(i.headline)), ("sentiment", JStr(i.sentiment)), ("summary", JStr(i.summary))])
  }

  /** `thesis.dict()` as it is written to the JSONL log: fields in declaration
      order, the recommendation as its wire string. */
  function ThesisJson(t: Thesis): (j: Json)
    ensures j.JObj? && UniqueKeys(j.fields)
    ensures Get(j.fields, "ticker") == Some(JStr(t.ticker))
    ensures Get(j.fields, "recommendation") == Some(JStr(t.recommendation.Value()))
    ensures Get(j.fields, "ts") == None
  {
    var fields := [
      ("ticker", JStr(t.ticker)),
      ("recommendation", JStr(t.recommendation.Value())),
      ("conviction", JNum(t.conviction)),
      ("quantitative_score", JNum(t.quantitativeScore)),
      ("qualitative_score", JNum(t.qualitativeScore)),
      ("rationale", JStr(t.rationale)),
      ("risks", StringsJson(t.risks)),
      ("catalysts", StringsJson(t.catalysts)),
      ("insights", JArr(seq(|t.insights|, k requires 0 <= k < |t.insights| => InsightJson(t.insights[k])))),
      ("suggested_action", if t.suggestedAction.Some? then JStr(t.suggestedAction.value) else JNull)
    ];
    GetUnique(fields, 0);
    GetUnique(fields, 1);
    GetLast(fields, "ts");
    JObj(fields)
  }
}
