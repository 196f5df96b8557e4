/** The records of the analysis workflow: a company snapshot with its
    fundamentals, and an investment decision. */
module AnalysisModels {
  import opened Common

  datatype CompanySnapshot = CompanySnapshot(
    ticker: string,
    name: Option<string>,
    fundamentals: map<string, real>,
    quote: map<string, real>,
    qualitativeNotes: seq<string>)
  {
    /** A fundamentals entry read with `get`: None when absent. */
    function Fundamental(key: string): (r: Option<real>)
      ensures r.Some? <==> key in fundamentals
      ensures r.Some? ==> r.value == fundamentals[key]
    {
      if key in fundamentals then Some(fundamentals[key]) else None
    }

    /** `dividend_yield`. */
    function DividendYield(): Option<real> {
      Fundamental("dividend_yield")
    }

    /** `pe_ratio`. */
    function PeRatio(): Option<real> {
      Fundamental("pe_ratio")
    }
  }

  /** A snapshot with only its ticker given: no name, empty fundamentals,
      quote and notes. */
  function Snapshot(ticker: string): (r: CompanySnapshot)
    ensures r.ticker == ticker && r.name.None?
    ensures r.DividendYield().None? && r.PeRatio().None?
    ensures |r.fundamentals| == 0 && |r.quote| == 0 && r.qualitativeNotes == []
  {
    CompanySnapshot(ticker, None, map[], map[], [])
  }

  /** Every field is required. */
  datatype InvestmentDecision = InvestmentDecision(ticker: string, action: string, weightDelta: real, rationale: string)
}
