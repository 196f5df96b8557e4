/** The portfolio analyser: a recommendation per holding from its metrics,
    and buy-or-watch opportunities among shortlisted tickers not yet held. */
module PortfolioService {
  import opened Common
  import opened Models
  import Text

  /** `x and x > limit` for an optional float: present, non-zero and above. */
  predicate TruthyAbove(x: Option<real>, limit: real) {
    x.Some? && x.value != 0.0 && x.value > limit
  }

  /** `x and x >= limit`. */
  predicate TruthyAtLeast(x: Option<real>, limit: real) {
    x.Some? && x.value != 0.0 && x.value >= limit
  }

  const NoMetricsRationale: string := "No fundamental metrics available; consider refreshing data."
  const ExpensiveNote: string := "Forward P/E above conservative threshold (>32)."
  const NoDividendNote: string := "Dividend data unavailable."
  const LargeCapNote: string := "Large-cap exposure aligns with risk constraints."
  const CheckCapNote: string := "Validate whether market capitalization meets scale preference."
  const HighBetaNote: string := "Elevated beta suggests higher volatility than desired."
  const NoDataNote: string := "No notable data available."

  function DividendNote(dividendYield: real, rt: Runtime): string {
    "Offers a dividend yield of " + rt.percent2(dividendYield) + ", supporting income goals."
  }

  /** The notes a holding's rationale is made of, in the order they are added. */
  function HoldingNotes(m: TickerMetrics, rt: Runtime): (parts: seq<string>)
    ensures parts != [] && forall i :: 0 <= i < |parts| ==> parts[i] != []
  {
    (if TruthyAbove(m.forwardPe, 32.0) then [ExpensiveNote] else [])
    + (if TruthyAtLeast(m.dividendYield, 0.015) then [DividendNote(m.dividendYield.value, rt)]
       else if m.dividendYield.None? then [NoDividendNote] else [])
    + [if TruthyAbove(m.marketCap, 150_000_000_000.0) then LargeCapNote else CheckCapNote]
    + (if TruthyAbove(m.beta, 1.4) then [HighBetaNote] else [])
  }

  /** What `_evaluate_single` recommends for a holding. */
  function HoldingAdvice(h: Holding, metrics: Option<TickerMetrics>, rt: Runtime): (r: ActionRecommendation)
    ensures r.ticker == h.ticker && r.rationale != []
    ensures metrics.None? ==> r.action == Watch && r.conviction == Low
    ensures metrics.Some? ==> r.action != Buy && r.action != Watch
    ensures metrics.Some? && TruthyAbove(metrics.value.forwardPe, 32.0) ==> r.action == Trim && r.conviction == Medium
    ensures metrics.Some? && !TruthyAbove(metrics.value.forwardPe, 32.0) ==>
              r.action == Hold && (r.conviction == Low <==> TruthyAbove(metrics.value.beta, 1.4))
    ensures r.conviction != High
  {
    match metrics
    case None => ActionRecommendation(h.ticker, Watch, Low, NoMetricsRationale)
    case Some(m) =>
      var expensive := TruthyAbove(m.forwardPe, 32.0);
      var volatile := TruthyAbove(m.beta, 1.4);
      var parts := HoldingNotes(m, rt);
      JoinNonEmpty(parts);
      ActionRecommendation(h.ticker, if expensive then Trim else Hold,
                           if !expensive && volatile then Low else Medium, Text.Join(parts, " "))
  }

  /** Joining a non-empty list whose first element is non-empty gives non-empty text. */
  lemma {:induction false} JoinNonEmpty(parts: seq<string>)
    requires forall i :: 0 <= i < |parts| ==> parts[i] != []
    requires parts != []
    ensures Text.Join(parts, " ") != []
  {
    if |parts| > 1 {
      assert Text.Join(parts, " ") == parts[0] + " " + Text.Join(parts[1..], " ");
    }
  }

  /** The shortlisted tickers an opportunity is reported for, in shortlist order:
      those not held and with metrics. */
  function Kept(shortlist: seq<string>, held: set<string>, metrics: map<string, TickerMetrics>): (r: seq<string>)
    ensures forall k :: 0 <= k < |r| ==> r[k] in metrics
  {
    if shortlist == [] then []
    else
      var last := shortlist[|shortlist| - 1];
      Kept(shortlist[..|shortlist| - 1], held, metrics)
      + (if last !in held && last in metrics then [last] else [])
  }

  /** Exactly the shortlisted tickers that are not held and have metrics are kept. */
  lemma {:induction false} KeptMembers(shortlist: seq<string>, held: set<string>, metrics: map<string, TickerMetrics>)
    ensures forall t :: t in Kept(shortlist, held, metrics) <==> t in shortlist && t !in held && t in metrics
    ensures |Kept(shortlist, held, metrics)| <= |shortlist|
  {
    if shortlist != [] {
      var init := shortlist[..|shortlist| - 1];
      KeptMembers(init, held, metrics);
      assert shortlist == init + [shortlist[|shortlist| - 1]];
    }
  }

  const ValuationNote: string := "Reasonable forward valuation relative to quality."
  const YieldNote: string := "Attractive dividend yield exceeding 2%."
  const MegaCapNote: string := "Mega-cap profile aligns with defensive bias."
  const WeakSignalNote: string := "Insufficient data to issue a strong signal."

  /** The notes of an opportunity's rationale; never empty. */
  function OpportunityNotes(data: TickerMetrics): (parts: seq<string>)
    ensures parts != [] && forall i :: 0 <= i < |parts| ==> parts[i] != []
  {
    var parts :=
      (if data.forwardPe.Some? && data.forwardPe.value != 0.0 && data.forwardPe.value <= 28.0 then [ValuationNote] else [])
      + (if TruthyAtLeast(data.dividendYield, 0.02) then [YieldNote] else [])
      + (if TruthyAtLeast(data.marketCap, 200_000_000_000.0) then [MegaCapNote] else [])
      + (match data.summary case Some(s) => if s != [] then ["Summary: " + s] else [] case None => []);
    if parts == [] then [WeakSignalNote] else parts
  }

  /** One opportunity: buy with medium conviction iff the forward P/E is
      present, non-zero and at most 28; otherwise watch with low conviction. */
  function Opportunity(ticker: string, data: TickerMetrics): (r: ActionRecommendation)
    ensures r.ticker == ticker && r.rationale != []
    ensures r.action == Buy <==> data.forwardPe.Some? && data.forwardPe.value != 0.0 && data.forwardPe.value <= 28.0
    ensures r.action == Buy ==> r.conviction == Medium
    ensures r.action != Buy ==> r.action == Watch && r.conviction == Low
  {
    var cheap := data.forwardPe.Some? && data.forwardPe.value != 0.0 && data.forwardPe.value <= 28.0;
    var parts := OpportunityNotes(data);
    JoinNonEmpty(parts);
    ActionRecommendation(ticker, if cheap then Buy else Watch, if cheap then Medium else Low, Text.Join(parts, " "))
  }

  function HeldTickers(p: Portfolio): (r: set<string>)
    ensures forall t :: t in r <==> exists i :: 0 <= i < |p.holdings| && p.holdings[i].ticker == t
  {
    set i | 0 <= i < |p.holdings| :: p.holdings[i].ticker
  }

  function MetricsFor(metrics: map<string, TickerMetrics>, ticker: string): Option<TickerMetrics> {
    if ticker in metrics then Some(metrics[ticker]) else None
  }

  class PortfolioAnalyzer {
    const portfolio: Portfolio

    constructor (portfolio: Portfolio)
      ensures this.portfolio == portfolio
    {
      this.portfolio := portfolio;
    }

    /** `_evaluate_single`, with the action and conviction reassigned as
        each rule fires. */
    method EvaluateSingle(h: Holding, metrics: Option<TickerMetrics>, rt: Runtime) returns (r: ActionRecommendation)
      ensures r == HoldingAdvice(h, metrics, rt)
    {
      if metrics.None? {
        return ActionRecommendation(h.ticker, Watch, Low, NoMetricsRationale);
      }
      var m := metrics.value;
      var parts: seq<string> := [];
      var action := Hold;
      var conviction := Medium;
      if m.forwardPe.Some? && m.forwardPe.value != 0.0 && m.forwardPe.value > 32.0 {
        action := Trim;
        conviction := Medium;
        parts := parts + [ExpensiveNote];
      }
      if m.dividendYield.Some? && m.dividendYield.value != 0.0 && m.dividendYield.value >= 0.015 {
        parts := parts + [DividendNote(m.dividendYield.value, rt)];
      } else if m.dividendYield.None? {
        parts := parts + [NoDividendNote];
      }
      if m.marketCap.Some? && m.marketCap.value != 0.0 && m.marketCap.value > 150_000_000_000.0 {
        parts := parts + [LargeCapNote];
      } else {
        parts := parts + [CheckCapNote];
      }
      if m.beta.Some? && m.beta.value != 0.0 && m.beta.value > 1.4 {
        parts := parts + [HighBetaNote];
        if action != Trim {
          action := Hold;
          conviction := Low;
        }
      }
      if parts == [] {
        parts := parts + [NoDataNote];
      }
      assert parts == HoldingNotes(m, rt);
      r := ActionRecommendation(h.ticker, action, conviction, Text.Join(parts, " "));
    }

    /** `evaluate_holdings`: one recommendation per holding, in holding order. */
    method EvaluateHoldings(metrics: map<string, TickerMetrics>, rt: Runtime) returns (suggestions: seq<ActionRecommendation>)
      ensures |suggestions| == |portfolio.holdings|
      ensures forall i :: 0 <= i < |suggestions| ==>
                suggestions[i] == HoldingAdvice(portfolio.holdings[i], MetricsFor(metrics, portfolio.holdings[i].ticker), rt)
    {
      suggestions := [];
      for i := 0 to |portfolio.holdings|
        invariant |suggestions| == i
        invariant forall k :: 0 <= k < i ==>
                    suggestions[k] == HoldingAdvice(portfolio.holdings[k], MetricsFor(metrics, portfolio.holdings[k].ticker), rt)
      {
        var holding := portfolio.holdings[i];
        var suggestion := EvaluateSingle(holding, MetricsFor(metrics, holding.ticker), rt);
        suggestions := suggestions + [suggestion];
      }
    }

    /** `spot_opportunities`: for each shortlisted ticker that is not held and
        has metrics, in shortlist order, its opportunity. */
    method SpotOpportunities(shortlist: seq<string>, metrics: map<string, TickerMetrics>)
      returns (opportunities: seq<ActionRecommendation>)
      ensures var kept := Kept(shortlist, HeldTickers(portfolio), metrics);
              |opportunities| == |kept|
              && forall k :: 0 <= k < |kept| ==> opportunities[k] == Opportunity(kept[k], metrics[kept[k]])
    {
      opportunities := [];
      var held := HeldTickers(portfolio);
      ghost var kept: seq<string> := [];
      for i := 0 to |shortlist|
        invariant kept == Kept(shortlist[..i], held, metrics)
        invariant |opportunities| == |kept|
        invariant forall k :: 0 <= k < |kept| ==> opportunities[k] == Opportunity(kept[k], metrics[kept[k]])
      {
        var ticker := shortlist[i];
        assert shortlist[..i + 1][..i] == shortlist[..i];
        assert shortlist[..i + 1][i] == ticker;
        assert Kept(shortlist[..i + 1], held, metrics)
            == kept + (if ticker !in held && ticker in metrics then [ticker] else []);
        if ticker in held {
          continue;
        }
        if ticker !in metrics {
          continue;
        }
        opportunities := opportunities + [Opportunity(ticker, metrics[ticker])];
        kept := kept + [ticker];
      }
      assert shortlist[..|shortlist|] == shortlist;
    }
  }
}
