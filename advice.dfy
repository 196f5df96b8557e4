/** The advice composer: strategy and portfolio summaries, the cash plan and
    the assembled report, and the plain-text summary of recommendations. */
module Advice {
  import opened Common
  import opened Models
  import Text

  datatype AdviceComposer = AdviceComposer(
    strategyMarkdown: string,
    portfolio: Portfolio,
    fearGreed: Option<FearGreedIndex>,
    holdingRecs: seq<ActionRecommendation>,
    shortlistRecs: seq<ActionRecommendation>)

  const NoStrategy: string := "No strategy summary available."
  const NoHoldings: string := "No holdings recorded."
  const HoldCash: string := "Hold cash until a shortlist candidate meets valuation criteria."
  const MaintainCash: string := "Maintain cash position while monitoring shortlist opportunities."

  /** `_summarize_strategy`: the first eight lines of the stripped markdown,
      or a fallback when it is blank. */
  function SummarizeStrategy(c: AdviceComposer): (r: string)
    ensures Text.Strip(c.strategyMarkdown) == [] ==> r == NoStrategy
    ensures Text.Strip(c.strategyMarkdown) != [] ==>
              var preview := Text.SplitLines(Text.Strip(c.strategyMarkdown));
              preview != [] && r == Text.Join(preview[..if |preview| <= 8 then |preview| else 8], "\n")
  {
    var preview := Text.SplitLines(Text.Strip(c.strategyMarkdown));
    if preview != [] then Text.Join(Text.Take(preview, 8), "\n") else NoStrategy
  }

  /** One line of the holdings list. */
  function HoldingLine(h: Holding, rt: Runtime): string {
    "- " + h.ticker + ": " + rt.fixed2(h.shares) + " shares @ " + rt.fixed2(h.averageCost)
  }

  function HoldingLines(hs: seq<Holding>, rt: Runtime): (r: seq<string>)
    ensures |r| == |hs| && forall i :: 0 <= i < |hs| ==> r[i] == HoldingLine(hs[i], rt)
  {
    seq(|hs|, i requires 0 <= i < |hs| => HoldingLine(hs[i], rt))
  }

  /** `_summarize_portfolio`: currency, funds and one line per holding. */
  function SummarizePortfolio(c: AdviceComposer, rt: Runtime): (r: string)
    ensures var head := "Currency: " + c.portfolio.currency + "\nAvailable funds: " + rt.fixed2(c.portfolio.availableFunds)
                        + "\nHoldings:\n";
            Text.StartsWith(r, head)
            && (c.portfolio.holdings == [] ==> r == head + NoHoldings)
            && (c.portfolio.holdings != [] ==> r == head + Text.Join(HoldingLines(c.portfolio.holdings, rt), "\n"))
  {
    var lines := HoldingLines(c.portfolio.holdings, rt);
    var holdingsText := if lines != [] then Text.Join(lines, "\n") else NoHoldings;
    var head := "Currency: " + c.portfolio.currency + "\nAvailable funds: " + rt.fixed2(c.portfolio.availableFunds)
                + "\nHoldings:\n";
    assert (head + holdingsText)[..|head|] == head;
    head + holdingsText
  }

  predicate IsBuyTarget(rec: ActionRecommendation) {
    rec.action == Buy && rec.conviction != Low
  }

  /** The buy targets of the cash plan, in shortlist order. */
  function BuyTargets(recs: seq<ActionRecommendation>): (r: seq<ActionRecommendation>)
    ensures forall x :: x in r <==> x in recs && IsBuyTarget(x)
    ensures |r| <= |recs|
  {
    if recs == [] then []
    else
      BuyTargets(recs[..|recs| - 1])
      + (if IsBuyTarget(recs[|recs| - 1]) then [recs[|recs| - 1]] else [])
  }

  /** The buy targets of a concatenation are those of each part, in order. */
  lemma {:induction false} BuyTargetsConcat(a: seq<ActionRecommendation>, b: seq<ActionRecommendation>)
    ensures BuyTargets(a + b) == BuyTargets(a) + BuyTargets(b)
  {
    if b == [] {
      assert a + b == a;
    } else {
      assert (a + b)[..|a + b| - 1] == a + b[..|b| - 1];
      BuyTargetsConcat(a, b[..|b| - 1]);
    }
  }

  /** So the targets keep the order of the recommendations: one recommendation
      yields itself exactly when it is a buy target. */
  lemma BuyTargetsSingle(x: ActionRecommendation)
    ensures BuyTargets([x]) == if IsBuyTarget(x) then [x] else []
  {
    assert [x][..0] == [];
  }

  function Tickers(recs: seq<ActionRecommendation>): (r: seq<string>)
    ensures |r| == |recs| && forall i :: 0 <= i < |recs| ==> r[i] == recs[i].ticker
  {
    seq(|recs|, i requires 0 <= i < |recs| => recs[i].ticker)
  }

  function DeployPlan(targets: seq<ActionRecommendation>): string {
    "Consider deploying capital into " + Text.Join(Tickers(targets), ", ")
    + " using staged entries to respect risk constraints."
  }

  /** `_cash_plan`: none without funds; otherwise hold cash when the shortlist
      is empty, maintain cash when no recommendation is a buy above low
      conviction, and deploy into those buy targets otherwise. */
  function CashPlan(c: AdviceComposer): (r: Option<string>)
    ensures r.None? <==> c.portfolio.availableFunds <= 0.0
    ensures c.portfolio.availableFunds > 0.0 && c.shortlistRecs == [] ==> r == Some(HoldCash)
    ensures (c.portfolio.availableFunds > 0.0 && c.shortlistRecs != []
             && forall x :: x in c.shortlistRecs ==> !IsBuyTarget(x)) ==> r == Some(MaintainCash)
    ensures c.portfolio.availableFunds > 0.0 && (exists x :: x in c.shortlistRecs && IsBuyTarget(x)) ==>
              r == Some(DeployPlan(BuyTargets(c.shortlistRecs)))
  {
    if c.portfolio.availableFunds <= 0.0 then None
    else if c.shortlistRecs == [] then Some(HoldCash)
    else
      var targets := BuyTargets(c.shortlistRecs);
      if targets == [] then Some(MaintainCash)
      else
        assert targets[0] in targets;
        Some(DeployPlan(targets))
  }

  /** `build`: the report with `generated_at` the given instant. */
  function Build(c: AdviceComposer, now: Instant, rt: Runtime): (r: AdviceReport)
    ensures r.generatedAt == now && r.fearGreedIndex == c.fearGreed
    ensures r.holdingEvaluations == c.holdingRecs && r.shortlistOpportunities == c.shortlistRecs
    ensures r.strategySummary == SummarizeStrategy(c) && r.portfolioOverview == SummarizePortfolio(c, rt)
    ensures r.cashManagementPlan.None? <==> c.portfolio.availableFunds <= 0.0
  {
    AdviceReport(now, SummarizeStrategy(c), SummarizePortfolio(c, rt), c.fearGreed,
                 c.holdingRecs, c.shortlistRecs, CashPlan(c))
  }

  /** The arrow as the source file spells it: the three characters an UTF-8
      "→" becomes when read as Windows-1252. */
  const Arrow: string := "\U{E2}\U{2020}\U{2019}"

  function Valuation(data: Option<TickerMetrics>, rt: Runtime): string {
    if data.Some? && data.value.forwardPe.Some? && data.value.forwardPe.value != 0.0
    then "Forward P/E: " + rt.fixed1(data.value.forwardPe.value)
    else "P/E: N/A"
  }

  function Dividend(data: Option<TickerMetrics>, rt: Runtime): string {
    if data.Some? && data.value.dividendYield.Some? && data.value.dividendYield.value != 0.0
    then "Dividend Yield: " + rt.percent2(data.value.dividendYield.value)
    else "Dividend: N/A"
  }

  /** The two lines shown for one recommendation. */
  function Block(rec: ActionRecommendation, metrics: map<string, TickerMetrics>, rt: Runtime): (r: string)
    ensures Text.StartsWith(r, rec.ticker + " " + Arrow + " " + Text.Upper(rec.action.Value()))
  {
    var data := if rec.ticker in metrics then Some(metrics[rec.ticker]) else None;
    var head := rec.ticker + " " + Arrow + " " + Text.Upper(rec.action.Value());
    var r := head + " (" + rec.conviction.Value() + ") | " + Valuation(data, rt) + " | " + Dividend(data, rt)
             + "\nReasoning: " + rec.rationale;
    assert r[..|head|] == head;
    r
  }

  function Blocks(recs: seq<ActionRecommendation>, metrics: map<string, TickerMetrics>, rt: Runtime): (r: seq<string>)
    ensures |r| == |recs| && forall i :: 0 <= i < |recs| ==> r[i] == Block(recs[i], metrics, rt)
  {
    seq(|recs|, i requires 0 <= i < |recs| => Block(recs[i], metrics, rt))
  }

  /** `format_recommendation_summary`: one block per recommendation, in
      order, separated by a blank line. */
  method FormatRecommendationSummary(recs: seq<ActionRecommendation>, metrics: map<string, TickerMetrics>, rt: Runtime)
    returns (text: string)
    ensures text == Text.Join(Blocks(recs, metrics, rt), "\n\n")
  {
    var lines: seq<string> := [];
    for i := 0 to |recs|
      invariant |lines| == i
      invariant forall k :: 0 <= k < i ==> lines[k] == Block(recs[k], metrics, rt)
    {
      var rec := recs[i];
      var data := if rec.ticker in metrics then Some(metrics[rec.ticker]) else None;
      var valuation := Valuation(data, rt);
      var dividend := Dividend(data, rt);
      lines := lines + [rec.ticker + " " + Arrow + " " + Text.Upper(rec.action.Value()) + " (" + rec.conviction.Value()
                        + ") | " + valuation + " | " + dividend + "\nReasoning: " + rec.rationale];
    }
    assert lines == Blocks(recs, metrics, rt);
    text := Text.Join(lines, "\n\n");
  }

  /** The summary of one more recommendation is the earlier summary, a blank
      line and the new block. */
  lemma SummaryAppend(recs: seq<ActionRecommendation>, rec: ActionRecommendation,
                      metrics: map<string, TickerMetrics>, rt: Runtime)
    requires recs != []
    ensures Text.Join(Blocks(recs + [rec], metrics, rt), "\n\n")
         == Text.Join(Blocks(recs, metrics, rt), "\n\n") + "\n\n" + Block(rec, metrics, rt)
  {
    assert Blocks(recs + [rec], metrics, rt) == Blocks(recs, metrics, rt) + [Block(rec, metrics, rt)];
    JoinAppend(Blocks(recs, metrics, rt), Block(rec, metrics, rt), "\n\n");
  }

  lemma {:induction false} JoinAppend(parts: seq<string>, last: string, sep: string)
    requires parts != []
    ensures Text.Join(parts + [last], sep) == Text.Join(parts, sep) + sep + last
  {
    if |parts| == 1 {
      assert Text.Join([last], sep) == last;
      assert (parts + [last])[1..] == [last];
    } else {
      assert (parts + [last])[1..] == parts[1..] + [last];
      JoinAppend(parts[1..], last, sep);
    }
  }
}
