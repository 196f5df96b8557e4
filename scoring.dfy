/** The fundamental analyser: conservative filtering of company snapshots,
    ranking by dividend yield against P/E, and a capped list of actions. */
module Scoring {
  import opened Common
  import opened AnalysisModels
  import Sorting

  /** A snapshot meets the baseline thresholds: a yield of at least the
      minimum and a P/E of at most the maximum, both present. */
  predicate Passes(c: CompanySnapshot, minDividendYield: real, maxPeRatio: real) {
    c.DividendYield().Some? && c.DividendYield().value >= minDividendYield
    && c.PeRatio().Some? && c.PeRatio().value <= maxPeRatio
  }

  /** The passing snapshots, in input order. */
  function Filtered(companies: seq<CompanySnapshot>, minDividendYield: real, maxPeRatio: real): seq<CompanySnapshot> {
    if companies == [] then []
    else
      var last := companies[|companies| - 1];
      Filtered(companies[..|companies| - 1], minDividendYield, maxPeRatio)
      + (if Passes(last, minDividendYield, maxPeRatio) then [last] else [])
  }

  /** Exactly the passing snapshots are kept, none twice more than given. */
  lemma {:induction false} FilteredMembers(companies: seq<CompanySnapshot>, minDividendYield: real, maxPeRatio: real)
    ensures forall c :: c in Filtered(companies, minDividendYield, maxPeRatio) <==>
                          c in companies && Passes(c, minDividendYield, maxPeRatio)
    ensures multiset(Filtered(companies, minDividendYield, maxPeRatio)) <= multiset(companies)
  {
    if companies != [] {
      var init := companies[..|companies| - 1];
      FilteredMembers(init, minDividendYield, maxPeRatio);
      assert companies == init + [companies[|companies| - 1]];
    }
  }

  /** The ranking score: yield less P/E over max(max P/E, 1), a missing or
      zero yield counting as 0 and a missing or zero P/E as the maximum. */
  function Score(c: CompanySnapshot, maxPeRatio: real): (score: real)
    ensures c.DividendYield().None? && c.PeRatio().None? ==> score == -maxPeRatio / (if maxPeRatio >= 1.0 then maxPeRatio else 1.0)
  {
    var dividend := if c.DividendYield().Some? && c.DividendYield().value != 0.0 then c.DividendYield().value else 0.0;
    var pe := if c.PeRatio().Some? && c.PeRatio().value != 0.0 then c.PeRatio().value else maxPeRatio;
    dividend - pe / MaxReal(maxPeRatio, 1.0)
  }

  function ScoreKey(maxPeRatio: real): CompanySnapshot -> real {
    c => Score(c, maxPeRatio)
  }

  /** A (score, company) pair as the ranking builds it. */
  function Scored(maxPeRatio: real): CompanySnapshot -> (real, CompanySnapshot) {
    c => (Score(c, maxPeRatio), c)
  }

  /** The order of `sort(key=score, reverse=True)` on the pairs. */
  function PairOrder(): ((real, CompanySnapshot), (real, CompanySnapshot)) -> bool {
    Sorting.DescendingBy((p: (real, CompanySnapshot)) => p.0)
  }

  /** The ranking: a stable sort by descending score. */
  function Ranked(companies: seq<CompanySnapshot>, maxPeRatio: real): seq<CompanySnapshot> {
    Sorting.SortBy(companies, Sorting.DescendingBy(ScoreKey(maxPeRatio)))
  }

  /** The ranking is a permutation of its input, non-increasing in score, and
      keeps input order among equal scores. */
  lemma RankedFacts(companies: seq<CompanySnapshot>, maxPeRatio: real, y: CompanySnapshot)
    ensures multiset(Ranked(companies, maxPeRatio)) == multiset(companies)
    ensures forall i, j :: 0 <= i < j < |companies| ==>
              Score(Ranked(companies, maxPeRatio)[i], maxPeRatio) >= Score(Ranked(companies, maxPeRatio)[j], maxPeRatio)
    ensures Sorting.TiesOf(Ranked(companies, maxPeRatio), Sorting.DescendingBy(ScoreKey(maxPeRatio)), y)
            == Sorting.TiesOf(companies, Sorting.DescendingBy(ScoreKey(maxPeRatio)), y)
  {
    var le := Sorting.DescendingBy(ScoreKey(maxPeRatio));
    Sorting.DescendingIsPreorder(ScoreKey(maxPeRatio));
    Sorting.SortBySorted(companies, le);
    Sorting.SortByStable(companies, le, y);
    var r := Ranked(companies, maxPeRatio);
    forall i, j | 0 <= i < j < |companies|
      ensures Score(r[i], maxPeRatio) >= Score(r[j], maxPeRatio)
    {
      assert le(r[i], r[j]);
    }
  }

  /** Sorting the (score, company) pairs by score pairs each ranked company
      with its score. */
  lemma RankedPairs(companies: seq<CompanySnapshot>, maxPeRatio: real)
    ensures Sorting.SortBy(Sorting.Map(companies, Scored(maxPeRatio)), PairOrder())
            == Sorting.Map(Ranked(companies, maxPeRatio), Scored(maxPeRatio))
  {
    Sorting.SortByMap(companies, Scored(maxPeRatio), Sorting.DescendingBy(ScoreKey(maxPeRatio)), PairOrder());
  }

  /** Dropping the scores from the pairs gives the companies back. */
  lemma Companies(companies: seq<CompanySnapshot>, maxPeRatio: real)
    ensures var pairs := Sorting.Map(companies, Scored(maxPeRatio));
            seq(|pairs|, i requires 0 <= i < |pairs| => pairs[i].1) == companies
  {
  }

  const HeuristicRationale: string := "Initial heuristic decision; replace with Claude-guided reasoning."

  /** The action for one ranked company: buy 5% when there is no position, or
      one of size zero or less; otherwise reassess the holding. */
  function Decision(c: CompanySnapshot, positions: map<string, real>): (d: InvestmentDecision)
    ensures d.ticker == c.ticker && d.rationale == HeuristicRationale
    ensures d.action == "buy" <==> c.ticker !in positions || positions[c.ticker] <= 0.0
    ensures d.action == "buy" ==> d.weightDelta == 0.05
    ensures d.action != "buy" ==> d.action == "reassess_hold" && d.weightDelta == 0.0
  {
    var size := if c.ticker in positions then positions[c.ticker] else 0.0;
    if size <= 0.0 then InvestmentDecision(c.ticker, "buy", 0.05, HeuristicRationale)
    else InvestmentDecision(c.ticker, "reassess_hold", 0.0, HeuristicRationale)
  }

  /** The number of actions proposed for `n` ranked companies: the cap is
      checked after each append, so at least one when there is a company. */
  function CappedLength(n: nat, maxPositions: int): (k: nat)
    ensures k <= n && (n > 0 ==> k >= 1)
    ensures maxPositions >= 1 ==> k == if n <= maxPositions then n else maxPositions
    ensures maxPositions < 1 && n > 0 ==> k == 1
  {
    if n == 0 then 0
    else if maxPositions <= 1 then 1
    else if n <= maxPositions then n else maxPositions
  }

  class FundamentalAnalyzer {
    const minDividendYield: real
    const maxPeRatio: real

    constructor (minDividendYield: real := 0.02, maxPeRatio: real := 30.0)
      ensures this.minDividendYield == minDividendYield && this.maxPeRatio == maxPeRatio
    {
      this.minDividendYield := minDividendYield;
      this.maxPeRatio := maxPeRatio;
    }

    /** `filter_candidates`. */
    method FilterCandidates(companies: seq<CompanySnapshot>) returns (results: seq<CompanySnapshot>)
      ensures results == Filtered(companies, minDividendYield, maxPeRatio)
    {
      results := [];
      for i := 0 to |companies|
        invariant results == Filtered(companies[..i], minDividendYield, maxPeRatio)
      {
        var company := companies[i];
        assert companies[..i + 1][..i] == companies[..i];
        var dividend := company.DividendYield();
        var peRatio := company.PeRatio();
        if dividend.None? || dividend.value < minDividendYield {
          continue;
        }
        if peRatio.None? || peRatio.value > maxPeRatio {
          continue;
        }
        results := results + [company];
      }
      assert companies[..|companies|] == companies;
    }

    /** `rank`: scores each company, sorts the pairs by score from high to
        low, and returns the companies in that order. */
    method Rank(companies: seq<CompanySnapshot>) returns (ranked: seq<CompanySnapshot>)
      ensures ranked == Ranked(companies, maxPeRatio)
    {
      var scored: seq<(real, CompanySnapshot)> := [];
      for i := 0 to |companies|
        invariant |scored| == i
        invariant forall k :: 0 <= k < i ==> scored[k] == Scored(maxPeRatio)(companies[k])
      {
        var company := companies[i];
        var dividend := if company.DividendYield().Some? && company.DividendYield().value != 0.0
                        then company.DividendYield().value else 0.0;
        var peRatio := if company.PeRatio().Some? && company.PeRatio().value != 0.0
                       then company.PeRatio().value else maxPeRatio;
        var score := dividend - peRatio / MaxReal(maxPeRatio, 1.0);
        assert (score, company) == Scored(maxPeRatio)(company);
        scored := scored + [(score, company)];
      }
      assert scored == Sorting.Map(companies, Scored(maxPeRatio));
      var sorted := Sorting.SortBy(scored, PairOrder());
      RankedPairs(companies, maxPeRatio);
      ranked := seq(|sorted|, i requires 0 <= i < |sorted| => sorted[i].1);
      Companies(Ranked(companies, maxPeRatio), maxPeRatio);
    }

    /** `propose_actions`: one decision per ranked company, in ranked order,
        stopping once the list holds `maxPositions` decisions. */
    method ProposeActions(ranked: seq<CompanySnapshot>, positions: map<string, real>, maxPositions: int := 15)
      returns (decisions: seq<InvestmentDecision>)
      ensures |decisions| == CappedLength(|ranked|, maxPositions)
      ensures forall k :: 0 <= k < |decisions| ==> decisions[k] == Decision(ranked[k], positions)
    {
      decisions := [];
      var i := 0;
      while i < |ranked|
        invariant 0 <= i <= |ranked| && |decisions| == i
        invariant i > 0 ==> i < maxPositions
        invariant forall k :: 0 <= k < i ==> decisions[k] == Decision(ranked[k], positions)
      {
        var company := ranked[i];
        var positionSize := if company.ticker in positions then positions[company.ticker] else 0.0;
        var action: string;
        var weightDelta: real;
        if positionSize <= 0.0 {
          action := "buy";
          weightDelta := 0.05;
        } else {
          action := "reassess_hold";
          weightDelta := 0.0;
        }
        decisions := decisions + [InvestmentDecision(company.ticker, action, weightDelta, HeuristicRationale)];
        i := i + 1;
        if |decisions| >= maxPositions {
          break;
        }
      }
    }
  }
}
