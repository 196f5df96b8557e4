/** The ticker screener: a list of reasons why a ticker does not fit the
    long-term, low-risk strategy; a ticker is a candidate when there is none. */
module Screener {
  import opened Common
  import opened Models
  import opened Text

  /** `_normalize_keywords`: every non-blank keyword, trimmed and lower-cased. */
  function NormalizeKeywords(values: seq<string>): (r: set<string>)
    ensures forall v :: v in values && Strip(v) != [] ==> Lower(Strip(v)) in r
    ensures forall k :: k in r ==> exists v :: v in values && Strip(v) != [] && k == Lower(Strip(v))
  {
    set v | v in values && Strip(v) != [] :: Lower(Strip(v))
  }

  /** Lower-casing keeps a character a space or not a space, and is idempotent. */
  lemma LowerCharFacts(c: char)
    ensures IsSpace(LowerChar(c)) <==> IsSpace(c)
    ensures LowerChar(LowerChar(c)) == LowerChar(c)
  {
  }

  /** Non-blank, trimmed and lower case. */
  predicate CleanKeyword(k: string) {
    k != [] && !IsSpace(k[0]) && !IsSpace(k[|k| - 1]) && Lower(k) == k
  }

  /** A normalised keyword is non-blank, trimmed and already lower case. */
  lemma {:induction false} NormalizedKeyword(v: string)
    requires Strip(v) != []
    ensures CleanKeyword(Lower(Strip(v)))
  {
    var t := Strip(v);
    var k := Lower(t);
    LowerCharFacts(t[0]);
    LowerCharFacts(t[|t| - 1]);
    forall i | 0 <= i < |k|
      ensures Lower(k)[i] == k[i]
    {
      LowerCharFacts(t[i]);
    }
  }

  /** Every keyword in the cache is non-blank, trimmed and lower case. */
  lemma NormalizedKeywordsClean(values: seq<string>)
    ensures forall k :: k in NormalizeKeywords(values) ==> CleanKeyword(k)
  {
    forall k | k in NormalizeKeywords(values)
      ensures CleanKeyword(k)
    {
      var v :| v in values && Strip(v) != [] && k == Lower(Strip(v));
      NormalizedKeyword(v);
    }
  }

  const DefaultExcluded: seq<string> := ["tobacco", "weapon", "arms", "gambling", "defense"]

  /** `filter(None, parts)` over strings: the non-empty ones, in order. */
  function NonEmpty(parts: seq<string>): (r: seq<string>)
    ensures forall p :: p in r <==> p in parts && p != []
    ensures |r| <= |parts|
  {
    if parts == [] then []
    else (if parts[0] == [] then [] else [parts[0]]) + NonEmpty(parts[1..])
  }

  /** The lower-cased text the excluded keywords are looked up in: sector,
      industry and the first 200 characters of the summary, those present
      joined by one space. */
  function SectorText(m: TickerMetrics): string {
    Lower(Join(NonEmpty([m.sector.GetOr(""), m.industry.GetOr(""), Take(m.summary.GetOr(""), 200)]), " "))
  }

  predicate TooSmall(m: TickerMetrics, minMarketCap: real) {
    m.marketCap.None? || m.marketCap.value < minMarketCap
  }

  predicate Above(x: Option<real>, limit: real) {
    x.Some? && x.value > limit
  }

  predicate LacksDividend(m: TickerMetrics) {
    m.dividendYield.None? || m.dividendYield.value <= 0.0
  }

  /** A reason naming an excluded sector keyword. */
  predicate IsSectorReason(s: string) {
    StartsWith(s, "excluded_sector:")
  }

  /** Every reason a threshold check can give. */
  const ThresholdLabels: seq<string> := ["market_cap_too_small", "pe_ratio_too_high", "forward_pe_too_high",
                                         "missing_pe_ratio", "beta_too_high", "requires_dividend"]

  /** One conditional `reasons.append(reason)`. */
  function Flag(condition: bool, reason: string): (r: seq<string>)
    ensures forall x :: x in r <==> condition && x == reason
    ensures |r| <= 1
  {
    if condition then [reason] else []
  }

  /** The threshold reasons, in the order they are appended. */
  function ThresholdReasons(m: TickerMetrics, minMarketCap: real, maxPe: real, maxForwardPe: real,
                            maxBeta: real, requireDividend: bool): (r: seq<string>)
    ensures "market_cap_too_small" in r <==> TooSmall(m, minMarketCap)
    ensures "pe_ratio_too_high" in r <==> Above(m.peRatio, maxPe)
    ensures "forward_pe_too_high" in r <==> Above(m.forwardPe, maxForwardPe)
    ensures "missing_pe_ratio" in r <==> m.peRatio.None? && m.forwardPe.None?
    ensures "beta_too_high" in r <==> Above(m.beta, maxBeta)
    ensures "requires_dividend" in r <==> requireDividend && LacksDividend(m)
    ensures forall x :: x in r ==> x in ThresholdLabels
  {
    LabelsDistinct();
    SizeAndValuationReasons(m, minMarketCap, maxPe, maxForwardPe) + RiskReasons(m, maxBeta, requireDividend)
  }

  /** The first four checks: market cap and the two P/E ratios. */
  function SizeAndValuationReasons(m: TickerMetrics, minMarketCap: real, maxPe: real, maxForwardPe: real)
    : (r: seq<string>)
    ensures "market_cap_too_small" in r <==> TooSmall(m, minMarketCap)
    ensures "pe_ratio_too_high" in r <==> Above(m.peRatio, maxPe)
    ensures "forward_pe_too_high" in r <==> Above(m.forwardPe, maxForwardPe)
    ensures "missing_pe_ratio" in r <==> m.peRatio.None? && m.forwardPe.None?
    ensures forall x :: x in r ==> x in ["market_cap_too_small", "pe_ratio_too_high", "forward_pe_too_high",
                                         "missing_pe_ratio"]
  {
    LabelsDistinct();
    Flag(TooSmall(m, minMarketCap), "market_cap_too_small")
    + Flag(Above(m.peRatio, maxPe), "pe_ratio_too_high")
    + Flag(Above(m.forwardPe, maxForwardPe), "forward_pe_too_high")
    + Flag(m.peRatio.None? && m.forwardPe.None?, "missing_pe_ratio")
  }

  /** The last two checks: beta and the dividend. */
  function RiskReasons(m: TickerMetrics, maxBeta: real, requireDividend: bool): (r: seq<string>)
    ensures "beta_too_high" in r <==> Above(m.beta, maxBeta)
    ensures "requires_dividend" in r <==> requireDividend && LacksDividend(m)
    ensures forall x :: x in r ==> x in ["beta_too_high", "requires_dividend"]
  {
    LabelsDistinct();
    Flag(Above(m.beta, maxBeta), "beta_too_high") + Flag(requireDividend && LacksDividend(m), "requires_dividend")
  }

  /** Appending two parts one after the other is appending them together. */
  lemma Regroup(front: seq<string>, a: seq<string>, b: seq<string>)
    ensures front + a + b == front + (a + b)
  {
  }

  /** The threshold labels are pairwise different. */
  lemma LabelsDistinct()
    ensures "market_cap_too_small" !in ["pe_ratio_too_high", "forward_pe_too_high", "missing_pe_ratio",
                                        "beta_too_high", "requires_dividend"]
    ensures "pe_ratio_too_high" !in ["forward_pe_too_high", "missing_pe_ratio", "beta_too_high", "requires_dividend"]
    ensures "forward_pe_too_high" !in ["missing_pe_ratio", "beta_too_high", "requires_dividend"]
    ensures "missing_pe_ratio" !in ["beta_too_high", "requires_dividend"]
    ensures "beta_too_high" != "requires_dividend"
  {
    assert "pe_ratio_too_high"[0] != "requires_dividend"[0];
  }

  /** A string not starting with 'e' is not a sector reason. */
  lemma NotSectorReason(s: string)
    requires s != [] && s[0] != 'e'
    ensures !IsSectorReason(s)
  {
  }

  /** No threshold reason names an excluded sector. */
  lemma ThresholdsNotSector(r: seq<string>)
    requires forall x :: x in r ==> x in ThresholdLabels
    ensures forall i :: 0 <= i < |r| ==> !IsSectorReason(r[i])
  {
    forall i | 0 <= i < |r|
      ensures !IsSectorReason(r[i])
    {
      assert r[i] in ThresholdLabels;
      NotSectorReason(r[i]);
    }
  }

  /** The screener's thresholds and its normalised excluded keywords. */
  class TickerScreener {
    const minMarketCap: real
    const maxPeRatio: real
    const maxForwardPe: real
    const maxBeta: real
    const requireDividend: bool
    const excludedKeywords: seq<string>
    const excludedCache: set<string>

    /** The dataclass constructor with `__post_init__`, defaults as in the source. */
    constructor (minMarketCap: real := 10_000_000_000.0, maxPeRatio: real := 35.0, maxForwardPe: real := 35.0,
                 maxBeta: real := 1.4, requireDividend: bool := true, excludedKeywords: seq<string> := DefaultExcluded)
      ensures this.minMarketCap == minMarketCap && this.maxPeRatio == maxPeRatio
      ensures this.maxForwardPe == maxForwardPe && this.maxBeta == maxBeta
      ensures this.requireDividend == requireDividend && this.excludedKeywords == excludedKeywords
      ensures excludedCache == NormalizeKeywords(excludedKeywords)
    {
      this.minMarketCap := minMarketCap;
      this.maxPeRatio := maxPeRatio;
      this.maxForwardPe := maxForwardPe;
      this.maxBeta := maxBeta;
      this.requireDividend := requireDividend;
      this.excludedKeywords := excludedKeywords;
      this.excludedCache := NormalizeKeywords(excludedKeywords);
    }

    function Thresholds(m: TickerMetrics): seq<string> {
      ThresholdReasons(m, minMarketCap, maxPeRatio, maxForwardPe, maxBeta, requireDividend)
    }

    /** The threshold checks of `evaluate`, appended in order. */
    method CheckThresholds(m: TickerMetrics) returns (reasons: seq<string>)
      ensures reasons == Thresholds(m)
    {
      reasons := [];
      if m.marketCap.None? || m.marketCap.value < minMarketCap {
        reasons := reasons + ["market_cap_too_small"];
      }
      ghost var expected := Flag(TooSmall(m, minMarketCap), "market_cap_too_small");
      assert reasons == expected;
      if m.peRatio.Some? && m.peRatio.value > maxPeRatio {
        reasons := reasons + ["pe_ratio_too_high"];
      }
      expected := expected + Flag(Above(m.peRatio, maxPeRatio), "pe_ratio_too_high");
      assert reasons == expected;
      if m.forwardPe.Some? && m.forwardPe.value > maxForwardPe {
        reasons := reasons + ["forward_pe_too_high"];
      }
      expected := expected + Flag(Above(m.forwardPe, maxForwardPe), "forward_pe_too_high");
      assert reasons == expected;
      if m.peRatio.None? && m.forwardPe.None? {
        reasons := reasons + ["missing_pe_ratio"];
      }
      expected := expected + Flag(m.peRatio.None? && m.forwardPe.None?, "missing_pe_ratio");
      assert reasons == expected;
      ghost var front := expected;
      if m.beta.Some? && m.beta.value > maxBeta {
        reasons := reasons + ["beta_too_high"];
      }
      expected := expected + Flag(Above(m.beta, maxBeta), "beta_too_high");
      assert reasons == expected;
      if requireDividend {
        if m.dividendYield.None? || m.dividendYield.value <= 0.0 {
          reasons := reasons + ["requires_dividend"];
        }
      }
      Regroup(front, Flag(Above(m.beta, maxBeta), "beta_too_high"),
              Flag(requireDividend && LacksDividend(m), "requires_dividend"));
      expected := expected + Flag(requireDividend && LacksDividend(m), "requires_dividend");
      assert reasons == expected;
    }

    /** The keyword loop of `evaluate`: the first cached keyword, in the set's
        iteration order, found in the sector text, or None. */
    method FindExcluded(tokens: string) returns (found: Option<string>)
      ensures found.None? ==> forall k :: k in excludedCache && k != [] ==> !Contains(tokens, k)
      ensures found.Some? ==> found.value in excludedCache && found.value != [] && Contains(tokens, found.value)
    {
      var remaining := excludedCache;
      while remaining != {}
        invariant remaining <= excludedCache
        invariant forall k :: k in excludedCache - remaining && k != [] ==> !Contains(tokens, k)
        decreases |remaining|
      {
        var keyword :| keyword in remaining;
        remaining := remaining - {keyword};
        if keyword != [] && Contains(tokens, keyword) {
          return Some(keyword);
        }
      }
      return None;
    }

    /** `evaluate`: the threshold reasons, then at most one excluded keyword
        found in the sector text (which one, when several match, depends on
        the set's iteration order); a candidate iff there is no reason. */
    method Evaluate(metricsData: Json, rt: Runtime) returns (candidate: bool, reasons: seq<string>)
      ensures candidate <==> reasons == []
      ensures ValidateMetrics(metricsData, rt).Err? ==>
                !candidate && reasons == ["invalid_metrics:" + ValidateMetrics(metricsData, rt).error]
      ensures ValidateMetrics(metricsData, rt).Ok? ==>
                var m := ValidateMetrics(metricsData, rt).value;
                (reasons == Thresholds(m) && forall k :: k in excludedCache && k != [] ==> !Contains(SectorText(m), k))
                || (exists k :: k in excludedCache && k != [] && Contains(SectorText(m), k)
                                && reasons == Thresholds(m) + ["excluded_sector:" + k])
      ensures forall i, j :: 0 <= i < j < |reasons| ==> !(IsSectorReason(reasons[i]) && IsSectorReason(reasons[j]))
    {
      var validated := ValidateMetrics(metricsData, rt);
      if validated.Err? {
        return false, ["invalid_metrics:" + validated.error];
      }
      var m := validated.value;
      reasons := CheckThresholds(m);
      ThresholdsNotSector(reasons);
      var found := FindExcluded(SectorText(m));
      if found.Some? {
        reasons := reasons + ["excluded_sector:" + found.value];
      }
      candidate := |reasons| == 0;
    }
  }
}
