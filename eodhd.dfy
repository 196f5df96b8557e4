/** The pure helpers of the market-data client: float coercion of provider
    values, the analyst rating picked from recommendation counts, and the
    exchange-suffix normalisation of symbols. */
module Eodhd {
  import opened Common
  import opened Text

  /** `_coerce_float`: null, "" and "None" are missing; a number is taken as
      it is, a boolean as 1.0 or 0.0, text when it parses; anything else
      (a list, an object, unparseable text) is missing rather than an error. */
  function CoerceFloat(value: Json, rt: Runtime): (r: Option<real>)
    ensures value == JNull || value == JStr("") || value == JStr("None") ==> r.None?
    ensures value.JArr? || value.JObj? ==> r.None?
    ensures forall n :: value == JNum(n) ==> r == Some(n)
    ensures forall b :: value == JBool(b) ==> r == Some(if b then 1.0 else 0.0)
    ensures forall s :: value == JStr(s) && s != "" && s != "None" ==> r == rt.parseFloat(s)
  {
    match value
    case JNull => None
    case JNum(n) => Some(n)
    case JBool(b) => Some(if b then 1.0 else 0.0)
    case JStr(s) => if s == "" || s == "None" then None else rt.parseFloat(s)
    case _ => None
  }

  /** `int(value)` of one recommendation count, or None where `int` raises a
      TypeError or ValueError (null, lists, objects, text that is no integer). */
  function Count(value: Json, rt: Runtime): Option<int> {
    match value
    case JNum(n) => Some(TruncToInt(n))
    case JBool(b) => Some(if b then 1 else 0)
    case JStr(s) => rt.parseInt(s)
    case _ => None
  }

  /** The position and count of the entry the rating loop keeps after the
      given entries: a later entry replaces the kept one only when its count
      is strictly larger, starting from no entry and a count of -1. */
  function Best(items: seq<(string, Json)>, rt: Runtime): (r: (Option<nat>, int))
    ensures r.0.Some? ==> r.0.value < |items|
  {
    if items == [] then (None, -1)
    else
      var prev := Best(items[..|items| - 1], rt);
      var count := Count(items[|items| - 1].1, rt);
      if count.Some? && count.value > prev.1 then (Some(|items| - 1), count.value) else prev
  }

  /** The kept entry has the largest count, is the first entry with that
      count, and is never one with a negative count; no entry is kept exactly
      when no entry has a count of 0 or more. */
  lemma {:induction false} BestFacts(items: seq<(string, Json)>, rt: Runtime)
    ensures Best(items, rt).0.None? <==> Best(items, rt).1 == -1
    ensures Best(items, rt).0.None? ==>
              forall i :: 0 <= i < |items| ==> Count(items[i].1, rt).None? || Count(items[i].1, rt).value < 0
    ensures forall i :: 0 <= i < |items| && Count(items[i].1, rt).Some? ==> Count(items[i].1, rt).value <= Best(items, rt).1
    ensures Best(items, rt).0.Some? ==>
              var k := Best(items, rt).0.value;
              Count(items[k].1, rt) == Some(Best(items, rt).1) && Best(items, rt).1 >= 0
              && forall j :: 0 <= j < k ==> Count(items[j].1, rt).None? || Count(items[j].1, rt).value < Best(items, rt).1
  {
    if items != [] {
      var init := items[..|items| - 1];
      BestFacts(init, rt);
      assert forall i :: 0 <= i < |init| ==> init[i] == items[i];
    }
  }

  /** What `_extract_rating` returns: None for a value that is not an
      object; otherwise the counts are read from the truthy "summary" member
      when there is one, and from the value itself otherwise; the key with the
      best count, with "_" read as a space and title-cased, unless there is no
      such key or it is empty. */
  function Rating(summary: Json, rt: Runtime): Option<string> {
    if !summary.JObj? then None
    else
      var inner := Get(summary.fields, "summary");
      var totals := if inner.Some? && Truthy(inner.value) then inner.value else summary;
      if !totals.JObj? then None
      else
        var best := Best(totals.fields, rt).0;
        if best.Some? && totals.fields[best.value].0 != [] then Some(Title(ReplaceChar(totals.fields[best.value].0, '_', ' ')))
        else None
  }

  /** `_extract_rating`, with its loop over the counts. */
  method ExtractRating(summary: Json, rt: Runtime) returns (r: Option<string>)
    ensures r == Rating(summary, rt)
  {
    if !summary.JObj? {
      return None;
    }
    var inner := Get(summary.fields, "summary");
    var totals := if inner.Some? && Truthy(inner.value) then inner.value else summary;
    if !totals.JObj? {
      return None;
    }
    var items := totals.fields;
    var bestKey: Option<string> := None;
    var bestValue := -1;
    ghost var bestIndex: Option<nat> := None;
    for i := 0 to |items|
      invariant (bestIndex, bestValue) == Best(items[..i], rt)
      invariant bestIndex.None? ==> bestKey.None?
      invariant bestIndex.Some? ==> bestIndex.value < i && bestKey == Some(items[bestIndex.value].0)
    {
      assert items[..i + 1][..i] == items[..i];
      var (key, value) := items[i];
      var count: Option<int> := match value
        case JNum(n) => Some(TruncToInt(n))
        case JBool(b) => Some(if b then 1 else 0)
        case JStr(s) => rt.parseInt(s)
        case _ => None;
      if count.Some? && count.value > bestValue {
        bestKey := Some(key);
        bestValue := count.value;
        bestIndex := Some(i);
      }
    }
    assert items[..|items|] == items;
    if bestKey.Some? && bestKey.value != [] {
      return Some(Title(ReplaceChar(bestKey.value, '_', ' ')));
    }
    return None;
  }

  /** A rating is only given for an entry whose count is at least as large as
      every other count and not negative. */
  lemma RatingIsArgmax(summary: Json, rt: Runtime)
    requires summary.JObj? && Get(summary.fields, "summary").None?
    requires Rating(summary, rt).Some?
    ensures exists k :: 0 <= k < |summary.fields| && summary.fields[k].0 != []
              && Count(summary.fields[k].1, rt).Some? && Count(summary.fields[k].1, rt).value >= 0
              && Rating(summary, rt) == Some(Title(ReplaceChar(summary.fields[k].0, '_', ' ')))
              && forall i :: 0 <= i < |summary.fields| && Count(summary.fields[i].1, rt).Some? ==>
                   Count(summary.fields[i].1, rt).value <= Count(summary.fields[k].1, rt).value
  {
    BestFacts(summary.fields, rt);
    var k := Best(summary.fields, rt).0.value;
    assert summary.fields[k].0 != [];
  }

  /** `_normalize_symbol`: trimmed, upper case, one trailing ".US" removed. */
  function NormalizeSymbol(symbol: string): (r: string)
    ensures EndsWith(Upper(Strip(symbol)), ".US") ==> r + ".US" == Upper(Strip(symbol))
    ensures !EndsWith(Upper(Strip(symbol)), ".US") ==> r == Upper(Strip(symbol))
    ensures Upper(r) == r
  {
    var s := Upper(Strip(symbol));
    if EndsWith(s, ".US") then s[..|s| - 3] else s
  }

  /** A trimmed upper-case symbol comes back from its ".US" listing. */
  lemma NormalizeListed(symbol: string)
    requires symbol == [] || !IsSpace(symbol[0])
    requires Upper(symbol) == symbol
    ensures NormalizeSymbol(symbol + ".US") == symbol
  {
    var listed := symbol + ".US";
    assert listed[|listed| - 1] == 'S';
    assert listed[0] == if symbol == [] then '.' else symbol[0];
    StripTrimmed(listed);
    assert Strip(listed) == listed;
    forall i | 0 <= i < |listed|
      ensures UpperChar(listed[i]) == listed[i]
    {
      if i < |symbol| {
        assert Upper(symbol)[i] == UpperChar(symbol[i]);
      }
    }
    assert Upper(listed) == listed;
    assert EndsWith(listed, ".US");
    assert listed[..|listed| - 3] == symbol;
  }

  /** A trimmed upper-case symbol without the suffix is already normal. */
  lemma NormalizeNormal(symbol: string)
    requires symbol != [] && !IsSpace(symbol[0]) && !IsSpace(symbol[|symbol| - 1])
    requires Upper(symbol) == symbol && !EndsWith(symbol, ".US")
    ensures NormalizeSymbol(symbol) == symbol
  {
    StripTrimmed(symbol);
  }
}
