/** The shortlist pipeline: a cached list of candidate tickers, refreshed from
    the market-data provider when it is older than a number of days. */
module Shortlist {
  import opened Common
  import Sorting

  /** The cache file `shortlist.json`: absent, present with text that does
      not decode (`content == None`), or present with a decoded value. */
  class CacheFile {
    var present: bool
    var content: Option<Json>

    constructor Missing()
      ensures !present && content.None?
    {
      present := false;
      content := None;
    }

    constructor Holding(content: Option<Json>)
      ensures present && this.content == content
    {
      present := true;
      this.content := content;
    }
  }

  /** `{"tickers": [], "last_refresh": None}`. */
  const Empty: Json := JObj([("tickers", JArr([])), ("last_refresh", JNull)])

  /** What `load` returns for a cache file in the given state. */
  function CacheValue(present: bool, content: Option<Json>): (r: Json)
    ensures !present || content.None? ==> r == Empty
    ensures present && content.Some? ==> r == content.value
  {
    if present && content.Some? then content.value else Empty
  }

  /** The cache payload written by `save` and returned by `refresh`. */
  function Payload(tickers: seq<Json>, stamp: string): Json {
    JObj([("tickers", JArr(tickers)), ("last_refresh", JStr(stamp))])
  }

  const NoGet: string := "AttributeError: object has no attribute 'get'"
  const BadNegation: string := "TypeError: bad operand type for unary -"

  /** `item.get(key, 0) or 0`, the number the sort key negates: a missing or
      falsy value counts as 0, `True` as 1 and a number as itself; an item
      that is not an object, or a truthy value that is neither a number nor a
      boolean, raises. */
  function Magnitude(item: Json, key: string): (r: Result<real>)
    ensures !item.JObj? ==> r == Err(NoGet)
    ensures item.JObj? && (Get(item.fields, key).None? || !Truthy(Get(item.fields, key).value)) ==> r == Ok(0.0)
    ensures item.JObj? && Get(item.fields, key).Some? && Truthy(Get(item.fields, key).value) ==>
              match Get(item.fields, key).value
              case JNum(n) => r == Ok(n)
              case JBool(_) => r == Ok(1.0)
              case _ => r == Err(BadNegation)
  {
    if !item.JObj? then Err(NoGet)
    else
      match Get(item.fields, key)
      case None => Ok(0.0)
      case Some(v) =>
        if !Truthy(v) then Ok(0.0)
        else
          match v
          case JNum(n) => Ok(n)
          case JBool(_) => Ok(1.0)
          case _ => Err(BadNegation)
  }

  /** The exception computing one item's key `(-avg_volume, -market_cap)`
      raises, if any; the average volume is read first. */
  function KeyError(item: Json): Option<string> {
    match Magnitude(item, "avg_volume")
    case Err(e) => Some(e)
    case Ok(_) =>
      match Magnitude(item, "market_cap")
      case Err(e) => Some(e)
      case Ok(_) => None
  }

  /** The exception `sorted` raises while computing the keys, in list
      order: that of the first item whose key cannot be computed. */
  function UniverseError(universe: seq<Json>): (r: Option<string>)
    ensures r.None? <==> forall i :: 0 <= i < |universe| ==> KeyError(universe[i]).None?
    ensures r.Some? ==> exists i :: 0 <= i < |universe| && KeyError(universe[i]) == r
                                    && forall j :: 0 <= j < i ==> KeyError(universe[j]).None?
  {
    if universe == [] then None
    else
      var prior := UniverseError(universe[..|universe| - 1]);
      if prior.Some? then prior else KeyError(universe[|universe| - 1])
  }

  /** The magnitude a key was computed from, for items whose key exists. */
  function NumberOr0(item: Json, key: string): real {
    match Magnitude(item, key)
    case Ok(x) => x
    case Err(_) => 0.0
  }

  /** Zero, null, `False`, "", [] and {} all rank as no volume at all, as
      `or 0` makes them; `True` ranks as a volume of 1. */
  lemma FalsyVolumesRankAsZero(rest: seq<(string, Json)>)
    ensures NumberOr0(JObj(rest + [("avg_volume", JStr(""))]), "avg_volume") == 0.0
    ensures NumberOr0(JObj(rest + [("avg_volume", JArr([]))]), "avg_volume") == 0.0
    ensures NumberOr0(JObj(rest + [("avg_volume", JBool(false))]), "avg_volume") == 0.0
    ensures NumberOr0(JObj(rest + [("avg_volume", JBool(true))]), "avg_volume") == 1.0
    ensures KeyError(JObj(rest + [("avg_volume", JStr("high"))])) == Some(BadNegation)
  {
    assert Get(rest + [("avg_volume", JStr(""))], "avg_volume") == Some(JStr(""));
    assert Get(rest + [("avg_volume", JArr([]))], "avg_volume") == Some(JArr([]));
    assert Get(rest + [("avg_volume", JBool(false))], "avg_volume") == Some(JBool(false));
    assert Get(rest + [("avg_volume", JBool(true))], "avg_volume") == Some(JBool(true));
    assert Get(rest + [("avg_volume", JStr("high"))], "avg_volume") == Some(JStr("high"));
  }

  /** The order of `sorted(key=(-avg_volume, -market_cap))`: higher average
      volume first, then higher market cap. */
  function UniverseOrder(): (Json, Json) -> bool {
    (a: Json, b: Json) =>
      NumberOr0(a, "avg_volume") > NumberOr0(b, "avg_volume")
      || (NumberOr0(a, "avg_volume") == NumberOr0(b, "avg_volume")
          && NumberOr0(a, "market_cap") >= NumberOr0(b, "market_cap"))
  }

  lemma UniverseOrderIsPreorder()
    ensures Sorting.TotalPreorder(UniverseOrder())
  {
  }

  /** The end of the slice `s[:n]` of a list of length `len`; a negative `n`
      counts from the end. */
  function SliceEnd(len: nat, n: int): (k: nat)
    ensures k <= len
    ensures n >= 0 ==> k == if n <= len then n else len
  {
    if n >= 0 then (if n <= len then n else len)
    else if len + n >= 0 then len + n else 0
  }

  /** `sorted(universe, key=...)[:target_size]`. */
  function Selected(universe: seq<Json>, targetSize: int): seq<Json> {
    var sorted := Sorting.SortBy(universe, UniverseOrder());
    sorted[..SliceEnd(|sorted|, targetSize)]
  }

  /** The shortlist is a prefix of the universe in (volume, market cap)
      descending order, of at most `targetSize` entries, all from the universe. */
  lemma SelectedFacts(universe: seq<Json>, targetSize: int)
    requires targetSize >= 0
    ensures |Selected(universe, targetSize)| == if |universe| <= targetSize then |universe| else targetSize
    ensures Sorting.Sorted(Selected(universe, targetSize), UniverseOrder())
    ensures multiset(Selected(universe, targetSize)) <= multiset(universe)
    ensures forall i, j :: 0 <= i < |Selected(universe, targetSize)| <= j < |universe| ==>
              UniverseOrder()(Selected(universe, targetSize)[i], Sorting.SortBy(universe, UniverseOrder())[j])
  {
    var sorted := Sorting.SortBy(universe, UniverseOrder());
    UniverseOrderIsPreorder();
    Sorting.SortBySorted(universe, UniverseOrder());
    Sorting.SortedPrefix(sorted, UniverseOrder(), SliceEnd(|sorted|, targetSize));
  }

  class ShortlistPipeline {
    const targetSize: int
    const refreshDays: int
    const exchange: string
    const cache: CacheFile

    constructor (targetSize: int, refreshDays: int, exchange: string, cache: CacheFile)
      ensures this.targetSize == targetSize && this.refreshDays == refreshDays
      ensures this.exchange == exchange && this.cache == cache
    {
      this.targetSize := targetSize;
      this.refreshDays := refreshDays;
      this.exchange := exchange;
      this.cache := cache;
    }

    /** `load`: the decoded cache, or the empty shortlist when the file is
        missing or does not decode. */
    method Load() returns (r: Json)
      ensures r == CacheValue(cache.present, cache.content)
    {
      if !cache.present {
        return Empty;
      }
      match cache.content {
        case None => r := Empty;
        case Some(value) => r := value;
      }
    }

    /** `save`: the cache file holds the tickers and the time of writing. */
    method Save(tickers: seq<Json>, now: Instant, rt: Runtime)
      modifies cache
      ensures cache.present && cache.content == Some(Payload(tickers, rt.toIso(now)))
    {
      cache.present := true;
      cache.content := Some(Payload(tickers, rt.toIso(now)));
    }

    /** `needs_refresh`: when `last_refresh` is missing or falsy, or text that
        is not an ISO timestamp; otherwise when at least `refreshDays` days
        have passed. A value `get` cannot be called on, a truthy
        `last_refresh` that is not text, or a timestamp with a UTC offset
        (which the naive current time cannot be subtracted from) is the
        error Python raises. */
    function NeedsRefresh(c: Json, now: Instant, rt: Runtime): (r: Result<bool>)
      ensures c.JObj? && (Get(c.fields, "last_refresh").None? || !Truthy(Get(c.fields, "last_refresh").value))
              ==> r == Ok(true)
      ensures forall text :: c.JObj? && Get(c.fields, "last_refresh") == Some(JStr(text)) && text != [] ==>
                r == match rt.fromIso(text)
                     case None => Ok(true)
                     case Some(t) =>
                       if t.aware then Err(MixedSubtraction) else Ok(now - t.at >= refreshDays * MicrosPerDay)
      ensures !c.JObj? ==> r.Err?
    {
      if !c.JObj? then Err("AttributeError: object has no attribute 'get'")
      else
        match Get(c.fields, "last_refresh")
        case None => Ok(true)
        case Some(v) =>
          if !Truthy(v) then Ok(true)
          else if !v.JStr? then Err("TypeError: fromisoformat: argument must be str")
          else
            match rt.fromIso(v.s)
            case None => Ok(true)
            case Some(refreshedAt) =>
              var age :- Elapsed(refreshedAt, now);
              Ok(age >= refreshDays * MicrosPerDay)
    }

    /** `refresh`: the sorted, truncated universe, written to the cache and
        returned with the refresh time; a key `sorted` cannot compute raises
        before anything is written. */
    method Refresh(universe: seq<Json>, now: Instant, rt: Runtime) returns (r: Result<Json>)
      modifies cache
      ensures UniverseError(universe).Some? ==> r == Err(UniverseError(universe).value) && unchanged(cache)
      ensures UniverseError(universe).None? ==>
                && r == Ok(Payload(Selected(universe, targetSize), rt.toIso(now)))
                && cache.present && cache.content == Some(r.value)
    {
      var failure := UniverseError(universe);
      if failure.Some? {
        return Err(failure.value);
      }
      var sortedUniverse := Sorting.SortBy(universe, UniverseOrder());
      var shortlist := sortedUniverse[..SliceEnd(|sortedUniverse|, targetSize)];
      Save(shortlist, now, rt);
      r := Ok(Payload(shortlist, rt.toIso(now)));
    }

    /** `ensure_shortlist`: the cache as loaded when it is fresh, a refresh
        otherwise; the cache file changes only on a refresh that succeeds. */
    method EnsureShortlist(universe: seq<Json>, now: Instant, rt: Runtime) returns (r: Result<Json>)
      modifies cache
      ensures var loaded := CacheValue(old(cache.present), old(cache.content));
              match NeedsRefresh(loaded, now, rt)
              case Err(e) => r == Err(e) && unchanged(cache)
              case Ok(false) => r == Ok(loaded) && unchanged(cache)
              case Ok(true) =>
                if UniverseError(universe).Some? then r == Err(UniverseError(universe).value) && unchanged(cache)
                else r == Ok(Payload(Selected(universe, targetSize), rt.toIso(now)))
                     && cache.present && cache.content == Some(r.value)
    {
      var loaded := Load();
      var stale :- NeedsRefresh(loaded, now, rt);
      if stale {
        r := Refresh(universe, now, rt);
        return;
      }
      return Ok(loaded);
    }

    /** A cache just written at `saved` is stale at `now` exactly when
        `refreshDays` days have passed, given that ISO text parses back. */
    lemma SavedCacheFreshness(tickers: seq<Json>, saved: Instant, now: Instant, rt: Runtime)
      requires IsoRoundTrips(rt) && rt.toIso(saved) != []
      ensures NeedsRefresh(CacheValue(true, Some(Payload(tickers, rt.toIso(saved)))), now, rt)
              == Ok(now - saved >= refreshDays * MicrosPerDay)
    {
      var p := Payload(tickers, rt.toIso(saved));
      assert Get(p.fields, "last_refresh") == Some(JStr(rt.toIso(saved)));
      assert rt.fromIso(rt.toIso(saved)) == Some(Stamp(saved, false));
    }
  }
}
