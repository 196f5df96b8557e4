/** Values shared by every part of the model: optional values, error results,
    JSON values as the standard library decodes them, instants, and the library
    routines (number parsing, ISO-8601 dates, float formatting) that the model
    takes as parameters instead of re-implementing. */
module Common {

  /** Python's `None` or a value. */
  datatype Option<+T> = None | Some(value: T) {
    function GetOr(default: T): T {
      if Some? then value else default
    }
  }

  /** The value an operation returns, or the text of the exception it raises. */
  datatype Result<+T> = Ok(value: T) | Err(error: string) {
    predicate IsFailure() { Err? }
    function PropagateFailure<U>(): Result<U>
      requires Err?
    {
      Err(error)
    }
    function Extract(): T
      requires Ok?
    {
      value
    }
  }

  /** A point in time, counted in microseconds (the resolution of Python's datetime). */
  type Instant = int

  const MicrosPerSecond: int := 1_000_000
  const MicrosPerDay: int := 86_400_000_000

  /** `(later - earlier).days`: whole days, rounded towards minus infinity as timedelta does. */
  function DaysBetween(earlier: Instant, later: Instant): int {
    (later - earlier) / MicrosPerDay
  }

  /** What `datetime.fromisoformat` returns: the instant the text names, and
      whether the text carries a UTC offset, which makes the datetime aware. */
  datatype Stamp = Stamp(at: Instant, aware: bool)

  const MixedSubtraction: string := "TypeError: can't subtract offset-naive and offset-aware datetimes"

  /** `now - stamp` for a naive `now` (what `utcnow()` returns): the difference
      in microseconds, or the TypeError an aware stamp raises. */
  function Elapsed(stamp: Stamp, now: Instant): (r: Result<int>)
    ensures r.Err? <==> stamp.aware
    ensures r.Ok? ==> r.value == now - stamp.at
  {
    if stamp.aware then Err(MixedSubtraction) else Ok(now - stamp.at)
  }

  /** A decoded JSON value. Objects keep their keys in document order. */
  datatype Json =
    | JNull
    | JBool(b: bool)
    | JNum(n: real)
    | JStr(s: string)
    | JArr(items: seq<Json>)
    | JObj(fields: seq<(string, Json)>)

  /** Python truthiness of a decoded JSON value. */
  predicate Truthy(j: Json) {
    match j
    case JNull => false
    case JBool(b) => b
    case JNum(n) => n != 0.0
    case JStr(s) => s != ""
    case JArr(items) => items != []
    case JObj(fields) => fields != []
  }

  /** The keys of a JSON object are distinct, as in a Python dict. */
  predicate UniqueKeys(fields: seq<(string, Json)>) {
    forall i, j :: 0 <= i < j < |fields| ==> fields[i].0 != fields[j].0
  }

  /** `obj.get(key)` on a decoded JSON object: the last binding of `key` wins, as
      `json.loads` keeps the last of duplicated keys. */
  function Get(fields: seq<(string, Json)>, key: string): Option<Json>
  {
    if fields == [] then None
    else if fields[|fields| - 1].0 == key then Some(fields[|fields| - 1].1)
    else Get(fields[..|fields| - 1], key)
  }

  /** `get` finds a key exactly when some binding has it, and then returns the
      value of the last such binding. */
  lemma {:induction false} GetLast(fields: seq<(string, Json)>, key: string)
    ensures Get(fields, key).Some? <==> exists i :: 0 <= i < |fields| && fields[i].0 == key
    ensures Get(fields, key).Some? ==> exists i :: (0 <= i < |fields| && fields[i] == (key, Get(fields, key).value)
                                     && forall j :: i < j < |fields| ==> fields[j].0 != key)
  {
    if fields != [] && fields[|fields| - 1].0 != key {
      var init := fields[..|fields| - 1];
      GetLast(init, key);
      if Get(init, key).Some? {
        var i :| 0 <= i < |init| && init[i] == (key, Get(init, key).value)
                 && forall j :: i < j < |init| ==> init[j].0 != key;
        assert fields[i] == init[i];
      }
      assert forall i :: 0 <= i < |init| ==> fields[i] == init[i];
    }
  }

  /** In an object with distinct keys, a binding present is the one `get` finds. */
  lemma GetBound(fields: seq<(string, Json)>, key: string, v: Json)
    requires UniqueKeys(fields)
    requires exists i :: 0 <= i < |fields| && fields[i] == (key, v)
    ensures Get(fields, key) == Some(v)
  {
    var i :| 0 <= i < |fields| && fields[i] == (key, v);
    GetUnique(fields, i);
  }

  /** In an object with distinct keys, `get` finds the one binding of the key. */
  lemma {:induction false} GetUnique(fields: seq<(string, Json)>, i: nat)
    requires UniqueKeys(fields) && i < |fields|
    ensures Get(fields, fields[i].0) == Some(fields[i].1)
  {
    if i < |fields| - 1 {
      GetUnique(fields[..|fields| - 1], i);
    }
  }

  /** `obj.get(key, default)`. */
  function GetOr(fields: seq<(string, Json)>, key: string, default: Json): Json {
    Get(fields, key).GetOr(default)
  }

  /** `int(x)` of a float: truncation towards zero. */
  function TruncToInt(x: real): (r: int)
    ensures -1.0 < x - r as real < 1.0
    ensures x >= 0.0 ==> 0 <= r && r as real <= x
    ensures x < 0.0 ==> r <= 0 && x <= r as real
  {
    if x >= 0.0 then x.Floor else -((-x).Floor)
  }

  function MinReal(a: real, b: real): real { if a <= b then a else b }
  function MaxReal(a: real, b: real): real { if a >= b then a else b }
  function AbsReal(a: real): real { if a >= 0.0 then a else -a }

  /** `max(0.0, min(x, 1.0))`. */
  function Clamp01(x: real): (r: real)
    ensures 0.0 <= r <= 1.0
    ensures 0.0 <= x <= 1.0 ==> r == x
  {
    MaxReal(0.0, MinReal(x, 1.0))
  }

  /** Library routines the model does not re-implement: text-to-number parsing,
      ISO-8601 conversion of instants, and fixed-point text of floats. */
  datatype Runtime = Runtime(
    parseFloat: string -> Option<real>,  // float(text), None when it raises ValueError
    parseInt: string -> Option<int>,     // int(text), None when it raises ValueError
    fromIso: string -> Option<Stamp>,    // datetime.fromisoformat(text), None when it raises ValueError
    toIso: Instant -> string,            // datetime.isoformat()
    fixed1: real -> string,              // f"{x:.1f}"
    fixed2: real -> string,              // f"{x:.2f}"
    percent2: real -> string             // f"{x:.2%}"
  )

  /** What datetime promises: parsing what isoformat wrote for a naive
      datetime gives the same naive instant back. */
  ghost predicate IsoRoundTrips(rt: Runtime) {
    forall t: Instant {:trigger rt.toIso(t)} :: rt.fromIso(rt.toIso(t)) == Some(Stamp(t, false))
  }
}
