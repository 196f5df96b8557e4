/** The normalisation of the fear-and-greed payload into the index record. */
module FearGreed {
  import opened Common
  import opened Text
  import opened Models

  const NoSummary: string := "No summary available."

  /** The canonical rating of a trimmed, lower-cased rating text; anything
      else is neutral. */
  function RatingOfText(raw: string): (r: Rating)
    ensures raw == "extreme fear" ==> r == ExtremeFear
    ensures raw == "fear" ==> r == Fear
    ensures raw == "greed" ==> r == Greed
    ensures raw == "extreme greed" ==> r == ExtremeGreed
    ensures raw !in {"extreme fear", "fear", "greed", "extreme greed"} ==> r == Neutral
  {
    if raw == "extreme fear" then ExtremeFear
    else if raw == "fear" then Fear
    else if raw == "neutral" then Neutral
    else if raw == "greed" then Greed
    else if raw == "extreme greed" then ExtremeGreed
    else Neutral
  }

  /** The rating of the `rating` member: its text trimmed and lower-cased
      when it is truthy text; a missing or falsy rating is "Neutral", and
      the text of any other value names no rating. */
  function RatingOf(mood: seq<(string, Json)>): Rating {
    var v := GetOr(mood, "rating", JNull);
    if Truthy(v) && v.JStr? then RatingOfText(Lower(Strip(v.s))) else Neutral
  }

  /** A rating's own label, in any case and with surrounding spaces, reads
      back as that rating. */
  lemma RatingLabelRoundTrip(x: Rating)
    ensures RatingOfText(Lower(x.Label())) == x
  {
    var l := Lower(x.Label());
    match x
    case ExtremeFear => assert l == "extreme fear";
    case Fear => assert l == "fear";
    case Neutral => assert l == "neutral";
    case Greed => assert l == "greed";
    case ExtremeGreed => assert l == "extreme greed";
  }

  /** `get_value`: None when the member is missing or null, `int(value)`
      otherwise, which fails for text that is no integer, lists and objects. */
  function IntValue(mood: seq<(string, Json)>, key: string, rt: Runtime): (r: Result<Option<int>>)
    ensures GetOr(mood, key, JNull) == JNull ==> r == Ok(None)
    ensures forall n :: GetOr(mood, key, JNull) == JNum(n) ==> r == Ok(Some(TruncToInt(n)))
    ensures GetOr(mood, key, JNull).JArr? || GetOr(mood, key, JNull).JObj? ==> r.Err?
    ensures r.Err? ==> r.error == NotInteger || r.error == NotNumber
  {
    match GetOr(mood, key, JNull)
    case JNull => Ok(None)
    case JNum(n) => Ok(Some(TruncToInt(n)))
    case JBool(b) => Ok(Some(if b then 1 else 0))
    case JStr(s) =>
      (match rt.parseInt(s)
       case None => Err(NotInteger)
       case Some(i) => Ok(Some(i)))
    case _ => Err(NotNumber)
  }

  const NotInteger: string := "ValueError: invalid literal for int()"
  const NotNumber: string := "TypeError: int() argument must be a string or a number"

  /** The members read with `get_value`, in the order the arguments are built. */
  const IntKeys: seq<string> := ["score", "previous_close", "previous_week", "previous_month", "previous_year"]

  const NotText: string := "ValidationError: description must be a string"

  /** With a truthy summary that is not text the reading fails, and it fails
      on the description exactly when every integer member converts. */
  lemma DescriptionCheckedLast(mood: seq<(string, Json)>, rt: Runtime)
    requires var summary := GetOr(mood, "summary", JNull); Truthy(summary) && !summary.JStr?
    ensures FromMood(mood, rt).Err?
    ensures FromMood(mood, rt).error == NotText <==> forall k :: k in IntKeys ==> IntValue(mood, k, rt).Ok?
  {
    var converted := IntValue(mood, "score", rt).Ok? && IntValue(mood, "previous_close", rt).Ok?
                     && IntValue(mood, "previous_week", rt).Ok? && IntValue(mood, "previous_month", rt).Ok?
                     && IntValue(mood, "previous_year", rt).Ok?;
    assert FromMood(mood, rt).error == NotText <==> converted by {
      if !converted {
        ConversionErrorIsNotText(mood, rt);
      }
    }
    assert (forall k :: k in IntKeys ==> IntValue(mood, k, rt).Ok?) <==> converted by {
      assert IntKeys[0] == "score" && IntKeys[1] == "previous_close" && IntKeys[2] == "previous_week";
      assert IntKeys[3] == "previous_month" && IntKeys[4] == "previous_year";
    }
  }

  /** When some integer member fails to convert, the reading fails with that
      conversion's error, which is not the description's. */
  lemma ConversionErrorIsNotText(mood: seq<(string, Json)>, rt: Runtime)
    requires !(IntValue(mood, "score", rt).Ok? && IntValue(mood, "previous_close", rt).Ok?
               && IntValue(mood, "previous_week", rt).Ok? && IntValue(mood, "previous_month", rt).Ok?
               && IntValue(mood, "previous_year", rt).Ok?)
    ensures FromMood(mood, rt).Err? && FromMood(mood, rt).error != NotText
  {
    MessagesDiffer();
  }

  /** The description's error is neither conversion error. */
  lemma MessagesDiffer()
    ensures NotText != NotInteger && NotText != NotNumber
  {
    assert |NotText| == 45 && |NotInteger| == 37 && |NotNumber| == 54;
  }

  /** The index read from the `fear_and_greed` object: every integer member
      is converted while the arguments are built, before the description is
      validated, so a conversion error is the one raised. */
  function FromMood(mood: seq<(string, Json)>, rt: Runtime): (r: Result<FearGreedIndex>)
    ensures r.Ok? ==>
              r.value.rating == RatingOf(mood)
              && (GetOr(mood, "score", JNull) == JNull ==> r.value.value == 0)
              && (!Truthy(GetOr(mood, "summary", JNull)) ==> r.value.description == NoSummary)
              && (GetOr(mood, "previous_close", JNull) == JNull ==> r.value.previousClose.None?)
              && (GetOr(mood, "previous_week", JNull) == JNull ==> r.value.previous1Week.None?)
              && (GetOr(mood, "previous_month", JNull) == JNull ==> r.value.previous1Month.None?)
              && (GetOr(mood, "previous_year", JNull) == JNull ==> r.value.previous1Year.None?)
    ensures IntValue(mood, "score", rt).Err? ==> r == Err(IntValue(mood, "score", rt).error)
  {
    var score :- IntValue(mood, "score", rt);
    var previousClose :- IntValue(mood, "previous_close", rt);
    var previousWeek :- IntValue(mood, "previous_week", rt);
    var previousMonth :- IntValue(mood, "previous_month", rt);
    var previousYear :- IntValue(mood, "previous_year", rt);
    var summary := GetOr(mood, "summary", JNull);
    var description :- if !Truthy(summary) then Ok(NoSummary)
                       else if summary.JStr? then Ok(summary.s)
                       else Err(NotText);
    Ok(FearGreedIndex(if score.Some? && score.value != 0 then score.value else 0, RatingOf(mood), description,
                      previousClose, previousWeek, previousMonth, previousYear))
  }

  /** `_parse_index`: the payload must be an object, and its
      `fear_and_greed` member an object when present (an empty one when
      missing); the value is the integer score or 0, the rating is
      canonical, and the description defaults to a fixed text. */
  function ParseIndex(payload: Json, rt: Runtime): (r: Result<FearGreedIndex>)
    ensures !payload.JObj? ==> r.Err?
    ensures payload.JObj? && !GetOr(payload.fields, "fear_and_greed", JObj([])).JObj? ==> r.Err?
    ensures payload.JObj? && GetOr(payload.fields, "fear_and_greed", JObj([])).JObj? ==>
              r == FromMood(GetOr(payload.fields, "fear_and_greed", JObj([])).fields, rt)
  {
    if !payload.JObj? then Err("Unexpected response structure for Fear & Greed index.")
    else
      var mood := GetOr(payload.fields, "fear_and_greed", JObj([]));
      if !mood.JObj? then Err("Missing fear_and_greed data.")
      else FromMood(mood.fields, rt)
  }

  /** A payload without the `fear_and_greed` member is the neutral reading
      of 0 with the default description and no history. */
  lemma EmptyMood(payload: Json, rt: Runtime)
    requires payload.JObj? && Get(payload.fields, "fear_and_greed").None?
    ensures ParseIndex(payload, rt) == Ok(FearGreedIndex(0, Neutral, NoSummary, None, None, None, None))
  {
  }

  /** A reading reported with a rating's own label and a whole score, and
      nothing else, reads back with that rating and score. */
  lemma LabelledReading(mood: seq<(string, Json)>, x: Rating, score: nat, rt: Runtime)
    requires GetOr(mood, "score", JNull) == JNum(score as real) && GetOr(mood, "rating", JNull) == JStr(x.Label())
    requires GetOr(mood, "summary", JNull) == JNull && GetOr(mood, "previous_close", JNull) == JNull
    requires GetOr(mood, "previous_week", JNull) == JNull && GetOr(mood, "previous_month", JNull) == JNull
    requires GetOr(mood, "previous_year", JNull) == JNull
    ensures FromMood(mood, rt) == Ok(FearGreedIndex(score, x, NoSummary, None, None, None, None))
  {
    RatingFromLabel(mood, x);
    assert TruncToInt(score as real) == score;
  }

  lemma RatingFromLabel(mood: seq<(string, Json)>, x: Rating)
    requires GetOr(mood, "rating", JNull) == JStr(x.Label())
    ensures RatingOf(mood) == x
  {
    var l := x.Label();
    assert l != [] && l[0] != ' ' && l[|l| - 1] != ' ';
    assert !IsSpace(l[0]) && !IsSpace(l[|l| - 1]);
    StripTrimmed(l);
    RatingLabelRoundTrip(x);
  }
}
