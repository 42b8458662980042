/** Reading the request: the body, the four measurements, and the positivity check. */
module Request {
  import opened Json
  import opened Errors

  /** The feature keys, in the order the classifier was trained on. */
  const FeatureKeys: seq<string> := ["sepal_length", "sepal_width", "petal_length", "petal_width"]

  /** The request body: `event['body']` decoded as JSON when the key is present,
      otherwise the event itself. `parse` is the JSON decoder, which may reject the text. */
  function Decode(event: map<string, Value>, parse: string -> Result<Value, string>): (r: Result<Value, Fault>)
    ensures "body" !in event ==> r == Ok(Object(event))
    ensures "body" in event && event["body"].Str? && parse(event["body"].s).Ok? ==>
      r == Ok(parse(event["body"].s).value)
    ensures "body" in event && event["body"].Str? && parse(event["body"].s).Err? ==>
      r == Err(BadJson(parse(event["body"].s).error))
    ensures "body" in event && !event["body"].Str? ==> r == Err(NotText(TypeName(event["body"])))
  {
    if "body" !in event then Ok(Object(event))
    else match event["body"]
      case Str(text) =>
        (match parse(text)
         case Ok(v) => Ok(v)
         case Err(msg) => Err(BadJson(msg)))
      case other => Err(NotText(TypeName(other)))
  }

  /** `body.get(key, 0)`. */
  function Field(fields: map<string, Value>, key: string): Value {
    if key in fields then fields[key] else Int(0)
  }

  /** The four raw feature values of a decoded body, in `FeatureKeys` order; a body that
      is not a dict has no `get`. */
  function ReadFeatures(body: Value): (r: Result<seq<Value>, Fault>)
    ensures r.Ok? <==> body.Object?
    ensures r.Ok? ==> |r.value| == |FeatureKeys| == 4
    ensures r.Ok? ==> forall i :: 0 <= i < 4 ==>
      r.value[i] == (if FeatureKeys[i] in body.fields then body.fields[FeatureKeys[i]] else Int(0))
    ensures r.Err? ==> r.error == NoGet(TypeName(body))
  {
    match body
    case Object(fields) => Ok(seq(4, i requires 0 <= i < 4 => Field(fields, FeatureKeys[i])))
    case _ => Err(NoGet(TypeName(body)))
  }

  /** Every value before index `k` is a number greater than zero. */
  ghost predicate PositiveUpTo(values: seq<Value>, k: int)
    requires 0 <= k <= |values|
  {
    forall i :: 0 <= i < k ==> IsNumber(values[i]) && Numeric(values[i]) > 0.0
  }

  /** How `any(f <= 0 for f in features)` ends: no value is at most zero (the numbers
      go on to the classifier), a value at most zero is met, or a comparison raises. */
  datatype Screening = Passed(features: seq<real>) | NonPositive | Incomparable(culprit: Value)

  /** The positivity check, left to right and stopping at the first value that decides it. */
  function Screen(values: seq<Value>): (r: Screening)
    ensures r.Passed? <==> PositiveUpTo(values, |values|)
    ensures r.Passed? ==> |r.features| == |values|
    ensures r.Passed? ==> forall i :: 0 <= i < |values| ==> r.features[i] == Numeric(values[i])
    ensures r.NonPositive? ==>
      (exists k :: 0 <= k < |values| && PositiveUpTo(values, k) &&
         IsNumber(values[k]) && Numeric(values[k]) <= 0.0)
    ensures r.Incomparable? ==>
      (exists k :: 0 <= k < |values| && PositiveUpTo(values, k) &&
         !IsNumber(values[k]) && r.culprit == values[k])
  {
    if values == [] then Passed([])
    else if !IsNumber(values[0]) then Incomparable(values[0])
    else if Numeric(values[0]) <= 0.0 then NonPositive
    else
      var rest := Screen(values[1..]);
      match rest
      case Passed(fs) => Passed([Numeric(values[0])] + fs)
      case NonPositive =>
        ghost var k :| 0 <= k < |values| - 1 && PositiveUpTo(values[1..], k) &&
          IsNumber(values[1..][k]) && Numeric(values[1..][k]) <= 0.0;
        assert PositiveUpTo(values, k + 1);
        NonPositive
      case Incomparable(v) =>
        ghost var k :| 0 <= k < |values| - 1 && PositiveUpTo(values[1..], k) &&
          !IsNumber(values[1..][k]) && v == values[1..][k];
        assert PositiveUpTo(values, k + 1);
        rest
  }

  /** The first value that is not a positive number decides the outcome: rejection when
      it is a number, a comparison failure naming it otherwise. */
  lemma ScreenStopsAtFirstOffender(values: seq<Value>, k: nat)
    requires k < |values| && PositiveUpTo(values, k)
    requires !(IsNumber(values[k]) && Numeric(values[k]) > 0.0)
    ensures IsNumber(values[k]) ==> Screen(values) == NonPositive
    ensures !IsNumber(values[k]) ==> Screen(values) == Incomparable(values[k])
  {
  }
}
