/** `handler` (main.py): load the model, read and check the request, predict, answer,
    and turn every exception into a 500 response. */
module Handler {
  import opened Json
  import opened Errors
  import opened Inference
  import opened ModelCache
  import opened Request
  import opened Reply

  /** The message of a 400 response ("all features must be positive numbers"). */
  const Rejection := "Все признаки должны быть положительными числами"
  /** The text a 500 message starts with ("error while processing the request: "). */
  const ErrorPrefix := "Ошибка при обработке запроса: "

  /** A response body before JSON encoding: the success fields, or an error message. */
  datatype Body = Predicted(answer: Answer) | Error(error: string)

  datatype Response = Response(statusCode: int, body: Body)

  /** How a request ends when no exception is raised. */
  datatype Outcome = Rejected | Answered(answer: Answer)

  /** The body of the handler's `try` block, after the model was loaded (or not):
      each step may raise, and the first exception ends the request. */
  function Serve(loaded: Result<Estimator, string>, event: map<string, Value>,
                 parse: string -> Result<Value, string>): (r: Result<Outcome, Fault>)
    ensures loaded.Err? ==> r == Err(LoadFailed(loaded.error))
    ensures loaded.Ok? && Decode(event, parse).Err? ==> r == Err(Decode(event, parse).error)
    ensures loaded.Ok? && Decode(event, parse).Ok? && ReadFeatures(Decode(event, parse).value).Err? ==>
      r == Err(ReadFeatures(Decode(event, parse).value).error)
    ensures r == Ok(Rejected) <==>
      loaded.Ok? && Decode(event, parse).Ok? && ReadFeatures(Decode(event, parse).value).Ok? &&
      Screen(ReadFeatures(Decode(event, parse).value).value).NonPositive?
    ensures (loaded.Ok? && Decode(event, parse).Ok? && ReadFeatures(Decode(event, parse).value).Ok? &&
             Screen(ReadFeatures(Decode(event, parse).value).value).Incomparable?) ==>
      r == Err(NotComparable(TypeName(Screen(ReadFeatures(Decode(event, parse).value).value).culprit)))
    ensures r.Ok? && r.value.Answered? ==>
      loaded.Ok? && Decode(event, parse).Ok? && ReadFeatures(Decode(event, parse).value).Ok? &&
      Screen(ReadFeatures(Decode(event, parse).value).value).Passed? &&
      Predict(loaded.value, Screen(ReadFeatures(Decode(event, parse).value).value).features).Ok? &&
      Build(Predict(loaded.value, Screen(ReadFeatures(Decode(event, parse).value).value).features).value)
        == Ok(r.value.answer)
    ensures (loaded.Ok? && Decode(event, parse).Ok? && ReadFeatures(Decode(event, parse).value).Ok? &&
             Screen(ReadFeatures(Decode(event, parse).value).value).Passed?) ==>
      var p := Predict(loaded.value, Screen(ReadFeatures(Decode(event, parse).value).value).features);
      r == (if p.Err? then Err(p.error)
            else if Build(p.value).Err? then Err(Build(p.value).error)
            else Ok(Answered(Build(p.value).value)))
  {
    if loaded.Err? then Err(LoadFailed(loaded.error))
    else
      var body :- Decode(event, parse);
      var values :- ReadFeatures(body);
      match Screen(values)
      case Incomparable(v) => Err(NotComparable(TypeName(v)))
      case NonPositive => Ok(Rejected)
      case Passed(features) =>
        var prediction :- Predict(loaded.value, features);
        var answer :- Build(prediction);
        Ok(Answered(answer))
  }

  /** The handler's response for a request, given what loading the model gave. It is
      total: every path ends in a response whose status matches its body. */
  function Respond(loaded: Result<Estimator, string>, event: map<string, Value>,
                   parse: string -> Result<Value, string>): (r: Response)
    ensures r.statusCode in {200, 400, 500}
    ensures r.statusCode == 200 <==> r.body.Predicted?
    ensures r.statusCode == 400 ==> r.body == Error(Rejection)
    ensures r.statusCode == 400 <==> Serve(loaded, event, parse) == Ok(Rejected)
    ensures r.statusCode == 200 ==> Serve(loaded, event, parse) == Ok(Answered(r.body.answer))
    ensures r.statusCode == 500 <==> Serve(loaded, event, parse).Err?
    ensures r.statusCode == 500 ==> r.body == Error(ErrorPrefix + Describe(Serve(loaded, event, parse).error))
  {
    match Serve(loaded, event, parse)
    case Ok(Rejected) => Response(400, Error(Rejection))
    case Ok(Answered(answer)) => Response(200, Predicted(answer))
    case Err(fault) => Response(500, Error(ErrorPrefix + Describe(fault)))
  }

  /** One invocation: `load_model_from_s3` on the process's cache, then the rest of the
      handler on what it gave. `outcome` is what the store and unpickling would give. */
  method Handle(cache: Cache, event: map<string, Value>, outcome: Result<Estimator, string>,
                parse: string -> Result<Value, string>) returns (r: Response)
    requires cache.Valid()
    modifies cache
    ensures cache.Valid()
    ensures cache.model == LoadStep(old(cache.model), outcome).held
    ensures cache.fetches == old(cache.fetches) + (if LoadStep(old(cache.model), outcome).fetched then 1 else 0)
    ensures r == Respond(LoadStep(old(cache.model), outcome).result, event, parse)
  {
    var loaded := cache.Load(outcome);
    r := Respond(loaded, event, parse);
  }

  /** A model that cannot be loaded fails the request before the body is looked at,
      whatever the request holds, with the loader's own message. */
  lemma LoadFailureAnswers500(cause: string, event: map<string, Value>, parse: string -> Result<Value, string>)
    ensures Respond(Err(cause), event, parse) == Response(500, Error(ErrorPrefix + cause))
  {
  }

  /** A 400 comes exactly from a readable request whose positivity check meets a
      value at most zero before any value it cannot compare. */
  lemma RejectionIff(m: Estimator, event: map<string, Value>, parse: string -> Result<Value, string>)
    ensures Respond(Ok(m), event, parse).statusCode == 400 <==>
      Decode(event, parse).Ok? && ReadFeatures(Decode(event, parse).value).Ok? &&
      Screen(ReadFeatures(Decode(event, parse).value).value).NonPositive?
  {
  }

  /** A rejected request never reaches the classifier: any other model gives the same
      400 response. */
  lemma RejectionIgnoresClassifier(m: Estimator, other: Estimator, event: map<string, Value>,
                                   parse: string -> Result<Value, string>)
    requires Respond(Ok(m), event, parse).statusCode == 400
    ensures Respond(Ok(other), event, parse) == Respond(Ok(m), event, parse)
  {
  }

  /** A request whose body (JSON text or the event itself) holds positive numbers for
      the first features and, for the next one, nothing or a number at most zero is
      rejected with 400, whatever the classifier. */
  lemma NonPositiveFeatureRejected(m: Estimator, event: map<string, Value>, fields: map<string, Value>,
                                   k: nat, parse: string -> Result<Value, string>)
    requires Decode(event, parse) == Ok(Object(fields)) && k < |FeatureKeys|
    requires forall i :: 0 <= i < k ==>
      FeatureKeys[i] in fields && IsNumber(fields[FeatureKeys[i]]) && Numeric(fields[FeatureKeys[i]]) > 0.0
    requires FeatureKeys[k] !in fields ||
      (IsNumber(fields[FeatureKeys[k]]) && Numeric(fields[FeatureKeys[k]]) <= 0.0)
    ensures Respond(Ok(m), event, parse) == Response(400, Error(Rejection))
  {
    ScreenStopsAtFirstOffender(ReadFeatures(Object(fields)).value, k);
  }

  /** Every 200 response reports what the classifier said for the request's four
      features: the label of its class, every probability under its label, and the
      largest probability as confidence. */
  lemma AnswerReportsPrediction(m: Estimator, event: map<string, Value>, parse: string -> Result<Value, string>)
    requires Respond(Ok(m), event, parse).statusCode == 200
    ensures Decode(event, parse).Ok? && Decode(event, parse).value.Object?
    ensures var fields := Decode(event, parse).value.fields;
      forall i :: 0 <= i < |FeatureKeys| ==> FeatureKeys[i] in fields && IsNumber(fields[FeatureKeys[i]])
    ensures var features := Screen(ReadFeatures(Decode(event, parse).value).value).features;
      |features| == 4 && forall i :: 0 <= i < 4 ==> features[i] > 0.0
    ensures var features := Screen(ReadFeatures(Decode(event, parse).value).value).features;
      var prediction := Predict(m, features);
      var answer := Respond(Ok(m), event, parse).body.answer;
      prediction.Ok? && prediction.value.classIndex < |Species| &&
      answer.species == Species[prediction.value.classIndex] &&
      answer.classIndex == prediction.value.classIndex &&
      (forall i :: 0 <= i < |prediction.value.probabilities| ==>
        answer.probabilities[Species[i]] == prediction.value.probabilities[i]) &&
      answer.confidence == MaxOf(prediction.value.probabilities)
  {
  }

  /** A request that passes the check but whose prediction cannot be answered gets a
      500 naming the exception: the classifier's own message when it raises, IndexError
      for an empty answer, a class index past the labels or more probabilities than
      labels, and ValueError for no probabilities. */
  lemma UnusablePredictionIs500(m: Estimator, event: map<string, Value>, parse: string -> Result<Value, string>)
    requires Decode(event, parse).Ok? && ReadFeatures(Decode(event, parse).value).Ok?
    requires Screen(ReadFeatures(Decode(event, parse).value).value).Passed?
    ensures var features := Screen(ReadFeatures(Decode(event, parse).value).value).features;
      var p := Predict(m, features);
      var r := Respond(Ok(m), event, parse);
      (p.Err? && p.error.ClassifierFailed? ==> r == Response(500, Error(ErrorPrefix + p.error.cause))) &&
      (p.Err? && p.error.EmptyBatch? ==>
        r == Response(500, Error(ErrorPrefix + "index 0 is out of bounds for axis 0 with size 0"))) &&
      (p.Ok? && (p.value.classIndex >= |Species| || |p.value.probabilities| > |Species|) ==>
        r == Response(500, Error(ErrorPrefix + "list index out of range"))) &&
      (p.Ok? && p.value.classIndex < |Species| && p.value.probabilities == [] ==>
        r == Response(500, Error(ErrorPrefix + "max() arg is an empty sequence")))
  {
  }

  /** A request reaching the classifier with a usable answer gets a 200. */
  lemma UsableAnswerIs200(m: Estimator, event: map<string, Value>, parse: string -> Result<Value, string>)
    requires Decode(event, parse).Ok? && ReadFeatures(Decode(event, parse).value).Ok?
    requires Screen(ReadFeatures(Decode(event, parse).value).value).Passed?
    requires var p := Predict(m, Screen(ReadFeatures(Decode(event, parse).value).value).features);
      p.Ok? && p.value.classIndex < |Species| && 0 < |p.value.probabilities| <= |Species|
    ensures Respond(Ok(m), event, parse).statusCode == 200
  {
  }

  /** A zero sepal length is rejected with 400 and no probabilities, whatever the model. */
  lemma ZeroSepalLengthRejected(m: Estimator, parse: string -> Result<Value, string>)
    ensures Respond(Ok(m), map["sepal_length" := Int(0), "sepal_width" := Float(3.5),
                                "petal_length" := Float(1.4), "petal_width" := Float(0.2)], parse)
      == Response(400, Error(Rejection))
  {
  }

  /** The setosa measurements sent as a JSON body, as text and as decoded. */
  const SetosaJson := "{\"sepal_length\": 5.1, \"sepal_width\": 3.5, \"petal_length\": 1.4, \"petal_width\": 0.2}"
  const SetosaFields := map["sepal_length" := Float(5.1), "sepal_width" := Float(3.5),
                            "petal_length" := Float(1.4), "petal_width" := Float(0.2)]
  const SetosaAnswer := Answer("setosa", 0, map["setosa" := 0.9, "versicolor" := 0.05, "virginica" := 0.05], 0.9)

  /** The setosa request decodes and passes the positivity check. */
  lemma SetosaRequestPasses(parse: string -> Result<Value, string>)
    requires parse(SetosaJson) == Ok(Object(SetosaFields))
    ensures Decode(map["body" := Str(SetosaJson)], parse) == Ok(Object(SetosaFields))
    ensures ReadFeatures(Object(SetosaFields)).Ok?
    ensures Screen(ReadFeatures(Object(SetosaFields)).value) == Passed([5.1, 3.5, 1.4, 0.2])
  {
  }

  /** The classifier answer for setosa builds the expected body. */
  lemma SetosaPredictionBuilt()
    ensures Build(Prediction(0, [0.9, 0.05, 0.05])) == Ok(SetosaAnswer)
  {
    assert MaxOf([0.9, 0.05, 0.05]) == 0.9;
    assert LabelProbabilities([0.9, 0.05, 0.05]) == SetosaAnswer.probabilities;
  }

  /** A classifier that answers class 0 with probabilities 0.9, 0.05, 0.05 for the
      measurements 5.1, 3.5, 1.4, 0.2 sent as a JSON body gives a 200 for setosa. */
  lemma SetosaAnswered(parse: string -> Result<Value, string>)
    requires parse(SetosaJson) == Ok(Object(SetosaFields))
    ensures var m := Estimator(rows => Ok([0]), rows => Ok([[0.9, 0.05, 0.05]]));
      Respond(Ok(m), map["body" := Str(SetosaJson)], parse) == Response(200, Predicted(SetosaAnswer))
  {
    var m := Estimator(rows => Ok([0]), rows => Ok([[0.9, 0.05, 0.05]]));
    SetosaRequestPasses(parse);
    SetosaPredictionBuilt();
    assert Predict(m, [5.1, 3.5, 1.4, 0.2]) == Ok(Prediction(0, [0.9, 0.05, 0.05]));
    assert Serve(Ok(m), map["body" := Str(SetosaJson)], parse) == Ok(Answered(SetosaAnswer));
  }
}
