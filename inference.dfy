/** The deserialised classifier, seen only through the two operations the handler uses. */
module Inference {
  import opened Errors

  /** A fitted classifier. Both operations take a batch of feature rows and answer one
      row per input row (a class index; the per-class probabilities in class order), or
      raise with a message. */
  datatype Estimator = Estimator(
    predictRows: seq<seq<real>> -> Result<seq<nat>, string>,
    probaRows: seq<seq<real>> -> Result<seq<seq<real>>, string>)

  /** What `predict` hands back for one feature vector. */
  datatype Prediction = Prediction(classIndex: nat, probabilities: seq<real>)

  /** `predict` (main.py): wrap the features as a one-row batch, ask the classifier for
      the class and then the probabilities, and take row 0 of each answer. */
  function Predict(model: Estimator, features: seq<real>): (r: Result<Prediction, Fault>)
    ensures model.predictRows([features]).Err? ==>
      r == Err(ClassifierFailed(model.predictRows([features]).error))
    ensures model.predictRows([features]).Ok? && |model.predictRows([features]).value| == 0 ==>
      r == Err(EmptyBatch)
    ensures r.Ok? <==>
      model.predictRows([features]).Ok? && |model.predictRows([features]).value| > 0 &&
      model.probaRows([features]).Ok? && |model.probaRows([features]).value| > 0
    ensures r.Ok? ==> r.value.classIndex == model.predictRows([features]).value[0]
    ensures r.Ok? ==> r.value.probabilities == model.probaRows([features]).value[0]
    ensures (model.predictRows([features]).Ok? && |model.predictRows([features]).value| > 0 &&
             model.probaRows([features]).Err?) ==> r == Err(ClassifierFailed(model.probaRows([features]).error))
    ensures (model.predictRows([features]).Ok? && |model.predictRows([features]).value| > 0 &&
             model.probaRows([features]).Ok? && |model.probaRows([features]).value| == 0) ==> r == Err(EmptyBatch)
  {
    var classes :- model.predictRows([features]).MapError(cause => ClassifierFailed(cause));
    if |classes| == 0 then Err(EmptyBatch)
    else
      var probabilities :- model.probaRows([features]).MapError(cause => ClassifierFailed(cause));
      if |probabilities| == 0 then Err(EmptyBatch)
      else Ok(Prediction(classes[0], probabilities[0]))
  }
}
