/** Turning the classifier's answer into the fields of a successful response. */
module Reply {
  import opened Errors
  import opened Inference

  /** The species names, positionally aligned with the classifier's class indices. */
  const Species: seq<string> := ["setosa", "versicolor", "virginica"]

  /** The fields of a 200 response body. */
  datatype Answer = Answer(species: string, classIndex: nat, probabilities: map<string, real>, confidence: real)

  /** `max(probability)`: the largest probability, which is one of them. */
  function MaxOf(s: seq<real>): (m: real)
    requires |s| > 0
    ensures m in s
    ensures forall x :: x in s ==> x <= m
  {
    if |s| == 1 then s[0]
    else
      var rest := MaxOf(s[1..]);
      assert forall x :: x in s ==> x == s[0] || x in s[1..];
      if s[0] >= rest then s[0] else rest
  }

  /** The labels are pairwise distinct, so zipping them onto probabilities loses nothing. */
  lemma SpeciesDistinct()
    ensures forall i, j :: 0 <= i < j < |Species| ==> Species[i] != Species[j]
  {
  }

  /** `{species_names[i]: prob for i, prob in enumerate(probability)}` for at most as
      many probabilities as there are labels: label `i` is bound to probability `i`. */
  function LabelProbabilities(probabilities: seq<real>): (r: map<string, real>)
    requires |probabilities| <= |Species|
    ensures r.Keys == set i | 0 <= i < |probabilities| :: Species[i]
    ensures forall i :: 0 <= i < |probabilities| ==> Species[i] in r && r[Species[i]] == probabilities[i]
  {
    SpeciesDistinct();
    map i | 0 <= i < |probabilities| :: Species[i] := probabilities[i]
  }

  /** Zipped onto the labels, every probability is at most the maximum, which is the
      probability of some label. */
  lemma ConfidenceIsLargestProbability(probabilities: seq<real>)
    requires 0 < |probabilities| <= |Species|
    ensures MaxOf(probabilities) in LabelProbabilities(probabilities).Values
    ensures forall name :: name in LabelProbabilities(probabilities) ==>
      LabelProbabilities(probabilities)[name] <= MaxOf(probabilities)
  {
  }

  /** The success body for a prediction, or the exception building it raises: the class
      index must name a label, the probabilities must not outnumber the labels, and
      `max` needs at least one probability. */
  function Build(p: Prediction): (r: Result<Answer, Fault>)
    ensures r.Ok? <==> p.classIndex < |Species| && 0 < |p.probabilities| <= |Species|
    ensures !(p.classIndex < |Species| && |p.probabilities| <= |Species|) ==> r == Err(LabelIndex)
    ensures p.classIndex < |Species| && p.probabilities == [] ==> r == Err(EmptyMax)
    ensures r.Ok? ==> r.value.species == Species[p.classIndex] && r.value.classIndex == p.classIndex
    ensures r.Ok? ==> forall i :: 0 <= i < |p.probabilities| ==>
      Species[i] in r.value.probabilities && r.value.probabilities[Species[i]] == p.probabilities[i]
    ensures r.Ok? ==> r.value.probabilities.Keys == set i | 0 <= i < |p.probabilities| :: Species[i]
    ensures r.Ok? ==> r.value.confidence == MaxOf(p.probabilities)
    ensures r.Ok? ==> r.value.confidence in r.value.probabilities.Values
    ensures r.Ok? ==> forall name :: name in r.value.probabilities ==>
      r.value.probabilities[name] <= r.value.confidence
  {
    if p.classIndex >= |Species| || |p.probabilities| > |Species| then Err(LabelIndex)
    else if |p.probabilities| == 0 then Err(EmptyMax)
    else
      ConfidenceIsLargestProbability(p.probabilities);
      Ok(Answer(Species[p.classIndex], p.classIndex, LabelProbabilities(p.probabilities), MaxOf(p.probabilities)))
  }
}
