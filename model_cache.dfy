/** The process-wide, write-once model cache behind `load_model_from_s3` (main.py). */
module ModelCache {
  import opened Errors
  import opened Inference

  datatype Option<+T> = None | Some(value: T)

  /** What one call of the loader does: the model held afterwards, what the call
      returns or raises, and whether it went to the store. */
  datatype LoadEffect = LoadEffect(held: Option<Estimator>, result: Result<Estimator, string>, fetched: bool)

  /** One call of the loader on a cache that holds `held`. `outcome` is what reading
      the model object from the store and unpickling it would give; it is consulted only
      when the cache is empty. */
  function LoadStep(held: Option<Estimator>, outcome: Result<Estimator, string>): (e: LoadEffect)
    ensures held.Some? ==> !e.fetched && e.held == held && e.result == Ok(held.value)
    ensures held.None? ==> e.fetched && e.result == outcome
    ensures held.None? && outcome.Ok? ==> e.held == Some(outcome.value)
    ensures held.None? && outcome.Err? ==> e.held == None
  {
    match held
    case Some(m) => LoadEffect(held, Ok(m), false)
    case None =>
      match outcome
      case Ok(m) => LoadEffect(Some(m), outcome, true)
      case Err(_) => LoadEffect(None, outcome, true)
  }

  /** The cache after a run of calls whose store outcomes are `outcomes`. */
  function After(held: Option<Estimator>, outcomes: seq<Result<Estimator, string>>): Option<Estimator>
    decreases |outcomes|
  {
    if outcomes == [] then held
    else After(LoadStep(held, outcomes[0]).held, outcomes[1..])
  }

  /** How many store reads a run of calls performs. */
  function Fetches(held: Option<Estimator>, outcomes: seq<Result<Estimator, string>>): nat
    decreases |outcomes|
  {
    if outcomes == [] then 0
    else
      var e := LoadStep(held, outcomes[0]);
      (if e.fetched then 1 else 0) + Fetches(e.held, outcomes[1..])
  }

  /** How many store reads of a run deliver a model. */
  function Loads(held: Option<Estimator>, outcomes: seq<Result<Estimator, string>>): nat
    decreases |outcomes|
  {
    if outcomes == [] then 0
    else
      var e := LoadStep(held, outcomes[0]);
      (if e.fetched && outcomes[0].Ok? then 1 else 0) + Loads(e.held, outcomes[1..])
  }

  /** The number of failed outcomes before the first one that delivers a model. */
  function LeadingFailures(outcomes: seq<Result<Estimator, string>>): (n: nat)
    ensures n <= |outcomes|
    ensures forall i :: 0 <= i < n ==> outcomes[i].Err?
    ensures n < |outcomes| ==> outcomes[n].Ok?
  {
    if outcomes == [] || outcomes[0].Ok? then 0 else 1 + LeadingFailures(outcomes[1..])
  }

  /** A warm cache never goes back to the store, however many calls follow. */
  lemma {:induction false} WarmRunNeverFetches(m: Estimator, outcomes: seq<Result<Estimator, string>>)
    ensures Fetches(Some(m), outcomes) == 0
    ensures After(Some(m), outcomes) == Some(m)
    decreases |outcomes|
  {
    if outcomes != [] {
      WarmRunNeverFetches(m, outcomes[1..]);
    }
  }

  /** From a cold start, every failed load leaves the cache empty so the next call
      fetches again; the first success is the last fetch. */
  lemma {:induction false} ColdRunFetchesUntilFirstSuccess(outcomes: seq<Result<Estimator, string>>)
    ensures var n := LeadingFailures(outcomes);
      Fetches(None, outcomes) == (if n < |outcomes| then n + 1 else |outcomes|)
    ensures var n := LeadingFailures(outcomes);
      After(None, outcomes) == (if n < |outcomes| then Some(outcomes[n].value) else None)
    decreases |outcomes|
  {
    if outcomes != [] {
      if outcomes[0].Ok? {
        WarmRunNeverFetches(outcomes[0].value, outcomes[1..]);
      } else {
        ColdRunFetchesUntilFirstSuccess(outcomes[1..]);
      }
    }
  }

  /** At most one store read per process delivers a model, and none once one is held. */
  lemma {:induction false} AtMostOneLoad(held: Option<Estimator>, outcomes: seq<Result<Estimator, string>>)
    ensures Loads(held, outcomes) <= (if held.None? then 1 else 0)
    decreases |outcomes|
  {
    if outcomes != [] {
      AtMostOneLoad(LoadStep(held, outcomes[0]).held, outcomes[1..]);
    }
  }

  /** The global `model` of main.py together with a count of store reads. */
  class Cache {
    var model: Option<Estimator>
    var fetches: nat
    ghost var loads: nat  // store reads that delivered a model

    ghost predicate Valid()
      reads this
    {
      loads <= 1 && (model.Some? <==> loads == 1) && loads <= fetches
    }

    /** A fresh process: nothing cached, nothing read. */
    constructor ()
      ensures Valid() && model == None && fetches == 0 && loads == 0
    {
      model := None;
      fetches := 0;
      loads := 0;
    }

    /** `load_model_from_s3`: return the held model, or read and keep it. A failure is
        returned (re-raised) and leaves the cache empty. */
    method Load(outcome: Result<Estimator, string>) returns (r: Result<Estimator, string>)
      requires Valid()
      modifies this
      ensures Valid()
      ensures model == LoadStep(old(model), outcome).held
      ensures r == LoadStep(old(model), outcome).result
      ensures fetches == old(fetches) + (if LoadStep(old(model), outcome).fetched then 1 else 0)
      ensures loads == old(loads) + (if old(model).None? && outcome.Ok? then 1 else 0)
    {
      if model.Some? {
        r := Ok(model.value);
        return;
      }
      fetches := fetches + 1;
      match outcome {
        case Ok(m) =>
          model := Some(m);
          loads := loads + 1;
        case Err(_) =>
      }
      r := outcome;
    }
  }
}
