/** The result type threaded through the handler, and the exceptions it can meet. */
module Errors {

  datatype Result<+T, +E> = Ok(value: T) | Err(error: E) {
    predicate IsFailure() {
      Err?
    }

    function PropagateFailure<U>(): Result<U, E>
      requires Err?
    {
      Err(error)
    }

    function Extract(): T
      requires Ok?
    {
      value
    }

    function MapError<F>(f: E -> F): Result<T, F> {
      match this
      case Ok(v) => Ok(v)
      case Err(e) => Err(f(e))
    }
  }

  /** Every exception that can escape a step of the handler into its catch-all. */
  datatype Fault =
    | LoadFailed(cause: string)          // the store read or the unpickling raised
    | NotText(typeName: string)          // `json.loads` on a body that is not text: TypeError
    | BadJson(cause: string)             // `json.loads` on text that is not JSON
    | NoGet(typeName: string)            // `.get` on a decoded body that is not a dict: AttributeError
    | NotComparable(typeName: string)    // `f <= 0` on a value that is not a number: TypeError
    | ClassifierFailed(cause: string)    // `predict` or `predict_proba` of the classifier raised
    | EmptyBatch                         // `[0]` on an empty answer of the classifier: IndexError
    | LabelIndex                         // a class index past the label table: IndexError
    | EmptyMax                           // `max` of no probabilities: ValueError

  /** The text `str(e)` gives for each fault. Messages of collaborators are carried as
      they come; Python's own messages are fixed texts standing for its wording. */
  function Describe(f: Fault): (d: string)
    ensures f.LoadFailed? || f.BadJson? || f.ClassifierFailed? ==> d == f.cause
    ensures f.NotText? ==> |d| > |f.typeName| && d[|d| - |f.typeName|..] == f.typeName
    ensures f.NoGet? ==> |d| > |f.typeName| + 1 && d[1..|f.typeName| + 1] == f.typeName
    ensures f.NotComparable? ==> |d| > 41 + |f.typeName| && d[41..41 + |f.typeName|] == f.typeName
    ensures f.EmptyBatch? || f.LabelIndex? || f.EmptyMax? ==> |d| > 0
  {
    match f
    case LoadFailed(cause) => cause
    case NotText(t) => "the JSON object must be str, bytes or bytearray, not " + t
    case BadJson(cause) => cause
    case NoGet(t) => "'" + t + "' object has no attribute 'get'"
    case NotComparable(t) => "'<=' not supported between instances of '" + t + "' and 'int'"
    case ClassifierFailed(cause) => cause
    case EmptyBatch => "index 0 is out of bounds for axis 0 with size 0"
    case LabelIndex => "list index out of range"
    case EmptyMax => "max() arg is an empty sequence"
  }
}
